# PermissionSync in Dafny

PermissionSync brings a user's assignments on a target system (GLPI) in line with what a Permission Provider
says they should be. This project models the four places where it keeps state that others can change under it,
and proves what each of them keeps.

* **The trusted-key cache** (`TokenVerification`, `KeyCache`, `KeyCacheTightness`). Any number of authentication and
  readiness attempts share one snapshot of keys, one refresh mutex, a saturating generation counter and a clock. A step
  is one guarded section, one fetch result, one install, one drop or one clock tick. Every step appends to a history,
  and the central theorem is that every event of every run is explained by the history before it.
* **The GLPI reconciliation** (`Normalize`, `Plan`, `PlanTheorems`, `Exchanges`, `Pagination`, `Resolution`, `Users`,
  `References`, `Mutating`, `Converging`, `Adapter`, `AdapterTheorems`, `Synchronizer`). Every reply of the target is
  an arbitrary function of the whole exchange so far, so other reconciliations may interfere between any two requests.
  The same methods are proved again, in further clauses of their contracts, against a target nobody else changes
  (`QuietTarget`, `QuietChanges`, `Convergence`): there a run converges, and every later run changes nothing. Such a
  target exists for every table (`QuietTarget.QuietTargetExists`).
* **Admission, lifecycle and shutdown** (`Semaphores`, `Lifecycle`, `Server`, `ServerProofs`, `ServerTheorems`,
  `ServerReadiness`, `ServerShutdown`, `ServerTightness`). Requests, connections, readiness probes, the accept loop with
  its backoff, the signal task and the shutdown phases interleave over three semaphores, three gauges, two flags and a
  notifier. Every read or update of one of these is a step of its own, so a notification may land between any two
  branches that a waiting task polls, and a gauge may lag behind its permit. Any request may be dropped wherever it
  waits.
* **Two loops** (`BodyCollection`, `CnameClosure`): bounded body collection with its copying cost, and the aliases of
  one DNS response.

`History` holds the append-only histories, `Runs` what runs are put together from, `Sorting` stable sorting, `Wrappers`
options, results and word size.

What the model takes for granted:

* The clock never goes back and a raised cancellation is never withdrawn (`Exchanges.Steady`; the cache and server
  machines only ever move them forward).
* A released semaphore permit goes to queued waiters first, in order, and an acquisition that is dropped passes on a
  permit already handed to it.
* Reserving exactly allocates exactly.
* Signature checking, the shape of claims and the scope grammar are functions of token and key, otherwise
  unconstrained; the wall clock is read once, inside claim validation, and may be unreadable.
* A search may list more than the exact matches but never drops one (used only for the quiet target).
* The final read of a reconciliation is several requests, so under interference success is a statement about the rows
  as they were read.

Points where a reading of the code mattered:

* Planning does not need desired pairs to be distinct. Two selectors that resolve to the same pair make the state
  never canonical, and such a run fails its final verification; `PlanTheorems.EmptyExactlyWhenCanonical` covers this.
* The length check and the two additions after each page of a search can never fail; they appear as proved assertions.
* Resolved references cover every desired assignment, so looking them up again after the first read cannot fail.
* Coalescing of refreshes rests on the generation having changed, which a saturated counter no longer shows.
  `KeyCacheTightness.CoalescingIsExact` proves that it holds for exactly the generations below 2^64 - 1.
* Shutdown is polled ahead of permits, timers and the listener, but a notification may land after that poll. A
  connection accepted or a permit won after shutdown was announced is therefore possible; only the second lifecycle
  read of admission keeps such a request out.
* Readiness is documented as false from the start of shutdown, because a probe polls shutdown ahead of its evaluation
  (src/runtime/transport.rs:468-480). From the store that begins shutdown on, a probe may still answer ready if it is
  past its look at shutdown in the current poll, or waits and has not been notified yet;
  `ServerReadiness.ReadinessInShutdownIsExact` proves that exactly these may.
* The waiter gauge goes up after the slot is taken, so a refusal may happen while that gauge is below the limit;
  `ServerTheorems.RefusedOnlyWhenFull` is about the slots.

## Model

| member | source | states |
|---|---|---|
| `TokenVerification.JudgeCandidates` | crates/permissionsync-auth/src/authenticator.rs:322-432 | the candidate loop returns exactly the declarative judgement of the token against the key set, and nothing once a context check failed; it makes at most two checks a candidate and four more |
| `TokenVerification.ValidateClaims` | crates/permissionsync-auth/src/claims.rs:49-77 | claim validation makes up to four context checks; it decides exactly the declarative verdict if all it made held, and nothing if one failed |
| `KeyCache.EveryRunIsExplained` | crates/permissionsync-auth/src/authenticator.rs:104-278 | in every interleaving of attempts, installs, drops, cancellation and clock ticks, every event is justified by the history before it |
| `KeyCache.AcceptanceIsTimely` | crates/permissionsync-auth/src/authenticator.rs:322-432 | a token is accepted only by a guarded read of the current snapshot, by one of its keys, at an age within freshness, or within freshness plus stale-if-error after this same attempt's refresh found the source unavailable |
| `KeyCache.OnlyAuthenticTokensAreJudged` | crates/permissionsync-auth/src/claims.rs:49-77 | in every run, a caller is accepted or forbidden only if a key of the snapshot the decision saw verified the token and its claims are in force, with the scope deciding between the two; an unreadable wall clock is blamed only for an authentic, well-formed token, so it never masks an invalid credential |
| `KeyCache.OutagesDoNotConfuseVerdicts` | crates/permissionsync-auth/src/authenticator.rs:121-278 | an unknown key is rejected only against an install newer than the one first observed, and a signature proved invalid never becomes an outage when the refresh fails |
| `KeyCache.GenerationsNeverDecrease` | crates/permissionsync-auth/src/authenticator.rs:285-493 | in every run, of two guarded reads, whether they classify the cache or decide, the later never sees an older generation, and of two decisions the later never sees older keys |
| `KeyCache.RotationIsFinal` | crates/permissionsync-auth/src/authenticator.rs:322-432 | in every run, once no snapshot from some moment on holds a verifying key, no later decision finds the token valid and no attempt that decides after that ends authenticated, whatever it had observed before |
| `KeyCache.InstallsAccumulate` | crates/permissionsync-auth/src/authenticator.rs:476-493 | the generation counts installs, saturating, and acquisition times never go back |
| `KeyCache.OnlyInstallsChangeTheCache` | crates/permissionsync-auth/src/authenticator.rs:441-493 | the cache is always the newest install, made only by the attempt whose fetch was in flight; failed, cancelled and dropped refreshes leave it alone |
| `KeyCache.FetchesAreRare` | crates/permissionsync-auth/src/authenticator.rs:441-472 | at most one fetch an attempt and one at a time, none while a newer generation is fresh, and none for readiness unless the cache was observed unusable |
| `KeyCache.RefreshesCoalesce` | crates/permissionsync-auth/src/authenticator.rs:441-513 | in every run, two attempts that observed the same generation below the maximum both install only if the second began its fetch after the first install, when that was no longer fresh |
| `KeyCacheTightness.CoalescingIsExact` | crates/permissionsync-auth/src/authenticator.rs:441-513 | for a generation the counter can show, no run has two attempts that observed it both install with the second fetch begun while the first install is fresh, if and only if the generation is below 2^64 - 1 |
| `KeyCache.ObservedOnce` | crates/permissionsync-auth/src/authenticator.rs:285-310 | an attempt observes the cache once for control flow and keeps what it observed; the second look of a readiness attempt, after its refresh, is an event of its own and changes nothing of this |
| `Normalization.Normalize` | crates/permissionsync-adapter-glpi/src/payload.rs:54-80 | fails exactly on an empty selector; otherwise yields each selector pair once, in order, recursive exactly when any of its entries is |
| `Normalization.NormalFormIgnoresOrder` | crates/permissionsync-adapter-glpi/src/payload.rs:63-79 | payloads with the same entries, in whatever order and number, have the same normal form |
| `Normalization.NormalFormIsStable` | crates/permissionsync-adapter-glpi/src/payload.rs:63-79 | normalizing a normal form changes nothing |
| `Planning.GroupRows` | crates/permissionsync-adapter-glpi/src/plan.rs:70-79 | groups the rows by pair, each group complete and in order of row id |
| `Planning.SettleOne` | crates/permissionsync-adapter-glpi/src/plan.rs:90-119 | one more desired assignment keeps its lowest matching row, gives up the rest of its group, or is added |
| `Planning.RemoveUndesired` | crates/permissionsync-adapter-glpi/src/plan.rs:121-124 | every row of a pair nobody desires is removed |
| `Planning.Compute` | crates/permissionsync-adapter-glpi/src/plan.rs:69-133 | for any rows with distinct ids and any desired list, removes ascending exactly the rows not kept and adds in order exactly what nothing grants |
| `PlanTheorems.EmptyExactlyWhenCanonical` | crates/permissionsync-adapter-glpi/src/plan.rs:53-65 | a plan is empty exactly when the rows are one per desired pair, with the desired flag, and nothing else |
| `PlanTheorems.IsCanonical` | crates/permissionsync-adapter-glpi/src/plan.rs:63-65 | planning and looking whether anything is to be done decides the declarative canonical state |
| `PlanTheorems.PlanReachesCanonical` | crates/permissionsync-adapter-glpi/src/plan.rs:69-133 | carrying out the plan, whatever ids the new rows get, yields the canonical state |
| `PlanTheorems.PlanIsMinimal` | crates/permissionsync-adapter-glpi/src/plan.rs:69-133 | no other removals and additions that reach the canonical state are fewer, of either kind |
| `PlanTheorems.PlanIgnoresOrder` | crates/permissionsync-adapter-glpi/src/plan.rs:81-133 | permuting current rows or desired assignments never changes the plan |
| `Exchanges.EffectiveDeadline` | crates/permissionsync-adapter-glpi/src/adapter.rs:56-71 | refuses exactly when the context has ended, naming cancellation ahead of expiry; otherwise the window is the earlier of overall deadline and operation timeout |
| `Exchanges.CheckContext` | crates/permissionsync-adapter-glpi/src/adapter.rs:73-84 | refuses exactly when the context has ended, naming cancellation ahead of expiry |
| `Exchanges.Send` | crates/permissionsync-adapter-glpi/src/adapter.rs:99-104 | whatever is sent is sent while the context lives, within its window, and answered by the target at that point of the exchange; without a reply the failure is the one of its cause |
| `Exchanges.MutationsConcat` | crates/permissionsync-adapter-glpi/src/adapter.rs:243-254 | mutations counted over two stretches of the exchange add up |
| `Pagination.ParsePage` | crates/permissionsync-adapter-glpi/src/search.rs:294-369 | accepts exactly the pages that hold all rows asked for or all that are left, with consistent metadata |
| `Pagination.FetchPage` | crates/permissionsync-adapter-glpi/src/search.rs:166-237 | succeeds exactly when the context lives and the reply is an acceptable page with the expected total, status and rows |
| `Pagination.SearchAllPages` | crates/permissionsync-adapter-glpi/src/search.rs:149-255 | terminates for every sequence of replies; success means the accepted ranges tile the whole result; a target with one fixed list has exactly that list returned |
| `Pagination.RequestCount` | crates/permissionsync-adapter-glpi/src/search.rs:165-252 | a complete search over n rows took max(1, n / 50 rounded up) requests |
| `Pagination.EarlierPagesAreFull` | crates/permissionsync-adapter-glpi/src/search.rs:347-359 | every page but the last holds exactly 50 rows |
| `Pagination.PagesTile` | crates/permissionsync-adapter-glpi/src/search.rs:239-251 | rows 50k to 50(k + 1) of the result are exactly what the exchange for that range brought: no gap and no overlap |
| `Resolution.ExactIds` | crates/permissionsync-adapter-glpi/src/search.rs:537-554 | succeeds exactly when every entry is readable, with the exactly matching ids once each; the first unreadable entry decides the failure |
| `Resolution.ExactIdsMeaning` | crates/permissionsync-adapter-glpi/src/search.rs:424-434 | those ids are distinct and are exactly the ids of entries whose name equals the selector |
| `Resolution.ResolveSearchOptions` | crates/permissionsync-adapter-glpi/src/search.rs:78-139 | succeeds exactly when every required option is numbered exactly once in the reply, with those numbers; missing, repeated and unusable ones fail |
| `Resolution.ResolveExactId` | crates/permissionsync-adapter-glpi/src/search.rs:401-441 | an id is returned only if a complete search had it as the only exact match; missing and ambiguous references say what that search had; zero only for entities |
| `Resolution.ResolveUserId` | crates/permissionsync-adapter-glpi/src/search.rs:489-533 | a user, or its absence, is reported only from complete active and deleted listings with no deleted and at most one active exact match |
| `Resolution.ReadProfileUserItem` | crates/permissionsync-adapter-glpi/src/search.rs:638-709 | an item is taken only as the target reported it, under the id asked for, with positive owner and profile |
| `Resolution.ReadItems` | crates/permissionsync-adapter-glpi/src/search.rs:601-617 | the rows are exactly the items read, in order, all owned by the user |
| `Resolution.ReadCurrentAssignments` | crates/permissionsync-adapter-glpi/src/search.rs:566-620 | the rows read are exactly the exact matches of one complete search, each read back as owned by the user, with distinct ids |
| `References.ResolveOnce` | crates/permissionsync-adapter-glpi/src/adapter.rs:205-229 | a name is resolved unless it was before, and earlier results stand |
| `References.ResolveReferences` | crates/permissionsync-adapter-glpi/src/adapter.rs:201-230 | every desired reference is resolved by some complete search of this run |
| `References.Expect` | crates/permissionsync-adapter-glpi/src/session.rs:113-149 | a session request succeeds exactly when the context lives and the reply is the one documented |
| `References.DiscoverOne` | crates/permissionsync-adapter-glpi/src/search.rs:75-139 | one kind's numbers are the ones its listing gave, once each, for its id and name options |
| `References.DiscoverOptions` | crates/permissionsync-adapter-glpi/src/adapter.rs:411-420 | success means the options of every kind were listed, in order, each numbering its id and name option exactly once |
| `References.Prepare` | crates/permissionsync-adapter-glpi/src/adapter.rs:154-238 | success means the target confirmed that the session sees every entity, search options were discovered, and every reference was resolved after that; nothing was changed on the way |
| `Mutating.Mutate` | crates/permissionsync-adapter-glpi/src/mutation.rs:157-270 | a mutation succeeds exactly when it was sent and confirmed in its documented shape |
| `Mutating.Perform` | crates/permissionsync-adapter-glpi/src/adapter.rs:294-313 | mutations go out in the order of the script, each confirmed before the next; success exactly when all were |
| `Users.CreateUserAndResolveOutcome` | crates/permissionsync-adapter-glpi/src/adapter.rs:379-409 | one creation is attempted; success means it was confirmed and a fresh lookup found exactly the created id |
| `Users.FindOrCreateUser` | crates/permissionsync-adapter-glpi/src/adapter.rs:240-254 | a creation is attempted only if complete listings had no such name, and the count of mutations is right; on a quiet target an ambiguous name fails |
| `Converging.Converge` | crates/permissionsync-adapter-glpi/src/adapter.rs:256-333 | mutations follow the plan for the rows read; success means all were confirmed and the rows read afterwards are canonical; on a quiet target it always succeeds |
| `Convergence.PlanIsDoable` | crates/permissionsync-adapter-glpi/src/adapter.rs:294-313 | a quiet target confirms every mutation of a plan for its own rows |
| `Convergence.CarriedIsCanonical` | crates/permissionsync-adapter-glpi/src/adapter.rs:315-333 | after them the user's rows in the target's table are canonical |
| `Convergence.CarriedSparesOthers` | crates/permissionsync-adapter-glpi/src/adapter.rs:285-291 | and nobody else's rows have changed |
| `Convergence.ImagesAreUnique` | crates/permissionsync-adapter-glpi/src/adapter.rs:266-283 | distinct selector pairs of a normal form stay distinct as ids |
| `QuietTarget.NamesAreFound` | crates/permissionsync-adapter-glpi/src/search.rs:401-533 | on a quiet target, complete searches find exactly the ids carrying a name |
| `QuietTarget.RowsAreFound` | crates/permissionsync-adapter-glpi/src/search.rs:566-620 | and exactly the rows of the one user with a name |
| `Adapter.ReconcileWithSession` | crates/permissionsync-adapter-glpi/src/adapter.rs:147-340 | whatever the target does, every mutation is justified, success means the final read is exactly the desired rows, and the outcome is changed exactly when something was changed here; on a quiet target with an uninterrupted context a run succeeds if and only if every reference and the user's name are unambiguous, spares everybody else's rows, and any later run is unchanged |
| `Adapter.MutationsOfRun` | crates/permissionsync-adapter-glpi/src/adapter.rs:243-313 | the mutations of a run are the attempted creation, if any, followed by those of the plan |
| `Adapter.RunEnds` | crates/permissionsync-adapter-glpi/src/adapter.rs:256-339 | on a quiet target the run leaves exactly the desired rows, and does nothing where they were already there |
| `AdapterTheorems.RunFollowsScript` | crates/permissionsync-adapter-glpi/src/adapter.rs:240-313 | however a run ends, its mutations are the first ones of its script, all but possibly the last confirmed |
| `AdapterTheorems.DeletionsPrecedeAdditions` | crates/permissionsync-adapter-glpi/src/adapter.rs:294-313 | no assignment is added before one is deleted |
| `AdapterTheorems.DeletionsNameOwnRows` | crates/permissionsync-adapter-glpi/src/adapter.rs:285-298 | every deletion names a row this run read as the user's, and not the one kept for its pair |
| `AdapterTheorems.UserIsCreatedAtMostOnce` | crates/permissionsync-adapter-glpi/src/adapter.rs:159-254 | at most one creation, first of all mutations, after the session saw every entity, every reference was resolved and complete listings had no such name; anything after it needs the fresh lookup to have returned the created id |
| `AdapterTheorems.OrderNeverMatters` | crates/permissionsync-adapter-glpi/src/payload.rs:63-79 | permuting or repeating permissions, or permuting current rows, never changes the plan |
| `Synchronizer.CleanUp` | crates/permissionsync-adapter-glpi/src/adapter.rs:113-145 | cleanup is skipped only after the context was seen to have ended, never replaces a failure of the work, and turns success into failure exactly when it is not confirmed |
| `Synchronizer.InitSession` | crates/permissionsync-adapter-glpi/src/session.rs:41-87 | succeeds exactly when the context lives and the reply is a 200 with a non-empty token |
| `Synchronizer.Reconcile` | crates/permissionsync-adapter-glpi/src/adapter.rs:86-145 | nothing is changed without a session; a session's work is justified, verified where it succeeded, and cleaned up; on a quiet target success is equivalent to unambiguous references and name, and everybody else's rows are spared |
| `Synchronizer.LiveAllAlong` | crates/permissionsync-orchestration/src/synchronizer.rs:126-128 | a context that is live at one observation was live at all earlier ones |
| `Synchronizer.Synchronize` | crates/permissionsync-orchestration/src/synchronizer.rs:50-123 | stages run in order, each at most once, each only after the one before succeeded; success means the GLPI session was confirmed closed; the quiet-target equivalence and the sparing of others carry over |
| `ServerTheorems.EveryRunIsExplained` | src/runtime/mod.rs:375-459 | in every interleaving of requests, connections, probes, accept loop, signal task and shutdown, every event is justified by the history before it and the invariant holds |
| `ServerTheorems.CancellationSparesBudgets` | src/runtime/mod.rs:592-600 | cancellation is raised only after shutdown began, every admission precedes it, and every admitted request has then passed its own deadline |
| `ServerTheorems.NoWorkAfterCancellation` | src/runtime/capacity.rs:75-125 | no request passes the last check before Provider or Adapter work once requests are cancelled, although that check's reads of flag and clock are separate steps |
| `ServerTightness.ShortGraceCutsARequest` | src/runtime/configuration.rs:303-311 | with any grace period shorter than the overall deadline there is a run that cancels an admitted request before its deadline |
| `ServerTightness.GraceIsExact` | src/runtime/configuration.rs:303-311 | no run cancels an admitted request before its deadline if and only if the overall deadline is within the grace period |
| `ServerTheorems.NoLateAdmission` | src/runtime/admission.rs:296-311 | every admission follows a read of the lifecycle by that request which precedes the store that begins shutdown |
| `ServerTheorems.NoLostWakeup` | src/runtime/lifecycle.rs:38-71 | once a begin of shutdown returned, every accept loop, backoff, connection, probe or request that registered, read the flag as false and waits is notified and can wake; nothing resolves and nobody is notified unless shutdown began |
| `Lifecycles.ListenerKeepsSound` | src/runtime/lifecycle.rs:59-71 | creating, registering, reading the flag, waking and dropping a shutdown future keep the notifier exact and nobody forgotten |
| `Lifecycles.ProcessKeepsSound` | src/runtime/lifecycle.rs:38-48 | so do the stores and notifications of begin-shutdown and cancel-requests, in that order |
| `ServerTheorems.PopulationsAreBounded` | src/runtime/admission.rs:234-386 | in every reachable state admitted, parked and working requests are within the permits, slots and capacity held; free, handed-over and held ones add up to the configured numbers; no gauge, the one of work in progress included, exceeds what it goes with |
| `ServerTheorems.RefusedOnlyWhenFull` | src/runtime/admission.rs:234-260 | a request is refused only if, when it asked, as many requests as the limit held a waiting slot |
| `ServerTheorems.AdmitCallsAreConserved` | src/runtime/admission.rs:234-311 | every admission call is admitted, abandoned, refused, dropped or still going on |
| `ServerTheorems.ExitLeavesNothing` | src/runtime/mod.rs:649-689 | whichever way serving ends, no connection, request, permit, slot, capacity or queued acquisition is left, all gauges are zero, no shutdown future exists and the notifier knows nobody, and it is fatal exactly after the maximum of consecutive accept failures |
| `ServerShutdown.ShutdownIsBounded` | src/runtime/mod.rs:662-689 | from every reachable state in which shutdown has begun, serving can end with the clock advanced by at most the grace period plus the window for cancelled requests, and nobody has to cooperate: the abort of remaining tasks is reached within that time with every request, connection and permit just as it was, and from there serving ends without any time passing |
| `ServerShutdown.NobodyIsAbortedEarly` | src/runtime/mod.rs:662-689 | no way leads from a state that is not yet draining to the abort of remaining tasks, with a connection still open, in less than the whole grace period plus the whole window |
| `ServerReadiness.NoLateReadiness` | src/runtime/transport.rs:468-495 | every probe that answers ready read the flag before the store that begins shutdown, and polled shutdown as pending before shutdown was announced, in the same poll of its task |
| `ServerReadiness.ReadinessInShutdownIsExact` | src/runtime/transport.rs:468-495 | from every reachable state in which shutdown has begun, announced or not, a probe on a connection can answer ready in some continuation if and only if it is past its look at shutdown in the current poll, or has read the flag as serving, waits and is not notified; once shutdown is announced only the former is possible |
| `ServerReadiness.ReadyInShutdown` | src/runtime/transport.rs:468-495 | there are runs in which such probes exist, one that waits when shutdown has begun and one past its look when it is announced, and both can answer ready, so readiness is not quite false from the start of shutdown |
| `BodyCollection.Regrown` | src/runtime/transport.rs:589-596 | a regrown buffer has the new capacity and the old content |
| `BodyCollection.Receive` | src/runtime/transport.rs:577-598 | a frame is appended in place, and the amortized cost invariant is kept |
| `BodyCollection.GrowthIsAmortized` | src/runtime/transport.rs:584-596 | doubling up to the limit keeps all copying within twice the content |
| `BodyCollection.CollectBody` | src/runtime/transport.rs:559-601 | returns the joined frames exactly when all arrive and stay within 1 MiB, whatever the split; capacity never exceeds 1 MiB; all regrowth together copies at most twice the bytes received; every failure names its cause |
| `CnameClosure.Pass` | crates/permissionsync-provider-generic-rest/src/client.rs:537-560 | a pass accepts only reachable names, and one that adds none proves the names closed under aliases |
| `CnameClosure.AcceptedNames` | crates/permissionsync-provider-generic-rest/src/client.rs:535-561 | terminates on every answer list and accepts exactly the names reachable by a chain of aliases (section 3.6.2 of RFC 1034) |
| `CnameClosure.ResponseAddress` | crates/permissionsync-provider-generic-rest/src/client.rs:523-577 | the address of the first record with reachable owner and wanted type, none exactly when there is no such record or the response failed or was truncated |

## Left out

- TLS, sockets, DNS queries, HTTP wiring, operating-system signals and telemetry export: each is the nondeterministic result of a step or an arbitrary reply.
- JOSE parsing, signature arithmetic and key conversion: signatures and claims are unconstrained functions.
- Token rejections that precede the first look at the cache: they touch no shared state.
- JSON and YAML decoding, and error formatting and redaction: models start at decoded values, with one value for anything a decoder refuses.
- References.DiscoverOptions: the numbers are resolved and proved right, but requests and rows name their fields rather than carry those numbers.
- The search criterion string and the target's own pattern matching, which lives in code outside the repository.
- Routing tables, composition, other configuration checks, metrics labels, status-code maps and errno classification: settled by reading one branch.
- Bearer, scope and logical-target grammars: small scans.
- The status codes of probes and what they evaluate, which the cache machine has as a readiness attempt, and the verifier warm-up task.
- KeyCache.RefreshesCoalesce: is for observed generations below the counter's maximum of 2^64 - 1; `KeyCacheTightness.CoalescingIsExact` shows that this is exactly where it holds.
- Pagination.SearchAllPages: the fixed-list clause is for lists of up to 2^64 - 51 rows, more than page positions can count.
- Adapter.ReconcileWithSession: the quiet-target clauses ask for a normalized payload and for listings that stay countable, and which failure an ambiguous run ends with is left to the stages.
- Synchronizer.Synchronize: the capacity permit it holds is modelled in the server machine, not here.
