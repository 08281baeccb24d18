/** A whole reconciliation, from envelope to session cleanup, and the synchronization that runs it. */
module Synchronizer {
  import opened Wrappers
  import opened Histories
  import opened Normalization
  import opened Exchanges
  import opened QuietTarget
  import opened References
  import opened Adapter

  const ENVELOPE_VERSION := 1

  // ---------------------------------------------------------------- one reconciliation

  /** What happened once a session was open: when it was opened, when its work ended, and how. */
  datatype Session =
    Session(begun: Log, worked: Log, primary: Result<Outcome, Failure>, desired: seq<Permission>, story: Story)

  /** The log ends with the target confirming that the session was killed. */
  ghost predicate Closed(log: Log) {
    log.Then? && log.event.request == KillSession && log.event.response == Reply(OK, Confirmation)
  }

  /** The session's work is justified, and verified where it succeeded. */
  ghost predicate Worked(env: Env, before: Log, name: string, payload: seq<Permission>, x: Session) {
    && Reads(env, before, x.begun) && IsNormalForm(payload, x.desired)
    && Justified(env, x.begun, x.worked, name, x.desired, x.story)
    && (x.primary.Ok? ==>
          && Succeeded(env, x.begun, x.worked, name, x.desired, x.story)
          && (x.primary.value == Changed <==> Mutations(x.begun, x.worked) != []))
  }

  /**
   Cleanup: it is skipped only once the context was seen to have ended; it never replaces a failure of the work
   itself; and success means it was confirmed, unless it was skipped.
   */
  ghost predicate CleanedUp(env: Env, x: Session, next: World, r: Result<Outcome, Failure>) {
    if next.log == x.worked then
      0 < next.looks && Ended(env, next.looks - 1) && r == x.primary
    else
      && next.log.Then? && next.log.past == x.worked && next.log.event.request == KillSession
      && (if x.primary.Err? || Closed(next.log) then r == x.primary else r.Err?)
  }

  lemma FavourableKept(env: Env, before: Log, after: Log, name: string, desired: seq<Permission>)
    requires Reads(env, before, after)
    ensures forall rules, t {:trigger Favourable(env, rules, t, before, name, desired)} ::
              Favourable(env, rules, t, before, name, desired) <==> Favourable(env, rules, t, after, name, desired)
    ensures forall rules, t {:trigger Repeatable(env, rules, t, before, name, desired)} ::
              Repeatable(env, rules, t, before, name, desired) <==> Repeatable(env, rules, t, after, name, desired)
    ensures forall rules, t {:trigger Ready(env, rules, t, before, desired)} ::
              Ready(env, rules, t, before, desired) <==> Ready(env, rules, t, after, desired)
    ensures forall rules, t :: After(rules, t, after) == After(rules, t, before)
  {
    hide Quiet, Valid, Fits, Solvable, HoldsDesired, StrictlyOrdered;
    ReadsKeepAll(env, before, after);
  }

  /** Ends the session if the context still lives; what the work came to stands unless only the cleanup failed. */
  method CleanUp(env: Env, w: World, primary: Result<Outcome, Failure>)
    returns (r: Result<Outcome, Failure>, next: World)
    ensures Reads(env, w.log, next.log) && w.looks <= next.looks
    ensures forall x: Session :: x.worked == w.log && x.primary == primary ==> CleanedUp(env, x, next, r)
    ensures Calm(env) && env.answer(w.log, KillSession) == Reply(OK, Confirmation) ==> r == primary
  {
    var live := CheckContext(env, w);
    next := Look(w);
    if live.Err? {
      return primary, next;
    }
    var window := EffectiveDeadline(env, next);
    if window.Err? {
      next := Look(next);
      return primary, next;
    }
    var (killed, sent) := Expect(env, next, KillSession, Confirmation, CleanupFailed);
    next := sent;
    LongerIsDifferent(w.log, next.log);
    if primary.Ok? && killed.Err? {
      return Err(killed.error), next;
    }
    return primary, next;
  }

  method InitSession(env: Env, w: World) returns (r: Result<string, Failure>, next: World)
    ensures Reads(env, w.log, next.log) && w.looks <= next.looks
    ensures r.Ok? <==> !Ended(env, w.looks) && exists token ::
              token != "" && env.answer(w.log, Request.InitSession) == Reply(OK, Token(token))
    ensures r.Ok? ==> env.answer(w.log, Request.InitSession) == Reply(OK, Token(r.value))
    ensures Calm(env) ==> forall rules, t :: Quiet(env, rules, t) ==> r.Ok?
  {
    var (reply, sent) := Send(env, w, Request.InitSession);
    next := sent;
    if reply.Err? {
      return Err(reply.error), next;
    }
    if reply.value.status != OK || !reply.value.body.Token? || reply.value.body.token == "" {
      return Err(SessionInitFailed), next;
    }
    return Ok(reply.value.body.token), next;
  }

  /** Reconciles one user with a desired-state envelope. */
  method Reconcile(env: Env, w: World, version: nat, payload: seq<Permission>, name: string)
    returns (r: Result<Outcome, Failure>, next: World, ghost session: Option<Session>)
    ensures w.looks <= next.looks
    ensures session.None? ==> r.Err? && Reads(env, w.log, next.log)
    ensures session.Some? ==> version == ENVELOPE_VERSION && WellFormed(payload)
    ensures session.Some? ==> Worked(env, w.log, name, payload, session.value) && CleanedUp(env, session.value, next, r)
    ensures Calm(env) && version == ENVELOPE_VERSION && WellFormed(payload) ==>
              forall desired, rules, t
                {:trigger IsNormalForm(payload, desired), Favourable(env, rules, t, w.log, name, desired)} ::
                IsNormalForm(payload, desired) && Favourable(env, rules, t, w.log, name, desired) ==>
                  && r.Ok? && Repeatable(env, rules, t, next.log, name, desired)
                  && (Repeatable(env, rules, t, w.log, name, desired) ==> r == Ok(Unchanged))
                  && session.Some?
                  && OthersSpared(After(rules, t, w.log), After(rules, t, next.log), session.value.story.user)
    ensures Calm(env) ==>
              forall desired, rules, t
                {:trigger IsNormalForm(payload, desired), Ready(env, rules, t, w.log, desired)} ::
                IsNormalForm(payload, desired) && Ready(env, rules, t, w.log, desired) ==>
                  (r.Ok? <==> version == ENVELOPE_VERSION && WellFormed(payload)
                              && Solvable(After(rules, t, w.log), name, desired))
  {
    hide Justified, Succeeded, Favourable, Repeatable, Ready, Solvable, OthersSpared, IsNormalForm, WellFormed,
      CleanedUp, Mutations;
    session := None;
    var live := CheckContext(env, w);
    next := Look(w);
    if live.Err? {
      return Err(live.error), next, session;
    }
    if version != ENVELOPE_VERSION {
      return Err(UnsupportedEnvelopeVersion), next, session;
    }
    var normal := Normalize(payload);
    if normal.Err? {
      return Err(InvalidPayload), next, session;
    }
    var desired := normal.value;
    var token;
    token, next := InitSession(env, next);
    ghost var begun := next.log;
    FavourableAnswers(env, w.log, name, desired);
    FavourableKept(env, w.log, begun, name, desired);
    forall other | IsNormalForm(payload, other)
      ensures other == desired
    {
      NormalFormIgnoresOrder(payload, payload, other, desired);
    }
    if token.Err? {
      return Err(token.error), next, session;
    }
    var primary;
    ghost var story;
    primary, next, story := ReconcileWithSession(env, next, name, desired);
    session := Some(Session(begun, next.log, primary, desired, story));
    FavourableAnswers(env, next.log, name, desired);
    ghost var worked := next.log;
    r, next := CleanUp(env, next, primary);
    FavourableKept(env, worked, next.log, name, desired);
  }

  lemma FavourableAnswers(env: Env, log: Log, name: string, desired: seq<Permission>)
    ensures forall rules, t {:trigger Favourable(env, rules, t, log, name, desired)} ::
              Favourable(env, rules, t, log, name, desired) ==> Quiet(env, rules, t)
    ensures forall rules, t {:trigger Repeatable(env, rules, t, log, name, desired)} ::
              Repeatable(env, rules, t, log, name, desired) ==> env.answer(log, KillSession) == Reply(OK, Confirmation)
    ensures forall rules, t {:trigger Ready(env, rules, t, log, desired)} ::
              Ready(env, rules, t, log, desired) ==>
                && Quiet(env, rules, t) && env.answer(log, KillSession) == Reply(OK, Confirmation)
                && (Solvable(After(rules, t, log), name, desired) ==> Favourable(env, rules, t, log, name, desired))
  {
    hide Valid, Fits, Solvable, HoldsDesired, StrictlyOrdered;
  }

  // ---------------------------------------------------------------- one synchronization

  datatype Route = Unknown | Unavailable | Routed

  datatype SyncError =
    | Interrupted | UnknownTarget | TargetUnavailable | ProviderFailed | CapacityUnavailable | AdapterFailed

  datatype Call = Resolving | Acquiring | Providing | Reconciling

  const STAGES := [Resolving, Acquiring, Providing, Reconciling]

  /** What the Permission Provider answers: an envelope version with its permissions, or a failure. */
  datatype Supply = Supply(answer: Result<(nat, seq<Permission>), ()>)

  /** A context that is still live was live all along. */
  lemma LiveAllAlong(env: Env, late: nat)
    requires Steady(env) && !Ended(env, late)
    ensures forall early: nat :: early <= late ==> !Ended(env, early)
  {
    assert forall early: nat :: early <= late && env.cancelled(early) ==> env.cancelled(late);
    assert forall early: nat :: early <= late ==> env.now(early) <= env.now(late);
  }

  /**
   Routes, takes capacity, asks the provider and reconciles, in that order and each at most once, looking at the
   context in between. A synchronization that succeeds has had its session confirmed closed.
   */
  method Synchronize(env: Env, w: World, route: Route, provider: Option<Supply>, capacity: bool, name: string)
    returns (r: Result<Outcome, SyncError>, next: World, calls: seq<Call>, ghost session: Option<Session>)
    ensures calls <= STAGES && (Reconciling !in calls ==> next.log == w.log && session.None?)
    ensures Acquiring in calls ==> route == Routed && provider.Some?
    ensures Providing in calls ==> capacity
    ensures Reconciling in calls ==> provider.Some? && provider.value.answer.Ok?
    ensures r == Err(UnknownTarget) ==> route == Unknown
    ensures r == Err(TargetUnavailable) ==> route == Unavailable
    ensures r == Err(ProviderFailed) ==> provider.None? || (calls == STAGES[..3] && provider.value.answer.Err?)
    ensures r == Err(CapacityUnavailable) ==> !capacity
    ensures r == Err(AdapterFailed) ==> calls == STAGES
    ensures r == Err(Interrupted) ==> exists look :: w.looks <= look <= next.looks && Ended(env, look)
    ensures r.Ok? ==> calls == STAGES && session.Some? && session.value.primary == Ok(r.value)
    ensures r.Ok? ==> Worked(env, w.log, name, provider.value.answer.value.1, session.value)
    ensures r.Ok? && Steady(env) ==> Closed(next.log)
    ensures Calm(env) && route == Routed && capacity && provider.Some? && provider.value.answer.Ok?
            && provider.value.answer.value.0 == ENVELOPE_VERSION && WellFormed(provider.value.answer.value.1) ==>
              forall desired, rules, t
                {:trigger IsNormalForm(provider.value.answer.value.1, desired),
                          Favourable(env, rules, t, w.log, name, desired)} ::
                && IsNormalForm(provider.value.answer.value.1, desired)
                && Favourable(env, rules, t, w.log, name, desired) ==>
                  && r.Ok? && Repeatable(env, rules, t, next.log, name, desired)
                  && (Repeatable(env, rules, t, w.log, name, desired) ==> r == Ok(Unchanged))
                  && session.Some?
                  && OthersSpared(After(rules, t, w.log), After(rules, t, next.log), session.value.story.user)
    ensures Calm(env) && provider.Some? && provider.value.answer.Ok? ==>
              forall desired, rules, t
                {:trigger IsNormalForm(provider.value.answer.value.1, desired), Ready(env, rules, t, w.log, desired)} ::
                IsNormalForm(provider.value.answer.value.1, desired) && Ready(env, rules, t, w.log, desired) ==>
                  (r.Ok? <==> && route == Routed && capacity
                              && provider.value.answer.value.0 == ENVELOPE_VERSION
                              && WellFormed(provider.value.answer.value.1)
                              && Solvable(After(rules, t, w.log), name, desired))
  {
    hide Worked, Favourable, Repeatable, Ready, Solvable, OthersSpared, IsNormalForm, WellFormed;
    next, calls, session := w, [], None;
    if Ended(env, next.looks) {
      return Err(Interrupted), next, calls, session;
    }
    next, calls := Look(next), calls + [Resolving];
    if route != Routed {
      return Err(if route == Unknown then UnknownTarget else TargetUnavailable), next, calls, session;
    }
    if Ended(env, next.looks) {
      return Err(Interrupted), next, calls, session;
    }
    next := Look(next);
    if provider.None? {
      return Err(ProviderFailed), next, calls, session;
    }
    calls := calls + [Acquiring];
    if !capacity {
      return Err(CapacityUnavailable), next, calls, session;
    }
    if Ended(env, next.looks) {
      return Err(Interrupted), next, calls, session;
    }
    next, calls := Look(next), calls + [Providing];
    if provider.value.answer.Err? {
      return Err(ProviderFailed), next, calls, session;
    }
    if Ended(env, next.looks) {
      return Err(Interrupted), next, calls, session;
    }
    next, calls := Look(next), calls + [Reconciling];
    var (version, payload) := provider.value.answer.value;
    var outcome;
    outcome, next, session := Reconcile(env, next, version, payload, name);
    if outcome.Err? {
      return Err(AdapterFailed), next, calls, session;
    }
    if Ended(env, next.looks) {
      return Err(Interrupted), next, calls, session;
    }
    if Steady(env) {
      LiveAllAlong(env, next.looks);
    }
    next := Look(next);
    return Ok(outcome.value), next, calls, session;
  }
}
