/**
 The trusted-key cache and its refresh protocol. Any number of authentication and readiness
 attempts share one cached snapshot, one refresh mutex and one clock. Nothing is awaited while a
 cache guard is held, so every guarded section is one step; an attempt may be dropped, or run out
 of context, wherever it waits.
 */
module KeyCache {
  import opened Wrappers
  import opened Histories
  import opened Runs
  import opened TokenVerification

  datatype Config = Config(policy: Policy, lib: Primitives)

  datatype Snapshot = Snapshot(candidates: seq<Candidate>, acquired: nat, generation: nat)

  datatype Purpose = Authenticate(token: Token, algorithm: string) | EnsureUsable

  /** What an attempt does with the result of its one refresh. */
  datatype Mode = VerifyFresh | StaleFallback | ProvenInvalid | Readiness

  datatype Place =
    | Classifying
    | FirstDecision(observed: nat)
    | AwaitingMutex(observed: nat, mode: Mode)
    | CheckingNewer(observed: nat, mode: Mode)
    | Fetching(observed: nat, mode: Mode)
    | Installing(observed: nat, mode: Mode, candidates: seq<Candidate>, acquired: nat)
    | FinalDecision(mode: Mode, refreshed: bool)
    | Ended

  datatype Attempt = Attempt(purpose: Purpose, deadline: nat, place: Place)

  datatype RefreshOutcome = Replaced | Reused | Unavailable | GaveUp

  datatype Outcome = Authenticated(result: Authentication) | Usability(usable: bool, at: nat)

  datatype Event =
    | Observed(attempt: nat, forToken: bool, generation: nat, classification: Classification, now: nat)
    | Rechecked(attempt: nat, generation: nat, classification: Classification, now: nat)
    | Decided(attempt: nat, token: Token, algorithm: string, wall: Option<real>,
              seen: Option<Snapshot>, now: nat, decision: CacheVerification)
    | FetchBegan(attempt: nat, now: nat)
    | Installed(attempt: nat, snapshot: Snapshot)
    | RefreshEnded(attempt: nat, refresh: RefreshOutcome)
    | Finished(attempt: nat, outcome: Outcome)
    | Dropped(attempt: nat)

  type Log = History<Event>

  datatype State = State(
    cache: Option<Snapshot>,
    leader: Option<nat>,
    clock: nat,
    cancelled: bool,
    attempts: map<nat, Attempt>,
    log: Log)

  // ---------------------------------------------------------------- the steps

  datatype Step =
    | Begin(p: nat, purpose: Purpose, deadline: nat)
    | Classify(p: nat)
    | DecideFirst(p: nat, wall: Option<real>, end: nat, interrupted: bool)
    | TakeMutex(p: nat)
    | CheckNewer(p: nat)
    | FetchSucceeds(p: nat, candidates: seq<Candidate>)
    | FetchFails(p: nat)
    | Install(p: nat)
    | DecideFinal(p: nat, wall: Option<real>, end: nat, interrupted: bool)
    | GiveUp(p: nat)
    | Drop(p: nat)
    | Tick(elapsed: nat)
    | RaiseCancellation

  function Generation(cache: Option<Snapshot>): nat {
    match cache case None => 0 case Some(snapshot) => snapshot.generation
  }

  function ClassifyCache(policy: Policy, cache: Option<Snapshot>, now: nat): Classification {
    match cache
    case None => ColdOrExpired
    case Some(snapshot) => ClassifyAge(Age(snapshot.acquired, now), policy)
  }

  function SaturatingIncrement(generation: nat): nat {
    if generation < U64_MAX then generation + 1 else U64_MAX
  }

  predicate NewerAndFresh(policy: Policy, cache: Option<Snapshot>, observed: nat, now: nat) {
    cache.Some? && cache.value.generation != observed && ClassifyCache(policy, cache, now) == Fresh
  }

  /** The verdict on a token under one read guard, from the snapshot that guard sees. */
  ghost function GuardedDecision(cfg: Config, cache: Option<Snapshot>, now: nat, token: Token,
                                 algorithm: string, wall: Option<real>): CacheVerification
  {
    match ClassifyCache(cfg.policy, cache, now)
    case ColdOrExpired => NothingUsable
    case Fresh => FreshDecision(Judgement(cfg.lib, cache.value.candidates, token, algorithm, wall))
    case Stale => StaleDecision(Judgement(cfg.lib, cache.value.candidates, token, algorithm, wall))
  }

  predicate ContextAlive(s: State, a: Attempt) {
    !s.cancelled && s.clock < a.deadline
  }

  predicate Leading(place: Place) {
    place.CheckingNewer? || place.Fetching? || place.Installing?
  }

  predicate InRefresh(place: Place) {
    place.AwaitingMutex? || Leading(place)
  }

  ghost predicate Enabled(s: State, step: Step) {
    match step
    case Begin(p, _, _) => p !in s.attempts
    case Tick(_) => true
    case RaiseCancellation => true
    case _ =>
      && step.p in s.attempts
      && var a := s.attempts[step.p];
      match step
      case Classify(_) => a.place.Classifying? && ContextAlive(s, a)
      // A context check inside a decision may fail by the deadline or by a cancellation raised meanwhile.
      case DecideFirst(_, _, end, _) =>
        && a.place.FirstDecision? && a.purpose.Authenticate? && ContextAlive(s, a)
        && s.clock <= end
      case TakeMutex(_) => a.place.AwaitingMutex? && s.leader.None? && ContextAlive(s, a)
      case CheckNewer(_) => a.place.CheckingNewer? && ContextAlive(s, a)
      case FetchSucceeds(_, _) => a.place.Fetching? && ContextAlive(s, a)
      case FetchFails(_) => a.place.Fetching?
      case Install(_) => a.place.Installing? && ContextAlive(s, a)
      case DecideFinal(_, _, end, _) =>
        && a.place.FinalDecision? && ContextAlive(s, a)
        && s.clock <= end
      case GiveUp(_) => !a.place.Ended? && !ContextAlive(s, a)
      case Drop(_) => !a.place.Ended?
      case _ => false
  }

  function MoveTo(s: State, p: nat, place: Place): State
    requires p in s.attempts
  {
    s.(attempts := s.attempts[p := s.attempts[p].(place := place)])
  }

  function Append(s: State, event: Event): State {
    s.(log := Then(s.log, event))
  }

  function Finish(s: State, p: nat, outcome: Outcome): State
    requires p in s.attempts
  {
    Append(MoveTo(s, p, Ended), Finished(p, outcome))
  }

  function Release(s: State, p: nat): State {
    if s.leader == Some(p) then s.(leader := None) else s
  }

  /** What an attempt that ran out of context reports. */
  function ContextLost(s: State, purpose: Purpose): Outcome {
    if purpose.EnsureUsable? then Usability(false, s.clock) else Authenticated(Err(ErrCancelled))
  }

  function AfterClassification(s: State, p: nat, generation: nat, classification: Classification): State
    requires p in s.attempts
  {
    if s.attempts[p].purpose.EnsureUsable? then
      if classification == ColdOrExpired then MoveTo(s, p, AwaitingMutex(generation, Readiness))
      else Finish(s, p, Usability(true, s.clock))
    else
      match classification
      case Fresh => MoveTo(s, p, FirstDecision(generation))
      case Stale => MoveTo(s, p, AwaitingMutex(generation, StaleFallback))
      case ColdOrExpired => MoveTo(s, p, AwaitingMutex(generation, VerifyFresh))
  }

  function AfterFirstDecision(s: State, p: nat, observed: nat, decision: CacheVerification): State
    requires p in s.attempts
  {
    match decision
    case Interrupted => Finish(s, p, Authenticated(Err(ErrCancelled)))
    case NothingUsable => MoveTo(s, p, AwaitingMutex(observed, VerifyFresh))
    case StaleDecision(Rejected) => Finish(s, p, Authenticated(Err(ErrRejected)))
    case StaleDecision(VerifierUnavailable) => Finish(s, p, Authenticated(Err(ErrVerifierUnavailable)))
    case StaleDecision(SignatureInvalid) => MoveTo(s, p, AwaitingMutex(observed, ProvenInvalid))
    case StaleDecision(_) => MoveTo(s, p, AwaitingMutex(observed, StaleFallback))
    case FreshDecision(NoCandidate) => MoveTo(s, p, AwaitingMutex(observed, VerifyFresh))
    case FreshDecision(SignatureInvalid) => MoveTo(s, p, AwaitingMutex(observed, ProvenInvalid))
    case FreshDecision(v) => Finish(s, p, Authenticated(VerificationResult(v)))
  }

  /** Where an attempt goes when its refresh ended well (`refreshed`) or the source was unavailable. */
  function AfterRefresh(s: State, p: nat, mode: Mode, refreshed: bool): State
    requires p in s.attempts
  {
    if refreshed || mode.StaleFallback? then MoveTo(s, p, FinalDecision(mode, refreshed))
    else
      match mode
      case Readiness => Finish(s, p, Usability(false, s.clock))
      case ProvenInvalid => Finish(s, p, Authenticated(Err(ErrRejected)))
      case _ => Finish(s, p, Authenticated(Err(ErrVerifierUnavailable)))
  }

  function Observe(cfg: Config, s: State, p: nat): Event
    requires p in s.attempts
  {
    Observed(p, s.attempts[p].purpose.Authenticate?, Generation(s.cache), ClassifyCache(cfg.policy, s.cache, s.clock),
             s.clock)
  }

  /** The second look of a readiness attempt, after its refresh. */
  function Recheck(cfg: Config, s: State, p: nat): Event {
    Rechecked(p, Generation(s.cache), ClassifyCache(cfg.policy, s.cache, s.clock), s.clock)
  }

  ghost function Decide(cfg: Config, s: State, p: nat, wall: Option<real>, interrupted: bool): Event
    requires p in s.attempts && s.attempts[p].purpose.Authenticate?
  {
    var purpose := s.attempts[p].purpose;
    Decided(p, purpose.token, purpose.algorithm, wall, s.cache, s.clock,
            if interrupted then Interrupted
            else GuardedDecision(cfg, s.cache, s.clock, purpose.token, purpose.algorithm, wall))
  }

  ghost function Apply(cfg: Config, s: State, step: Step): State
    requires Enabled(s, step)
  {
    match step
    case Begin(p, purpose, deadline) => s.(attempts := s.attempts[p := Attempt(purpose, deadline, Classifying)])
    case Tick(elapsed) => s.(clock := s.clock + elapsed)
    case RaiseCancellation => s.(cancelled := true)
    case Classify(p) =>
      var seen := Observe(cfg, s, p);
      AfterClassification(Append(s, seen), p, seen.generation, seen.classification)
    case DecideFirst(p, wall, end, interrupted) =>
      var event := Decide(cfg, s, p, wall, interrupted);
      AfterFirstDecision(Append(s, event), p, s.attempts[p].place.observed, event.decision).(clock := end)
    case TakeMutex(p) =>
      var place := s.attempts[p].place;
      MoveTo(s, p, CheckingNewer(place.observed, place.mode)).(leader := Some(p))
    case CheckNewer(p) =>
      var place := s.attempts[p].place;
      if NewerAndFresh(cfg.policy, s.cache, place.observed, s.clock) then
        AfterRefresh(Append(Release(s, p), RefreshEnded(p, Reused)), p, place.mode, true)
      else
        MoveTo(Append(s, FetchBegan(p, s.clock)), p, Fetching(place.observed, place.mode))
    case FetchSucceeds(p, candidates) =>
      var place := s.attempts[p].place;
      MoveTo(s, p, Installing(place.observed, place.mode, candidates, s.clock))
    case FetchFails(p) =>
      AfterRefresh(Append(Release(s, p), RefreshEnded(p, Unavailable)), p, s.attempts[p].place.mode, false)
    case Install(p) =>
      var place := s.attempts[p].place;
      var snapshot := Snapshot(place.candidates, place.acquired, SaturatingIncrement(Generation(s.cache)));
      AfterRefresh(Append(Append(Release(s, p).(cache := Some(snapshot)), Installed(p, snapshot)),
                          RefreshEnded(p, Replaced)), p, place.mode, true)
    case DecideFinal(p, wall, end, interrupted) =>
      var a := s.attempts[p];
      if a.purpose.EnsureUsable? then
        // A read that is interrupted before it has the guard sees nothing.
        (if interrupted then Finish(s, p, Usability(false, s.clock))
         else
           var seen := Recheck(cfg, s, p);
           Finish(Append(s, seen), p, Usability(seen.classification != ColdOrExpired, s.clock))).(clock := end)
      else
        var event := Decide(cfg, s, p, wall, interrupted);
        Finish(Append(s, event), p,
               Authenticated(if a.place.refreshed then RefreshedResult(event.decision)
                             else FallbackResult(event.decision))).(clock := end)
    case GiveUp(p) =>
      var a := s.attempts[p];
      Finish(if InRefresh(a.place) then Append(Release(s, p), RefreshEnded(p, GaveUp)) else s, p,
             ContextLost(s, a.purpose))
    case Drop(p) =>
      Append(MoveTo(Release(s, p), p, Ended), Dropped(p))
  }

  const INITIAL := State(None, None, 0, false, map[], Beginning)

  ghost function Machine(cfg: Config): (State, Step, State) -> bool {
    (s, step, t) => Enabled(s, step) && t == Apply(cfg, s, step)
  }

  /** `states` is what a run from the cold cache goes through when it takes `steps`. */
  ghost predicate Run(cfg: Config, steps: seq<Step>, states: seq<State>) {
    Path(Machine(cfg), steps, states) && states[0] == INITIAL
  }

  // ---------------------------------------------------------------- what a log says

  /** The snapshot current after a history: the newest one installed. */
  ghost function Current(log: Log): Option<Snapshot> {
    match log
    case Beginning => None
    case Then(past, event) => if event.Installed? then Some(event.snapshot) else Current(past)
  }

  ghost function Installs(log: Log): nat {
    match log
    case Beginning => 0
    case Then(past, event) => Installs(past) + (if event.Installed? then 1 else 0)
  }

  /** The attempt whose fetch is in flight after a history. */
  ghost function FetchInFlight(log: Log): Option<nat> {
    match log
    case Beginning => None
    case Then(past, event) =>
      if event.FetchBegan? then Some(event.attempt)
      else if (event.RefreshEnded? || event.Dropped?) && FetchInFlight(past) == Some(event.attempt) then None
      else FetchInFlight(past)
  }

  /** What one attempt observed: for which purpose, the generation, its age category and how many installs preceded. */
  datatype Observation = Observation(forToken: bool, generation: nat, classification: Classification, installs: nat)

  datatype Account = Account(
    observed: Option<Observation>,
    provedInvalid: bool,
    fetches: nat,
    installs: nat,
    refresh: Option<RefreshOutcome>,
    over: bool)

  const NOTHING_YET := Account(None, false, 0, 0, None, false)

  ghost predicate FoundInvalid(decision: CacheVerification) {
    (decision.FreshDecision? || decision.StaleDecision?) && decision.verification == SignatureInvalid
  }

  /** Everything one attempt did in a history. */
  ghost function AccountOf(log: Log, p: nat): Account {
    match log
    case Beginning => NOTHING_YET
    case Then(past, event) =>
      var account := AccountOf(past, p);
      if event.attempt != p then account
      else
        match event
        case Observed(_, forToken, generation, category, _) =>
          account.(observed := Some(Observation(forToken, generation, category, Installs(past))))
        case Rechecked(_, _, _, _) => account
        case Decided(_, _, _, _, _, _, decision) =>
          account.(provedInvalid := account.provedInvalid || FoundInvalid(decision))
        case FetchBegan(_, _) => account.(fetches := account.fetches + 1)
        case Installed(_, _) => account.(installs := account.installs + 1)
        case RefreshEnded(_, outcome) => account.(refresh := Some(outcome))
        case Finished(_, _) => account.(over := true)
        case Dropped(_) => account.(over := true)
  }

  ghost predicate ToleratesAge(policy: Policy, account: Account, seen: Snapshot, now: nat) {
    && seen.acquired <= now
    && (|| now - seen.acquired <= policy.freshness
        || (account.refresh == Some(Unavailable)
            && now - seen.acquired <= policy.freshness + policy.staleIfError))
  }

  /** Some key of the snapshot that the decision saw verifies the token. */
  ghost predicate Authentic(lib: Primitives, decided: Event)
    requires decided.Decided?
  {
    && decided.seen.Some?
    && exists c :: c in decided.seen.value.candidates && Verifies(lib, c, decided.token, decided.algorithm)
  }

  function Verified(decision: CacheVerification): Option<Verification> {
    if decision.FreshDecision? || decision.StaleDecision? then Some(decision.verification) else None
  }

  /** When the outcome `outcome` of attempt `p` is justified by the history before it. */
  ghost predicate ExplainsOutcome(cfg: Config, past: Log, p: nat, outcome: Outcome) {
    var account := AccountOf(past, p);
    match outcome
    case Usability(usable, at) =>
      usable ==> ClassifyCache(cfg.policy, Current(past), at) != ColdOrExpired
    case Authenticated(Ok(client)) =>
      // Accepted by the decision just made, by a key of the current snapshot, whose age the attempt may use.
      && past.Then? && past.event.Decided? && past.event.attempt == p
      && past.event.seen.Some?
      && ToleratesAge(cfg.policy, account, past.event.seen.value, past.event.now)
      && Authentic(cfg.lib, past.event)
      && ClaimsVerdict(cfg.lib, past.event.token, past.event.wall) == Accepted(client)
    case Authenticated(Err(ErrForbidden)) =>
      && past.Then? && past.event.Decided? && past.event.attempt == p
      && past.event.seen.Some?
      && ToleratesAge(cfg.policy, account, past.event.seen.value, past.event.now)
      && Authentic(cfg.lib, past.event)
      && ClaimsVerdict(cfg.lib, past.event.token, past.event.wall) == OutsideScope
    case Authenticated(Err(ErrRejected)) =>
      // Either a conclusive decision was just made, an unknown key counting only against a newer
      // install; or a signature proved invalid earlier stands although the refresh failed.
      && past.Then? && past.event.attempt == p
      && (|| (&& past.event.Decided?
              && (past.event.decision.FreshDecision? || past.event.decision.StaleDecision?)
              && past.event.decision.verification in {Rejected, NoCandidate, SignatureInvalid}
              && (past.event.decision.verification == NoCandidate ==>
                    account.observed.Some? && account.observed.value.installs < Installs(past)))
          || (past.event == RefreshEnded(p, Unavailable) && account.provedInvalid))
    case Authenticated(Err(ErrVerifierUnavailable)) =>
      && (account.provedInvalid ==> account.refresh != Some(Unavailable))
      && past.Then? && past.event.attempt == p
      && (past.event.Decided? && Verified(past.event.decision) == Some(VerifierUnavailable) ==>
            && Authentic(cfg.lib, past.event)
            && ClaimsVerdict(cfg.lib, past.event.token, past.event.wall) == NoWallClock)
    case Authenticated(Err(ErrCancelled)) => true
  }

  /** When an event is justified by the history before it. */
  ghost predicate Explains(cfg: Config, past: Log, event: Event) {
    var account := AccountOf(past, event.attempt);
    && !account.over
    && match event
       case Observed(_, _, generation, category, now) =>
         && account.observed.None?
         && generation == Generation(Current(past))
         && category == ClassifyCache(cfg.policy, Current(past), now)
       case Rechecked(_, generation, category, now) =>
         // Only for readiness, and only after its refresh.
         && account.observed.Some? && !account.observed.value.forToken
         && (account.refresh == Some(Replaced) || account.refresh == Some(Reused))
         && generation == Generation(Current(past))
         && category == ClassifyCache(cfg.policy, Current(past), now)
       case Decided(_, token, algorithm, wall, seen, now, decision) =>
         && seen == Current(past)
         && (decision == Interrupted || decision == GuardedDecision(cfg, seen, now, token, algorithm, wall))
       case FetchBegan(p, now) =>
         // One fetch an attempt, one fetch at a time, none while a newer generation is fresh, and none
         // for readiness unless the cache was observed unusable.
         && account.fetches == 0
         && FetchInFlight(past).None?
         && account.observed.Some?
         && (Current(past).Some? ==> Current(past).value.acquired <= now)
         && (!account.observed.value.forToken ==> account.observed.value.classification == ColdOrExpired)
         && !NewerAndFresh(cfg.policy, Current(past), account.observed.value.generation, now)
       case Installed(p, snapshot) =>
         && FetchInFlight(past) == Some(p)
         && account.installs == 0
         && snapshot.generation == SaturatingIncrement(Generation(Current(past)))
         && (Current(past).Some? ==> Current(past).value.acquired <= snapshot.acquired)
       case RefreshEnded(_, outcome) =>
         && account.refresh.None?
         && account.installs == (if outcome.Replaced? then 1 else 0)
       case Finished(p, outcome) => ExplainsOutcome(cfg, past, p, outcome)
       case Dropped(_) => true
  }

  ghost predicate Explained(cfg: Config, log: Log) {
    match log
    case Beginning => true
    case Then(past, event) => Explained(cfg, past) && Explains(cfg, past, event)
  }

  // ---------------------------------------------------------------- the invariant

  ghost predicate NotFreshOrNewer(policy: Policy, s: State, observed: Observation) {
    observed.installs < Installs(s.log) || ClassifyCache(policy, s.cache, s.clock) != Fresh
  }

  /** What the log says about an attempt that has not ended, by where it stands. */
  ghost predicate Standing(cfg: Config, s: State, p: nat, a: Attempt) {
    var account := AccountOf(s.log, p);
    && !account.over
    && (a.place.Classifying? ==> account == NOTHING_YET)
    && (!a.place.Classifying? ==>
          && account.observed.Some?
          && account.observed.value.installs <= Installs(s.log)
          && account.observed.value.generation == Saturated(account.observed.value.installs)
          && account.observed.value.forToken == a.purpose.Authenticate?)
    && (a.place.FirstDecision? ==>
          && a.purpose.Authenticate?
          && account == NOTHING_YET.(observed := account.observed)
          && account.observed.value.generation == a.place.observed)
    && (InRefresh(a.place) ==>
          && account.observed.value.generation == a.place.observed
          && account.refresh.None? && account.installs == 0
          && account.fetches == (if a.place.Fetching? || a.place.Installing? then 1 else 0)
          && ModeFits(cfg.policy, s, a, a.place.mode, account))
    && (a.place.Installing? ==>
          && a.place.acquired <= s.clock
          && (s.cache.Some? ==> s.cache.value.acquired <= a.place.acquired))
    && (a.place.FinalDecision? ==>
          && (a.purpose.EnsureUsable? <==> a.place.mode.Readiness?)
          && (a.place.refreshed ==>
                (account.refresh == Some(Replaced) || account.refresh == Some(Reused))
                && account.observed.value.installs < Installs(s.log))
          && (!a.place.refreshed ==>
                && a.place.mode.StaleFallback?
                && account.refresh == Some(Unavailable)
                && !account.provedInvalid
                && NotFreshOrNewer(cfg.policy, s, account.observed.value)))
  }

  ghost predicate ModeFits(policy: Policy, s: State, a: Attempt, mode: Mode, account: Account) {
    && (a.purpose.EnsureUsable? <==> mode.Readiness?)
    && (mode.Readiness? ==> account.observed.Some? && account.observed.value.classification == ColdOrExpired)
    && (account.provedInvalid <==> mode.ProvenInvalid?)
    && (mode.StaleFallback? && account.observed.Some? ==> NotFreshOrNewer(policy, s, account.observed.value))
  }

  ghost function Saturated(installs: nat): nat {
    if installs < U64_MAX then installs else U64_MAX
  }

  ghost predicate CacheAgrees(s: State) {
    && s.cache == Current(s.log)
    && Generation(s.cache) == Saturated(Installs(s.log))
    && (s.cache.Some? ==> s.cache.value.acquired <= s.clock)
    && (s.cache.None? <==> Installs(s.log) == 0)
  }

  ghost predicate MutexAgrees(s: State) {
    && (s.leader.Some? ==> s.leader.value in s.attempts && Leading(s.attempts[s.leader.value].place))
    && (forall p :: p in s.attempts && Leading(s.attempts[p].place) ==> s.leader == Some(p))
    && FetchInFlight(s.log) ==
       (if s.leader.Some? && !s.attempts[s.leader.value].place.CheckingNewer? then s.leader else None)
  }

  ghost predicate AttemptsAgree(cfg: Config, s: State) {
    && (forall p :: p in s.attempts && !s.attempts[p].place.Ended? ==> Standing(cfg, s, p, s.attempts[p]))
    && (forall p :: p !in s.attempts ==> AccountOf(s.log, p) == NOTHING_YET)
  }

  ghost predicate Inv(cfg: Config, s: State) {
    && Explained(cfg, s.log)
    && CacheAgrees(s)
    && MutexAgrees(s)
    && AttemptsAgree(cfg, s)
  }

  /** `after` is `before` with at most two events added, all of attempt `p`. */
  ghost predicate AddedBy(p: nat, before: Log, after: Log) {
    || after == before
    || (after.Then? && after.event.attempt == p
        && (|| after.past == before
            || (after.past.Then? && after.past.event.attempt == p && after.past.past == before)))
  }

  lemma AccountsKept(p: nat, before: Log, after: Log, q: nat)
    requires AddedBy(p, before, after) && q != p
    ensures AccountOf(after, q) == AccountOf(before, q)
  {
    if after != before && after.past != before {
      assert AccountOf(after, q) == AccountOf(after.past, q) == AccountOf(before, q);
    }
  }

  /** A step that only attempt `p` is concerned by: time passes, and the cache changes only by an install. */
  ghost predicate ConcernsOnly(p: nat, s: State, t: State) {
    && p in s.attempts && t.attempts.Keys == s.attempts.Keys
    && (forall q :: q in s.attempts && q != p ==> t.attempts[q] == s.attempts[q])
    && AddedBy(p, s.log, t.log)
    && s.clock <= t.clock
    && (|| (Installs(s.log) == Installs(t.log) && t.cache == s.cache)
        || (Installs(s.log) < Installs(t.log) && s.leader == Some(p)))
  }

  lemma StandingKept(cfg: Config, p: nat, s: State, t: State, q: nat)
    requires CacheAgrees(s) && MutexAgrees(s) && ConcernsOnly(p, s, t)
    requires q != p && q in s.attempts && Standing(cfg, s, q, s.attempts[q])
    ensures Standing(cfg, t, q, s.attempts[q])
  {
    AccountsKept(p, s.log, t.log, q);
  }

  lemma OthersStand(cfg: Config, p: nat, s: State, t: State)
    requires CacheAgrees(s) && MutexAgrees(s) && AttemptsAgree(cfg, s) && ConcernsOnly(p, s, t)
    requires !t.attempts[p].place.Ended? ==> Standing(cfg, t, p, t.attempts[p])
    ensures AttemptsAgree(cfg, t)
  {
    forall q | q in t.attempts && q != p && !t.attempts[q].place.Ended?
      ensures Standing(cfg, t, q, t.attempts[q])
    {
      StandingKept(cfg, p, s, t, q);
    }
    forall q | q !in t.attempts
      ensures AccountOf(t.log, q) == NOTHING_YET
    {
      AccountsKept(p, s.log, t.log, q);
    }
  }

  /** The invariant, except for where attempt `p`, which holds no mutex and is not over, stands. */
  ghost predicate InvApart(cfg: Config, s: State, p: nat) {
    && Explained(cfg, s.log)
    && CacheAgrees(s)
    && p in s.attempts && s.leader != Some(p)
    && (s.leader.Some? ==> s.leader.value in s.attempts && Leading(s.attempts[s.leader.value].place))
    && (forall q :: q in s.attempts && q != p && Leading(s.attempts[q].place) ==> s.leader == Some(q))
    && FetchInFlight(s.log) ==
       (if s.leader.Some? && !s.attempts[s.leader.value].place.CheckingNewer? then s.leader else None)
    && (forall q :: q in s.attempts && q != p && !s.attempts[q].place.Ended? ==> Standing(cfg, s, q, s.attempts[q]))
    && (forall q :: q !in s.attempts ==> AccountOf(s.log, q) == NOTHING_YET)
    && !AccountOf(s.log, p).over
  }

  /** Setting attempt `p` apart: it stops leading if it led, and reports one event other than an install. */
  lemma SetApart(cfg: Config, s: State, p: nat, event: Event)
    requires Inv(cfg, s) && p in s.attempts && !s.attempts[p].place.Ended?
    requires event.attempt == p && Explains(cfg, s.log, event)
    requires event.Observed? || event.Rechecked? || event.Decided? || event.RefreshEnded?
    requires s.leader == Some(p) ==> event.RefreshEnded?
    ensures InvApart(cfg, Append(Release(s, p), event), p)
  {
    var t := Append(Release(s, p), event);
    forall q | q in t.attempts && q != p && !t.attempts[q].place.Ended?
      ensures Standing(cfg, t, q, t.attempts[q])
    {
      StandingKept(cfg, p, s, t, q);
    }
  }

  lemma MoveKeeps(cfg: Config, s: State, p: nat, place: Place)
    requires InvApart(cfg, s, p) && !Leading(place) && !place.Ended?
    requires Standing(cfg, s, p, s.attempts[p].(place := place))
    ensures Inv(cfg, MoveTo(s, p, place))
  {
    var t := MoveTo(s, p, place);
    forall q | q in t.attempts && !t.attempts[q].place.Ended?
      ensures Standing(cfg, t, q, t.attempts[q])
    {
      assert q != p ==> Standing(cfg, s, q, s.attempts[q]);
    }
  }

  lemma FinishKeeps(cfg: Config, s: State, p: nat, outcome: Outcome)
    requires InvApart(cfg, s, p) && ExplainsOutcome(cfg, s.log, p, outcome)
    ensures Inv(cfg, Finish(s, p, outcome))
  {
    var t := Finish(s, p, outcome);
    forall q | q in t.attempts && q != p && !t.attempts[q].place.Ended?
      ensures Standing(cfg, t, q, t.attempts[q])
    {
      assert Standing(cfg, s, q, s.attempts[q]);
    }
  }

  lemma TimePasses(cfg: Config, s: State, end: nat)
    requires Inv(cfg, s) && s.clock <= end
    ensures Inv(cfg, s.(clock := end))
  {
  }

  lemma BeginKeeps(cfg: Config, s: State, step: Step)
    requires Inv(cfg, s) && Enabled(s, step) && (step.Begin? || step.Tick? || step.RaiseCancellation?)
    ensures Inv(cfg, Apply(cfg, s, step))
  {
    hide Explained, FetchInFlight, Saturated, ClassifyCache;
    match step
    case Begin(p, _, _) => assert AccountOf(s.log, p) == NOTHING_YET;
    case Tick(elapsed) => TimePasses(cfg, s, s.clock + elapsed);
    case RaiseCancellation =>
  }

  lemma ClassificationStands(cfg: Config, s: State, p: nat, place: Place)
    requires Enabled(s, Classify(p)) && CacheAgrees(s) && Standing(cfg, s, p, s.attempts[p])
    requires var seen := Observe(cfg, s, p);
             place == AfterClassification(Append(s, seen), p, seen.generation, seen.classification).attempts[p].place
    ensures Explains(cfg, s.log, Observe(cfg, s, p))
    ensures var apart := Append(s, Observe(cfg, s, p));
            if place.Ended? then ExplainsOutcome(cfg, apart.log, p, Usability(true, s.clock))
            else !Leading(place) && Standing(cfg, apart, p, apart.attempts[p].(place := place))
  {
    hide GuardedDecision, Verifies, ToleratesAge;
  }

  lemma ClassifyKeeps(cfg: Config, s: State, p: nat)
    requires Inv(cfg, s) && Enabled(s, Classify(p))
    ensures Inv(cfg, Apply(cfg, s, Classify(p)))
  {
    var seen := Observe(cfg, s, p);
    var apart := Append(s, seen);
    var after := AfterClassification(apart, p, seen.generation, seen.classification);
    ClassificationStands(cfg, s, p, after.attempts[p].place);
    hide Inv, InvApart, Explains, ExplainsOutcome, Standing, ClassifyCache;
    SetApart(cfg, s, p, seen);
    if after.attempts[p].place.Ended? {
      FinishKeeps(cfg, apart, p, Usability(true, s.clock));
    } else {
      MoveKeeps(cfg, apart, p, after.attempts[p].place);
    }
  }

  lemma FirstDecisionStands(cfg: Config, s: State, step: Step, after: State)
    requires Enabled(s, step) && step.DecideFirst? && CacheAgrees(s)
    requires Standing(cfg, s, step.p, s.attempts[step.p])
    requires var event := Decide(cfg, s, step.p, step.wall, step.interrupted);
             after == AfterFirstDecision(Append(s, event), step.p, s.attempts[step.p].place.observed, event.decision)
    ensures var apart := Append(s, Decide(cfg, s, step.p, step.wall, step.interrupted));
            var place := after.attempts[step.p].place;
            if place.Ended? then
              && after.log.Then? && after.log.event.Finished?
              && after == Finish(apart, step.p, after.log.event.outcome)
              && ExplainsOutcome(cfg, apart.log, step.p, after.log.event.outcome)
            else
              && after == MoveTo(apart, step.p, place) && !Leading(place)
              && Standing(cfg, apart, step.p, apart.attempts[step.p].(place := place))
  {
    hide FetchInFlight;
    var event := Decide(cfg, s, step.p, step.wall, step.interrupted);
    assert AccountOf(Then(s.log, event), step.p) ==
           AccountOf(s.log, step.p).(provedInvalid := FoundInvalid(event.decision));
  }

  lemma DecideFirstKeeps(cfg: Config, s: State, step: Step)
    requires Inv(cfg, s) && Enabled(s, step) && step.DecideFirst?
    ensures Inv(cfg, Apply(cfg, s, step))
  {
    var p := step.p;
    var event := Decide(cfg, s, p, step.wall, step.interrupted);
    var after := AfterFirstDecision(Append(s, event), p, s.attempts[p].place.observed, event.decision);
    SetApart(cfg, s, p, event);
    FirstDecisionStands(cfg, s, step, after);
    if after.attempts[p].place.Ended? {
      FinishKeeps(cfg, Append(s, event), p, after.log.event.outcome);
    } else {
      MoveKeeps(cfg, Append(s, event), p, after.attempts[p].place);
    }
    TimePasses(cfg, after, step.end);
  }

  lemma TakeMutexKeeps(cfg: Config, s: State, p: nat)
    requires Inv(cfg, s) && Enabled(s, TakeMutex(p))
    ensures Inv(cfg, Apply(cfg, s, TakeMutex(p)))
  {
    OthersStand(cfg, p, s, Apply(cfg, s, TakeMutex(p)));
  }

  lemma ReuseKeeps(cfg: Config, s: State, p: nat)
    requires Inv(cfg, s) && Enabled(s, CheckNewer(p))
    requires NewerAndFresh(cfg.policy, s.cache, s.attempts[p].place.observed, s.clock)
    ensures Inv(cfg, Apply(cfg, s, CheckNewer(p)))
  {
    hide ExplainsOutcome, GuardedDecision;
    SetApart(cfg, s, p, RefreshEnded(p, Reused));
    MoveKeeps(cfg, Append(Release(s, p), RefreshEnded(p, Reused)), p, FinalDecision(s.attempts[p].place.mode, true));
  }

  lemma FetchBeginsKeeps(cfg: Config, s: State, p: nat)
    requires Inv(cfg, s) && Enabled(s, CheckNewer(p))
    requires !NewerAndFresh(cfg.policy, s.cache, s.attempts[p].place.observed, s.clock)
    ensures Inv(cfg, Apply(cfg, s, CheckNewer(p)))
  {
    hide ExplainsOutcome, GuardedDecision;
    OthersStand(cfg, p, s, Apply(cfg, s, CheckNewer(p)));
  }

  lemma CheckNewerKeeps(cfg: Config, s: State, p: nat)
    requires Inv(cfg, s) && Enabled(s, CheckNewer(p))
    ensures Inv(cfg, Apply(cfg, s, CheckNewer(p)))
  {
    hide Inv, Apply;
    if NewerAndFresh(cfg.policy, s.cache, s.attempts[p].place.observed, s.clock) {
      ReuseKeeps(cfg, s, p);
    } else {
      FetchBeginsKeeps(cfg, s, p);
    }
  }

  lemma FetchSucceedsKeeps(cfg: Config, s: State, step: Step)
    requires Inv(cfg, s) && Enabled(s, step) && step.FetchSucceeds?
    ensures Inv(cfg, Apply(cfg, s, step))
  {
    OthersStand(cfg, step.p, s, Apply(cfg, s, step));
  }

  lemma FetchFailsKeeps(cfg: Config, s: State, p: nat)
    requires Inv(cfg, s) && Enabled(s, FetchFails(p))
    ensures Inv(cfg, Apply(cfg, s, FetchFails(p)))
  {
    var mode := s.attempts[p].place.mode;
    SetApart(cfg, s, p, RefreshEnded(p, Unavailable));
    var apart := Append(Release(s, p), RefreshEnded(p, Unavailable));
    if mode.StaleFallback? {
      MoveKeeps(cfg, apart, p, FinalDecision(mode, false));
    } else {
      FinishKeeps(cfg, apart, p, AfterRefresh(apart, p, mode, false).log.event.outcome);
    }
  }

  lemma InstallShared(cfg: Config, s: State, p: nat)
    requires Enabled(s, Install(p)) && Explained(cfg, s.log) && CacheAgrees(s) && MutexAgrees(s)
    requires Standing(cfg, s, p, s.attempts[p])
    ensures var t := Apply(cfg, s, Install(p)); Explained(cfg, t.log) && CacheAgrees(t) && MutexAgrees(t)
  {
  }

  lemma InstallOwn(cfg: Config, s: State, p: nat)
    requires Enabled(s, Install(p)) && CacheAgrees(s) && MutexAgrees(s) && Standing(cfg, s, p, s.attempts[p])
    ensures var t := Apply(cfg, s, Install(p)); ConcernsOnly(p, s, t) && Standing(cfg, t, p, t.attempts[p])
  {
  }

  lemma InstallKeeps(cfg: Config, s: State, p: nat)
    requires Inv(cfg, s) && Enabled(s, Install(p))
    ensures Inv(cfg, Apply(cfg, s, Install(p)))
  {
    assert Standing(cfg, s, p, s.attempts[p]);
    hide Explained, CacheAgrees, MutexAgrees, AttemptsAgree, Standing, Apply, ConcernsOnly;
    InstallShared(cfg, s, p);
    InstallOwn(cfg, s, p);
    OthersStand(cfg, p, s, Apply(cfg, s, Install(p)));
  }

  lemma DecideFinalKeeps(cfg: Config, s: State, step: Step)
    requires Inv(cfg, s) && Enabled(s, step) && step.DecideFinal?
    ensures Inv(cfg, Apply(cfg, s, step))
  {
    var p := step.p;
    var a := s.attempts[p];
    var after: State;
    if a.purpose.EnsureUsable? {
      var seen := Recheck(cfg, s, p);
      if step.interrupted {
        after := Finish(s, p, Usability(false, s.clock));
        FinishKeeps(cfg, s, p, Usability(false, s.clock));
      } else {
        var usable := seen.classification != ColdOrExpired;
        SetApart(cfg, s, p, seen);
        after := Finish(Append(s, seen), p, Usability(usable, s.clock));
        FinishKeeps(cfg, Append(s, seen), p, Usability(usable, s.clock));
      }
    } else {
      var event := Decide(cfg, s, p, step.wall, step.interrupted);
      var outcome := Authenticated(if a.place.refreshed then RefreshedResult(event.decision)
                                   else FallbackResult(event.decision));
      SetApart(cfg, s, p, event);
      FinalOutcomeExplained(cfg, s, step, outcome);
      after := Finish(Append(s, event), p, outcome);
      FinishKeeps(cfg, Append(s, event), p, outcome);
    }
    TimePasses(cfg, after, step.end);
  }

  lemma FinalOutcomeExplained(cfg: Config, s: State, step: Step, outcome: Outcome)
    requires Inv(cfg, s) && Enabled(s, step) && step.DecideFinal? && s.attempts[step.p].purpose.Authenticate?
    requires var event := Decide(cfg, s, step.p, step.wall, step.interrupted);
             outcome == Authenticated(if s.attempts[step.p].place.refreshed then RefreshedResult(event.decision)
                                      else FallbackResult(event.decision))
    ensures ExplainsOutcome(cfg, Then(s.log, Decide(cfg, s, step.p, step.wall, step.interrupted)), step.p, outcome)
  {
  }

  lemma GiveUpKeeps(cfg: Config, s: State, p: nat)
    requires Inv(cfg, s) && Enabled(s, GiveUp(p))
    ensures Inv(cfg, Apply(cfg, s, GiveUp(p)))
  {
    var a := s.attempts[p];
    if InRefresh(a.place) {
      SetApart(cfg, s, p, RefreshEnded(p, GaveUp));
      FinishKeeps(cfg, Append(Release(s, p), RefreshEnded(p, GaveUp)), p, ContextLost(s, a.purpose));
    } else {
      FinishKeeps(cfg, s, p, ContextLost(s, a.purpose));
    }
  }

  lemma DropKeeps(cfg: Config, s: State, p: nat)
    requires Inv(cfg, s) && Enabled(s, Drop(p))
    ensures Inv(cfg, Apply(cfg, s, Drop(p)))
  {
    OthersStand(cfg, p, s, Apply(cfg, s, Drop(p)));
  }

  lemma StepKeeps(cfg: Config, s: State, step: Step)
    requires Inv(cfg, s) && Enabled(s, step)
    ensures Inv(cfg, Apply(cfg, s, step))
  {
    hide Inv, Apply, Enabled;
    match step
    case Classify(p) => ClassifyKeeps(cfg, s, p);
    case DecideFirst(_, _, _, _) => DecideFirstKeeps(cfg, s, step);
    case TakeMutex(p) => TakeMutexKeeps(cfg, s, p);
    case CheckNewer(p) => CheckNewerKeeps(cfg, s, p);
    case FetchSucceeds(_, _) => FetchSucceedsKeeps(cfg, s, step);
    case FetchFails(p) => FetchFailsKeeps(cfg, s, p);
    case Install(p) => InstallKeeps(cfg, s, p);
    case DecideFinal(_, _, _, _) => DecideFinalKeeps(cfg, s, step);
    case GiveUp(p) => GiveUpKeeps(cfg, s, p);
    case Drop(p) => DropKeeps(cfg, s, p);
    case _ => BeginKeeps(cfg, s, step);
  }

  // ---------------------------------------------------------------- what every run guarantees

  /** In every run, every event is explained by what happened before it. */
  lemma {:induction false} EveryRunIsExplained(cfg: Config, steps: seq<Step>, states: seq<State>, k: nat)
    requires Run(cfg, steps, states) && k < |states|
    ensures Inv(cfg, states[k]) && Explained(cfg, states[k].log)
  {
    if k > 0 {
      EveryRunIsExplained(cfg, steps, states, k - 1);
      assert Machine(cfg)(states[k - 1], steps[k - 1], states[k - 1 + 1]);
      StepKeeps(cfg, states[k - 1], steps[k - 1]);
    }
  }

  /** Every event of an explained history is explained by what came before it. */
  lemma {:induction false} ExplainedAt(cfg: Config, log: Log, past: Log, event: Event)
    requires Explained(cfg, log) && Prefix(Then(past, event), log)
    ensures Explained(cfg, past) && Explains(cfg, past, event)
  {
    if log != Then(past, event) {
      ExplainedAt(cfg, log.past, past, event);
    }
  }

  /**
   No run accepts a token on material that is too old: the snapshot read by the accepting decision is
   the current one, holds a verifying key, and is no older than the freshness, or than the freshness
   and the stale-if-error grace together when this attempt's own refresh found the source unavailable.
   */
  lemma AcceptanceIsTimely(cfg: Config, steps: seq<Step>, states: seq<State>, k: nat,
                           past: Log, p: nat, client: string)
    requires Run(cfg, steps, states) && k < |states|
    requires Prefix(Then(past, Finished(p, Authenticated(Ok(client)))), states[k].log)
    ensures past.Then? && past.event.Decided? && past.event.attempt == p
    ensures past.event.seen == Current(past.past) && past.event.seen.Some?
    ensures var snapshot, now := past.event.seen.value, past.event.now;
            && snapshot.acquired <= now
            && (|| now - snapshot.acquired <= cfg.policy.freshness
                || (&& now - snapshot.acquired <= cfg.policy.freshness + cfg.policy.staleIfError
                    && AccountOf(past.past, p).refresh == Some(Unavailable)))
            && exists c :: c in snapshot.candidates && Verifies(cfg.lib, c, past.event.token, past.event.algorithm)
  {
    EveryRunIsExplained(cfg, steps, states, k);
    ExplainedAt(cfg, states[k].log, past, Finished(p, Authenticated(Ok(client))));
  }

  /**
   Claims are judged only of authentic tokens, and in order. A scope is held against a token, or accepted, only if a key
   of the snapshot verified it and it is in force. An unreadable wall clock is reported only for a token that is
   authentic and well formed, so it never masks an invalid credential.
   */
  lemma OnlyAuthenticTokensAreJudged(cfg: Config, steps: seq<Step>, states: seq<State>, k: nat, past: Log, p: nat,
                                     result: Authentication)
    requires Run(cfg, steps, states) && k < |states|
    requires Prefix(Then(past, Finished(p, Authenticated(result))), states[k].log)
    ensures result.Ok? || result == Err(ErrForbidden) ==>
              && past.Then? && past.event.Decided? && Authentic(cfg.lib, past.event)
              && var token, wall, claims := past.event.token, past.event.wall, cfg.lib.shapes(past.event.token);
              && claims.Some? && wall.Some? && InForce(claims.value, wall.value, cfg.lib.skew)
              && (if result.Ok? then cfg.lib.scope(token).Allowed? && result.value == claims.value.client
                  else cfg.lib.scope(token).NotAllowed?)
    ensures && result == Err(ErrVerifierUnavailable) && past.Then? && past.event.Decided?
            && Verified(past.event.decision) == Some(VerifierUnavailable) ==>
              Authentic(cfg.lib, past.event) && past.event.wall.None? && cfg.lib.shapes(past.event.token).Some?
  {
    hide Run, Inv, Authentic, InForce;
    EveryRunIsExplained(cfg, steps, states, k);
    ExplainedAt(cfg, states[k].log, past, Finished(p, Authenticated(result)));
  }

  /**
   Outages do not confuse verdicts: a token of an unknown key is rejected only against a snapshot
   installed after the one the attempt first observed, and an attempt that proved a signature invalid
   and then found the source unavailable does not end with the verifier unavailable.
   */
  lemma OutagesDoNotConfuseVerdicts(cfg: Config, steps: seq<Step>, states: seq<State>, k: nat, past: Log, p: nat)
    requires Run(cfg, steps, states) && k < |states|
    ensures && Prefix(Then(past, Finished(p, Authenticated(Err(ErrRejected)))), states[k].log)
            && past.Then? && past.event.Decided?
            && past.event.decision in {FreshDecision(NoCandidate), StaleDecision(NoCandidate)}
            ==> AccountOf(past, p).observed.Some?
                && AccountOf(past, p).observed.value.installs < Installs(past)
    ensures && Prefix(Then(past, Finished(p, Authenticated(Err(ErrVerifierUnavailable)))), states[k].log)
            && AccountOf(past, p).provedInvalid
            ==> AccountOf(past, p).refresh != Some(Unavailable)
  {
    EveryRunIsExplained(cfg, steps, states, k);
    var rejected := Finished(p, Authenticated(Err(ErrRejected)));
    var unavailable := Finished(p, Authenticated(Err(ErrVerifierUnavailable)));
    if Prefix(Then(past, rejected), states[k].log) {
      ExplainedAt(cfg, states[k].log, past, rejected);
    }
    if Prefix(Then(past, unavailable), states[k].log) {
      ExplainedAt(cfg, states[k].log, past, unavailable);
    }
  }

  /**
   Fetches are rare: an attempt starts at most one, no two run at once, none starts while a generation newer than
   the observed one is fresh, and a readiness check that observed usable state starts none.
   */
  lemma FetchesAreRare(cfg: Config, steps: seq<Step>, states: seq<State>, k: nat, past: Log, p: nat, now: nat)
    requires Run(cfg, steps, states) && k < |states|
    requires Prefix(Then(past, FetchBegan(p, now)), states[k].log)
    ensures AccountOf(past, p).fetches == 0 && FetchInFlight(past).None? && AccountOf(past, p).observed.Some?
    ensures var observed := AccountOf(past, p).observed.value;
            && !NewerAndFresh(cfg.policy, Current(past), observed.generation, now)
            && (!observed.forToken ==> observed.classification == ColdOrExpired)
  {
    EveryRunIsExplained(cfg, steps, states, k);
    ExplainedAt(cfg, states[k].log, past, FetchBegan(p, now));
  }

  /**
   The cache always is the newest install, which only the attempt whose fetch succeeded makes: refreshes that fail,
   are cancelled or are dropped leave it as it was.
   */
  lemma OnlyInstallsChangeTheCache(cfg: Config, steps: seq<Step>, states: seq<State>, k: nat, past: Log, p: nat,
                                   snapshot: Snapshot)
    requires Run(cfg, steps, states) && k < |states|
    ensures states[k].cache == Current(states[k].log)
    ensures Prefix(Then(past, Installed(p, snapshot)), states[k].log) ==>
              FetchInFlight(past) == Some(p) && snapshot.generation == SaturatingIncrement(Generation(Current(past)))
  {
    EveryRunIsExplained(cfg, steps, states, k);
    if Prefix(Then(past, Installed(p, snapshot)), states[k].log) {
      ExplainedAt(cfg, states[k].log, past, Installed(p, snapshot));
    }
  }

  /** Installs only accumulate; the newest snapshot's generation counts them, and acquisition times never go back. */
  lemma {:induction false} InstallsAccumulate(cfg: Config, earlier: Log, later: Log)
    requires Explained(cfg, later) && Prefix(earlier, later)
    ensures Explained(cfg, earlier)
    ensures Installs(earlier) <= Installs(later)
    ensures Generation(Current(later)) == Saturated(Installs(later))
    ensures Current(earlier).Some? ==>
              Current(later).Some? && Current(earlier).value.acquired <= Current(later).value.acquired
    ensures Installs(earlier) == Installs(later) ==> Current(earlier) == Current(later)
    decreases later
  {
    if later.Then? {
      if earlier != later {
        InstallsAccumulate(cfg, earlier, later.past);
      } else {
        InstallsAccumulate(cfg, later.past, later.past);
      }
    }
  }

  /** An attempt looks at the cache under the read guard: to classify it, to decide, or to classify it again. */
  predicate Looks(event: Event) {
    event.Observed? || event.Rechecked? || event.Decided?
  }

  function GenerationRead(event: Event): nat
    requires Looks(event)
  {
    if event.Decided? then Generation(event.seen) else event.generation
  }

  /** Successive guarded reads of a run, of whatever kind, never see an older generation, nor older keys. */
  lemma GenerationsNeverDecrease(cfg: Config, steps: seq<Step>, states: seq<State>, k: nat,
                                 first: Log, e1: Event, second: Log, e2: Event)
    requires Run(cfg, steps, states) && k < |states| && Looks(e1) && Looks(e2)
    requires Prefix(Then(first, e1), second) && Prefix(Then(second, e2), states[k].log)
    ensures GenerationRead(e1) <= GenerationRead(e2)
    ensures e1.Decided? && e2.Decided? && e1.seen.Some? ==>
              e2.seen.Some? && e1.seen.value.acquired <= e2.seen.value.acquired
  {
    hide Run, Inv;
    EveryRunIsExplained(cfg, steps, states, k);
    ExplainedAt(cfg, states[k].log, second, e2);
    ExplainedAt(cfg, second, first, e1);
    assert Prefix(first, Then(first, e1));
    PrefixTransitive(first, Then(first, e1), second);
    InstallsAccumulate(cfg, first, second);
    InstallsAccumulate(cfg, first, first);
  }

  /** `snapshot` was current at some moment from `since` on. */
  ghost predicate CurrentSince(since: Log, log: Log, snapshot: Snapshot) {
    exists moment :: Prefix(since, moment) && Prefix(moment, log) && Current(moment) == Some(snapshot)
  }

  /** From `rotated` on, no snapshot has a key that verifies the token. */
  ghost predicate RotatedAway(cfg: Config, rotated: Log, log: Log, token: Token, algorithm: string) {
    forall snapshot, c :: CurrentSince(rotated, log, snapshot) && c in snapshot.candidates ==>
      !Verifies(cfg.lib, c, token, algorithm)
  }

  lemma RotatedDecision(cfg: Config, log: Log, rotated: Log, token: Token, algorithm: string, past: Log, event: Event)
    requires Explained(cfg, log) && Prefix(rotated, past) && Prefix(Then(past, event), log)
    requires RotatedAway(cfg, rotated, log, token, algorithm)
    requires event.Decided? && event.token == token && event.algorithm == algorithm
    ensures event.decision.FreshDecision? || event.decision.StaleDecision? ==> !event.decision.verification.Valid?
    ensures event.seen.Some? ==>
              forall c :: c in event.seen.value.candidates ==> !Verifies(cfg.lib, c, token, algorithm)
  {
    ExplainedAt(cfg, log, past, event);
    assert Prefix(past, Then(past, event));
    PrefixTransitive(past, Then(past, event), log);
    if event.seen.Some? {
      assert CurrentSince(rotated, log, event.seen.value);
    }
  }

  /**
   Rotation is final: once no snapshot from `rotated` on has a key that verifies the token, no decision finds it valid,
   and no attempt that decides after that ends authenticated, whatever it had observed before.
   */
  lemma RotationIsFinal(cfg: Config, steps: seq<Step>, states: seq<State>, k: nat,
                        rotated: Log, token: Token, algorithm: string, past: Log, event: Event)
    requires Run(cfg, steps, states) && k < |states|
    requires RotatedAway(cfg, rotated, states[k].log, token, algorithm)
    requires Prefix(rotated, past) && Prefix(Then(past, event), states[k].log)
    requires event.Decided? && event.token == token && event.algorithm == algorithm
    ensures event.decision.FreshDecision? || event.decision.StaleDecision? ==> !event.decision.verification.Valid?
    ensures forall p, client :: !Prefix(Then(Then(past, event), Finished(p, Authenticated(Ok(client)))), states[k].log)
  {
    hide Run, Inv, RotatedAway;
    EveryRunIsExplained(cfg, steps, states, k);
    RotatedDecision(cfg, states[k].log, rotated, token, algorithm, past, event);
    forall p, client
      ensures !Prefix(Then(Then(past, event), Finished(p, Authenticated(Ok(client)))), states[k].log)
    {
      if Prefix(Then(Then(past, event), Finished(p, Authenticated(Ok(client)))), states[k].log) {
        AcceptanceIsTimely(cfg, steps, states, k, Then(past, event), p, client);
      }
    }
  }

  /** The moment at which the fetch in flight was begun. */
  lemma {:induction false} FetchMoment(cfg: Config, log: Log, q: nat) returns (began: Log, now: nat)
    requires Explained(cfg, log) && FetchInFlight(log) == Some(q)
    ensures Prefix(Then(began, FetchBegan(q, now)), log)
    ensures Installs(log) - Installs(began) == AccountOf(log, q).installs - AccountOf(began, q).installs
    ensures AccountOf(log, q).observed == AccountOf(began, q).observed
  {
    if log.event.FetchBegan? {
      began, now := log.past, log.event.now;
    } else {
      began, now := FetchMoment(cfg, log.past, q);
      var fetch := Then(began, FetchBegan(q, now));
      ExplainedAt(cfg, log.past, began, FetchBegan(q, now));
      assert Prefix(began, fetch);
      PrefixTransitive(began, fetch, log.past);
      ObservedOnce(cfg, began, log.past, q);
    }
  }

  /** An attempt observes the cache once. */
  lemma {:induction false} ObservedOnce(cfg: Config, earlier: Log, later: Log, q: nat)
    requires Explained(cfg, later) && Prefix(earlier, later) && AccountOf(earlier, q).observed.Some?
    ensures AccountOf(later, q).observed == AccountOf(earlier, q).observed
    decreases later
  {
    if earlier != later {
      ObservedOnce(cfg, earlier, later.past, q);
    }
  }

  /** What an attempt observed is the generation that counts the installs before its observation. */
  lemma {:induction false} ObservedCounts(cfg: Config, log: Log, p: nat)
    requires Explained(cfg, log)
    ensures AccountOf(log, p).observed.Some? ==>
              && AccountOf(log, p).observed.value.installs <= Installs(log)
              && AccountOf(log, p).observed.value.generation == Saturated(AccountOf(log, p).observed.value.installs)
  {
    if log.Then? {
      ObservedCounts(cfg, log.past, p);
      InstallsAccumulate(cfg, log.past, log.past);
    }
  }

  /**
   Refreshes coalesce: when two attempts observed the same generation (below the counter's maximum)
   and both installed, the second one began its fetch only after the first install, at a moment when
   what the first one installed was no longer fresh.
   */
  lemma RefreshesCoalesce(cfg: Config, steps: seq<Step>, states: seq<State>, k: nat,
                          first: Log, p: nat, early: Snapshot, second: Log, q: nat, late: Snapshot)
    returns (began: Log, now: nat)
    requires Run(cfg, steps, states) && k < |states|
    requires Prefix(Then(first, Installed(p, early)), second) && Prefix(Then(second, Installed(q, late)), states[k].log)
    requires AccountOf(first, p).observed.Some? && AccountOf(second, q).observed.Some?
    requires AccountOf(first, p).observed.value.generation == AccountOf(second, q).observed.value.generation < U64_MAX
    ensures Prefix(Then(first, Installed(p, early)), began) && Prefix(Then(began, FetchBegan(q, now)), second)
    ensures early.acquired <= now && cfg.policy.freshness < now - early.acquired
  {
    hide Run, Inv;
    EveryRunIsExplained(cfg, steps, states, k);
    ExplainedAt(cfg, states[k].log, second, Installed(q, late));
    began, now := LoggedRefreshesCoalesce(cfg, first, p, early, second, q, late);
  }

  lemma LoggedRefreshesCoalesce(cfg: Config, first: Log, p: nat, early: Snapshot, second: Log, q: nat, late: Snapshot)
    returns (began: Log, now: nat)
    requires Explained(cfg, Then(second, Installed(q, late)))
    requires Prefix(Then(first, Installed(p, early)), second)
    requires AccountOf(first, p).observed.Some? && AccountOf(second, q).observed.Some?
    requires AccountOf(first, p).observed.value.generation == AccountOf(second, q).observed.value.generation < U64_MAX
    ensures Prefix(Then(first, Installed(p, early)), began) && Prefix(Then(began, FetchBegan(q, now)), second)
    ensures early.acquired <= now && cfg.policy.freshness < now - early.acquired
  {
    var installed := Then(first, Installed(p, early));
    began, now := FetchMoment(cfg, second, q);
    var fetch := FetchBegan(q, now);
    ExplainedAt(cfg, second, began, fetch);
    assert Prefix(began, Then(began, fetch));
    PrefixTransitive(began, Then(began, fetch), second);
    ExplainedAt(cfg, second, first, Installed(p, early));
    // Nothing was installed while the second fetch ran, so the first install preceded it.
    assert Installs(began) >= Installs(second);
    assert Prefix(first, installed);
    InstallsAccumulate(cfg, installed, second);
    PrefixesAreOrdered(installed, began, second);
    if Prefix(began, installed) && began != installed {
      InstallsAccumulate(cfg, began, first);
    }
    InstallsAccumulate(cfg, installed, began);
    ObservedCounts(cfg, first, p);
  }
}
