/** The invariant of the serving process, and that every step keeps it. */
module ServerProofs {
  import opened Wrappers
  import opened Histories
  import opened Semaphores
  import opened Lifecycles
  import opened Server

  // ---------------------------------------------------------------- who has what, where

  /** The three semaphores, and what a request in some place has of each. */
  datatype Resource = Permit | Slot | Capacity

  function ShareIn(resource: Resource, place: Place): Share {
    match resource
    case Permit =>
      if place.Parked? || InLineWith(place) then InLine
      else if place.Finalizing? || place.Cleared? || place.Returning? || place.Decided? || place.Admitted? then Holds
      else if (place.Waking? || place.Unlisted? || place.Unparking? || place.Unslotting?) && place.fate.Won? then Holds
      else Nothing
    case Slot => if In(AllSlotted, place) then Holds else Nothing
    case Capacity =>
      if !place.Admitted? then Nothing
      else if place.phase.Queued? || place.phase.Withdrawing? then InLine
      else if place.phase.Granted? || place.phase.GrantedClock? || place.phase.Raising? || place.phase.Working?
              || place.phase.Lowering? || place.phase.Releasing? then Holds
      else Nothing
  }

  /** The populations a request can belong to, and those the three gauges count. */
  datatype Population =
    | AllAdmitted | AllWorking | AllUndecided | AllSlotted
    | InWaitingGauge | InFlightGauge | InUseGauge

  predicate Waits(place: Place) {
    place.Listening? || place.Parked? || place.Waking? || place.Unlisted? || place.Unparking?
  }

  predicate In(population: Population, place: Place) {
    match population
    case AllAdmitted => place.Decided? || place.Admitted?
    case AllWorking => place.Admitted? && (place.phase.Raising? || place.phase.Working?)
    case AllUndecided =>
      && !place.Decided? && !place.Admitted? && !place.Over?
      && !((place.Waking? || place.Unlisted? || place.Unparking? || place.Unslotting?) && place.fate.Gone?)
    case AllSlotted => place.Slotted? || Waits(place) || place.Unslotting?
    case InWaitingGauge => Waits(place)
    case InFlightGauge => place.Admitted? && !place.phase.Departing?
    case InUseGauge => place.Admitted? && (place.phase.Working? || place.phase.Lowering?)
  }

  /** Its shutdown future exists. */
  predicate Listens(place: Place) {
    place.Listening? || place.Parked? || place.Waking?
  }

  /** It has read the flag as serving and may have been admitted. */
  predicate PastClearance(place: Place) {
    place.Cleared? || place.Decided? || place.Admitted?
  }

  ghost function Where(requests: map<nat, Request>, population: Population): set<nat> {
    set r | r in requests && In(population, requests[r].place)
  }

  // ---------------------------------------------------------------- the invariant

  /** A semaphore of `limit` permits knows exactly the requests whose place says so. */
  ghost predicate Agrees(sem: Semaphore, limit: nat, requests: map<nat, Request>, resource: Resource) {
    && Consistent(sem) && Permits(sem) == limit
    && (forall r :: r in sem.held <==> (r in requests && ShareIn(resource, requests[r].place) == Holds))
    && (forall r :: Waiting(sem, r) <==> (r in requests && ShareIn(resource, requests[r].place) == InLine))
  }

  ghost predicate GateAgrees(cfg: Config, requests: map<nat, Request>, gate: Gate) {
    && Agrees(gate.permits, cfg.limit, requests, Permit)
    && Agrees(gate.slots, cfg.limit, requests, Slot)
    && Agrees(gate.capacity, cfg.capacity, requests, Capacity)
  }

  /** Each gauge counts the requests between its raise and its lowering. */
  ghost predicate GaugesAgree(requests: map<nat, Request>, gate: Gate) {
    && gate.waiting == |Where(requests, InWaitingGauge)|
    && gate.inFlight == |Where(requests, InFlightGauge)|
    && gate.inUse == |Where(requests, InUseGauge)|
  }

  ghost predicate PopulationsAgree(account: Account, requests: map<nat, Request>, gate: Gate) {
    && account.inFlight == Where(requests, AllAdmitted)
    && account.atWork == Where(requests, AllWorking)
    && account.undecided == Where(requests, AllUndecided)
    && account.slotted == Where(requests, AllSlotted)
    && account.tally.abandoned == gate.abandoned && account.tally.refused == gate.refused
    && (forall r :: r in requests && requests[r].place.Cleared? ==> r in account.cleared)
    && (forall r :: r in requests && requests[r].place.Refusing? ==> r in account.turnedAway)
  }

  ghost predicate LogAgrees(s: State) {
    var account := AccountOf(s.log);
    && account.open == s.connections
    && account.shutDown == s.life.shuttingDown && account.cancelled == s.life.cancelled
    && account.unusableStreak == s.failures
  }

  /** What the log says about probes is so: a probe that may poll shutdown as pending read the flag as serving. */
  ghost predicate ProbesAgree(probes: Probes, life: Lifecycle, probing: set<nat>) {
    && probes.announced == life.announced && probes.probing == probing
    && (forall c :: c in probing ==> At(life, Probe(c), Committed))
    && (forall c :: At(life, Probe(c), Committed) ==> c in probes.served)
  }

  /** Who has a shutdown future. */
  ghost predicate ListenersAgree(s: State) {
    && (Loop in s.life.stages <==> !s.serve.Exited?)
    && (Backoff in s.life.stages <==> s.serve.Backing?)
    && (forall c :: Conn(c) in s.life.stages || Probe(c) in s.life.stages ==> c in s.connections)
    && (forall r :: Of(r) in s.life.stages <==> r in s.requests && Listens(s.requests[r].place))
  }

  predicate Serving(serve: Serve) {
    serve.Accepting? || serve.Backing?
  }

  predicate Ending(serve: Serve) {
    !Serving(serve) && !serve.Failed? && !serve.FatalStored?
  }

  ghost predicate ServeAgrees(s: State) {
    && (Serving(s.serve) ==> s.failures < MAX_CONSECUTIVE_ACCEPT_FAILURES)
    && (s.serve.Failed? || s.serve.FatalStored? ==> s.failures == MAX_CONSECUTIVE_ACCEPT_FAILURES)
    && (Ending(s.serve) ==>
          && s.failures <= MAX_CONSECUTIVE_ACCEPT_FAILURES
          && (s.serve.fatal <==> s.failures == MAX_CONSECUTIVE_ACCEPT_FAILURES))
    && (s.serve.FatalStored? || Ending(s.serve) || !s.signal.Idle? ==> s.life.shuttingDown)
    && (!Ending(s.serve) && !s.serve.FatalStored? && s.life.shuttingDown ==> !s.signal.Idle?)
    && (s.signal.Done? ==> s.life.announced)
    && (s.serve.Exited? ==> s.connections == {})
    && (forall r :: Live(s, r) ==> s.requests[r].connection in s.connections)
  }

  ghost predicate ClockAgrees(cfg: Config, s: State) {
    var latest := AccountOf(s.log).latestDeadline;
    && (forall r :: Live(s, r) ==> s.requests[r].deadline <= s.clock + cfg.overall)
    && (forall r :: Live(s, r) && PastClearance(s.requests[r].place) ==> s.requests[r].deadline <= latest)
    && latest <= s.clock + cfg.overall
    && (s.serve.Draining? ==> s.serve.since <= s.clock && latest <= s.serve.since + cfg.overall)
    && (s.serve.Window? ==> s.serve.since <= s.clock)
    && (s.life.cancelled ==> latest <= s.clock)
  }

  ghost predicate Inv(cfg: Config, s: State) {
    && Explained(cfg, s.log)
    && GateAgrees(cfg, s.requests, s.gate) && GaugesAgree(s.requests, s.gate)
    && PopulationsAgree(AccountOf(s.log), s.requests, s.gate)
    && LogAgrees(s) && Sound(s.life) && ListenersAgree(s) && ServeAgrees(s) && ClockAgrees(cfg, s)
    && ProbesAgree(AccountOf(s.log).probes, s.life, s.probing)
  }

  // ---------------------------------------------------------------- sets and semaphores

  function Toggle(before: bool, after: bool): int {
    (if after then 1 else 0) - (if before then 1 else 0)
  }

  /** The set `after` is `before` with `r` in or out. */
  ghost predicate Switched(before: set<nat>, after: set<nat>, r: nat, present: bool) {
    after == if present then before + {r} else before - {r}
  }

  lemma SwitchedCount(before: set<nat>, after: set<nat>, r: nat, present: bool)
    requires Switched(before, after, r, present)
    ensures |after| - |before| == Toggle(r in before, present)
  {
    assert |before| == |before - {r}| + if r in before then 1 else 0;
    assert before + {r} == (before - {r}) + {r};
  }

  lemma WhereMoves(requests: map<nat, Request>, population: Population, r: nat, place: Place)
    requires r in requests
    ensures var was, now := Where(requests, population), Where(requests[r := requests[r].(place := place)], population);
            && Switched(was, now, r, In(population, place))
            && |now| - |was| == Toggle(In(population, requests[r].place), In(population, place))
  {
    hide In;
    var was, now := Where(requests, population), Where(requests[r := requests[r].(place := place)], population);
    assert Switched(was, now, r, In(population, place));
    SwitchedCount(was, now, r, In(population, place));
  }

  lemma WhereGains(requests: map<nat, Request>, population: Population, r: nat, q: Request)
    requires r !in requests
    ensures Where(requests[r := q], population)
            == if In(population, q.place) then Where(requests, population) + {r} else Where(requests, population)
  {
    hide In;
  }

  /** `after` is `before` after the operation that the change of place calls for, which is allowed. */
  ghost predicate Transferred(before: Semaphore, after: Semaphore, r: nat, had: Share, has: Share) {
    && after == Transfer(before, r, had, has)
    && (had == Nothing && has == Holds ==> 0 < before.free)
    && (had == InLine && has == Holds ==> r in before.granted)
    && !(had == Holds && has == InLine)
  }

  lemma TransferredAgrees(before: Semaphore, after: Semaphore, limit: nat, requests: map<nat, Request>,
                          resource: Resource, r: nat, place: Place)
    requires Agrees(before, limit, requests, resource) && r in requests
    requires Transferred(before, after, r, ShareIn(resource, requests[r].place), ShareIn(resource, place))
    ensures Agrees(after, limit, requests[r := requests[r].(place := place)], resource)
  {
    hide ShareIn, Transfer, Consistent, Permits;
    assert r in before.held <==> ShareIn(resource, requests[r].place) == Holds;
    assert Waiting(before, r) <==> ShareIn(resource, requests[r].place) == InLine;
    TransferMoves(before, r, ShareIn(resource, requests[r].place), ShareIn(resource, place));
  }

  lemma NewcomerAgrees(sem: Semaphore, limit: nat, requests: map<nat, Request>, resource: Resource, r: nat, q: Request)
    requires Agrees(sem, limit, requests, resource) && r !in requests && ShareIn(resource, q.place) == Nothing
    ensures Agrees(sem, limit, requests[r := q], resource)
  {
    hide ShareIn;
  }

  // ---------------------------------------------------------------- what a request's step changes

  ghost predicate GateFollows(gate: Gate, r: nat, before: Place, effect: Effect) {
    && Transferred(gate.permits, effect.gate.permits, r, ShareIn(Permit, before), ShareIn(Permit, effect.place))
    && Transferred(gate.slots, effect.gate.slots, r, ShareIn(Slot, before), ShareIn(Slot, effect.place))
    && Transferred(gate.capacity, effect.gate.capacity, r, ShareIn(Capacity, before), ShareIn(Capacity, effect.place))
  }

  ghost predicate GaugesFollow(gate: Gate, before: Place, effect: Effect) {
    && effect.gate.waiting - gate.waiting == Toggle(In(InWaitingGauge, before), In(InWaitingGauge, effect.place))
    && effect.gate.inFlight - gate.inFlight == Toggle(In(InFlightGauge, before), In(InFlightGauge, effect.place))
    && effect.gate.inUse - gate.inUse == Toggle(In(InUseGauge, before), In(InUseGauge, effect.place))
  }

  /** What a request reports when it goes from one place to another, besides nothing. */
  ghost predicate Reports(r: nat, deadline: nat, before: Place, place: Place, event: Event) {
    match event
    case SlotTaken(q) => q == r && before.SeekingSlot? && place.Slotted?
    case SlotsFull(q) => q == r && before.SeekingSlot? && place.Refusing?
    case SlotReturned(q) => q == r && before.Unslotting? && place == AfterWait(before.fate)
    case ReadServing(q, d) => q == r && d == deadline && before.Finalizing? && place.Cleared?
    case Admission(q, d, _) => q == r && d == deadline && before.Cleared? && place.Decided?
    case Abandoned(q) => q == r && before.Abandoning? && place.Over?
    case Refused(q) => q == r && before.Refusing? && place.Over?
    case DroppedEarly(q) =>
      q == r && ((before.Entering? && place.Over?) || (before.Parked? && place == Waking(Gone, true)))
    case Left(q) => q == r && before == Admitted(Departing) && place.Over?
    case WorkBegan(q) => q == r && before == Admitted(GrantedClock) && place == Admitted(Raising)
    case WorkEnded(q) => q == r && before == Admitted(Working) && place.Admitted? && place.phase.Lowering?
    case _ => false
  }

  predicate Silent(before: Place, place: Place) {
    && In(AllAdmitted, before) == In(AllAdmitted, place) && In(AllWorking, before) == In(AllWorking, place)
    && In(AllUndecided, before) == In(AllUndecided, place) && In(AllSlotted, before) == In(AllSlotted, place)
    && !place.Cleared? && !place.Refusing? && (PastClearance(place) ==> PastClearance(before))
    && (place.Over? ==> before.Over?)
  }

  ghost predicate Speaks(log: Log, r: nat, q: Request, place: Place, after: Log) {
    || (after == log && Silent(q.place, place))
    || (after.Then? && after.past == log && Reports(r, q.deadline, q.place, place, after.event))
  }

  /** The two counters move with the reports that they count. */
  ghost predicate CountersFollow(gate: Gate, log: Log, effect: Effect) {
    && (effect.log == log || effect.log.Then?)
    && effect.gate.abandoned - gate.abandoned == (if effect.log != log && effect.log.event.Abandoned? then 1 else 0)
    && effect.gate.refused - gate.refused == (if effect.log != log && effect.log.event.Refused? then 1 else 0)
  }

  /** Only the request's own shutdown future changes: it is created, dropped or left alone. */
  predicate LifeFollows(life: Lifecycle, r: nat, before: Place, effect: Effect) {
    || (effect.life == life && Listens(before) == Listens(effect.place))
    || (effect.life == Create(life, Of(r)) && !Listens(before) && Listens(effect.place))
    || (effect.life == Dismiss(life, Of(r)) && Listens(before) && !Listens(effect.place))
  }

  ghost predicate Follows(s: State, r: nat, q: Request, effect: Effect) {
    && GateFollows(s.gate, r, q.place, effect) && GaugesFollow(s.gate, q.place, effect)
    && Speaks(s.log, r, q, effect.place, effect.log) && CountersFollow(s.gate, s.log, effect)
    && LifeFollows(s.life, r, q.place, effect) && !q.place.Over?
  }

  lemma SaidIsLonger(s: State, event: Event)
    ensures Then(s.log, event) != s.log
  {
    LongerIsDifferent(s.log, Then(s.log, event));
  }

  lemma EntryGate(s: State, r: nat, q: Request, move: EntryMove)
    requires MayEnter(s, r, q, move)
    ensures GateFollows(s.gate, r, q.place, EntryEffect(s, r, q, move))
  {
    hide StartWaiting, Claim, Abandon, Semaphores.Release;
  }

  lemma EntryGauges(s: State, r: nat, q: Request, move: EntryMove)
    requires MayEnter(s, r, q, move)
    ensures GaugesFollow(s.gate, q.place, EntryEffect(s, r, q, move))
    ensures LifeFollows(s.life, r, q.place, EntryEffect(s, r, q, move)) && !q.place.Over?
  {
    hide TryAcquire, StartWaiting, Claim, Abandon, Semaphores.Release;
  }

  lemma EntrySpeaks(s: State, r: nat, q: Request, move: EntryMove)
    requires MayEnter(s, r, q, move)
    ensures Speaks(s.log, r, q, EntryEffect(s, r, q, move).place, EntryEffect(s, r, q, move).log)
    ensures CountersFollow(s.gate, s.log, EntryEffect(s, r, q, move))
  {
    hide TryAcquire, StartWaiting, Claim, Abandon, Semaphores.Release;
    SaidIsLonger(s, SlotTaken(r));
    SaidIsLonger(s, SlotsFull(r));
  }

  lemma ExitGate(s: State, r: nat, q: Request, move: ExitMove)
    requires MaySettle(q, move)
    ensures GateFollows(s.gate, r, q.place, ExitEffect(s, r, q, move))
  {
    hide StartWaiting, Claim, Abandon, Semaphores.Release;
  }

  lemma ExitGauges(s: State, r: nat, q: Request, move: ExitMove)
    requires MaySettle(q, move)
    ensures GaugesFollow(s.gate, q.place, ExitEffect(s, r, q, move))
    ensures LifeFollows(s.life, r, q.place, ExitEffect(s, r, q, move)) && !q.place.Over?
  {
    hide TryAcquire, StartWaiting, Claim, Abandon, Semaphores.Release;
  }

  lemma ExitSpeaks(s: State, r: nat, q: Request, move: ExitMove)
    requires MaySettle(q, move)
    ensures Speaks(s.log, r, q, ExitEffect(s, r, q, move).place, ExitEffect(s, r, q, move).log)
    ensures CountersFollow(s.gate, s.log, ExitEffect(s, r, q, move))
  {
    hide TryAcquire, StartWaiting, Claim, Abandon, Semaphores.Release;
    SaidIsLonger(s, SlotReturned(r));
    SaidIsLonger(s, ReadServing(r, q.deadline));
    SaidIsLonger(s, Admission(r, q.deadline, s.clock));
    SaidIsLonger(s, Abandoned(r));
    SaidIsLonger(s, Refused(r));
  }

  lemma WorkGate(s: State, r: nat, q: Request, move: WorkMove)
    requires MayWork(s, r, q, move)
    ensures GateFollows(s.gate, r, q.place, WorkEffect(s, r, q, move))
  {
    hide StartWaiting, Claim, Abandon, Semaphores.Release;
  }

  lemma WorkGauges(s: State, r: nat, q: Request, move: WorkMove)
    requires MayWork(s, r, q, move)
    ensures GaugesFollow(s.gate, q.place, WorkEffect(s, r, q, move))
    ensures LifeFollows(s.life, r, q.place, WorkEffect(s, r, q, move)) && !q.place.Over?
  {
    hide TryAcquire, StartWaiting, Claim, Abandon, Semaphores.Release;
  }

  lemma WorkSpeaks(s: State, r: nat, q: Request, move: WorkMove)
    requires MayWork(s, r, q, move)
    ensures Speaks(s.log, r, q, WorkEffect(s, r, q, move).place, WorkEffect(s, r, q, move).log)
    ensures CountersFollow(s.gate, s.log, WorkEffect(s, r, q, move))
  {
    hide TryAcquire, StartWaiting, Claim, Abandon, Semaphores.Release;
    SaidIsLonger(s, WorkBegan(r));
    SaidIsLonger(s, WorkEnded(r));
    SaidIsLonger(s, Left(r));
  }

  lemma DropGate(s: State, r: nat, q: Request)
    requires Droppable(q.place)
    ensures GateFollows(s.gate, r, q.place, DropEffect(s, r, q.place))
  {
    hide StartWaiting, Claim, Abandon, Semaphores.Release;
  }

  lemma DropGauges(s: State, r: nat, q: Request)
    requires Droppable(q.place)
    ensures GaugesFollow(s.gate, q.place, DropEffect(s, r, q.place))
    ensures LifeFollows(s.life, r, q.place, DropEffect(s, r, q.place)) && !q.place.Over?
  {
    hide TryAcquire, StartWaiting, Claim, Abandon, Semaphores.Release;
  }

  lemma DropSpeaks(s: State, r: nat, q: Request)
    requires Droppable(q.place)
    ensures Speaks(s.log, r, q, DropEffect(s, r, q.place).place, DropEffect(s, r, q.place).log)
    ensures CountersFollow(s.gate, s.log, DropEffect(s, r, q.place))
  {
    hide TryAcquire, StartWaiting, Claim, Abandon, Semaphores.Release;
    SaidIsLonger(s, DroppedEarly(r));
    SaidIsLonger(s, WorkEnded(r));
  }

  lemma EffectFollows(cfg: Config, s: State, step: Step)
    requires Enabled(cfg, s, step) && OfRequest(step)
    ensures Follows(s, step.r, s.requests[step.r], RequestEffect(cfg, s, step))
  {
    hide GateFollows, GaugesFollow, Speaks, CountersFollow, LifeFollows, EntryEffect, ExitEffect, WorkEffect,
      DropEffect;
    var q := s.requests[step.r];
    match step
    case Enter(r, move) => EntryGate(s, r, q, move); EntryGauges(s, r, q, move); EntrySpeaks(s, r, q, move);
    case Settle(r, move) => ExitGate(s, r, q, move); ExitGauges(s, r, q, move); ExitSpeaks(s, r, q, move);
    case Work(r, move) => WorkGate(s, r, q, move); WorkGauges(s, r, q, move); WorkSpeaks(s, r, q, move);
    case Drop(r) => DropGate(s, r, q); DropGauges(s, r, q); DropSpeaks(s, r, q);
  }

  // ---------------------------------------------------------------- a request's step keeps the gate and the accounts

  lemma GateKept(cfg: Config, s: State, r: nat, effect: Effect)
    requires GateAgrees(cfg, s.requests, s.gate) && r in s.requests
    requires GateFollows(s.gate, r, s.requests[r].place, effect)
    ensures GateAgrees(cfg, s.requests[r := s.requests[r].(place := effect.place)], effect.gate)
  {
    hide Agrees, Transferred, ShareIn;
    TransferredAgrees(s.gate.permits, effect.gate.permits, cfg.limit, s.requests, Permit, r, effect.place);
    TransferredAgrees(s.gate.slots, effect.gate.slots, cfg.limit, s.requests, Slot, r, effect.place);
    TransferredAgrees(s.gate.capacity, effect.gate.capacity, cfg.capacity, s.requests, Capacity, r, effect.place);
  }

  lemma GaugesKept(s: State, r: nat, effect: Effect)
    requires GaugesAgree(s.requests, s.gate) && r in s.requests && GaugesFollow(s.gate, s.requests[r].place, effect)
    ensures GaugesAgree(s.requests[r := s.requests[r].(place := effect.place)], effect.gate)
  {
    hide In, Where;
    WhereMoves(s.requests, InWaitingGauge, r, effect.place);
    WhereMoves(s.requests, InFlightGauge, r, effect.place);
    WhereMoves(s.requests, InUseGauge, r, effect.place);
  }

  ghost predicate Known(account: Account, r: nat, place: Place) {
    && (r in account.inFlight <==> In(AllAdmitted, place)) && (r in account.atWork <==> In(AllWorking, place))
    && (r in account.undecided <==> In(AllUndecided, place)) && (r in account.slotted <==> In(AllSlotted, place))
    && (place.Cleared? ==> r in account.cleared) && (place.Refusing? ==> r in account.turnedAway)
  }

  /** The request's own memberships change with its place. */
  ghost predicate SetsFollow(was: Account, now: Account, r: nat, place: Place) {
    && Switched(was.inFlight, now.inFlight, r, In(AllAdmitted, place))
    && Switched(was.atWork, now.atWork, r, In(AllWorking, place))
    && Switched(was.undecided, now.undecided, r, In(AllUndecided, place))
    && Switched(was.slotted, now.slotted, r, In(AllSlotted, place))
  }

  /** How the account changes with a request's step: its own memberships, and the latest deadline when it is cleared. */
  ghost predicate AccountFollows(was: Account, now: Account, r: nat, q: Request, place: Place) {
    && SetsFollow(was, now, r, place)
    && was.cleared <= now.cleared && was.turnedAway <= now.turnedAway
    && (place.Cleared? ==> r in now.cleared) && (place.Refusing? ==> r in now.turnedAway)
    && now.open == was.open && now.shutDown == was.shutDown && now.cancelled == was.cancelled
    && now.unusableStreak == was.unusableStreak
    && now.probes == was.probes
    && now.latestDeadline == (if q.place.Finalizing? && place.Cleared? then Later(was.latestDeadline, q.deadline)
                              else was.latestDeadline)
  }

  lemma ReportSets(was: Account, r: nat, q: Request, place: Place, event: Event)
    requires Reports(r, q.deadline, q.place, place, event) && Known(was, r, q.place)
    ensures SetsFollow(was, Counted(was, event), r, place)
  {
    hide Later;
  }

  lemma ReportFollows(was: Account, r: nat, q: Request, place: Place, event: Event)
    requires Reports(r, q.deadline, q.place, place, event) && Known(was, r, q.place)
    ensures AccountFollows(was, Counted(was, event), r, q, place)
  {
    hide SetsFollow, In, Later;
    ReportSets(was, r, q, place, event);
  }

  lemma SilenceFollows(was: Account, r: nat, q: Request, place: Place)
    requires Silent(q.place, place) && Known(was, r, q.place)
    ensures AccountFollows(was, was, r, q, place)
  {
    hide In;
  }

  lemma SpeechFollows(log: Log, r: nat, q: Request, place: Place, after: Log)
    requires Speaks(log, r, q, place, after) && Known(AccountOf(log), r, q.place)
    ensures AccountFollows(AccountOf(log), AccountOf(after), r, q, place)
  {
    hide Reports, Silent, Known, AccountFollows, Counted;
    if after == log {
      if Silent(q.place, place) {
        SilenceFollows(AccountOf(log), r, q, place);
      } else {
        LongerIsDifferent(log, after);
      }
    } else {
      ReportFollows(AccountOf(log), r, q, place, after.event);
    }
  }

  lemma RequestIsKnown(account: Account, requests: map<nat, Request>, gate: Gate, r: nat)
    requires PopulationsAgree(account, requests, gate) && r in requests
    ensures Known(account, r, requests[r].place)
  {
    hide In;
  }

  lemma CountersKept(s: State, r: nat, effect: Effect)
    requires r in s.requests
    requires CountersFollow(s.gate, s.log, effect) && Speaks(s.log, r, s.requests[r], effect.place, effect.log)
    requires AccountOf(s.log).tally.abandoned == s.gate.abandoned && AccountOf(s.log).tally.refused == s.gate.refused
    ensures AccountOf(effect.log).tally.abandoned == effect.gate.abandoned
    ensures AccountOf(effect.log).tally.refused == effect.gate.refused
  {
    hide Silent;
    if effect.log.Then? && effect.log.past == s.log {
      LongerIsDifferent(s.log, effect.log);
    }
  }

  lemma PopulationsKept(s: State, r: nat, effect: Effect)
    requires r in s.requests && PopulationsAgree(AccountOf(s.log), s.requests, s.gate)
    requires Speaks(s.log, r, s.requests[r], effect.place, effect.log) && CountersFollow(s.gate, s.log, effect)
    ensures PopulationsAgree(AccountOf(effect.log), s.requests[r := s.requests[r].(place := effect.place)], effect.gate)
  {
    hide In, Where, Speaks, CountersFollow, AccountOf;
    RequestIsKnown(AccountOf(s.log), s.requests, s.gate, r);
    SpeechFollows(s.log, r, s.requests[r], effect.place, effect.log);
    CountersKept(s, r, effect);
    WhereMoves(s.requests, AllAdmitted, r, effect.place);
    WhereMoves(s.requests, AllWorking, r, effect.place);
    WhereMoves(s.requests, AllUndecided, r, effect.place);
    WhereMoves(s.requests, AllSlotted, r, effect.place);
  }

  // ---------------------------------------------------------------- and the rest

  lemma ListenersKept(s: State, r: nat, effect: Effect)
    requires r in s.requests && Sound(s.life) && ListenersAgree(s)
    requires LifeFollows(s.life, r, s.requests[r].place, effect)
    ensures Sound(effect.life) && ListenersAgree(WithEffect(s, r, effect))
    ensures effect.life.shuttingDown == s.life.shuttingDown && effect.life.cancelled == s.life.cancelled
    ensures effect.life.announced == s.life.announced
  {
    hide Listens, Sound;
    ListenerKeepsSound(s.life, Of(r));
  }

  lemma ProbesKept(s: State, r: nat, effect: Effect)
    requires r in s.requests && ProbesAgree(AccountOf(s.log).probes, s.life, s.probing)
    requires AccountFollows(AccountOf(s.log), AccountOf(effect.log), r, s.requests[r], effect.place)
    requires LifeFollows(s.life, r, s.requests[r].place, effect)
    ensures ProbesAgree(AccountOf(effect.log).probes, effect.life, s.probing)
  {
    hide Listens, SetsFollow, AccountOf;
    assert forall c :: At(effect.life, Probe(c), Committed) <==> At(s.life, Probe(c), Committed);
  }

  lemma LogKept(s: State, r: nat, effect: Effect)
    requires r in s.requests && LogAgrees(s) && PopulationsAgree(AccountOf(s.log), s.requests, s.gate)
    requires Speaks(s.log, r, s.requests[r], effect.place, effect.log)
    requires effect.life.shuttingDown == s.life.shuttingDown && effect.life.cancelled == s.life.cancelled
    ensures LogAgrees(WithEffect(s, r, effect))
  {
    hide In, Speaks, AccountOf;
    RequestIsKnown(AccountOf(s.log), s.requests, s.gate, r);
    SpeechFollows(s.log, r, s.requests[r], effect.place, effect.log);
  }

  lemma PlacesOnlyEnd(s: State, r: nat, effect: Effect)
    requires r in s.requests && !s.requests[r].place.Over?
    ensures forall q :: Live(WithEffect(s, r, effect), q) ==> Live(s, q)
    ensures Live(s, r)
  {
  }

  lemma ServeKept(s: State, r: nat, effect: Effect)
    requires r in s.requests && ServeAgrees(s) && !s.requests[r].place.Over?
    requires effect.life.shuttingDown == s.life.shuttingDown && effect.life.announced == s.life.announced
    ensures ServeAgrees(WithEffect(s, r, effect))
  {
    PlacesOnlyEnd(s, r, effect);
  }

  /** Clearance comes with a deadline within the latest, and is given only while serving. */
  ghost predicate ClearanceFollows(s: State, q: Request, effect: Effect) {
    && (PastClearance(effect.place) ==> PastClearance(q.place) || (q.place.Finalizing? && effect.place.Cleared?))
    && (q.place.Finalizing? && effect.place.Cleared? ==> !s.life.shuttingDown)
  }

  lemma ClockKept(cfg: Config, s: State, r: nat, effect: Effect)
    requires r in s.requests && ClockAgrees(cfg, s) && ServeAgrees(s) && Sound(s.life) && !s.requests[r].place.Over?
    requires AccountFollows(AccountOf(s.log), AccountOf(effect.log), r, s.requests[r], effect.place)
    requires ClearanceFollows(s, s.requests[r], effect) && effect.life.cancelled == s.life.cancelled
    ensures ClockAgrees(cfg, WithEffect(s, r, effect))
  {
    hide In, AccountOf, Switched;
    PlacesOnlyEnd(s, r, effect);
    assert s.serve.Draining? || s.life.cancelled ==> s.life.shuttingDown;
  }

  lemma EntryClearance(s: State, r: nat, q: Request, move: EntryMove)
    requires MayEnter(s, r, q, move)
    ensures ClearanceFollows(s, q, EntryEffect(s, r, q, move))
  {
  }

  lemma ExitClearance(s: State, r: nat, q: Request, move: ExitMove)
    requires MaySettle(q, move)
    ensures ClearanceFollows(s, q, ExitEffect(s, r, q, move))
  {
  }

  lemma WorkClearance(s: State, r: nat, q: Request, move: WorkMove)
    requires MayWork(s, r, q, move)
    ensures ClearanceFollows(s, q, WorkEffect(s, r, q, move))
  {
  }

  lemma EffectClearance(cfg: Config, s: State, step: Step)
    requires Enabled(cfg, s, step) && OfRequest(step)
    ensures ClearanceFollows(s, s.requests[step.r], RequestEffect(cfg, s, step))
  {
    hide EntryEffect, ExitEffect, WorkEffect;
    match step
    case Enter(r, move) => EntryClearance(s, r, s.requests[r], move);
    case Settle(r, move) => ExitClearance(s, r, s.requests[r], move);
    case Work(r, move) => WorkClearance(s, r, s.requests[r], move);
    case Drop(_) =>
  }

  // ---------------------------------------------------------------- a request's step is explained

  /** Room under the limit: a set of holders that leaves out one holder is smaller than the limit. */
  lemma RoomForOne(inside: set<nat>, holders: set<nat>, r: nat)
    requires inside <= holders && r in holders && r !in inside
    ensures |inside| < |holders|
  {
    SubsetCount(inside, holders - {r});
  }

  lemma SlotHolders(cfg: Config, requests: map<nat, Request>, gate: Gate)
    requires GateAgrees(cfg, requests, gate)
    ensures Where(requests, AllSlotted) == gate.slots.held && gate.slots.granted == {}
    ensures |Where(requests, AllSlotted)| + gate.slots.free == cfg.limit
  {
    hide In, Consistent;
    assert forall r :: r in gate.slots.granted ==> Waiting(gate.slots, r);
  }

  lemma PermitHolders(cfg: Config, requests: map<nat, Request>, gate: Gate)
    requires GateAgrees(cfg, requests, gate)
    ensures Where(requests, AllAdmitted) <= gate.permits.held && |gate.permits.held| <= cfg.limit
    ensures Where(requests, AllWorking) <= gate.capacity.held && |gate.capacity.held| <= cfg.capacity
    ensures forall r :: r in requests && requests[r].place.Cleared? ==> r in gate.permits.held
    ensures forall r :: r in requests && requests[r].place == Admitted(GrantedClock) ==> r in gate.capacity.held
  {
    hide Consistent;
  }

  /** What the invariant says about one request, as far as its reports need it. */
  ghost predicate Facts(cfg: Config, s: State, r: nat, q: Request) {
    var account := AccountOf(s.log);
    && Explained(cfg, s.log) && Known(account, r, q.place)
    && account.shutDown == s.life.shuttingDown
    && (s.gate.slots.free > 0 ==> |account.slotted| < cfg.limit)
    && (s.gate.slots.free == 0 ==> |account.slotted| == cfg.limit)
    && (q.place.Cleared? ==> |account.inFlight| < cfg.limit)
    && (q.place == Admitted(GrantedClock) ==> |account.atWork| < cfg.capacity)
    && (PastClearance(q.place) ==> q.deadline <= account.latestDeadline)
    && (account.cancelled ==> account.latestDeadline <= s.clock)
  }

  lemma FactsHold(cfg: Config, s: State, r: nat)
    requires Inv(cfg, s) && Live(s, r)
    ensures Facts(cfg, s, r, s.requests[r])
  {
    hide In, Where, Agrees, Explained, AccountOf, Sound, ListenersAgree, ServeAgrees;
    var account := AccountOf(s.log);
    RequestIsKnown(account, s.requests, s.gate, r);
    SlotHolders(cfg, s.requests, s.gate);
    PermitHolders(cfg, s.requests, s.gate);
    if s.requests[r].place.Cleared? {
      ClearedIsOutside(account, r, s.requests[r].place);
      RoomForOne(account.inFlight, s.gate.permits.held, r);
    }
    if s.requests[r].place == Admitted(GrantedClock) {
      ClearedIsOutside(account, r, s.requests[r].place);
      RoomForOne(account.atWork, s.gate.capacity.held, r);
    }
  }

  lemma ClearedIsOutside(account: Account, r: nat, place: Place)
    requires Known(account, r, place)
    ensures place.Cleared? ==> r !in account.inFlight
    ensures place == Admitted(GrantedClock) ==> r !in account.atWork
  {
  }

  /** Nothing was said, or something that the past explains. */
  ghost predicate Justified(cfg: Config, log: Log, after: Log) {
    after == log || (after.Then? && after.past == log && Explains(cfg, AccountOf(log), after.event))
  }

  lemma EntryExplained(cfg: Config, s: State, r: nat, q: Request, move: EntryMove)
    requires MayEnter(s, r, q, move) && Facts(cfg, s, r, q)
    ensures Justified(cfg, s.log, EntryEffect(s, r, q, move).log)
  {
    hide AccountOf, Explained, StartWaiting, Claim;
  }

  lemma ExitExplained(cfg: Config, s: State, r: nat, q: Request, move: ExitMove)
    requires MaySettle(q, move) && Facts(cfg, s, r, q)
    ensures Justified(cfg, s.log, ExitEffect(s, r, q, move).log)
  {
    hide AccountOf, Explained, Abandon, Semaphores.Release;
  }

  lemma WorkExplained(cfg: Config, s: State, r: nat, q: Request, move: WorkMove)
    requires MayWork(s, r, q, move) && Facts(cfg, s, r, q)
    ensures Justified(cfg, s.log, WorkEffect(s, r, q, move).log)
  {
    hide AccountOf, Explained, Abandon, Semaphores.Release, StartWaiting, Claim;
  }

  lemma DropExplained(cfg: Config, s: State, r: nat, q: Request)
    requires Droppable(q.place) && Facts(cfg, s, r, q)
    ensures Justified(cfg, s.log, DropEffect(s, r, q.place).log)
  {
    hide AccountOf, Explained;
  }

  lemma EffectExplained(cfg: Config, s: State, step: Step)
    requires Enabled(cfg, s, step) && OfRequest(step) && Facts(cfg, s, step.r, s.requests[step.r])
    ensures Explained(cfg, RequestEffect(cfg, s, step).log)
  {
    assert Explained(cfg, s.log);
    assert Justified(cfg, s.log, RequestEffect(cfg, s, step).log) ==> Explained(cfg, RequestEffect(cfg, s, step).log);
    hide EntryEffect, ExitEffect, WorkEffect, DropEffect, Facts, Explained, Justified;
    match step
    case Enter(r, move) => EntryExplained(cfg, s, r, s.requests[r], move);
    case Settle(r, move) => ExitExplained(cfg, s, r, s.requests[r], move);
    case Work(r, move) => WorkExplained(cfg, s, r, s.requests[r], move);
    case Drop(r) => DropExplained(cfg, s, r, s.requests[r]);
  }

  lemma RequestStepKeeps(cfg: Config, s: State, step: Step)
    requires Inv(cfg, s) && Enabled(cfg, s, step) && OfRequest(step)
    ensures Inv(cfg, Apply(cfg, s, step))
  {
    hide RequestEffect, Explained, GateAgrees, GaugesAgree, PopulationsAgree, LogAgrees, Sound, ListenersAgree,
      ServeAgrees, ClockAgrees, Facts, GateFollows, GaugesFollow, Speaks, CountersFollow, LifeFollows,
      AccountFollows, Known, AccountOf, ClearanceFollows, ProbesAgree, MayEnter, MaySettle, MayWork;
    var r := step.r;
    var effect := RequestEffect(cfg, s, step);
    EffectFollows(cfg, s, step);
    EffectClearance(cfg, s, step);
    FactsHold(cfg, s, r);
    EffectExplained(cfg, s, step);
    RequestIsKnown(AccountOf(s.log), s.requests, s.gate, r);
    SpeechFollows(s.log, r, s.requests[r], effect.place, effect.log);
    GateKept(cfg, s, r, effect);
    GaugesKept(s, r, effect);
    PopulationsKept(s, r, effect);
    ListenersKept(s, r, effect);
    LogKept(s, r, effect);
    ServeKept(s, r, effect);
    ProbesKept(s, r, effect);
    ClockKept(cfg, s, r, effect);
  }

  // ---------------------------------------------------------------- the steps of the process itself

  /** The account's part about requests is the same. */
  ghost predicate SameRequests(was: Account, now: Account) {
    && now.inFlight == was.inFlight && now.atWork == was.atWork && now.undecided == was.undecided
    && now.slotted == was.slotted && now.cleared == was.cleared && now.turnedAway == was.turnedAway
    && now.tally == was.tally && now.latestDeadline == was.latestDeadline
  }

  predicate OfProcess(event: Event) {
    || event.Woken? || event.Opened? || event.Closed? || event.ListenerUnusable?
    || event.ShutdownBegan? || event.Noted? || event.CancellationRaised? || event.ServeReturned?
  }

  ghost predicate Mentions(log: Log, after: Log) {
    after == log || (after.Then? && after.past == log && OfProcess(after.event))
  }

  lemma MentionsLeaveRequests(log: Log, after: Log)
    requires Mentions(log, after)
    ensures SameRequests(AccountOf(log), AccountOf(after))
  {
    if after != log {
      CountingLeavesRequests(AccountOf(log), after.event);
      hide Counted, SameRequests;
    }
  }

  lemma CountingLeavesRequests(account: Account, event: Event)
    requires OfProcess(event)
    ensures SameRequests(account, Counted(account, event))
  {
    hide Probed;
  }

  lemma ProcessMentions(cfg: Config, s: State, move: ProcessMove)
    requires MayProcess(cfg, s, move)
    ensures var t := ApplyProcess(cfg, s, move);
            t.requests == s.requests && t.gate == s.gate && s.clock <= t.clock && Mentions(s.log, t.log)
  {
    hide Create, Dismiss, StoreShutdown, Announce, NotifyWaiters, StoreCancellation, At;
  }

  lemma ProcessLeavesRequests(cfg: Config, s: State, move: ProcessMove)
    requires MayProcess(cfg, s, move)
    ensures var t := ApplyProcess(cfg, s, move);
            && t.requests == s.requests && t.gate == s.gate && s.clock <= t.clock
            && SameRequests(AccountOf(s.log), AccountOf(t.log))
  {
    hide ApplyProcess, MayProcess, Mentions, AccountOf, SameRequests;
    ProcessMentions(cfg, s, move);
    MentionsLeaveRequests(s.log, ApplyProcess(cfg, s, move).log);
  }

  lemma ProcessLog(cfg: Config, s: State, move: ProcessMove)
    requires MayProcess(cfg, s, move) && LogAgrees(s)
    ensures LogAgrees(ApplyProcess(cfg, s, move))
  {
    hide At, Live, Probed;
  }

  lemma ProcessSound(cfg: Config, s: State, move: ProcessMove)
    requires MayProcess(cfg, s, move) && Sound(s.life) && ListenersAgree(s) && ServeAgrees(s)
    ensures Sound(ApplyProcess(cfg, s, move).life)
  {
    hide Sound, Live;
    ProcessKeepsSound(s.life);
    ListenerKeepsSound(s.life, Loop);
    ListenerKeepsSound(s.life, Backoff);
    match move
    case Accept(c) => ListenerKeepsSound(s.life, Conn(c));
    case GoGraceful(c) => ListenerKeepsSound(s.life, Conn(c));
    case Close(c) => ListenerKeepsSound(s.life, Conn(c));
    case _ =>
  }

  lemma ProcessListeners(cfg: Config, s: State, move: ProcessMove)
    requires MayProcess(cfg, s, move) && ListenersAgree(s)
    ensures ListenersAgree(ApplyProcess(cfg, s, move))
  {
    hide Listens;
  }

  lemma ProcessServe(cfg: Config, s: State, move: ProcessMove)
    requires MayProcess(cfg, s, move) && Sound(s.life) && ServeAgrees(s)
    ensures ServeAgrees(ApplyProcess(cfg, s, move))
  {
    var t := ApplyProcess(cfg, s, move);
    assert t.requests == s.requests;
    assert forall r :: Live(t, r) <==> Live(s, r);
  }

  lemma ProcessClock(cfg: Config, s: State, move: ProcessMove)
    requires Accepts(cfg) && MayProcess(cfg, s, move) && ClockAgrees(cfg, s) && ServeAgrees(s)
    ensures ClockAgrees(cfg, ApplyProcess(cfg, s, move))
  {
    hide AccountOf;
    var t := ApplyProcess(cfg, s, move);
    ProcessLeavesRequests(cfg, s, move);
    assert forall r :: Live(t, r) <==> Live(s, r);
  }

  /** What the process itself does to probes: nothing but the announcement. */
  lemma ProcessSparesProbes(cfg: Config, s: State, move: ProcessMove)
    requires MayProcess(cfg, s, move)
    ensures var t := ApplyProcess(cfg, s, move);
            && t.probing == s.probing
            && (forall c :: At(t.life, Probe(c), Committed) <==> At(s.life, Probe(c), Committed))
            && t.life.announced == (s.life.announced || move.SignalNotifies? || move.FailureNotifies?)
  {
    hide Live;
  }

  lemma ProcessNotes(cfg: Config, s: State, move: ProcessMove)
    requires MayProcess(cfg, s, move)
    ensures var log := ApplyProcess(cfg, s, move).log;
            if move.SignalNotifies? || move.FailureNotifies? then log == Then(s.log, Noted(Announced))
            else log == s.log || (log.Then? && log.past == s.log && !log.event.Noted?)
  {
    hide Create, Dismiss, StoreShutdown, Announce, NotifyWaiters, StoreCancellation, MayProcess;
  }

  lemma OnlyNotesCount(log: Log, event: Event)
    ensures AccountOf(Then(log, event)).probes ==
            if event.Noted? then Probed(AccountOf(log).probes, event.note) else AccountOf(log).probes
  {
    hide Probed;
  }

  lemma ProcessProbes(cfg: Config, s: State, move: ProcessMove)
    requires MayProcess(cfg, s, move) && ProbesAgree(AccountOf(s.log).probes, s.life, s.probing)
    ensures var t := ApplyProcess(cfg, s, move); ProbesAgree(AccountOf(t.log).probes, t.life, t.probing)
  {
    hide ApplyProcess, MayProcess, AccountOf, At;
    ProcessSparesProbes(cfg, s, move);
    ProcessNotes(cfg, s, move);
    var log := ApplyProcess(cfg, s, move).log;
    if move.SignalNotifies? || move.FailureNotifies? {
      OnlyNotesCount(s.log, Noted(Announced));
    } else if log != s.log {
      OnlyNotesCount(s.log, log.event);
    }
  }

  ghost predicate Empty(account: Account) {
    account.inFlight == {} && account.undecided == {} && account.atWork == {} && account.slotted == {}
  }

  lemma NoConnectionNoRequest(s: State)
    requires PopulationsAgree(AccountOf(s.log), s.requests, s.gate) && ServeAgrees(s) && s.connections == {}
    ensures Empty(AccountOf(s.log))
  {
    hide AccountOf;
    assert forall r :: !Live(s, r);
  }

  lemma ProcessExplained(cfg: Config, s: State, move: ProcessMove)
    requires Accepts(cfg) && Explained(cfg, s.log) && LogAgrees(s) && MayProcess(cfg, s, move)
    requires ServeAgrees(s) && ClockAgrees(cfg, s)
    requires s.connections == {} ==> Empty(AccountOf(s.log))
    ensures Explained(cfg, ApplyProcess(cfg, s, move).log)
  {
  }

  lemma ProcessMoveKeeps(cfg: Config, s: State, move: ProcessMove)
    requires Accepts(cfg) && Inv(cfg, s) && MayProcess(cfg, s, move)
    ensures Inv(cfg, ApplyProcess(cfg, s, move))
  {
    hide ApplyProcess, Explained, GateAgrees, GaugesAgree, LogAgrees, Sound, ListenersAgree, ServeAgrees,
      ClockAgrees, ProbesAgree, AccountOf, Where, MayProcess;
    ProcessLeavesRequests(cfg, s, move);
    ProcessProbes(cfg, s, move);
    ProcessLog(cfg, s, move);
    ProcessSound(cfg, s, move);
    ProcessListeners(cfg, s, move);
    ProcessServe(cfg, s, move);
    ProcessClock(cfg, s, move);
    if s.connections == {} {
      NoConnectionNoRequest(s);
    }
    ProcessExplained(cfg, s, move);
  }

  // ---------------------------------------------------------------- listening, probing and arriving

  lemma ListenLeaves(s: State, l: Listener, move: ListenMove)
    requires MayListen(s, l, move)
    ensures var t := ApplyListen(s, l, move);
            && t == s.(life := t.life, log := t.log)
            && AccountOf(t.log) == AccountOf(s.log).(probes := AccountOf(t.log).probes)
            && t.life == s.life.(stages := t.life.stages, registered := t.life.registered)
            && t.life.stages.Keys == s.life.stages.Keys
  {
  }

  lemma ListenProbes(s: State, l: Listener, move: ListenMove)
    requires MayListen(s, l, move) && ProbesAgree(AccountOf(s.log).probes, s.life, s.probing)
    ensures var t := ApplyListen(s, l, move); ProbesAgree(AccountOf(t.log).probes, t.life, t.probing)
  {
    var t := ApplyListen(s, l, move);
    if t.log != s.log {
      OnlyNotesCount(s.log, t.log.event);
    }
    hide AccountOf;
  }

  lemma SamePopulations(was: Account, now: Account, requests: map<nat, Request>, gate: Gate)
    requires PopulationsAgree(was, requests, gate) && SameRequests(was, now)
    ensures PopulationsAgree(now, requests, gate)
  {
  }

  lemma ListenSound(s: State, l: Listener, move: ListenMove)
    requires MayListen(s, l, move) && Sound(s.life)
    ensures Sound(ApplyListen(s, l, move).life) && (move.Wakes? ==> s.life.shuttingDown)
  {
    hide Sound;
    ListenerKeepsSound(s.life, l);
    if move.Wakes? {
      NotifiedInShutdown(s.life, l);
    }
  }

  lemma ListenExplained(cfg: Config, s: State, l: Listener, move: ListenMove)
    requires Explained(cfg, s.log) && LogAgrees(s) && (move.Wakes? ==> s.life.shuttingDown)
    ensures Explained(cfg, ApplyListen(s, l, move).log)
  {
  }

  /** Nothing but futures already there changes, so everything else still agrees. */
  lemma ListenRest(cfg: Config, s: State, t: State)
    requires t == s.(life := t.life, log := t.log)
    requires AccountOf(t.log) == AccountOf(s.log).(probes := AccountOf(t.log).probes)
    requires t.life == s.life.(stages := t.life.stages, registered := t.life.registered)
    requires t.life.stages.Keys == s.life.stages.Keys
    requires LogAgrees(s) && ListenersAgree(s) && ServeAgrees(s) && ClockAgrees(cfg, s)
    ensures LogAgrees(t) && ListenersAgree(t) && ServeAgrees(t) && ClockAgrees(cfg, t)
  {
    hide AccountOf, Listens, PastClearance;
    assert forall r :: Live(t, r) <==> Live(s, r);
    assert forall l :: l in t.life.stages <==> l in t.life.stages.Keys;
    assert forall l :: l in s.life.stages <==> l in s.life.stages.Keys;
  }

  lemma ListenKeeps(cfg: Config, s: State, l: Listener, move: ListenMove)
    requires Inv(cfg, s) && MayListen(s, l, move)
    ensures Inv(cfg, ApplyListen(s, l, move))
  {
    hide ApplyListen, MayListen, Explained, GateAgrees, GaugesAgree, PopulationsAgree, LogAgrees, Sound,
      ListenersAgree, ServeAgrees, ClockAgrees, ProbesAgree, AccountOf;
    ListenLeaves(s, l, move);
    ListenProbes(s, l, move);
    SamePopulations(AccountOf(s.log), AccountOf(ApplyListen(s, l, move).log), s.requests, s.gate);
    ListenSound(s, l, move);
    ListenExplained(cfg, s, l, move);
    ListenRest(cfg, s, ApplyListen(s, l, move));
  }

  /** Only the probe's own shutdown future changes. */
  predicate ProbeFollows(s: State, c: nat, life: Lifecycle) {
    || life == s.life
    || (life == Create(s.life, Probe(c)) && c in s.connections)
    || life == Dismiss(s.life, Probe(c))
  }

  lemma ProbeLeaves(s: State, c: nat, move: ProbeMove)
    requires MayAsk(s, c, move)
    ensures var t := ApplyProbe(s, c, move);
            && t == s.(life := t.life, probing := t.probing, log := t.log)
            && AccountOf(t.log) == AccountOf(s.log).(probes := AccountOf(t.log).probes)
            && ProbeFollows(s, c, t.life)
  {
    hide Create, Dismiss, Probed;
  }

  lemma ProbeSound(s: State, c: nat, move: ProbeMove)
    requires MayAsk(s, c, move) && Sound(s.life)
    ensures Sound(ApplyProbe(s, c, move).life)
  {
    hide Sound;
    ListenerKeepsSound(s.life, Probe(c));
  }

  /** A probe polls shutdown as pending only before the announcement, since that notifies everybody who waits. */
  lemma ProbeExplained(cfg: Config, s: State, c: nat, move: ProbeMove)
    requires MayAsk(s, c, move) && Explained(cfg, s.log) && Sound(s.life)
    requires ProbesAgree(AccountOf(s.log).probes, s.life, s.probing)
    ensures Explained(cfg, ApplyProbe(s, c, move).log)
  {
  }

  lemma ProbeProbes(s: State, c: nat, move: ProbeMove)
    requires MayAsk(s, c, move) && ProbesAgree(AccountOf(s.log).probes, s.life, s.probing)
    ensures var t := ApplyProbe(s, c, move); ProbesAgree(AccountOf(t.log).probes, t.life, t.probing)
  {
    assert forall d :: d != c ==> Probe(d) != Probe(c);
  }

  lemma ProbeRest(cfg: Config, s: State, t: State, c: nat)
    requires t == s.(life := t.life, probing := t.probing, log := t.log)
    requires AccountOf(t.log) == AccountOf(s.log).(probes := AccountOf(t.log).probes)
    requires ProbeFollows(s, c, t.life)
    requires LogAgrees(s) && ListenersAgree(s) && ServeAgrees(s) && ClockAgrees(cfg, s)
    ensures LogAgrees(t) && ListenersAgree(t) && ServeAgrees(t) && ClockAgrees(cfg, t)
  {
    hide AccountOf, Listens, PastClearance;
    assert forall r :: Live(t, r) <==> Live(s, r);
  }

  lemma ProbeKeeps(cfg: Config, s: State, c: nat, move: ProbeMove)
    requires Inv(cfg, s) && MayAsk(s, c, move)
    ensures Inv(cfg, ApplyProbe(s, c, move))
  {
    hide ApplyProbe, MayAsk, ProbeFollows, Explained, GateAgrees, GaugesAgree, PopulationsAgree, LogAgrees, Sound,
      ListenersAgree, ServeAgrees, ClockAgrees, ProbesAgree, AccountOf;
    ProbeLeaves(s, c, move);
    ProbeSound(s, c, move);
    ProbeExplained(cfg, s, c, move);
    ProbeProbes(s, c, move);
    ProbeRest(cfg, s, ApplyProbe(s, c, move), c);
    SamePopulations(AccountOf(s.log), AccountOf(ApplyProbe(s, c, move).log), s.requests, s.gate);
  }

  lemma NotifiedInShutdown(life: Lifecycle, l: Listener)
    requires Sound(life) && l in life.notified
    ensures life.shuttingDown
  {
  }

  lemma ArriveGate(cfg: Config, s: State, r: nat, c: nat)
    requires GateAgrees(cfg, s.requests, s.gate) && GaugesAgree(s.requests, s.gate) && r !in s.requests
    ensures var t := ApplyArrival(cfg, s, r, c); GateAgrees(cfg, t.requests, t.gate) && GaugesAgree(t.requests, t.gate)
  {
    hide Agrees, Where;
    var q := Request(s.clock + cfg.overall, c, Entering);
    NewcomerAgrees(s.gate.permits, cfg.limit, s.requests, Permit, r, q);
    NewcomerAgrees(s.gate.slots, cfg.limit, s.requests, Slot, r, q);
    NewcomerAgrees(s.gate.capacity, cfg.capacity, s.requests, Capacity, r, q);
    WhereGains(s.requests, InWaitingGauge, r, q);
    WhereGains(s.requests, InFlightGauge, r, q);
    WhereGains(s.requests, InUseGauge, r, q);
  }

  lemma ArrivePopulations(cfg: Config, s: State, r: nat, c: nat)
    requires PopulationsAgree(AccountOf(s.log), s.requests, s.gate) && r !in s.requests
    ensures var t := ApplyArrival(cfg, s, r, c); PopulationsAgree(AccountOf(t.log), t.requests, t.gate)
    ensures r !in AccountOf(s.log).inFlight && r !in AccountOf(s.log).undecided
  {
    var q := Request(s.clock + cfg.overall, c, Entering);
    assert r !in Where(s.requests, AllAdmitted) && r !in Where(s.requests, AllUndecided);
    assert !In(AllAdmitted, q.place) && !In(AllWorking, q.place) && In(AllUndecided, q.place);
    assert !In(AllSlotted, q.place);
    hide Where, In;
    WhereGains(s.requests, AllAdmitted, r, q);
    WhereGains(s.requests, AllWorking, r, q);
    WhereGains(s.requests, AllUndecided, r, q);
    WhereGains(s.requests, AllSlotted, r, q);
  }

  lemma ArriveRest(cfg: Config, s: State, r: nat, c: nat)
    requires ListenersAgree(s) && ServeAgrees(s) && ClockAgrees(cfg, s) && LogAgrees(s) && r !in s.requests
    requires c in s.connections
    ensures var t := ApplyArrival(cfg, s, r, c);
            ListenersAgree(t) && ServeAgrees(t) && ClockAgrees(cfg, t) && LogAgrees(t)
            && (ProbesAgree(AccountOf(s.log).probes, s.life, s.probing) ==>
                  ProbesAgree(AccountOf(t.log).probes, t.life, t.probing))
  {
    var t := ApplyArrival(cfg, s, r, c);
    assert forall q :: Live(t, q) ==> Live(s, q) || q == r;
    assert Of(r) !in s.life.stages;
  }

  lemma ArriveKeeps(cfg: Config, s: State, r: nat, c: nat)
    requires Inv(cfg, s) && r !in s.requests && c in s.connections
    ensures Inv(cfg, ApplyArrival(cfg, s, r, c))
  {
    hide GateAgrees, GaugesAgree, PopulationsAgree, LogAgrees, Sound, ListenersAgree, ServeAgrees, ClockAgrees,
      ProbesAgree;
    ArriveGate(cfg, s, r, c);
    ArrivePopulations(cfg, s, r, c);
    ArriveRest(cfg, s, r, c);
  }

  lemma StepKeeps(cfg: Config, s: State, step: Step)
    requires Accepts(cfg) && Inv(cfg, s) && Enabled(cfg, s, step)
    ensures Inv(cfg, Apply(cfg, s, step))
  {
    hide Inv, ApplyProcess, ApplyListen, ApplyProbe, ApplyArrival, RequestEffect, WithEffect, MayProcess, MayListen,
      MayAsk;
    match step
    case Process(move) => ProcessMoveKeeps(cfg, s, move);
    case Listen(l, move) => ListenKeeps(cfg, s, l, move);
    case Ask(c, move) => ProbeKeeps(cfg, s, c, move);
    case Arrive(r, c) => ArriveKeeps(cfg, s, r, c);
    case _ => RequestStepKeeps(cfg, s, step);
  }

  lemma InitiallyHolds(cfg: Config)
    ensures Inv(cfg, Initial(cfg))
  {
  }
}
