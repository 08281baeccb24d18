/** What every run of the serving process guarantees. */
module ServerTheorems {
  import opened Wrappers
  import opened Histories
  import opened Runs
  import opened Semaphores
  import opened Lifecycles
  import opened Server
  import opened ServerProofs

  /** In every run of an accepted configuration, every event is explained by what happened before it. */
  lemma {:induction false} EveryRunIsExplained(cfg: Config, steps: seq<Step>, states: seq<State>, k: nat)
    requires Accepts(cfg) && Run(cfg, steps, states) && k < |states|
    ensures Inv(cfg, states[k]) && Explained(cfg, states[k].log)
  {
    hide Apply, Enabled, Inv, Initial, Explained;
    if k == 0 {
      InitiallyHolds(cfg);
    } else {
      EveryRunIsExplained(cfg, steps, states, k - 1);
      assert Machine(cfg)(states[k - 1], steps[k - 1], states[k - 1 + 1]);
      StepKeeps(cfg, states[k - 1], steps[k - 1]);
    }
    InvExplains(cfg, states[k]);
  }

  /** And so is every state that can be reached. */
  lemma ReachedKeeps(cfg: Config, s: State)
    requires Accepts(cfg) && Leads(Machine(cfg), Initial(cfg), s)
    ensures Inv(cfg, s)
  {
    hide Machine, Inv;
    var steps, states :| Path(Machine(cfg), steps, states) && states[0] == Initial(cfg) && states[|steps|] == s;
    EveryRunIsExplained(cfg, steps, states, |steps|);
  }

  lemma InvExplains(cfg: Config, s: State)
    requires Inv(cfg, s)
    ensures Explained(cfg, s.log)
  {
  }

  /** Every event of an explained history is explained by what came before it. */
  lemma {:induction false} ExplainedAt(cfg: Config, log: Log, past: Log, event: Event)
    requires Explained(cfg, log) && Prefix(Then(past, event), log)
    ensures Explained(cfg, past) && Explains(cfg, AccountOf(past), event)
  {
    if log != Then(past, event) {
      ExplainedAt(cfg, log.past, past, event);
    }
  }

  // ---------------------------------------------------------------- shutdown and cancellation

  lemma ProcessFlag(cfg: Config, s: State, move: ProcessMove)
    requires MayProcess(cfg, s, move)
    ensures s.life.shuttingDown ==> ApplyProcess(cfg, s, move).life.shuttingDown
  {
    hide MayProcess;
  }

  /** A begun shutdown is never withdrawn. */
  lemma ShutdownStays(cfg: Config, s: State, step: Step)
    requires Enabled(cfg, s, step) && s.life.shuttingDown
    ensures Apply(cfg, s, step).life.shuttingDown
  {
    hide MayProcess, MayListen, MayAsk, MayEnter, MaySettle, MayWork, ApplyProcess, RequestEffect, GateFollows,
      GaugesFollow, Speaks, CountersFollow, Listens;
    match step
    case Process(move) => ProcessFlag(cfg, s, move);
    case Listen(_, _) =>
    case Ask(_, _) =>
    case Arrive(_, _) =>
    case _ => EffectFollows(cfg, s, step);
  }

  lemma FlagsStay(account: Account, event: Event)
    ensures var now := Counted(account, event);
            && (account.shutDown || event.ShutdownBegan? ==> now.shutDown)
            && (account.cancelled || event.CancellationRaised? ==> now.cancelled)
            && (account.probes.announced || event == Noted(Announced) ==> now.probes.announced)
            && account.latestDeadline <= now.latestDeadline
  {
  }

  lemma {:induction false} FlagsAreForever(log: Log, before: Log, event: Event)
    requires Prefix(Then(before, event), log)
    ensures event.ShutdownBegan? ==> AccountOf(log).shutDown
    ensures event.CancellationRaised? ==> AccountOf(log).cancelled
    ensures event == Noted(Announced) ==> AccountOf(log).probes.announced
    ensures AccountOf(before).latestDeadline <= AccountOf(log).latestDeadline
  {
    hide Counted;
    FlagsStay(AccountOf(log.past), log.event);
    if log != Then(before, event) {
      FlagsAreForever(log.past, before, event);
    }
  }

  /**
   Cancellation never cuts an admitted request short: it is raised only after shutdown began; every request ever
   admitted was admitted before it, and by then has passed its own deadline.
   */
  lemma CancellationSparesBudgets(cfg: Config, steps: seq<Step>, states: seq<State>, k: nat,
                                  past: Log, now: nat, before: Log, admission: Event)
    requires Accepts(cfg) && Run(cfg, steps, states) && k < |states|
    requires Prefix(Then(past, CancellationRaised(now)), states[k].log)
    requires admission.Admission? && Prefix(Then(before, admission), states[k].log)
    ensures AccountOf(past).shutDown
    ensures Prefix(Then(before, admission), past) && admission.deadline <= now
  {
    hide Run, Inv;
    var log, cancel, admit := states[k].log, Then(past, CancellationRaised(now)), Then(before, admission);
    EveryRunIsExplained(cfg, steps, states, k);
    ExplainedAt(cfg, log, past, CancellationRaised(now));
    ExplainedAt(cfg, log, before, admission);
    PrefixesAreOrdered(cancel, admit, log);
    if Prefix(cancel, before) {
      FlagsAreForever(before, past, CancellationRaised(now));
    }
    assert Prefix(admit, past);
    FlagsAreForever(past, before, admission);
  }

  /** No request passes the last check before Provider or Adapter work once requests are cancelled. */
  lemma NoWorkAfterCancellation(cfg: Config, steps: seq<Step>, states: seq<State>, k: nat,
                                before: Log, now: nat, past: Log, r: nat)
    requires Accepts(cfg) && Run(cfg, steps, states) && k < |states|
    requires Prefix(Then(past, WorkBegan(r)), states[k].log)
    ensures !Prefix(Then(before, CancellationRaised(now)), past)
  {
    hide Run, Inv;
    EveryRunIsExplained(cfg, steps, states, k);
    ExplainedAt(cfg, states[k].log, past, WorkBegan(r));
    if Prefix(Then(before, CancellationRaised(now)), past) {
      FlagsAreForever(past, before, CancellationRaised(now));
    }
  }

  /** The moment at which a request read the flag as serving. */
  lemma {:induction false} ClearedMoment(log: Log, r: nat) returns (read: Log, deadline: nat)
    requires r in AccountOf(log).cleared
    ensures Prefix(Then(read, ReadServing(r, deadline)), log)
  {
    if log.event.ReadServing? && log.event.request == r {
      read, deadline := log.past, log.event.deadline;
    } else {
      read, deadline := ClearedMoment(log.past, r);
    }
  }

  /** Every admitted request's lifecycle read precedes the store that begins shutdown. */
  lemma NoLateAdmission(cfg: Config, steps: seq<Step>, states: seq<State>, k: nat, past: Log, admission: Event)
    returns (read: Log, deadline: nat)
    requires Accepts(cfg) && Run(cfg, steps, states) && k < |states|
    requires admission.Admission? && Prefix(Then(past, admission), states[k].log)
    ensures Prefix(Then(read, ReadServing(admission.request, deadline)), past)
    ensures forall before :: !Prefix(Then(before, ShutdownBegan), read)
  {
    hide Run, Inv;
    EveryRunIsExplained(cfg, steps, states, k);
    ExplainedAt(cfg, states[k].log, past, admission);
    read, deadline := ClearedMoment(past, admission.request);
    ExplainedAt(cfg, past, read, ReadServing(admission.request, deadline));
    forall before
      ensures !Prefix(Then(before, ShutdownBegan), read)
    {
      if Prefix(Then(before, ShutdownBegan), read) {
        FlagsAreForever(read, before, ShutdownBegan);
      }
    }
  }

  /**
   No wakeup is lost, by any of the five kinds of listener: once a begin of shutdown has returned, whoever registered,
   read the flag as not set and waits is notified, and its wakeup is a step it can take; and nothing resolves and nobody
   is notified unless shutdown really began, although cancelling requests notifies as well.
   */
  lemma NoLostWakeup(cfg: Config, steps: seq<Step>, states: seq<State>, k: nat, l: Listener)
    requires Accepts(cfg) && Run(cfg, steps, states) && k < |states|
    ensures states[k].life.announced && At(states[k].life, l, Committed) ==>
              l in states[k].life.notified && (Polled(states[k], l) ==> Enabled(cfg, states[k], Listen(l, Wakes)))
    ensures l in states[k].life.notified || At(states[k].life, l, Resolved) ==> states[k].life.shuttingDown
  {
    hide Run;
    EveryRunIsExplained(cfg, steps, states, k);
  }

  // ---------------------------------------------------------------- bounds and conservation

  /**
   The bounds, in every reachable state: admitted requests hold permits, parked ones hold slots, working ones hold
   capacity; no permit is lost or made up; and no gauge exceeds the permits it goes with.
   */
  lemma PopulationsAreBounded(cfg: Config, steps: seq<Step>, states: seq<State>, k: nat)
    requires Accepts(cfg) && Run(cfg, steps, states) && k < |states|
    ensures var gate, requests := states[k].gate, states[k].requests;
            && |Where(requests, AllAdmitted)| <= |gate.permits.held|
            && |Where(requests, AllSlotted)| == |gate.slots.held|
            && |Where(requests, AllWorking)| <= |gate.capacity.held|
            && gate.permits.free + |gate.permits.granted| + |gate.permits.held| == cfg.limit
            && gate.slots.free + |gate.slots.held| == cfg.limit
            && gate.capacity.free + |gate.capacity.granted| + |gate.capacity.held| == cfg.capacity
            && |Where(requests, AllAdmitted)| + |Where(requests, AllSlotted)| <= 2 * cfg.limit
            && 0 <= gate.inFlight <= |gate.permits.held|
            && 0 <= gate.waiting <= |gate.slots.held|
            && 0 <= gate.inUse <= |gate.capacity.held|
  {
    hide Run, Where, In, Explained, PopulationsAgree, LogAgrees, Sound, ListenersAgree, ServeAgrees, ClockAgrees;
    EveryRunIsExplained(cfg, steps, states, k);
    BoundsHold(cfg, states[k]);
  }

  lemma HoldersCount(sem: Semaphore, limit: nat, requests: map<nat, Request>, resource: Resource,
                     population: Population)
    requires Agrees(sem, limit, requests, resource)
    requires forall place :: In(population, place) ==> ShareIn(resource, place) == Holds
    ensures |Where(requests, population)| <= |sem.held|
  {
    hide In, ShareIn;
    assert Where(requests, population) <= sem.held;
    SubsetCount(Where(requests, population), sem.held);
  }

  lemma BoundsHold(cfg: Config, s: State)
    requires GateAgrees(cfg, s.requests, s.gate) && GaugesAgree(s.requests, s.gate)
    ensures |Where(s.requests, AllAdmitted)| <= |s.gate.permits.held| && s.gate.inFlight <= |s.gate.permits.held|
    ensures |Where(s.requests, AllWorking)| <= |s.gate.capacity.held| && s.gate.inUse <= |s.gate.capacity.held|
    ensures |Where(s.requests, AllSlotted)| == |s.gate.slots.held| && s.gate.waiting <= |s.gate.slots.held|
    ensures s.gate.slots.free + |s.gate.slots.held| == cfg.limit
    ensures s.gate.inFlight >= 0 && s.gate.waiting >= 0 && s.gate.inUse >= 0
  {
    hide Where, Agrees;
    HoldersCount(s.gate.permits, cfg.limit, s.requests, Permit, AllAdmitted);
    HoldersCount(s.gate.permits, cfg.limit, s.requests, Permit, InFlightGauge);
    HoldersCount(s.gate.capacity, cfg.capacity, s.requests, Capacity, AllWorking);
    HoldersCount(s.gate.capacity, cfg.capacity, s.requests, Capacity, InUseGauge);
    HoldersCount(s.gate.slots, cfg.limit, s.requests, Slot, InWaitingGauge);
    SlotHolders(cfg, s.requests, s.gate);
  }

  /** A request is refused only if, when it asked, as many requests as the limit held a slot. */
  lemma RefusedOnlyWhenFull(cfg: Config, steps: seq<Step>, states: seq<State>, k: nat, past: Log, r: nat)
    returns (found: Log)
    requires Accepts(cfg) && Run(cfg, steps, states) && k < |states|
    requires Prefix(Then(past, Refused(r)), states[k].log)
    ensures Prefix(Then(found, SlotsFull(r)), past) && |AccountOf(found).slotted| == cfg.limit
  {
    hide Run, Inv;
    EveryRunIsExplained(cfg, steps, states, k);
    ExplainedAt(cfg, states[k].log, past, Refused(r));
    found := FullMoment(past, r);
    ExplainedAt(cfg, past, found, SlotsFull(r));
  }

  lemma {:induction false} FullMoment(log: Log, r: nat) returns (found: Log)
    requires r in AccountOf(log).turnedAway
    ensures Prefix(Then(found, SlotsFull(r)), log)
  {
    if log.event == SlotsFull(r) {
      found := log.past;
    } else {
      found := FullMoment(log.past, r);
    }
  }

  ghost predicate Balanced(account: Account) {
    account.tally.arrived ==
      account.tally.admitted + account.tally.abandoned + account.tally.refused + account.tally.dropped
      + |account.undecided|
  }

  lemma CountingBalances(cfg: Config, past: Account, event: Event)
    requires Balanced(past) && Explains(cfg, past, event)
    ensures Balanced(Counted(past, event))
  {
  }

  lemma {:induction false} AdmitCallsBalance(cfg: Config, log: Log)
    requires Explained(cfg, log)
    ensures Balanced(AccountOf(log))
  {
    hide Counted, Explains;
    if log.Then? {
      AdmitCallsBalance(cfg, log.past);
      CountingBalances(cfg, AccountOf(log.past), log.event);
    }
  }

  /** Every admission call is accounted for: admitted, abandoned, refused, dropped, or still going on. */
  lemma AdmitCallsAreConserved(cfg: Config, steps: seq<Step>, states: seq<State>, k: nat)
    requires Accepts(cfg) && Run(cfg, steps, states) && k < |states|
    ensures var s, tally := states[k], AccountOf(states[k].log).tally;
            tally.arrived == tally.admitted + s.gate.abandoned + s.gate.refused + tally.dropped
                             + |Where(s.requests, AllUndecided)|
  {
    hide Run, In, Where;
    EveryRunIsExplained(cfg, steps, states, k);
    AdmitCallsBalance(cfg, states[k].log);
  }

  // ---------------------------------------------------------------- exit

  lemma SomebodyIn(queue: seq<nat>)
    ensures queue != [] ==> exists r :: r in queue
  {
    if queue != [] {
      assert queue[0] in queue;
    }
  }

  lemma NobodyLeft(sem: Semaphore, limit: nat, requests: map<nat, Request>, resource: Resource)
    requires Agrees(sem, limit, requests, resource) && ShareIn(resource, Over) == Nothing
    requires forall r :: r in requests ==> requests[r].place.Over?
    ensures sem.free == limit && sem.queue == []
  {
    assert sem.held == {};
    assert forall r :: r in sem.granted || r in sem.queue ==> Waiting(sem, r);
    assert sem.granted == {};
    SomebodyIn(sem.queue);
  }

  lemma NobodyListens(s: State)
    requires ListenersAgree(s) && s.serve.Exited? && s.connections == {}
    requires forall r :: r in s.requests ==> s.requests[r].place.Over?
    ensures s.life.stages == map[]
  {
    forall l
      ensures l !in s.life.stages
    {
      match l
      case Loop =>
      case Backoff =>
      case Conn(c) =>
      case Probe(c) =>
      case Of(r) =>
    }
  }

  lemma NobodyCounted(requests: map<nat, Request>, population: Population)
    requires forall r :: r in requests ==> requests[r].place.Over?
    ensures Where(requests, population) == {}
  {
  }

  /**
   Whichever way serving ends, no connection, request, permit, slot or capacity is left in use, every gauge is back at
   zero, and the notifier knows nobody any more.
   */
  lemma ExitLeavesNothing(cfg: Config, steps: seq<Step>, states: seq<State>, k: nat)
    requires Accepts(cfg) && Run(cfg, steps, states) && k < |states| && states[k].serve.Exited?
    ensures var s := states[k];
            && s.life.shuttingDown && s.connections == {}
            && (forall r :: r in s.requests ==> s.requests[r].place.Over?)
            && s.gate.permits.free == cfg.limit && s.gate.slots.free == cfg.limit
            && s.gate.capacity.free == cfg.capacity
            && s.gate.permits.queue == [] && s.gate.slots.queue == [] && s.gate.capacity.queue == []
            && s.gate.inFlight == 0 && s.gate.waiting == 0 && s.gate.inUse == 0
            && s.life.stages == map[] && s.life.registered == {} && s.life.notified == {}
            && (s.serve.fatal <==> s.failures == MAX_CONSECUTIVE_ACCEPT_FAILURES)
  {
    hide Run, Where, Agrees, Sound, Explained, PopulationsAgree, LogAgrees, ClockAgrees;
    EveryRunIsExplained(cfg, steps, states, k);
    var s := states[k];
    assert forall r :: r in s.requests ==> !Live(s, r);
    NobodyLeft(s.gate.permits, cfg.limit, s.requests, Permit);
    NobodyLeft(s.gate.slots, cfg.limit, s.requests, Slot);
    NobodyLeft(s.gate.capacity, cfg.capacity, s.requests, Capacity);
    NobodyCounted(s.requests, InWaitingGauge);
    NobodyCounted(s.requests, InFlightGauge);
    NobodyCounted(s.requests, InUseGauge);
    NobodyListens(s);
    NobodyKnown(s.life);
  }
}
