/** Shutdown is bounded: whatever state it finds the process in, serving can end in time, though nobody cooperates. */
module ServerShutdown {
  import opened Wrappers
  import opened Runs
  import opened Semaphores
  import opened Lifecycles
  import opened Server
  import opened ServerProofs
  import opened ServerTheorems

  /** A state in shutdown that was reached from `origin`. */
  ghost predicate Ongoing(cfg: Config, origin: State, s: State) {
    Accepts(cfg) && Inv(cfg, s) && s.life.shuttingDown && Leads(Machine(cfg), origin, s)
  }

  lemma Goes(cfg: Config, origin: State, s: State, step: Step) returns (t: State)
    requires Ongoing(cfg, origin, s) && Enabled(cfg, s, step)
    ensures t == Apply(cfg, s, step) && Ongoing(cfg, origin, t)
  {
    hide Inv, Leads, Machine, Enabled, Apply;
    StepKeeps(cfg, s, step);
    ShutdownStays(cfg, s, step);
    t := Taken(cfg, origin, s, step);
  }

  // ---------------------------------------------------------------- requests unwind

  function StageRank(stage: Stage): nat {
    match stage case Fresh => 3 case Registered => 2 case Committed => 1 case Resolved => 0
  }

  function PhaseRank(phase: Phase): nat {
    match phase
    case Departing => 1
    case Leaving => 2
    case Handling => 3
    case Releasing(_) => 4
    case Lowering(_) => 5
    case Withdrawing(_) => 5
    case Working => 6
    case Raising => 7
    case GrantedClock => 8
    case Granted => 9
    case Queued => 10
    case AskingPermit => 11
    case AskingClock => 12
  }

  /** How many steps a request is away from its end, at most, if nobody else does anything. */
  function Rank(place: Place, stage: Stage): nat {
    match place
    case Over => 0
    case Entering => 1
    case Refusing => 1
    case Abandoning => 1
    case Returning => 2
    case Admitted(phase) => PhaseRank(phase)
    case Decided => 13
    case Cleared => 14
    case Finalizing => 15
    case Unslotting(_) => 16
    case Unparking(_) => 17
    case Unlisted(_, _) => 18
    case Waking(_, _) => 19
    case Parked => 20
    case Listening => 21 + StageRank(stage)
    case Slotted => 25
    case SeekingSlot => 26
    case Trying => 27
    case EnteringClock => 28
  }

  function StageOf(s: State, r: nat): Stage {
    if Of(r) in s.life.stages then s.life.stages[Of(r)] else Fresh
  }

  function WorkUnwinds(phase: Phase, r: nat): Step {
    match phase
    case Handling => Drop(r)
    case AskingClock => Work(r, AskClock)
    case AskingPermit => Work(r, TryCapacity)
    case Queued => Drop(r)
    case Withdrawing(_) => Work(r, Withdraw)
    case Granted => Work(r, CheckCancelled)
    case GrantedClock => Work(r, CheckClock)
    case Raising => Work(r, RaiseInUse)
    case Working => Drop(r)
    case Lowering(_) => Work(r, LowerInUse)
    case Releasing(_) => Work(r, ReleaseCapacity)
    case Leaving => Work(r, LowerInFlight)
    case Departing => Work(r, ReleasePermit)
  }

  function ListeningUnwinds(stage: Stage, r: nat): Step {
    match stage
    case Fresh => Listen(Of(r), Registers)
    case Registered => Listen(Of(r), ReadsFlag)
    case Committed => Enter(r, JoinLine)
    case Resolved => Enter(r, HearShutdown)
  }

  /** A step that brings a request closer to its end and takes no time: it is dropped, or goes on where it cannot be. */
  function Unwinds(place: Place, stage: Stage, r: nat): Step
    requires !place.Over?
  {
    match place
    case Entering => Drop(r)
    case EnteringClock => Enter(r, EntryClock)
    case Trying => Enter(r, TryPermit)
    case SeekingSlot => Enter(r, TrySlot)
    case Slotted => Enter(r, RaiseWaiting)
    case Listening => ListeningUnwinds(stage, r)
    case Parked => Drop(r)
    case Waking(_, _) => Settle(r, DropListener)
    case Unlisted(_, _) => Settle(r, LeaveLine)
    case Unparking(_) => Settle(r, LowerWaiting)
    case Unslotting(_) => Settle(r, ReturnSlot)
    case Finalizing => Settle(r, FinalFlag)
    case Cleared => Settle(r, FinalClock)
    case Decided => Settle(r, RaiseInFlight)
    case Returning => Settle(r, ReturnPermit)
    case Abandoning => Settle(r, CountAbandoned)
    case Refusing => Settle(r, CountRefused)
    case Admitted(phase) => WorkUnwinds(phase, r)
  }

  /** Only request `r` has moved. */
  ghost predicate OnlyMoves(s: State, t: State, r: nat) {
    && t.clock == s.clock && t.serve == s.serve && t.connections == s.connections
    && t.requests.Keys == s.requests.Keys
    && forall q :: q in s.requests && q != r ==> t.requests[q] == s.requests[q]
  }

  lemma EntryDescends(s: State, r: nat, q: Request, move: EntryMove, before: Stage, after: Stage)
    requires MayEnter(s, r, q, move) && !move.EntryFlag?
    ensures Rank(EntryEffect(s, r, q, move).place, after) < Rank(q.place, before)
  {
    hide TryAcquire, StartWaiting, Claim, Create;
  }

  lemma ExitDescends(s: State, r: nat, q: Request, move: ExitMove, before: Stage, after: Stage)
    requires MaySettle(q, move) && s.life.shuttingDown
    ensures Rank(ExitEffect(s, r, q, move).place, after) < Rank(q.place, before)
  {
    hide Abandon, Semaphores.Release, Dismiss;
  }

  lemma WorkDescends(s: State, r: nat, q: Request, move: WorkMove, before: Stage, after: Stage)
    requires MayWork(s, r, q, move) && !move.AskCancelled?
    ensures Rank(WorkEffect(s, r, q, move).place, after) < Rank(q.place, before)
  {
    hide TryAcquire, StartWaiting, Claim, Abandon, Semaphores.Release;
  }

  lemma DropDescends(s: State, r: nat, place: Place, before: Stage, after: Stage)
    requires Droppable(place)
    ensures Rank(DropEffect(s, r, place).place, after) < Rank(place, before)
  {
  }

  lemma ListenDescends(s: State, r: nat, move: ListenMove)
    requires MayListen(s, Of(r), move) && s.requests[r].place.Listening? && s.life.shuttingDown && !move.Wakes?
    ensures var t := ApplyListen(s, Of(r), move);
            OnlyMoves(s, t, r) && t.requests == s.requests && StageRank(StageOf(t, r)) < StageRank(StageOf(s, r))
  {
  }

  lemma UnwindingIsEnabled(cfg: Config, s: State, r: nat)
    requires Live(s, r) && ListenersAgree(s)
    ensures Enabled(cfg, s, Unwinds(s.requests[r].place, StageOf(s, r), r))
  {
    assert s.requests[r].place.Listening? ==> Of(r) in s.life.stages;
  }

  /** Which steps unwinding takes: never one that begins anew. */
  lemma UnwindingGoesOn(place: Place, stage: Stage, r: nat)
    requires !place.Over?
    ensures match Unwinds(place, stage, r)
            case Enter(q, move) => q == r && !move.EntryFlag?
            case Settle(q, _) => q == r
            case Work(q, move) => q == r && !move.AskCancelled?
            case Drop(q) => q == r
            case Listen(l, move) => l == Of(r) && place.Listening? && !move.Wakes?
            case _ => false
  {
  }

  lemma RequestUnwinds(cfg: Config, s: State, r: nat)
    requires Live(s, r) && ListenersAgree(s) && s.life.shuttingDown
    ensures var step := Unwinds(s.requests[r].place, StageOf(s, r), r);
            && Enabled(cfg, s, step)
            && var t := Apply(cfg, s, step);
            && OnlyMoves(s, t, r)
            && Rank(t.requests[r].place, StageOf(t, r)) < Rank(s.requests[r].place, StageOf(s, r))
  {
    var q, before := s.requests[r], StageOf(s, r);
    UnwindingIsEnabled(cfg, s, r);
    UnwindingGoesOn(q.place, before, r);
    var step := Unwinds(q.place, before, r);
    var after := StageOf(Apply(cfg, s, step), r);
    hide Unwinds, StageOf, EntryEffect, ExitEffect, WorkEffect, DropEffect, ApplyListen, MayEnter, MaySettle, MayWork,
      MayListen, Droppable, ListenersAgree;
    match step
    case Enter(_, move) => EntryDescends(s, r, q, move, before, after);
    case Settle(_, move) => ExitDescends(s, r, q, move, before, after);
    case Work(_, move) => WorkDescends(s, r, q, move, before, after);
    case Drop(_) => DropDescends(s, r, q.place, before, after);
    case Listen(_, move) => ListenDescends(s, r, move);
  }

  lemma {:induction false} RequestEnds(cfg: Config, origin: State, s: State, r: nat) returns (t: State)
    requires Ongoing(cfg, origin, s) && Live(s, r)
    ensures Ongoing(cfg, origin, t) && OnlyMoves(s, t, r) && !Live(t, r)
    decreases Rank(s.requests[r].place, StageOf(s, r))
  {
    hide Machine, Leads, Enabled, Apply, Unwinds, Rank;
    RequestUnwinds(cfg, s, r);
    t := Goes(cfg, origin, s, Unwinds(s.requests[r].place, StageOf(s, r), r));
    if Live(t, r) {
      t := RequestEnds(cfg, origin, t, r);
    }
  }

  ghost function LiveRequests(s: State): set<nat> {
    set r | r in s.requests && Live(s, r)
  }

  lemma {:induction false} RequestsEnd(cfg: Config, origin: State, s: State) returns (t: State)
    requires Ongoing(cfg, origin, s)
    ensures Ongoing(cfg, origin, t) && LiveRequests(t) == {}
    ensures t.clock == s.clock && t.serve == s.serve && t.connections == s.connections
    decreases |LiveRequests(s)|
  {
    hide Ongoing;
    if LiveRequests(s) == {} {
      t := s;
    } else {
      var r :| r in LiveRequests(s);
      t := RequestEnds(cfg, origin, s, r);
      assert LiveRequests(t) <= LiveRequests(s) - {r};
      SubsetCount(LiveRequests(t), LiveRequests(s) - {r});
      t := RequestsEnd(cfg, origin, t);
    }
  }

  // ---------------------------------------------------------------- connections close

  lemma ConnectionCloses(cfg: Config, origin: State, s: State, c: nat) returns (t: State)
    requires Ongoing(cfg, origin, s) && LiveRequests(s) == {} && c in s.connections
    ensures Ongoing(cfg, origin, t) && LiveRequests(t) == {}
    ensures t.clock == s.clock && t.serve == s.serve && t.connections == s.connections - {c}
  {
    hide Ongoing;
    assert forall r :: !Live(s, r) by {
      forall r ensures !Live(s, r) {
        assert r !in LiveRequests(s);
      }
    }
    t := s;
    if Probe(c) in s.life.stages {
      t := Goes(cfg, origin, s, Ask(c, Ends));
    }
    assert forall r :: Live(t, r) <==> Live(s, r);
    t := Goes(cfg, origin, t, Process(Close(c)));
  }

  lemma {:induction false} ConnectionsClose(cfg: Config, origin: State, s: State) returns (t: State)
    requires Ongoing(cfg, origin, s) && LiveRequests(s) == {}
    ensures Ongoing(cfg, origin, t) && t.connections == {} && t.clock == s.clock && t.serve == s.serve
    decreases |s.connections|
  {
    hide Ongoing, LiveRequests;
    if s.connections == {} {
      t := s;
    } else {
      var c :| c in s.connections;
      t := ConnectionCloses(cfg, origin, s, c);
      t := ConnectionsClose(cfg, origin, t);
    }
  }

  // ---------------------------------------------------------------- the phases

  /** Nobody has left, moved or got anything: requests, connections and the gate are as they were. */
  ghost predicate NobodyMoved(s: State, t: State) {
    t.requests == s.requests && t.connections == s.connections && t.gate == s.gate
  }

  /** Whoever awaits the start of shutdown hears of it once it was announced. */
  lemma Hears(cfg: Config, origin: State, s: State, l: Listener) returns (t: State)
    requires Ongoing(cfg, origin, s) && s.life.announced && l in s.life.stages && Polled(s, l)
    requires l.Loop? || l.Backoff?
    ensures Ongoing(cfg, origin, t) && At(t.life, l, Resolved)
    ensures t.clock == s.clock && t.serve == s.serve && t.signal == s.signal && NobodyMoved(s, t)
  {
    hide Machine, Leads, Explained, GateAgrees, GaugesAgree, PopulationsAgree, LogAgrees, ListenersAgree, ServeAgrees,
      ClockAgrees, ProbesAgree;
    assert Sound(s.life);
    hide Inv;
    t := s;
    match s.life.stages[l]
    case Fresh =>
      t := Goes(cfg, origin, t, Listen(l, Registers));
      t := Goes(cfg, origin, t, Listen(l, ReadsFlag));
    case Registered => t := Goes(cfg, origin, t, Listen(l, ReadsFlag));
    case Committed => t := Goes(cfg, origin, t, Listen(l, Wakes));
    case Resolved =>
  }

  /** The signal task, if it began shutdown, announces it. */
  lemma SignalAnnounces(cfg: Config, origin: State, s: State) returns (t: State)
    requires Ongoing(cfg, origin, s)
    ensures Ongoing(cfg, origin, t) && t.clock == s.clock && t.serve == s.serve && !t.signal.Stored?
    ensures NobodyMoved(s, t)
  {
    hide Inv, Leads, Machine;
    t := s;
    if s.signal.Stored? {
      t := Goes(cfg, origin, s, Process(SignalNotifies));
    }
  }

  lemma ServingKnows(cfg: Config, s: State)
    requires Inv(cfg, s) && s.life.shuttingDown && !s.signal.Stored? && Serving(s.serve)
    ensures s.life.announced && Loop in s.life.stages && (s.serve.Backing? ==> Backoff in s.life.stages)
  {
    hide Explained, GateAgrees, GaugesAgree, PopulationsAgree, LogAgrees, Sound, ClockAgrees, ProbesAgree;
  }

  lemma DrainingBegins(cfg: Config, origin: State, s: State) returns (t: State)
    requires Ongoing(cfg, origin, s) && !Ending(s.serve)
    ensures Ongoing(cfg, origin, t) && t.serve.Draining? && t.clock == s.clock == t.serve.since
    ensures NobodyMoved(s, t)
  {
    hide Inv, Leads, Machine;
    t := SignalAnnounces(cfg, origin, s);
    if Serving(t.serve) {
      ServingKnows(cfg, t);
      var l := if t.serve.Accepting? then Loop else Backoff;
      t := Hears(cfg, origin, t, l);
      t := Goes(cfg, origin, t, Process(if t.serve.Accepting? then LoopBreaks else PressureStops));
    } else {
      if t.serve.Failed? {
        t := Goes(cfg, origin, t, Process(FailureStores));
      }
      t := Goes(cfg, origin, t, Process(FailureNotifies));
    }
  }

  lemma PhaseStarted(cfg: Config, origin: State, s: State)
    requires Ongoing(cfg, origin, s)
    ensures s.serve.Draining? || s.serve.Window? ==> s.serve.since <= s.clock
  {
    hide Leads, Machine, Explained, GateAgrees, GaugesAgree, PopulationsAgree, LogAgrees, Sound, ListenersAgree,
      ServeAgrees, ProbesAgree, AccountOf;
  }

  /** The clock passes `moment`. */
  lemma Waits(cfg: Config, origin: State, s: State, moment: nat) returns (t: State)
    requires Ongoing(cfg, origin, s)
    ensures Ongoing(cfg, origin, t) && t.serve == s.serve && s.clock <= t.clock && moment <= t.clock
    ensures (t.clock == s.clock || t.clock == moment) && NobodyMoved(s, t)
  {
    hide Ongoing;
    t := s;
    if s.clock < moment {
      t := Goes(cfg, origin, s, Process(Tick(moment - s.clock)));
    }
  }

  /** Draining ends when the grace period does. */
  lemma GraceEnds(cfg: Config, origin: State, s: State) returns (t: State)
    requires Ongoing(cfg, origin, s) && s.serve.Draining?
    ensures Ongoing(cfg, origin, t) && t.serve.CancelStored? && t.clock <= s.clock + cfg.grace
    ensures NobodyMoved(s, t)
  {
    hide Ongoing;
    PhaseStarted(cfg, origin, s);
    t := Waits(cfg, origin, s, s.serve.since + cfg.grace);
    t := Goes(cfg, origin, t, Process(GraceExpires));
  }

  /** And the window for cancelled requests ends. */
  lemma WindowCloses(cfg: Config, origin: State, s: State) returns (t: State)
    requires Ongoing(cfg, origin, s) && s.serve.Window?
    ensures Ongoing(cfg, origin, t) && t.serve.Aborting? && t.clock <= s.clock + CANCELLED_REQUEST_WINDOW
    ensures NobodyMoved(s, t)
  {
    hide Ongoing;
    PhaseStarted(cfg, origin, s);
    t := Waits(cfg, origin, s, s.serve.since + CANCELLED_REQUEST_WINDOW);
    t := Goes(cfg, origin, t, Process(WindowEnds));
  }

  lemma AbortingBegins(cfg: Config, origin: State, s: State) returns (t: State)
    requires Ongoing(cfg, origin, s) && Ending(s.serve) && !s.serve.Exited?
    ensures Ongoing(cfg, origin, t) && t.serve.Aborting? && NobodyMoved(s, t)
    ensures t.clock <= s.clock + (if s.serve.Draining? then cfg.grace else 0) + CANCELLED_REQUEST_WINDOW
  {
    hide Ongoing;
    t := s;
    if t.serve.Draining? {
      t := GraceEnds(cfg, origin, t);
    }
    if t.serve.CancelStored? {
      t := Goes(cfg, origin, t, Process(CancelNotifies));
    }
    if t.serve.Window? {
      t := WindowCloses(cfg, origin, t);
    }
  }

  lemma Exits(cfg: Config, origin: State, s: State) returns (t: State)
    requires Ongoing(cfg, origin, s) && s.serve.Aborting?
    ensures Ongoing(cfg, origin, t) && t.serve.Exited? && t.clock == s.clock
  {
    hide Ongoing, LiveRequests;
    t := RequestsEnd(cfg, origin, s);
    t := ConnectionsClose(cfg, origin, t);
    t := Goes(cfg, origin, t, Process(Exit));
  }

  /**
   From every reachable state in which shutdown has begun, serving can end with the clock advanced by no more than the
   grace period and the window for cancelled requests. Nobody has to cooperate: until the remaining tasks are aborted,
   no request moves, no connection closes and no permit is returned; and after that no time passes.
   */
  lemma ShutdownIsBounded(cfg: Config, s: State) returns (aborting: State, t: State)
    requires Accepts(cfg) && Leads(Machine(cfg), Initial(cfg), s) && s.life.shuttingDown
    ensures Leads(Machine(cfg), s, t) && t.serve.Exited?
    ensures t.clock <= s.clock + cfg.grace + CANCELLED_REQUEST_WINDOW
    ensures !s.serve.Exited? ==>
              && Leads(Machine(cfg), s, aborting) && aborting.serve.Aborting?
              && NobodyMoved(s, aborting)
              && aborting.clock <= s.clock + cfg.grace + CANCELLED_REQUEST_WINDOW
              && Leads(Machine(cfg), aborting, t) && t.clock == aborting.clock
  {
    hide Inv, Leads, Machine;
    ReachedKeeps(cfg, s);
    Stays(Machine(cfg), s);
    aborting, t := s, s;
    if !s.serve.Exited? {
      if !Ending(s.serve) {
        aborting := DrainingBegins(cfg, s, s);
      }
      aborting := AbortingBegins(cfg, s, aborting);
      Stays(Machine(cfg), aborting);
      t := Exits(cfg, aborting, aborting);
      LeadsOn(Machine(cfg), s, aborting, t);
    }
  }

  // ---------------------------------------------------------------- and no sooner

  /** What the clock must have come to in each phase, for a shutdown that `start` precedes, with a connection open. */
  ghost predicate InDueTime(cfg: Config, start: nat, s: State) {
    && start <= s.clock
    && (Ending(s.serve) && s.connections != {} ==>
          match s.serve
          case Draining(since, _) => start <= since
          case CancelStored(_) => start + cfg.grace <= s.clock
          case Window(since, _) => start + cfg.grace <= since
          case Aborting(_) => start + cfg.grace + CANCELLED_REQUEST_WINDOW <= s.clock
          case _ => false)
  }

  lemma ProcessInDueTime(cfg: Config, start: nat, s: State, move: ProcessMove)
    requires InDueTime(cfg, start, s) && MayProcess(cfg, s, move)
    ensures InDueTime(cfg, start, ApplyProcess(cfg, s, move))
  {
    hide At, Live, Create, Dismiss, StoreShutdown, Announce, NotifyWaiters, StoreCancellation;
  }

  lemma StepInDueTime(cfg: Config, start: nat, s: State, step: Step)
    requires InDueTime(cfg, start, s) && Enabled(cfg, s, step)
    ensures InDueTime(cfg, start, Apply(cfg, s, step))
  {
    hide MayProcess, MayListen, MayAsk, MayEnter, MaySettle, MayWork, ApplyProcess, RequestEffect;
    match step
    case Process(move) => ProcessInDueTime(cfg, start, s, move);
    case _ =>
  }

  lemma {:induction false} PathInDueTime(cfg: Config, steps: seq<Step>, states: seq<State>, k: nat)
    requires Path(Machine(cfg), steps, states) && k < |states| && !Ending(states[0].serve)
    ensures InDueTime(cfg, states[0].clock, states[k])
  {
    hide Enabled, Apply, InDueTime;
    if k == 0 {
      assert InDueTime(cfg, states[0].clock, states[0]) by { StartsInDueTime(cfg, states[0]); }
    } else {
      PathInDueTime(cfg, steps, states, k - 1);
      assert Machine(cfg)(states[k - 1], steps[k - 1], states[k - 1 + 1]);
      StepInDueTime(cfg, states[0].clock, states[k - 1], steps[k - 1]);
    }
  }

  lemma StartsInDueTime(cfg: Config, s: State)
    requires !Ending(s.serve)
    ensures InDueTime(cfg, s.clock, s)
  {
  }

  /**
   Nobody is aborted early: from no state that is not yet draining can the abort of remaining tasks be reached with a
   connection still open before the whole grace period and the whole window have passed.
   */
  lemma NobodyIsAbortedEarly(cfg: Config, s: State, aborting: State)
    requires Leads(Machine(cfg), s, aborting) && !Ending(s.serve)
    requires aborting.serve.Aborting? && aborting.connections != {}
    ensures s.clock + cfg.grace + CANCELLED_REQUEST_WINDOW <= aborting.clock
  {
    hide Machine;
    var steps, states :| Path(Machine(cfg), steps, states) && states[0] == s && states[|steps|] == aborting;
    PathInDueTime(cfg, steps, states, |steps|);
  }
}
