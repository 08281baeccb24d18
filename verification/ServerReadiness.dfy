/** What a readiness probe that answers ready can rely on, and exactly which probes may still do so in shutdown. */
module ServerReadiness {
  import opened Histories
  import opened Runs
  import opened Lifecycles
  import opened Server
  import opened ServerProofs
  import opened ServerTheorems

  /** At every moment from `since` to `log`, connection `c`'s probe had read the flag as serving and was not over. */
  ghost predicate ServedSince(since: Log, log: Log, c: nat) {
    forall moment :: Prefix(since, moment) && Prefix(moment, log) ==> c in AccountOf(moment).probes.served
  }

  /** At every moment from `since` to `log`, connection `c`'s probe was in a poll that had found shutdown pending. */
  ghost predicate ProbingSince(since: Log, log: Log, c: nat) {
    forall moment :: Prefix(since, moment) && Prefix(moment, log) ==> c in AccountOf(moment).probes.probing
  }

  lemma {:induction false} ServedMoment(log: Log, c: nat) returns (read: Log)
    requires c in AccountOf(log).probes.served
    ensures Prefix(Then(read, Noted(FoundServing(c))), log) && ServedSince(Then(read, Noted(FoundServing(c))), log, c)
  {
    if log.event == Noted(FoundServing(c)) {
      read := log.past;
      forall moment | Prefix(log, moment) && Prefix(moment, log)
        ensures moment == log
      {
        PrefixAntisymmetric(log, moment);
      }
    } else {
      read := ServedMoment(log.past, c);
    }
  }

  lemma {:induction false} PolledMoment(log: Log, c: nat) returns (poll: Log)
    requires c in AccountOf(log).probes.probing
    ensures Prefix(Then(poll, Noted(PolledPending(c))), log)
    ensures ProbingSince(Then(poll, Noted(PolledPending(c))), log, c)
  {
    if log.event == Noted(PolledPending(c)) {
      poll := log.past;
      forall moment | Prefix(log, moment) && Prefix(moment, log)
        ensures moment == log
      {
        PrefixAntisymmetric(log, moment);
      }
    } else {
      poll := PolledMoment(log.past, c);
    }
  }

  /**
   A probe that answers ready read the flag before the store that begins shutdown, and polled shutdown as pending before
   shutdown was announced, in the same poll of its task in which it answers.
   */
  lemma NoLateReadiness(cfg: Config, steps: seq<Step>, states: seq<State>, k: nat, past: Log, c: nat)
    returns (read: Log, poll: Log)
    requires Accepts(cfg) && Run(cfg, steps, states) && k < |states|
    requires Prefix(Then(past, Noted(ReportedReady(c))), states[k].log)
    ensures Prefix(Then(read, Noted(FoundServing(c))), poll) && ServedSince(Then(read, Noted(FoundServing(c))), poll, c)
    ensures Prefix(Then(poll, Noted(PolledPending(c))), past)
    ensures ProbingSince(Then(poll, Noted(PolledPending(c))), past, c)
    ensures forall before :: !Prefix(Then(before, ShutdownBegan), read)
    ensures !AccountOf(poll).probes.announced && forall before :: !Prefix(Then(before, Noted(Announced)), poll)
  {
    hide Run, Inv, ServedSince, ProbingSince, AccountOf;
    EveryRunIsExplained(cfg, steps, states, k);
    ExplainedAt(cfg, states[k].log, past, Noted(ReportedReady(c)));
    poll := PolledMoment(past, c);
    ExplainedAt(cfg, past, poll, Noted(PolledPending(c)));
    read := ServedMoment(poll, c);
    ExplainedAt(cfg, poll, read, Noted(FoundServing(c)));
    forall before
      ensures !Prefix(Then(before, ShutdownBegan), read) && !Prefix(Then(before, Noted(Announced)), poll)
    {
      if Prefix(Then(before, ShutdownBegan), read) {
        FlagsAreForever(read, before, ShutdownBegan);
      }
      if Prefix(Then(before, Noted(Announced)), poll) {
        FlagsAreForever(poll, before, Noted(Announced));
      }
    }
  }

  // ---------------------------------------------------------------- in shutdown

  /** Some continuation from `s` has a probe on connection `c` answer ready. */
  ghost predicate CanAnswerReady(cfg: Config, s: State, c: nat) {
    exists t, past {:trigger Leads(Machine(cfg), s, t), Prefix(s.log, past)} ::
      Leads(Machine(cfg), s, t) && Prefix(s.log, past) && Prefix(Then(past, Noted(ReportedReady(c))), t.log)
  }

  /**
   The probe may answer ready without looking at the flag again: it is past its look at shutdown in the current poll, or
   waits without having been notified, so that its next look may find shutdown pending.
   */
  predicate Unaware(s: State, c: nat) {
    c in s.probing || (At(s.life, Probe(c), Committed) && Probe(c) !in s.life.notified)
  }

  /** The step tells of nothing or of one thing, which is not that `c`'s probe answered ready. */
  ghost predicate Unanswered(s: State, t: State, c: nat) {
    t.log == s.log || (t.log.Then? && t.log.past == s.log && t.log.event != Noted(ReportedReady(c)))
  }

  lemma ProcessLeavesAware(cfg: Config, s: State, move: ProcessMove, c: nat)
    requires MayProcess(cfg, s, move) && !Unaware(s, c)
    ensures var t := ApplyProcess(cfg, s, move); !Unaware(t, c) && Unanswered(s, t, c)
  {
    hide Live;
    ProcessNotes(cfg, s, move);
  }

  lemma ListenLeavesAware(s: State, l: Listener, move: ListenMove, c: nat)
    requires MayListen(s, l, move) && s.life.shuttingDown && !Unaware(s, c)
    ensures var t := ApplyListen(s, l, move); !Unaware(t, c) && Unanswered(s, t, c)
  {
  }

  lemma AskLeavesAware(s: State, d: nat, move: ProbeMove, c: nat)
    requires MayAsk(s, d, move) && !Unaware(s, c)
    ensures var t := ApplyProbe(s, d, move); !Unaware(t, c) && Unanswered(s, t, c)
  {
    assert d != c ==> Probe(d) != Probe(c);
  }

  lemma RequestLeavesAware(cfg: Config, s: State, step: Step, c: nat)
    requires Enabled(cfg, s, step) && OfRequest(step) && !Unaware(s, c)
    ensures var t := Apply(cfg, s, step); !Unaware(t, c) && Unanswered(s, t, c)
  {
    hide RequestEffect, GateFollows, GaugesFollow, CountersFollow, Silent, Listens;
    EffectFollows(cfg, s, step);
  }

  /** In shutdown, a probe that is aware stays so, as does any that begins later, and none of them answers ready. */
  lemma StepLeavesAware(cfg: Config, s: State, step: Step, c: nat)
    requires Enabled(cfg, s, step) && s.life.shuttingDown && !Unaware(s, c)
    ensures var t := Apply(cfg, s, step); !Unaware(t, c) && Unanswered(s, t, c)
  {
    hide MayProcess, MayListen, MayAsk, ApplyProcess, ApplyListen, ApplyProbe, RequestEffect;
    match step
    case Process(move) => ProcessLeavesAware(cfg, s, move, c);
    case Listen(l, move) => ListenLeavesAware(s, l, move, c);
    case Ask(d, move) => AskLeavesAware(s, d, move, c);
    case Arrive(_, _) =>
    case _ => RequestLeavesAware(cfg, s, step, c);
  }

  lemma {:induction false} AwareStaysUnready(cfg: Config, steps: seq<Step>, states: seq<State>, k: nat, c: nat,
                                             past: Log)
    requires Path(Machine(cfg), steps, states) && k < |states|
    requires states[0].life.shuttingDown && !Unaware(states[0], c) && Prefix(states[0].log, past)
    ensures states[k].life.shuttingDown && !Unaware(states[k], c)
    ensures !Prefix(Then(past, Noted(ReportedReady(c))), states[k].log)
  {
    hide Enabled, Apply, Unaware;
    if k == 0 {
      if Prefix(Then(past, Noted(ReportedReady(c))), states[0].log) {
        PrefixIsShorter(Then(past, Noted(ReportedReady(c))), states[0].log);
        PrefixIsShorter(states[0].log, past);
      }
    } else {
      AwareStaysUnready(cfg, steps, states, k - 1, c, past);
      assert Machine(cfg)(states[k - 1], steps[k - 1], states[k - 1 + 1]);
      StepLeavesAware(cfg, states[k - 1], steps[k - 1], c);
      ShutdownStays(cfg, states[k - 1], steps[k - 1]);
    }
  }

  lemma UnawareCanAnswer(cfg: Config, s: State, c: nat)
    requires Unaware(s, c)
    ensures CanAnswerReady(cfg, s, c)
  {
    hide Leads, Machine;
    Stays(Machine(cfg), s);
    var t := s;
    if c !in s.probing {
      t := Taken(cfg, s, s, Ask(c, Polls));
    }
    var past := t.log;
    assert Prefix(s.log, past);
    t := Taken(cfg, s, t, Ask(c, Reports));
    assert Prefix(Then(past, Noted(ReportedReady(c))), t.log);
  }

  lemma AwareCannotAnswer(cfg: Config, s: State, c: nat)
    requires s.life.shuttingDown && !Unaware(s, c)
    ensures !CanAnswerReady(cfg, s, c)
  {
    hide Machine, Unaware;
    if CanAnswerReady(cfg, s, c) {
      var t, past :| Leads(Machine(cfg), s, t) && Prefix(s.log, past)
                     && Prefix(Then(past, Noted(ReportedReady(c))), t.log);
      var steps, states :| Path(Machine(cfg), steps, states) && states[0] == s && states[|steps|] == t;
      AwareStaysUnready(cfg, steps, states, |steps|, c, past);
    }
  }

  /**
   From the store that begins shutdown on, exactly the probes that are unaware of it may still answer ready; no other
   probe, and none that begins later, ever does. Once shutdown is announced, these are the ones past their look at it
   in the current poll.
   */
  lemma ReadinessInShutdownIsExact(cfg: Config, s: State, c: nat)
    requires Accepts(cfg) && Leads(Machine(cfg), Initial(cfg), s) && s.life.shuttingDown
    ensures CanAnswerReady(cfg, s, c) <==>
              c in s.probing || (At(s.life, Probe(c), Committed) && Probe(c) !in s.life.notified)
    ensures s.life.announced ==> (CanAnswerReady(cfg, s, c) <==> c in s.probing)
  {
    hide Leads, Machine, CanAnswerReady;
    if Unaware(s, c) {
      UnawareCanAnswer(cfg, s, c);
    } else {
      AwareCannotAnswer(cfg, s, c);
    }
    ReachedKeeps(cfg, s);
    assert Sound(s.life);
  }

  /**
   Such probes exist, so readiness is not quite false from the start of shutdown: `waiting` has one that waits when
   shutdown has begun, and `polled` one that is past its look at shutdown when it was announced.
   */
  lemma ReadyInShutdown(cfg: Config) returns (waiting: State, polled: State)
    ensures Leads(Machine(cfg), Initial(cfg), waiting) && waiting.life.shuttingDown && 0 !in waiting.probing
    ensures CanAnswerReady(cfg, waiting, 0)
    ensures Leads(Machine(cfg), Initial(cfg), polled) && polled.life.announced && 0 in polled.probing
    ensures CanAnswerReady(cfg, polled, 0)
  {
    hide Leads, Machine, CanAnswerReady;
    var origin := Initial(cfg);
    Stays(Machine(cfg), origin);
    var s := Taken(cfg, origin, origin, Listen(Loop, Registers));
    s := Taken(cfg, origin, s, Listen(Loop, ReadsFlag));
    s := Taken(cfg, origin, s, Process(Accept(0)));
    s := Taken(cfg, origin, s, Ask(0, Begins));
    s := Taken(cfg, origin, s, Listen(Probe(0), Registers));
    s := Taken(cfg, origin, s, Listen(Probe(0), ReadsFlag));
    waiting := Taken(cfg, origin, s, Process(SignalStores));
    UnawareCanAnswer(cfg, waiting, 0);
    polled := Taken(cfg, origin, waiting, Ask(0, Polls));
    polled := Taken(cfg, origin, polled, Process(SignalNotifies));
    UnawareCanAnswer(cfg, polled, 0);
  }
}
