/**
 Why configuration must make the grace period cover a request: with any shorter one, some run cuts a request short.
 */
module ServerTightness {
  import opened Histories
  import opened Runs
  import opened Lifecycles
  import opened Server
  import opened ServerTheorems

  /** A request can arrive at time zero. */
  lemma OneArrival(cfg: Config) returns (s: State)
    ensures Leads(Machine(cfg), Initial(cfg), s)
    ensures s.clock == 0 && s.serve.Accepting? && s.signal.Idle? && !s.life.shuttingDown
    ensures At(s.life, Loop, Committed) && Loop in s.life.registered
    ensures s.requests == map[0 := Request(cfg.overall, 0, Entering)] && s.gate == Initial(cfg).gate
  {
    hide Leads, Machine;
    s := Initial(cfg);
    Stays(Machine(cfg), s);
    s := Taken(cfg, Initial(cfg), s, Listen(Loop, Registers));
    s := Taken(cfg, Initial(cfg), s, Listen(Loop, ReadsFlag));
    s := Taken(cfg, Initial(cfg), s, Process(Accept(0)));
    s := Taken(cfg, Initial(cfg), s, Arrive(0, 0));
  }

  /** And be admitted at once. */
  lemma OneAdmission(cfg: Config) returns (s: State, past: Log)
    requires 0 < cfg.limit && 0 < cfg.overall
    ensures Leads(Machine(cfg), Initial(cfg), s)
    ensures s.clock == 0 && s.serve.Accepting? && s.signal.Idle?
    ensures At(s.life, Loop, Committed) && Loop in s.life.registered
    ensures s.log == Then(past, Admission(0, cfg.overall, 0))
  {
    hide Leads, Machine;
    s := OneArrival(cfg);
    s := Taken(cfg, Initial(cfg), s, Enter(0, EntryFlag));
    s := Taken(cfg, Initial(cfg), s, Enter(0, EntryClock));
    s := Taken(cfg, Initial(cfg), s, Enter(0, TryPermit));
    s := Taken(cfg, Initial(cfg), s, Settle(0, FinalFlag));
    past := s.log;
    s := Taken(cfg, Initial(cfg), s, Settle(0, FinalClock));
  }

  /** With a grace period shorter than a request may take, an admitted request is cancelled before its deadline. */
  lemma ShortGraceCutsARequest(cfg: Config) returns (steps: seq<Step>, states: seq<State>, past: Log, before: Log)
    requires 0 < cfg.limit && cfg.grace < cfg.overall
    ensures Run(cfg, steps, states) && |states| == |steps| + 1
    ensures states[|steps|].log == Then(past, CancellationRaised(cfg.grace))
    ensures Prefix(Then(before, Admission(0, cfg.overall, 0)), past)
  {
    hide Machine;
    var s;
    s, before := OneAdmission(cfg);
    s := Taken(cfg, Initial(cfg), s, Process(SignalStores));
    s := Taken(cfg, Initial(cfg), s, Process(SignalNotifies));
    s := Taken(cfg, Initial(cfg), s, Listen(Loop, Wakes));
    s := Taken(cfg, Initial(cfg), s, Process(LoopBreaks));
    s := Taken(cfg, Initial(cfg), s, Process(Tick(cfg.grace)));
    past := s.log;
    assert past.past.past.past == Then(before, Admission(0, cfg.overall, 0));
    NextExtends(past.past.past.past, past.past.past.event);
    assert Prefix(past.past.past.past, past.past);
    s := Taken(cfg, Initial(cfg), s, Process(GraceExpires));
    steps, states :| Path(Machine(cfg), steps, states) && states[0] == Initial(cfg) && states[|steps|] == s;
  }

  /** In this run a request that was admitted is cancelled before its own deadline. */
  ghost predicate CutsShort(cfg: Config, steps: seq<Step>, states: seq<State>, past: Log, now: nat, before: Log,
                            admission: Event) {
    && Run(cfg, steps, states) && |states| == |steps| + 1 && admission.Admission? && now < admission.deadline
    && Prefix(Then(past, CancellationRaised(now)), states[|steps|].log)
    && Prefix(Then(before, admission), states[|steps|].log)
  }

  /** The inequality that configuration validation demands is exactly what is needed. */
  lemma GraceIsExact(cfg: Config)
    requires 0 < cfg.limit && 0 < cfg.capacity && 0 < cfg.overall
    ensures cfg.overall <= cfg.grace <==>
              forall steps, states, past, now, before, admission ::
                !CutsShort(cfg, steps, states, past, now, before, admission)
  {
    hide Run;
    if cfg.overall <= cfg.grace {
      forall steps, states, past, now, before, admission
        ensures !CutsShort(cfg, steps, states, past, now, before, admission)
      {
        if CutsShort(cfg, steps, states, past, now, before, admission) {
          CancellationSparesBudgets(cfg, steps, states, |steps|, past, now, before, admission);
        }
      }
    } else {
      var steps, states, past, before := ShortGraceCutsARequest(cfg);
      assert Prefix(Then(past, CancellationRaised(cfg.grace)), states[|steps|].log);
      assert Prefix(Then(before, Admission(0, cfg.overall, 0)), states[|steps|].log);
      assert CutsShort(cfg, steps, states, past, cfg.grace, before, Admission(0, cfg.overall, 0));
    }
  }
}
