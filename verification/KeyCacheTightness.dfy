/** Why refreshes coalesce only below the generation counter's maximum: at the maximum, some run installs twice. */
module KeyCacheTightness {
  import opened Wrappers
  import opened Histories
  import opened Runs
  import opened TokenVerification
  import opened KeyCache

  /**
   In this run two attempts that observed the same generation both install, although the second one began its fetch
   when what the first one installed was still fresh.
   */
  ghost predicate InstallsTwice(cfg: Config, generation: nat, steps: seq<Step>, states: seq<State>, first: Log, p: nat,
                                early: Snapshot, began: Log, q: nat, now: nat, second: Log, late: Snapshot) {
    && Run(cfg, steps, states) && |states| == |steps| + 1
    && Prefix(Then(first, Installed(p, early)), began) && Prefix(Then(began, FetchBegan(q, now)), second)
    && Prefix(Then(second, Installed(q, late)), states[|steps|].log)
    && AccountOf(first, p).observed.Some? && AccountOf(first, p).observed.value.generation == generation
    && AccountOf(began, q).observed.Some? && AccountOf(began, q).observed.value.generation == generation
    && early.acquired <= now && now - early.acquired <= cfg.policy.freshness
  }

  /** Below the maximum the first install has a newer generation, which a fetch would have to find no longer fresh. */
  lemma BelowMaximumOnlyOnce(cfg: Config, generation: nat, steps: seq<Step>, states: seq<State>, first: Log, p: nat,
                             early: Snapshot, began: Log, q: nat, now: nat, second: Log, late: Snapshot)
    requires generation < U64_MAX
    ensures !InstallsTwice(cfg, generation, steps, states, first, p, early, began, q, now, second, late)
  {
    hide Run, Inv, Explains;
    if InstallsTwice(cfg, generation, steps, states, first, p, early, began, q, now, second, late) {
      var log, installed := states[|steps|].log, Then(first, Installed(p, early));
      EveryRunIsExplained(cfg, steps, states, |steps|);
      NextExtends(first, Installed(p, early));
      NextExtends(second, Installed(q, late));
      PrefixTransitive(second, Then(second, Installed(q, late)), log);
      PrefixTransitive(Then(began, FetchBegan(q, now)), second, log);
      FetchesAreRare(cfg, steps, states, |steps|, began, q, now);
      ExplainedAt(cfg, log, began, FetchBegan(q, now));
      InstallsAccumulate(cfg, installed, began);
      InstallsAccumulate(cfg, first, installed);
      ObservedCounts(cfg, first, p);
      FetchFollowsInstall(cfg, began, q, now);
    }
  }

  lemma FetchFollowsInstall(cfg: Config, began: Log, q: nat, now: nat)
    requires Explains(cfg, began, FetchBegan(q, now))
    ensures Current(began).Some? ==> Current(began).value.acquired <= now
  {
  }

  // ---------------------------------------------------------------- runs

  lemma Taken(cfg: Config, s: State, step: Step) returns (t: State)
    requires Leads(Machine(cfg), INITIAL, s) && Enabled(s, step)
    ensures t == Apply(cfg, s, step) && Leads(Machine(cfg), INITIAL, t)
  {
    t := Apply(cfg, s, step);
    OneStep(Machine(cfg), s, step, t);
    LeadsOn(Machine(cfg), INITIAL, s, t);
  }

  /** Attempts `0` to `n - 1` have been made, nobody is refreshing, and the cache is unusable. */
  ghost predicate Idle(cfg: Config, s: State, n: nat) {
    && s.leader.None? && !s.cancelled
    && (forall p :: p in s.attempts ==> p < n)
    && ClassifyCache(cfg.policy, s.cache, s.clock) == ColdOrExpired
  }

  /** Attempt `p` waits to refresh, having seen the generation that is current. */
  ghost predicate Waits(s: State, p: nat) {
    && p in s.attempts && s.attempts[p].place == AwaitingMutex(Generation(s.cache), Readiness)
    && s.attempts[p].purpose == EnsureUsable && ContextAlive(s, s.attempts[p])
    && AccountOf(s.log, p).observed.Some? && AccountOf(s.log, p).observed.value.generation == Generation(s.cache)
  }

  /** A readiness attempt finds the cache unusable and waits to refresh it. */
  lemma OneWaits(cfg: Config, s: State, n: nat) returns (t: State)
    requires Leads(Machine(cfg), INITIAL, s) && Idle(cfg, s, n)
    ensures Leads(Machine(cfg), INITIAL, t)
    ensures Idle(cfg, t, n + 1) && Waits(t, n) && t.cache == s.cache && t.clock == s.clock
    ensures forall p :: Waits(s, p) ==> Waits(t, p)
  {
    hide Leads, Machine;
    t := Taken(cfg, s, Begin(n, EnsureUsable, s.clock + 1));
    t := Taken(cfg, t, Classify(n));
  }

  /** A waiting attempt whose turn it is fetches and installs. */
  lemma OneRefreshes(cfg: Config, s: State, p: nat) returns (t: State, past: Log, early: Snapshot)
    requires Leads(Machine(cfg), INITIAL, s) && s.leader.None? && !s.cancelled && Waits(s, p)
    ensures Leads(Machine(cfg), INITIAL, t)
    ensures past == Then(s.log, FetchBegan(p, s.clock))
    ensures t.log == Then(Then(past, Installed(p, early)), RefreshEnded(p, Replaced))
    ensures early == Snapshot([], s.clock, SaturatingIncrement(Generation(s.cache)))
    ensures t.cache == Some(early) && t.clock == s.clock
    ensures t.leader.None? && !t.cancelled && t.attempts.Keys == s.attempts.Keys
    ensures forall q :: q in s.attempts && q != p ==>
              t.attempts[q] == s.attempts[q] && AccountOf(t.log, q) == AccountOf(s.log, q)
  {
    hide Leads, Machine;
    t := Taken(cfg, s, TakeMutex(p));
    t := Taken(cfg, t, CheckNewer(p));
    past := t.log;
    t := Taken(cfg, t, FetchSucceeds(p, []));
    t := Taken(cfg, t, Install(p));
    early := t.cache.value;
    assert forall q :: q != p ==> AccountOf(past, q) == AccountOf(s.log, q);
    assert forall q :: q != p ==> AccountOf(Then(past, Installed(p, early)), q) == AccountOf(past, q);
  }

  /** Any number of refreshes can follow one another, each starting when what the last one installed has expired. */
  lemma {:induction false} ManyRefreshes(cfg: Config, n: nat) returns (s: State)
    requires n <= U64_MAX
    ensures Leads(Machine(cfg), INITIAL, s) && Idle(cfg, s, n) && Generation(s.cache) == n
  {
    hide Leads, Machine, Waits;
    if n == 0 {
      s := INITIAL;
      Stays(Machine(cfg), s);
    } else {
      s := ManyRefreshes(cfg, n - 1);
      s := OneWaits(cfg, s, n - 1);
      var past, early;
      s, past, early := OneRefreshes(cfg, s, n - 1);
      s := Taken(cfg, s, Tick(cfg.policy.freshness + cfg.policy.staleIfError + 1));
    }
  }

  /** At the maximum, the second of two waiting attempts cannot tell that the first one has refreshed. */
  lemma AtMaximumTwice(cfg: Config)
    returns (steps: seq<Step>, states: seq<State>, first: Log, p: nat, early: Snapshot,
             began: Log, q: nat, now: nat, second: Log, late: Snapshot)
    ensures InstallsTwice(cfg, U64_MAX, steps, states, first, p, early, began, q, now, second, late)
  {
    hide Machine;
    var s := ManyRefreshes(cfg, U64_MAX);
    p, q := U64_MAX, U64_MAX + 1;
    s := OneWaits(cfg, s, p);
    s := OneWaits(cfg, s, q);
    s, first, early := OneRefreshes(cfg, s, p);
    began, now := s.log, s.clock;
    s, second, late := OneRefreshes(cfg, s, q);
    NextExtends(Then(first, Installed(p, early)), RefreshEnded(p, Replaced));
    NextExtends(Then(second, Installed(q, late)), RefreshEnded(q, Replaced));
    steps, states :| Path(Machine(cfg), steps, states) && states[0] == INITIAL && states[|steps|] == s;
  }

  /** The bound on the observed generation is exactly what coalescing needs. */
  lemma CoalescingIsExact(cfg: Config, generation: nat)
    requires generation <= U64_MAX
    ensures generation < U64_MAX <==>
              forall steps, states, first, p, early, began, q, now, second, late ::
                !InstallsTwice(cfg, generation, steps, states, first, p, early, began, q, now, second, late)
  {
    hide InstallsTwice;
    if generation < U64_MAX {
      forall steps, states, first, p, early, began, q, now, second, late
        ensures !InstallsTwice(cfg, generation, steps, states, first, p, early, began, q, now, second, late)
      {
        BelowMaximumOnlyOnce(cfg, generation, steps, states, first, p, early, began, q, now, second, late);
      }
    } else {
      var steps, states, first, p, early, began, q, now, second, late := AtMaximumTwice(cfg);
      assert InstallsTwice(cfg, generation, steps, states, first, p, early, began, q, now, second, late);
    }
  }
}
