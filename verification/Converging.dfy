/** The part of a reconciliation that changes assignments: read, plan, delete, add, read again and verify. */
module Converging {
  import opened Wrappers
  import opened Planning
  import opened PlanTheorems
  import opened Exchanges
  import opened Resolution
  import opened QuietTarget
  import opened Mutating
  import opened References
  import opened Convergence

  // ---------------------------------------------------------------- reading, planning, mutating, verifying

  /** What one run read, planned, and finally read back, and the moments at which it had read and had written. */
  datatype Course = Course(snapshot: seq<Row>, read: Log, plan: Plan, written: Log, final: seq<Row>)

  /** The plan was computed from the user's complete rows, as read before any of it was carried out. */
  ghost predicate Planned(before: Log, name: string, user: nat, resolved: seq<Assignment>, c: Course) {
    && RowsRead(before, c.read, name, user, c.snapshot) && UniqueIds(c.snapshot)
    && IsPlan(c.snapshot, resolved, c.plan)
  }

  /** Everything planned was confirmed, and the rows read afterwards are exactly the desired ones. */
  ghost predicate Verified(after: Log, name: string, user: nat, resolved: seq<Assignment>, c: Course) {
    && Finished(Mutations(c.read, c.written), PlanScript(user, c.plan))
    && RowsRead(c.written, after, name, user, c.final)
    && Canonical(c.final, resolved)
  }

  /** As long as only this run changes it, the target holds these rows, and after the plan exactly the desired ones. */
  ghost predicate Settles(env: Env, before: Log, name: string, user: nat, resolved: seq<Assignment>, rules: Rules,
                          t: Table) {
    && QuietAt(env, rules, t, before) && Fits(After(rules, t, before), |resolved|)
    && Carries(After(rules, t, before), name, user) && 0 < user
    && UniquePairs(resolved) && forall a :: a in resolved ==> 0 < a.profile
  }

  /** In the table, the name belongs to this one active user and to no deleted one. */
  ghost predicate Carries(t: Table, name: string, user: nat) {
    IdsNamed(t.users, name) == [user] && IdsNamed(t.trashed, name) == []
  }

  /** Carrying out a plan for the user's rows settles the table, and the final read shows it. */
  lemma PlanSettles(env: Env, before: Log, name: string, user: nat, resolved: seq<Assignment>, rules: Rules, t: Table,
                    read: Log, plan: Plan)
    requires Settles(env, before, name, user, resolved, rules, t) && Reads(env, before, read)
    requires IsPlan(RowsHeld(After(rules, t, before).held, user), resolved, plan)
    ensures Quiet(env, rules, t) && Doable(rules, After(rules, t, read), PlanScript(user, plan))
    ensures Applied(rules, After(rules, t, read), PlanScript(user, plan)) ==
            Carried(After(rules, t, before), user, plan)
    ensures forall written ::
              After(rules, t, written) == Carried(After(rules, t, before), user, plan) ==>
                HoldsRows(env, written, name, user, RowsHeld(After(rules, t, written).held, user))
    ensures Canonical(RowsHeld(Carried(After(rules, t, before), user, plan).held, user), resolved)
  {
    hide IsPlan, Canonical, HoldsRows, RowsHeld, Doable, Applied;
    var now := After(rules, t, before);
    ReadsKeepTable(env, rules, t, before, read);
    PlanIsDoable(rules, now, user, resolved, plan);
    CarriedIsCanonical(now, user, resolved, plan);
    CarriedIsValid(now, user, resolved, plan);
    forall written | After(rules, t, written) == Carried(now, user, plan)
      ensures HoldsRows(env, written, name, user, RowsHeld(After(rules, t, written).held, user))
    {
      RowsAreFound(env, rules, t, written, name, user);
    }
  }

  lemma RowsAreThere(env: Env, before: Log, name: string, user: nat, resolved: seq<Assignment>)
    ensures forall rules, t {:trigger Settles(env, before, name, user, resolved, rules, t)} ::
              Settles(env, before, name, user, resolved, rules, t) ==>
                HoldsRows(env, before, name, user, RowsHeld(After(rules, t, before).held, user))
  {
    hide HoldsRows, RowsHeld;
    forall rules, t | Settles(env, before, name, user, resolved, rules, t)
      ensures HoldsRows(env, before, name, user, RowsHeld(After(rules, t, before).held, user))
    {
      RowsAreFound(env, rules, t, before, name, user);
    }
  }

  lemma PlanSettlesAll(env: Env, before: Log, name: string, user: nat, resolved: seq<Assignment>, read: Log,
                       snapshot: seq<Row>, plan: Plan)
    requires Reads(env, before, read) && IsPlan(snapshot, resolved, plan)
    ensures forall rules, t {:trigger Settles(env, before, name, user, resolved, rules, t)} ::
              && Settles(env, before, name, user, resolved, rules, t)
              && snapshot == RowsHeld(After(rules, t, before).held, user) ==>
                && Quiet(env, rules, t)
                && Doable(rules, After(rules, t, read), PlanScript(user, plan))
                && Applied(rules, After(rules, t, read), PlanScript(user, plan)) ==
                   Carried(After(rules, t, before), user, plan)
                && SettledBy(env, name, user, resolved, rules, t, Carried(After(rules, t, before), user, plan))
  {
    hide IsPlan, Canonical, HoldsRows, RowsHeld, Doable, Applied, Settles;
    forall rules, t |
      && Settles(env, before, name, user, resolved, rules, t)
      && snapshot == RowsHeld(After(rules, t, before).held, user)
      ensures Quiet(env, rules, t)
      ensures Doable(rules, After(rules, t, read), PlanScript(user, plan))
      ensures Applied(rules, After(rules, t, read), PlanScript(user, plan)) ==
              Carried(After(rules, t, before), user, plan)
      ensures SettledBy(env, name, user, resolved, rules, t, Carried(After(rules, t, before), user, plan))
    {
      PlanSettles(env, before, name, user, resolved, rules, t, read, plan);
    }
  }

  /** Wherever the table is `now`, reading the user's rows shows exactly the desired ones. */
  ghost predicate SettledBy(env: Env, name: string, user: nat, resolved: seq<Assignment>, rules: Rules, t: Table,
                            now: Table) {
    && Canonical(RowsHeld(now.held, user), resolved)
    && forall written :: After(rules, t, written) == now ==>
         HoldsRows(env, written, name, user, RowsHeld(now.held, user))
  }

  /**
   Reads the user's rows, carries out the plan for them, and succeeds only if reading them again shows exactly
   the desired ones. Says how many mutations that took.
   */
  method Converge(env: Env, w: World, name: string, user: nat, resolved: seq<Assignment>)
    returns (r: Result<nat, Failure>, next: World, ghost c: Course)
    ensures Reads(env, w.log, c.read) && Sent(env, c.read, c.written) && Reads(env, c.written, next.log)
    ensures w.looks <= next.looks
    ensures Follows(Mutations(c.read, c.written), PlanScript(user, c.plan))
    ensures c.plan != Plan([], []) ==> Planned(w.log, name, user, resolved, c)
    ensures r.Ok? ==> Planned(w.log, name, user, resolved, c) && Verified(next.log, name, user, resolved, c)
    ensures r.Ok? ==> r.value == |PlanScript(user, c.plan)|
    ensures Calm(env) ==>
              forall rules, t {:trigger Settles(env, w.log, name, user, resolved, rules, t)} ::
                Settles(env, w.log, name, user, resolved, rules, t) ==>
                  && r.Ok? && c.snapshot == RowsHeld(After(rules, t, w.log).held, user)
                  && After(rules, t, next.log) == Carried(After(rules, t, w.log), user, c.plan)
  {
    hide IsPlan, Canonical, HoldsRows, RowsHeld, RowsRead, Doable, Applied, Carried, Settles, Quiet, Change,
      PlanScript;
    var current;
    current, next := ReadCurrentAssignments(env, w, name, user);
    c := Course([], next.log, Plan([], []), next.log, []);
    RowsAreThere(env, w.log, name, user, resolved);
    if current.Err? {
      return Err(current.error), next, c;
    }
    var plan := Compute(current.value, resolved);
    PlanSettlesAll(env, w.log, name, user, resolved, next.log, current.value, plan);
    var done;
    done, next := Perform(env, next, PlanScript(user, plan));
    c := Course(current.value, c.read, plan, next.log, []);
    if done.Err? {
      return Err(done.error), next, c;
    }
    var live := CheckContext(env, next);
    next := Look(next);
    if live.Err? {
      return Err(live.error), next, c;
    }
    var verified;
    verified, next := ReadCurrentAssignments(env, next, name, user);
    if verified.Err? {
      return Err(verified.error), next, c;
    }
    c := c.(final := verified.value);
    var canonical := IsCanonical(verified.value, resolved);
    if !canonical {
      return Err(VerificationFailed), next, c;
    }
    ReadsKeepAll(env, c.written, next.log);
    return Ok(done.value), next, c;
  }
}
