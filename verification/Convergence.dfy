/** On a quiet target: what a plan computed from the user's rows leaves behind once it is carried out. */
module Convergence {
  import opened Sorting
  import opened Normalization
  import opened Planning
  import opened PlanTheorems
  import opened Exchanges
  import opened QuietTarget
  import opened QuietChanges
  import opened Mutating
  import opened References

  // ---------------------------------------------------------------- desired assignments by id

  /** The desired assignments with their references replaced by ids. */
  function Resolve(ids: References, desired: seq<Permission>): seq<Assignment>
    requires forall p :: p in desired ==> Covers(ids, p)
  {
    seq(|desired|, i requires 0 <= i < |desired| =>
      assert Covers(ids, desired[i]);
      Assignment(ids.entities[desired[i].entity], ids.profiles[desired[i].profile], desired[i].recursive))
  }

  ghost function Images(t: Table, desired: seq<Permission>): seq<Assignment>
    requires Resolvable(t, desired)
  {
    seq(|desired|, i requires 0 <= i < |desired| =>
      assert ResolvableOne(t, desired[i]);
      Assignment(IdsNamed(t.entities, desired[i].entity)[0], IdsNamed(t.profiles, desired[i].profile)[0],
                 desired[i].recursive))
  }

  lemma ResolvedAsHeld(ids: References, t: Table, desired: seq<Permission>)
    requires Resolvable(t, desired) && Agreeing(ids, t) && forall p :: p in desired ==> Covers(ids, p)
    ensures Resolve(ids, desired) == Images(t, desired)
  {
    forall i | 0 <= i < |desired|
      ensures Resolve(ids, desired)[i] == Images(t, desired)[i]
    {
      var p := desired[i];
      assert p in desired;
      assert IdsNamed(t.entities, p.entity) == [ids.entities[p.entity]];
      assert IdsNamed(t.profiles, p.profile) == [ids.profiles[p.profile]];
    }
  }

  lemma DifferentNamesDifferentIds(named: seq<Named>, a: string, b: string)
    requires UniqueNamed(named) && |IdsNamed(named, a)| == |IdsNamed(named, b)| == 1 && a != b
    ensures IdsNamed(named, a)[0] != IdsNamed(named, b)[0]
  {
    var x, y := IdsNamed(named, a)[0], IdsNamed(named, b)[0];
    IdsNamedMeaning(named, a);
    IdsNamedMeaning(named, b);
    assert x in IdsNamed(named, a) && y in IdsNamed(named, b);
    assert Named(x, a) in named && Named(y, b) in named;
  }

  /** Distinct selector pairs stay distinct as ids, and no profile has id zero. */
  lemma ImagesAreUnique(t: Table, desired: seq<Permission>)
    requires Valid(t) && Resolvable(t, desired) && StrictlyOrdered(desired)
    ensures UniquePairs(Images(t, desired)) && forall a :: a in Images(t, desired) ==> 0 < a.profile
  {
    var images := Images(t, desired);
    forall i, j | 0 <= i < j < |images|
      ensures Pair(images[i]) != Pair(images[j])
    {
      var p, q := desired[i], desired[j];
      assert ResolvableOne(t, p) && ResolvableOne(t, q);
      BeforeIsStrictTotal(NameOf(p), NameOf(q));
      BeforeIsStrictTotal(NameOf(p), NameOf(p));
      if p.entity != q.entity {
        DifferentNamesDifferentIds(t.entities, p.entity, q.entity);
      } else {
        DifferentNamesDifferentIds(t.profiles, p.profile, q.profile);
      }
    }
    forall i | 0 <= i < |images|
      ensures 0 < images[i].profile
    {
      assert ResolvableOne(t, desired[i]);
      IdsNamedMeaning(t.profiles, desired[i].profile);
      assert IdsNamed(t.profiles, desired[i].profile)[0] in IdsNamed(t.profiles, desired[i].profile);
    }
  }

  // ---------------------------------------------------------------- carrying out a plan

  function PlanScript(user: nat, plan: Plan): (script: seq<Request>)
    ensures forall q :: q in script ==> Mutates(q)
  {
    Deletions(plan.removals) + Creations(user, plan.additions)
  }

  lemma {:induction false} AppliedInTwo(rules: Rules, t: Table, first: seq<Request>, second: seq<Request>)
    ensures Applied(rules, t, first + second) == Applied(rules, Applied(rules, t, first), second)
    decreases |second|
  {
    hide Change;
    if second == [] {
      assert first + second == first;
    } else {
      AppliedInTwo(rules, t, first, second[..|second| - 1]);
      assert (first + second)[..|first + second| - 1] == first + second[..|second| - 1];
    }
  }

  lemma {:induction false} DoableInTwo(rules: Rules, t: Table, first: seq<Request>, second: seq<Request>)
    requires Doable(rules, t, first) && Doable(rules, Applied(rules, t, first), second)
    ensures Doable(rules, t, first + second)
    decreases |second|
  {
    hide Respond, Change, ConfirmedBy;
    if second == [] {
      assert first + second == first;
    } else {
      DoableInTwo(rules, t, first, second[..|second| - 1]);
      AppliedInTwo(rules, t, first, second[..|second| - 1]);
      assert (first + second)[..|first + second| - 1] == first + second[..|second| - 1];
    }
  }

  /** What the plan's script makes of the table. */
  function Carried(t: Table, user: nat, plan: Plan): Table {
    GrantAll(DeleteAll(t, plan.removals), user, plan.additions)
  }

  lemma RemovalsArePresent(t: Table, user: nat, resolved: seq<Assignment>, plan: Plan)
    requires Valid(t) && IsPlan(RowsHeld(t.held, user), resolved, plan)
    ensures Distinct(plan.removals) && Present(t, plan.removals)
    ensures forall id :: id in plan.removals ==> exists row :: row in RowsHeld(t.held, user) && row.id == id
  {
    RowsHeldMeaning(t.held, user);
    forall id | id in plan.removals
      ensures FindHeld(t.held, id).Some?
    {
      var row :| row in RowsHeld(t.held, user) && row.id == id;
      assert Held(user, row) in t.held;
    }
  }

  lemma PlanIsDoable(rules: Rules, t: Table, user: nat, resolved: seq<Assignment>, plan: Plan)
    requires Valid(t) && IsPlan(RowsHeld(t.held, user), resolved, plan)
    ensures Doable(rules, t, PlanScript(user, plan))
    ensures Applied(rules, t, PlanScript(user, plan)) == Carried(t, user, plan)
  {
    RemovalsArePresent(t, user, resolved, plan);
    DeletionsWork(rules, t, plan.removals);
    DeletionsApplied(rules, t, plan.removals);
    DeletionsKeepValid(t, plan.removals);
    CreationsWork(rules, DeleteAll(t, plan.removals), user, plan.additions);
    DoableInTwo(rules, t, Deletions(plan.removals), Creations(user, plan.additions));
    AppliedInTwo(rules, t, Deletions(plan.removals), Creations(user, plan.additions));
  }

  lemma {:induction false} RowsStayUnique(held: seq<Held>, user: nat)
    requires UniqueHeld(held)
    ensures UniqueIds(RowsHeld(held, user))
  {
    if held != [] {
      var init, last := held[..|held| - 1], held[|held| - 1];
      RowsStayUnique(init, user);
      RowsHeldMeaning(init, user);
      var rows := RowsHeld(init, user);
      assert forall i :: 0 <= i < |rows| ==> rows[i] in rows && Held(user, rows[i]) in init;
      assert forall h :: h in init ==> h.row.id != last.row.id;
    }
  }

  /** The user's rows become canonical. */
  lemma CarriedIsCanonical(t: Table, user: nat, resolved: seq<Assignment>, plan: Plan)
    requires Valid(t) && UniquePairs(resolved) && IsPlan(RowsHeld(t.held, user), resolved, plan)
    ensures Canonical(RowsHeld(Carried(t, user, plan).held, user), resolved)
  {
    var rows, deleted := RowsHeld(t.held, user), DeleteAll(t, plan.removals);
    RowsStayUnique(t.held, user);
    RowsAfterDeletions(t, plan.removals, user);
    RowsAfterGrants(deleted, user, plan.additions);
    GrantedAreNew(deleted.next, plan.additions);
    PlanReachesCanonical(rows, resolved, plan, seq(|plan.additions|, i => deleted.next + i));
  }

  lemma RowsOfTwoUsers(t: Table, user: nat, other: nat)
    requires Valid(t) && user != other
    ensures forall row, mine :: row in RowsHeld(t.held, other) && mine in RowsHeld(t.held, user) ==> row.id != mine.id
  {
    RowsHeldMeaning(t.held, user);
    RowsHeldMeaning(t.held, other);
    forall row, mine | row in RowsHeld(t.held, other) && mine in RowsHeld(t.held, user)
      ensures row.id != mine.id
    {
      assert Held(user, mine) in t.held && Held(other, row) in t.held;
    }
  }

  /** Nobody else's rows change. */
  lemma CarriedSparesOthers(t: Table, user: nat, resolved: seq<Assignment>, plan: Plan, other: nat)
    requires Valid(t) && IsPlan(RowsHeld(t.held, user), resolved, plan) && other != user
    ensures RowsHeld(Carried(t, user, plan).held, other) == RowsHeld(t.held, other)
  {
    RemovalsArePresent(t, user, resolved, plan);
    RowsOfTwoUsers(t, user, other);
    RowsAfterDeletions(t, plan.removals, other);
    NothingRemoved(RowsHeld(t.held, other), plan.removals);
    GrantsSpareOthers(DeleteAll(t, plan.removals), user, plan.additions, other);
  }

  lemma {:induction false} AdditionsAreDesired(current: seq<Row>, ordered: seq<Assignment>, n: nat)
    requires n <= |ordered|
    ensures |Additions(current, ordered, n)| <= n && forall a :: a in Additions(current, ordered, n) ==> a in ordered
  {
    if n > 0 {
      AdditionsAreDesired(current, ordered, n - 1);
    }
  }

  /** The table stays well formed, names stay as they were, and it grows by no more than was desired. */
  lemma CarriedIsValid(t: Table, user: nat, resolved: seq<Assignment>, plan: Plan)
    requires Valid(t) && 0 < user && IsPlan(RowsHeld(t.held, user), resolved, plan)
    requires forall a :: a in resolved ==> 0 < a.profile
    ensures Valid(Carried(t, user, plan)) && |Carried(t, user, plan).held| <= |t.held| + |resolved|
    ensures SameNames(t, Carried(t, user, plan))
  {
    var ordered := SortBy(resolved, Pair);
    SameMembers(resolved, ordered);
    AdditionsAreDesired(RowsHeld(t.held, user), ordered, |ordered|);
    DeletionsKeepValid(t, plan.removals);
    DeletionsSpare(t, plan.removals);
    GrantsKeepValid(DeleteAll(t, plan.removals), user, plan.additions);
    GrantsShape(DeleteAll(t, plan.removals), user, plan.additions);
  }

  ghost predicate SameNames(a: Table, b: Table) {
    a.entities == b.entities && a.profiles == b.profiles && a.users == b.users && a.trashed == b.trashed
  }
}
