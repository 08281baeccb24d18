/**
 What the plan guarantees: it is empty exactly on canonical states, reaches one, is minimal, and ignores input order.
 */
module PlanTheorems {
  import opened Wrappers
  import opened Sorting
  import opened Planning

  predicate IsEmpty(plan: Plan) {
    plan.removals == [] && plan.additions == []
  }

  lemma UniquePairsPermuted(a: seq<Assignment>, b: seq<Assignment>)
    requires multiset(a) == multiset(b) && UniquePairs(a)
    ensures UniquePairs(b)
  {
    SameMembers(a, b);
    DistinctMeansOnce(a);
    DistinctMeansOnce(b);
    assert forall x, y :: x in a && y in a && Pair(x) == Pair(y) ==> x == y;
  }

  /** With unique pairs, the leader of a pair is the assignment that has it. */
  lemma LeaderIsTheOne(desired: seq<Assignment>, a: Assignment)
    requires UniquePairs(desired) && a in desired
    ensures Leader(SortBy(desired, Pair), Pair(a)) == Some(a)
  {
    var ordered := SortBy(desired, Pair);
    SameMembers(desired, ordered);
    LeaderIsMember(ordered, Pair(a));
  }

  lemma {:induction false} NoAdditions(current: seq<Row>, ordered: seq<Assignment>, n: nat)
    requires n <= |ordered|
    ensures Additions(current, ordered, n) == [] <==>
            forall k :: 0 <= k < n ==> Leader(ordered[..k], Pair(ordered[k])).None? && Satisfied(current, ordered[k])
  {
    if n > 0 {
      NoAdditions(current, ordered, n - 1);
    }
  }

  lemma LeadersEverywhereMeansUnique(ordered: seq<Assignment>)
    ensures (forall k :: 0 <= k < |ordered| ==> Leader(ordered[..k], Pair(ordered[k])).None?) <==> UniquePairs(ordered)
  {
    forall k | 0 <= k < |ordered|
      ensures Leader(ordered[..k], Pair(ordered[k])).None? <==>
              forall i :: 0 <= i < k ==> Pair(ordered[i]) != Pair(ordered[k])
    {
      LeaderIsMember(ordered[..k], Pair(ordered[k]));
      assert forall i :: 0 <= i < k ==> ordered[i] in ordered[..k];
    }
  }

  lemma CanonicalMeansAllKept(current: seq<Row>, desired: seq<Assignment>, r: Row)
    requires UniqueIds(current) && Canonical(current, desired) && r in current
    ensures Kept(current, SortBy(desired, Pair), r)
  {
    assert Wanted(desired, r);
    var a :| a in desired && Grants(r, a);
    LeaderIsTheOne(desired, a);
    assert forall other :: other in current && RowPair(other) == RowPair(r) ==> other == r;
  }

  lemma AllKeptMeansOnePerPair(current: seq<Row>, ordered: seq<Assignment>)
    requires UniqueIds(current) && forall r :: r in current ==> Kept(current, ordered, r)
    ensures forall i, j :: 0 <= i < j < |current| ==> RowPair(current[i]) != RowPair(current[j])
    ensures forall r :: r in current ==> Wanted(ordered, r)
  {
    forall i, j | 0 <= i < j < |current|
      ensures RowPair(current[i]) != RowPair(current[j])
    {
      assert Kept(current, ordered, current[i]) && Kept(current, ordered, current[j]);
    }
    forall r | r in current
      ensures Wanted(ordered, r)
    {
      LeaderIsMember(ordered, RowPair(r));
      assert Kept(current, ordered, r);
    }
  }

  lemma NothingToRemove(current: seq<Row>, desired: seq<Assignment>, plan: Plan)
    requires UniqueIds(current) && IsPlan(current, desired, plan)
    ensures plan.removals == [] <==> forall r :: r in current ==> Kept(current, SortBy(desired, Pair), r)
  {
    var ordered := SortBy(desired, Pair);
    if plan.removals == [] {
      forall r | r in current ensures Kept(current, ordered, r) {
        assert r.id !in plan.removals;
      }
    } else {
      assert plan.removals[0] in plan.removals;
    }
  }

  lemma NothingToAdd(current: seq<Row>, desired: seq<Assignment>, plan: Plan)
    requires IsPlan(current, desired, plan)
    ensures plan.additions == [] <==> UniquePairs(desired) && forall a :: a in desired ==> Satisfied(current, a)
  {
    var ordered := SortBy(desired, Pair);
    SameMembers(desired, ordered);
    NoAdditions(current, ordered, |ordered|);
    LeadersEverywhereMeansUnique(ordered);
    if UniquePairs(desired) { UniquePairsPermuted(desired, ordered); }
    if UniquePairs(ordered) { UniquePairsPermuted(ordered, desired); }
    assert forall k :: 0 <= k < |ordered| ==> ordered[k] in desired;
  }

  /**
   `is_canonical` is the declarative canonical state, for every list of rows with distinct ids and every desired list.
   */
  lemma EmptyExactlyWhenCanonical(current: seq<Row>, desired: seq<Assignment>, plan: Plan)
    requires UniqueIds(current) && IsPlan(current, desired, plan)
    ensures IsEmpty(plan) <==> Canonical(current, desired)
  {
    var ordered := SortBy(desired, Pair);
    NothingToRemove(current, desired, plan);
    NothingToAdd(current, desired, plan);
    if IsEmpty(plan) {
      AllKeptMeansOnePerPair(current, ordered);
      WantedPermuted(ordered, desired);
    }
    if Canonical(current, desired) {
      forall r | r in current ensures Kept(current, ordered, r) {
        CanonicalMeansAllKept(current, desired, r);
      }
    }
  }

  lemma WantedPermuted(ordered: seq<Assignment>, desired: seq<Assignment>)
    requires multiset(ordered) == multiset(desired)
    ensures forall r :: Wanted(ordered, r) <==> Wanted(desired, r)
  {
    SameMembers(ordered, desired);
  }

  /** Decides whether the rows are already canonical, as the code does: by planning. */
  method IsCanonical(current: seq<Row>, desired: seq<Assignment>) returns (canonical: bool)
    requires UniqueIds(current)
    ensures canonical <==> Canonical(current, desired)
  {
    var plan := Compute(current, desired);
    EmptyExactlyWhenCanonical(current, desired, plan);
    canonical := IsEmpty(plan);
  }

  // ---------------------------------------------------------------- reaching the canonical state

  /** The rows left after the removals. */
  function Survivors(rows: seq<Row>, removals: seq<nat>): seq<Row> {
    if rows == [] then []
    else
      var rest, last := Survivors(rows[..|rows| - 1], removals), rows[|rows| - 1];
      if last.id in removals then rest else rest + [last]
  }

  lemma {:induction false} SurvivorsMeaning(rows: seq<Row>, removals: seq<nat>)
    ensures forall r :: r in Survivors(rows, removals) <==> r in rows && r.id !in removals
    ensures UniqueIds(rows) ==> UniqueIds(Survivors(rows, removals))
  {
    if rows != [] {
      var init, last := rows[..|rows| - 1], rows[|rows| - 1];
      SurvivorsMeaning(init, removals);
      assert rows == init + [last];
      assert UniqueIds(rows) ==> forall r :: r in Survivors(init, removals) ==> r.id != last.id;
    }
  }

  /** The rows the target creates for the additions, with the ids it chooses. */
  function NewRows(additions: seq<Assignment>, ids: seq<nat>): (rows: seq<Row>)
    requires |ids| == |additions|
  {
    seq(|additions|, i requires 0 <= i < |additions| =>
      Row(ids[i], additions[i].entity, additions[i].profile, additions[i].recursive))
  }

  lemma {:induction false} AdditionsMeaning(current: seq<Row>, ordered: seq<Assignment>, n: nat)
    requires UniquePairs(ordered) && n <= |ordered|
    ensures forall a :: a in Additions(current, ordered, n) <==> a in ordered[..n] && !Satisfied(current, a)
    ensures UniquePairs(Additions(current, ordered, n))
  {
    if n > 0 {
      AdditionsMeaning(current, ordered, n - 1);
      LeaderIsMember(ordered[..n - 1], Pair(ordered[n - 1]));
      assert ordered[..n] == ordered[..n - 1] + [ordered[n - 1]];
      assert forall a :: a in Additions(current, ordered, n - 1) ==> Pair(a) != Pair(ordered[n - 1]);
    }
  }

  /** Whatever is already granted is granted by a kept row. */
  lemma SatisfiedHasKeeper(current: seq<Row>, desired: seq<Assignment>, a: Assignment)
    requires UniqueIds(current) && UniquePairs(desired) && a in desired && Satisfied(current, a)
    ensures exists r :: Kept(current, SortBy(desired, Pair), r) && Grants(r, a)
  {
    LeaderIsTheOne(desired, a);
    GroupIsUnique(current, Pair(a));
    var rows := SortBy(RowsOf(current, Pair(a)), ById);
    var granting :| granting in current && Grants(granting, a);
    assert granting in rows;
    var keeper := FindKeeper(rows, a.recursive);
    assert Kept(current, SortBy(desired, Pair), keeper.value);
  }

  lemma KeptOnePerPair(current: seq<Row>, ordered: seq<Assignment>, left: seq<Row>)
    requires UniqueIds(left) && forall r :: r in left ==> Kept(current, ordered, r)
    ensures OnePerPair(left)
  {
    forall i, j | 0 <= i < j < |left|
      ensures RowPair(left[i]) != RowPair(left[j])
    {
      assert Kept(current, ordered, left[i]) && Kept(current, ordered, left[j]);
    }
  }

  lemma OnePerPairConcat(a: seq<Row>, b: seq<Row>)
    requires OnePerPair(a) && OnePerPair(b)
    requires forall x, y :: x in a && y in b ==> RowPair(x) != RowPair(y)
    ensures OnePerPair(a + b)
  {
    forall i, j | 0 <= i < j < |a + b|
      ensures RowPair((a + b)[i]) != RowPair((a + b)[j])
    {
      if i < |a| <= j {
        assert (a + b)[i] in a && (a + b)[j] in b;
      }
    }
  }

  lemma SurvivorsAreKept(current: seq<Row>, desired: seq<Assignment>, plan: Plan)
    requires UniqueIds(current) && IsPlan(current, desired, plan)
    ensures forall r :: r in Survivors(current, plan.removals) <==> Kept(current, SortBy(desired, Pair), r)
  {
    var ordered := SortBy(desired, Pair);
    SurvivorsMeaning(current, plan.removals);
    forall r | r in current
      ensures r.id in plan.removals <==> !Kept(current, ordered, r)
    {
      if r.id in plan.removals {
        var other :| other in current && other.id == r.id && !Kept(current, ordered, other);
        SameIdSameRow(current, r, other);
      }
    }
  }

  /** Applying the plan yields the canonical state, whatever ids the target gives the new rows. */
  lemma PlanReachesCanonical(current: seq<Row>, desired: seq<Assignment>, plan: Plan, ids: seq<nat>)
    requires UniqueIds(current) && UniquePairs(desired) && IsPlan(current, desired, plan) && |ids| == |plan.additions|
    ensures Canonical(Survivors(current, plan.removals) + NewRows(plan.additions, ids), desired)
  {
    var ordered := SortBy(desired, Pair);
    var left, added := Survivors(current, plan.removals), NewRows(plan.additions, ids);
    SameMembers(desired, ordered);
    UniquePairsPermuted(desired, ordered);
    assert ordered[..|ordered|] == ordered;
    AdditionsMeaning(current, ordered, |ordered|);
    SurvivorsMeaning(current, plan.removals);
    SurvivorsAreKept(current, desired, plan);
    KeptOnePerPair(current, ordered, left);
    forall r | r in left + added
      ensures Wanted(desired, r)
      ensures r in added ==> exists a :: a in desired && Grants(r, a) && !Satisfied(current, a)
    {
      if r in added {
        var i :| 0 <= i < |added| && added[i] == r;
        assert plan.additions[i] in plan.additions;
        assert Grants(r, plan.additions[i]);
      } else {
        LeaderIsMember(ordered, RowPair(r));
      }
    }
    forall x, y | x in left && y in added
      ensures RowPair(x) != RowPair(y)
    {
      var a :| a in desired && Grants(y, a) && !Satisfied(current, a);
      LeaderIsTheOne(desired, a);
      assert Kept(current, ordered, x);
    }
    OnePerPairConcat(left, added);
    forall a | a in desired
      ensures Satisfied(left + added, a)
    {
      if Satisfied(current, a) {
        SatisfiedHasKeeper(current, desired, a);
        var r :| Kept(current, ordered, r) && Grants(r, a);
        assert r in left + added;
      } else {
        var i :| 0 <= i < |plan.additions| && plan.additions[i] == a;
        assert Grants(added[i], a) && added[i] in left + added;
      }
    }
  }

  // ---------------------------------------------------------------- minimality

  ghost function Keys<T(!new)>(s: seq<T>, key: T -> Key): set<Key> {
    set x | x in s :: key(x)
  }

  lemma {:induction false} KeysCount<T(!new)>(s: seq<T>, key: T -> Key)
    ensures |Keys(s, key)| <= |s|
    ensures DistinctKeys(s, key) ==> |Keys(s, key)| == |s|
  {
    if s != [] {
      var init, last := s[..|s| - 1], s[|s| - 1];
      assert s == init + [last];
      KeysCount(init, key);
      assert Keys(s, key) == Keys(init, key) + {key(last)};
      if DistinctKeys(s, key) {
        assert key(last) !in Keys(init, key);
      }
    }
  }

  lemma SurvivorsCount(rows: seq<Row>, removals: seq<nat>)
    requires UniqueIds(rows)
    ensures |rows| <= |Survivors(rows, removals)| + |removals|
    ensures Distinct(removals) && (forall id :: id in removals ==> exists r :: r in rows && r.id == id) ==>
              |rows| == |Survivors(rows, removals)| + |removals|
  {
    var left := Survivors(rows, removals);
    SurvivorsMeaning(rows, removals);
    var all, kept, gone := Keys(rows, ById), Keys(left, ById), Keys(removals, Itself);
    assert DistinctKeys(rows, ById) && DistinctKeys(left, ById);
    KeysCount(rows, ById);
    KeysCount(left, ById);
    KeysCount(removals, Itself);
    assert all <= kept + gone;
    SubsetCount(all, kept + gone);
    if Distinct(removals) && forall id :: id in removals ==> exists r :: r in rows && r.id == id {
      assert DistinctKeys(removals, Itself);
      assert kept !! gone;
      assert kept + gone <= all;
      SubsetCount(kept + gone, all);
    }
  }

  lemma CanonicalSize(rows: seq<Row>, desired: seq<Assignment>)
    requires Canonical(rows, desired)
    ensures |rows| == |desired|
  {
    assert DistinctKeys(rows, RowPair) && DistinctKeys(desired, Pair);
    KeysCount(rows, RowPair);
    KeysCount(desired, Pair);
    assert Keys(rows, RowPair) == Keys(desired, Pair) by {
      forall r | r in rows
        ensures RowPair(r) in Keys(desired, Pair)
      {
        assert Wanted(desired, r);
      }
      forall a | a in desired
        ensures Pair(a) in Keys(rows, RowPair)
      {
        assert Satisfied(rows, a);
      }
    }
  }

  /** No way of reaching the canonical state keeps more of the current rows than the plan does. */
  lemma PlanKeepsMost(current: seq<Row>, desired: seq<Assignment>, plan: Plan, alternative: seq<Row>)
    requires UniqueIds(current) && UniquePairs(desired) && IsPlan(current, desired, plan)
    requires OnePerPair(alternative) && forall r :: r in alternative ==> r in current && Wanted(desired, r)
    ensures |alternative| <= |Survivors(current, plan.removals)|
  {
    var left := Survivors(current, plan.removals);
    assert DistinctKeys(alternative, RowPair);
    KeysCount(alternative, RowPair);
    KeysCount(left, RowPair);
    SurvivorsAreKept(current, desired, plan);
    forall r | r in alternative
      ensures RowPair(r) in Keys(left, RowPair)
    {
      var a :| a in desired && Grants(r, a);
      assert Satisfied(current, a);
      SatisfiedHasKeeper(current, desired, a);
      var k :| Kept(current, SortBy(desired, Pair), k) && Grants(k, a);
      assert k in left;
    }
    SubsetCount(Keys(alternative, RowPair), Keys(left, RowPair));
  }

  /** Minimality: whoever removes rows and adds rows so as to reach the canonical state removes and adds no fewer. */
  lemma PlanIsMinimal(current: seq<Row>, desired: seq<Assignment>, plan: Plan, removed: seq<nat>, added: seq<Row>)
    requires UniqueIds(current) && IsPlan(current, desired, plan)
    requires Canonical(Survivors(current, removed) + added, desired)
    ensures |plan.removals| <= |removed| && |plan.additions| <= |added|
  {
    var alternative := Survivors(current, removed);
    SurvivorsMeaning(current, removed);
    var ids := seq(|plan.additions|, i => 0);
    PlanReachesCanonical(current, desired, plan, ids);
    CanonicalSize(Survivors(current, plan.removals) + NewRows(plan.additions, ids), desired);
    CanonicalSize(alternative + added, desired);
    assert OnePerPair(alternative) by {
      assert forall i :: 0 <= i < |alternative| ==> (alternative + added)[i] == alternative[i];
    }
    forall r | r in alternative ensures Wanted(desired, r) {
      assert r in alternative + added;
    }
    PlanKeepsMost(current, desired, plan, alternative);
    SurvivorsCount(current, removed);
    SurvivorsCount(current, plan.removals);
  }

  // ---------------------------------------------------------------- order independence

  lemma KeptPermuted(a: seq<Row>, b: seq<Row>, ordered: seq<Assignment>)
    requires multiset(a) == multiset(b)
    ensures forall r :: Kept(a, ordered, r) <==> Kept(b, ordered, r)
    ensures forall x :: Satisfied(a, x) <==> Satisfied(b, x)
  {
    SameMembers(a, b);
  }

  lemma {:induction false} AdditionsPermuted(a: seq<Row>, b: seq<Row>, ordered: seq<Assignment>, n: nat)
    requires multiset(a) == multiset(b) && n <= |ordered|
    ensures Additions(a, ordered, n) == Additions(b, ordered, n)
  {
    if n > 0 {
      AdditionsPermuted(a, b, ordered, n - 1);
      KeptPermuted(a, b, ordered);
    }
  }

  lemma {:induction false} AscendingIsUnique(a: seq<nat>, b: seq<nat>)
    requires Ascending(a) && Ascending(b) && forall x :: x in a <==> x in b
    ensures a == b
  {
    DistinctMeansOnce(a);
    DistinctMeansOnce(b);
    forall x
      ensures multiset(a)[x] == multiset(b)[x]
    {
      assert x in a <==> x in multiset(a);
      assert x in b <==> x in multiset(b);
    }
    assert multiset(a) == multiset(b);
    OrderIsUnique(a, b, Itself);
  }

  /** The plan depends on neither the order of the rows nor, pairs being unique, that of the desired assignments. */
  lemma PlanIgnoresOrder(rows1: seq<Row>, rows2: seq<Row>, desired1: seq<Assignment>, desired2: seq<Assignment>,
                         plan1: Plan, plan2: Plan)
    requires UniqueIds(rows1) && multiset(rows1) == multiset(rows2)
    requires desired1 == desired2 || (UniquePairs(desired1) && multiset(desired1) == multiset(desired2))
    requires IsPlan(rows1, desired1, plan1) && IsPlan(rows2, desired2, plan2)
    ensures plan1 == plan2
  {
    var o1, o2 := SortBy(desired1, Pair), SortBy(desired2, Pair);
    if desired1 != desired2 {
      UniquePairsPermuted(desired1, o1);
      OrderIsUnique(o1, o2, Pair);
    }
    SameMembers(rows1, rows2);
    KeptPermuted(rows1, rows2, o1);
    AdditionsPermuted(rows1, rows2, o1, |o1|);
    AscendingIsUnique(plan1.removals, plan2.removals);
  }
}
