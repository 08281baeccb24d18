/**
 The reconciliation plan: which physical assignment rows to remove and which assignments to add so
 that a user holds exactly the desired assignments.
 */
module Planning {
  import opened Wrappers
  import opened Sorting

  datatype Row = Row(id: nat, entity: nat, profile: nat, recursive: bool)

  /** A desired assignment, and equally an addition of the plan. */
  datatype Assignment = Assignment(entity: nat, profile: nat, recursive: bool)

  datatype Plan = Plan(removals: seq<nat>, additions: seq<Assignment>)

  function RowPair(row: Row): Key {
    (row.entity, row.profile)
  }

  function Pair(a: Assignment): Key {
    (a.entity, a.profile)
  }

  function ById(row: Row): Key {
    (row.id, 0)
  }

  function Itself(id: nat): Key {
    (id, 0)
  }

  predicate Grants(row: Row, a: Assignment) {
    RowPair(row) == Pair(a) && row.recursive == a.recursive
  }

  ghost predicate UniqueIds(rows: seq<Row>) {
    forall i, j :: 0 <= i < j < |rows| ==> rows[i].id != rows[j].id
  }

  ghost predicate UniquePairs(desired: seq<Assignment>) {
    forall i, j :: 0 <= i < j < |desired| ==> Pair(desired[i]) != Pair(desired[j])
  }

  ghost predicate OnePerPair(rows: seq<Row>) {
    forall i, j :: 0 <= i < j < |rows| ==> RowPair(rows[i]) != RowPair(rows[j])
  }

  /** The canonical physical state: exactly one row per desired pair, with the desired flag, and nothing else. */
  ghost predicate Canonical(rows: seq<Row>, desired: seq<Assignment>) {
    && UniquePairs(desired)
    && OnePerPair(rows)
    && (forall r {:trigger Wanted(desired, r)} :: r in rows ==> Wanted(desired, r))
    && (forall a {:trigger Satisfied(rows, a)} :: a in desired ==> Satisfied(rows, a))
  }

  ghost predicate Satisfied(rows: seq<Row>, a: Assignment) {
    exists r :: r in rows && Grants(r, a)
  }

  ghost predicate Wanted(desired: seq<Assignment>, r: Row) {
    exists a :: a in desired && Grants(r, a)
  }

  // ---------------------------------------------------------------- what a plan is

  /** The first assignment of a pair in processing order decides about the rows of that pair. */
  function Leader(ordered: seq<Assignment>, pair: Key): Option<Assignment> {
    if ordered == [] then None
    else if Pair(ordered[0]) == pair then Some(ordered[0])
    else Leader(ordered[1..], pair)
  }

  /** The row kept for its pair: the lowest-numbered one that already grants what is desired. */
  ghost predicate Kept(current: seq<Row>, ordered: seq<Assignment>, row: Row) {
    && row in current
    && Leader(ordered, RowPair(row)).Some?
    && Grants(row, Leader(ordered, RowPair(row)).value)
    && forall other :: other in current && RowPair(other) == RowPair(row) && other.recursive == row.recursive ==>
         row.id <= other.id
  }

  /** What has to be added for the first `n` assignments: those nothing grants, and repetitions of a pair. */
  ghost function Additions(current: seq<Row>, ordered: seq<Assignment>, n: nat): seq<Assignment>
    requires n <= |ordered|
  {
    if n == 0 then []
    else
      var a := ordered[n - 1];
      Additions(current, ordered, n - 1)
      + (if Leader(ordered[..n - 1], Pair(a)).None? && Satisfied(current, a) then [] else [a])
  }

  ghost predicate Ascending(ids: seq<nat>) {
    forall i, j :: 0 <= i < j < |ids| ==> ids[i] < ids[j]
  }

  ghost predicate IsPlan(current: seq<Row>, desired: seq<Assignment>, plan: Plan) {
    var ordered := SortBy(desired, Pair);
    && Ascending(plan.removals)
    && (forall id :: id in plan.removals <==> exists r :: r in current && r.id == id && !Kept(current, ordered, r))
    && plan.additions == Additions(current, ordered, |ordered|)
  }

  // ---------------------------------------------------------------- computing it

  /** The rows of one pair, in order of appearance. */
  function RowsOf(rows: seq<Row>, pair: Key): (r: seq<Row>)
    ensures forall x :: x in r <==> x in rows && RowPair(x) == pair
    ensures UniqueIds(rows) ==> UniqueIds(r)
  {
    if rows == [] then []
    else
      var init, last := rows[..|rows| - 1], rows[|rows| - 1];
      var rest := RowsOf(init, pair);
      assert rows == init + [last];
      assert UniqueIds(rows) ==> forall x :: x in rest ==> x.id != last.id;
      if RowPair(last) == pair then rest + [last] else rest
  }

  function IdsExcept(rows: seq<Row>, keeper: Option<nat>): (ids: seq<nat>)
    ensures forall id :: id in ids <==> exists r :: r in rows && r.id == id && keeper != Some(id)
    ensures UniqueIds(rows) ==> Distinct(ids)
  {
    if rows == [] then []
    else
      var init, last := rows[..|rows| - 1], rows[|rows| - 1];
      var rest := IdsExcept(init, keeper);
      assert rows == init + [last];
      assert forall r :: r in rows <==> r in init || r == last;
      assert UniqueIds(rows) ==> forall r :: r in init ==> r.id != last.id;
      if keeper == Some(last.id) then rest else rest + [last.id]
  }

  /** The first row of an ordered group whose flag is the desired one. */
  function FindKeeper(rows: seq<Row>, recursive: bool): (keeper: Option<Row>)
    ensures keeper.Some? ==> keeper.value in rows && keeper.value.recursive == recursive
    ensures keeper.Some? && Ordered(rows, ById) ==>
              forall r :: r in rows && r.recursive == recursive ==> keeper.value.id <= r.id
    ensures keeper.None? ==> forall r :: r in rows ==> r.recursive != recursive
  {
    if rows == [] then None
    else
      assert forall r :: r in rows <==> r == rows[0] || r in rows[1..];
      if rows[0].recursive == recursive then Some(rows[0]) else FindKeeper(rows[1..], recursive)
  }

  lemma UniqueIdsPermuted(a: seq<Row>, b: seq<Row>)
    requires multiset(a) == multiset(b) && UniqueIds(a)
    ensures UniqueIds(b)
  {
    SameMembers(a, b);
    DistinctMeansOnce(a);
    DistinctMeansOnce(b);
    assert forall x, y :: x in a && y in a && x.id == y.id ==> x == y;
  }

  lemma {:induction false} LeaderOfConcat(s: seq<Assignment>, t: seq<Assignment>, pair: Key)
    ensures Leader(s + t, pair) == if Leader(s, pair).Some? then Leader(s, pair) else Leader(t, pair)
  {
    if s == [] {
      assert s + t == t;
    } else {
      assert (s + t)[1..] == s[1..] + t;
      LeaderOfConcat(s[1..], t, pair);
    }
  }

  lemma LeaderAt(ordered: seq<Assignment>, n: nat, pair: Key)
    requires n < |ordered|
    ensures Leader(ordered[..n + 1], pair) ==
            if Leader(ordered[..n], pair).Some? then Leader(ordered[..n], pair)
            else if Pair(ordered[n]) == pair then Some(ordered[n]) else None
    ensures Leader(ordered[..n + 1], pair).Some? ==> Leader(ordered, pair) == Leader(ordered[..n + 1], pair)
  {
    assert ordered[..n + 1] == ordered[..n] + [ordered[n]];
    assert ordered == ordered[..n + 1] + ordered[n + 1..];
    LeaderOfConcat(ordered[..n], [ordered[n]], pair);
    LeaderOfConcat(ordered[..n + 1], ordered[n + 1..], pair);
    assert [ordered[n]][1..] == [];
  }

  lemma {:induction false} LeaderIsMember(ordered: seq<Assignment>, pair: Key)
    ensures Leader(ordered, pair).Some? ==>
              Leader(ordered, pair).value in ordered && Pair(Leader(ordered, pair).value) == pair
    ensures Leader(ordered, pair).None? ==> forall a :: a in ordered ==> Pair(a) != pair
  {
    if ordered != [] {
      assert forall a :: a in ordered <==> a == ordered[0] || a in ordered[1..];
      LeaderIsMember(ordered[1..], pair);
    }
  }

  ghost predicate Grouped(rows: seq<Row>, byPair: map<Key, seq<Row>>) {
    && (forall pair :: pair in byPair <==> RowsOf(rows, pair) != [])
    && (forall pair :: pair in byPair ==> byPair[pair] == RowsOf(rows, pair))
  }

  /** The groups still to be dealt with: those no assignment up to `n` is about. */
  ghost predicate Remaining(current: seq<Row>, ordered: seq<Assignment>, n: nat, byPair: map<Key, seq<Row>>)
    requires n <= |ordered|
  {
    && (forall pair :: pair in byPair <==> (RowsOf(current, pair) != [] && Leader(ordered[..n], pair).None?))
    && OrderedGroups(current, byPair)
  }

  ghost predicate OrderedGroups(current: seq<Row>, byPair: map<Key, seq<Row>>) {
    forall pair :: pair in byPair ==> byPair[pair] == SortBy(RowsOf(current, pair), ById)
  }

  ghost function KeptIds(current: seq<Row>, ordered: seq<Assignment>): set<nat> {
    set r | r in current && Kept(current, ordered, r) :: r.id
  }

  /** `removals` are the rows not kept, among those whose group has been dealt with. */
  ghost predicate Removed(current: seq<Row>, kept: set<nat>, pending: set<Key>, removals: seq<nat>) {
    && Distinct(removals)
    && forall id :: id in removals <==> Doomed(current, kept, pending, id)
  }

  ghost predicate Doomed(current: seq<Row>, kept: set<nat>, pending: set<Key>, id: nat) {
    id !in kept && exists r :: r in current && r.id == id && RowPair(r) !in pending
  }

  lemma RowsOfGrow(rows: seq<Row>, row: Row, pair: Key)
    ensures RowsOf(rows + [row], pair) ==
            if RowPair(row) == pair then RowsOf(rows, pair) + [row] else RowsOf(rows, pair)
  {
    assert (rows + [row])[..|rows|] == rows;
  }

  lemma GroupGrows(rows: seq<Row>, row: Row, byPair: map<Key, seq<Row>>)
    requires Grouped(rows, byPair)
    ensures var group := if RowPair(row) in byPair then byPair[RowPair(row)] else [];
            Grouped(rows + [row], byPair[RowPair(row) := group + [row]])
  {
    hide RowsOf;
    forall pair
      ensures RowsOf(rows + [row], pair) ==
              if RowPair(row) == pair then RowsOf(rows, pair) + [row] else RowsOf(rows, pair)
    {
      RowsOfGrow(rows, row, pair);
    }
  }

  /** Dealing with one group: every row of it except the kept one is removed. */
  lemma GroupRemoved(current: seq<Row>, kept: set<nat>, pending: set<Key>, removals: seq<nat>,
                     pair: Key, rows: seq<Row>, keeper: Option<nat>)
    requires UniqueIds(current) && Removed(current, kept, pending, removals) && pair in pending
    requires UniqueIds(rows) && forall r :: r in rows <==> r in current && RowPair(r) == pair
    requires forall r :: r in rows ==> (r.id in kept <==> keeper == Some(r.id))
    ensures Removed(current, kept, pending - {pair}, removals + IdsExcept(rows, keeper))
  {
    var ids := IdsExcept(rows, keeper);
    forall id | id in ids
      ensures Doomed(current, kept, pending - {pair}, id) && id !in removals
    {
      var r :| r in rows && r.id == id && keeper != Some(id);
      if id in removals {
        var other :| other in current && other.id == id && RowPair(other) !in pending;
        SameIdSameRow(current, r, other);
      }
    }
    forall id | Doomed(current, kept, pending - {pair}, id)
      ensures id in removals || id in ids
    {
      var r :| r in current && r.id == id && RowPair(r) !in pending - {pair};
      assert RowPair(r) == pair ==> r in rows;
      assert RowPair(r) != pair ==> Doomed(current, kept, pending, id);
    }
    DistinctConcat(removals, ids);
  }

  lemma SameIdSameRow(rows: seq<Row>, a: Row, b: Row)
    requires UniqueIds(rows) && a in rows && b in rows && a.id == b.id
    ensures a == b
  {
  }

  /** The keeper found in an ordered group is the row the group keeps. */
  lemma KeeperIsKept(current: seq<Row>, ordered: seq<Assignment>, rows: seq<Row>, pair: Key, a: Assignment)
    requires UniqueIds(current) && Leader(ordered, pair) == Some(a) && Pair(a) == pair
    requires Ordered(rows, ById) && forall r :: r in rows <==> r in current && RowPair(r) == pair
    ensures var keeper := FindKeeper(rows, a.recursive);
            forall r :: r in rows ==> (r.id in KeptIds(current, ordered) <==> keeper.Some? && keeper.value.id == r.id)
  {
    var keeper := FindKeeper(rows, a.recursive);
    forall r | r in rows
      ensures r.id in KeptIds(current, ordered) <==> keeper.Some? && keeper.value.id == r.id
    {
      if r.id in KeptIds(current, ordered) {
        var k :| k in current && Kept(current, ordered, k) && k.id == r.id;
        SameIdSameRow(current, k, r);
        assert keeper.value in current;
      }
      if keeper.Some? && keeper.value.id == r.id {
        SameIdSameRow(current, keeper.value, r);
        assert Kept(current, ordered, r);
      }
    }
  }

  /** A group no assignment is about keeps nothing. */
  lemma NobodyKept(current: seq<Row>, ordered: seq<Assignment>, pair: Key)
    requires UniqueIds(current) && Leader(ordered, pair).None?
    ensures forall r :: r in current && RowPair(r) == pair ==> r.id !in KeptIds(current, ordered)
  {
    forall r | r in current && RowPair(r) == pair
      ensures r.id !in KeptIds(current, ordered)
    {
      if r.id in KeptIds(current, ordered) {
        var k :| k in current && Kept(current, ordered, k) && k.id == r.id;
        SameIdSameRow(current, k, r);
      }
    }
  }

  lemma GroupIsUnique(current: seq<Row>, pair: Key)
    requires UniqueIds(current)
    ensures var rows := SortBy(RowsOf(current, pair), ById);
            && Ordered(rows, ById) && UniqueIds(rows)
            && forall r :: r in rows <==> r in current && RowPair(r) == pair
  {
    var rows := SortBy(RowsOf(current, pair), ById);
    UniqueIdsPermuted(RowsOf(current, pair), rows);
    SameMembers(rows, RowsOf(current, pair));
  }

  lemma {:induction false} AdditionsAreOrdered(current: seq<Row>, ordered: seq<Assignment>, n: nat)
    requires n <= |ordered| && Ordered(ordered, Pair)
    ensures var additions := Additions(current, ordered, n);
            && Ordered(additions, Pair)
            && forall a :: a in additions ==> a in ordered[..n]
  {
    if n > 0 {
      AdditionsAreOrdered(current, ordered, n - 1);
      var before := Additions(current, ordered, n - 1);
      assert ordered[..n] == ordered[..n - 1] + [ordered[n - 1]];
      assert forall a :: a in before ==> AtMost(Pair(a), Pair(ordered[n - 1]));
    }
  }

  lemma DistinctSortsAscending(ids: seq<nat>)
    requires Distinct(ids)
    ensures Ascending(SortBy(ids, Itself)) && forall id :: id in SortBy(ids, Itself) <==> id in ids
  {
    var sorted := SortBy(ids, Itself);
    SameMembers(ids, sorted);
    DistinctMeansOnce(ids);
    DistinctMeansOnce(sorted);
  }

  lemma EveryoneRemoved(current: seq<Row>, ordered: seq<Assignment>, removals: seq<nat>)
    requires UniqueIds(current) && Removed(current, KeptIds(current, ordered), {}, removals)
    ensures forall id :: id in removals <==> exists r :: r in current && r.id == id && !Kept(current, ordered, r)
  {
    forall id
      ensures id in removals <==> exists r :: r in current && r.id == id && !Kept(current, ordered, r)
    {
      if r :| r in current && r.id == id {
        assert id in KeptIds(current, ordered) <==> Kept(current, ordered, r) by {
          if id in KeptIds(current, ordered) {
            var k :| k in current && Kept(current, ordered, k) && k.id == id;
            SameIdSameRow(current, k, r);
          }
        }
        assert forall other :: other in current && other.id == id ==> other == r;
      }
    }
  }

  lemma NoGroups(current: seq<Row>)
    ensures Grouped(current[..0], map[])
  {
  }

  /** Groups the current rows by pair. */
  method GroupRows(current: seq<Row>) returns (byPair: map<Key, seq<Row>>)
    ensures forall pair :: pair in byPair <==> RowsOf(current, pair) != []
    ensures OrderedGroups(current, byPair)
  {
    hide RowsOf, SortBy;
    byPair := map[];
    assert Grouped(current[..0], byPair) by { NoGroups(current); }
    var i := 0;
    while i < |current|
      invariant 0 <= i <= |current| && Grouped(current[..i], byPair)
    {
      var row := current[i];
      var group := if RowPair(row) in byPair then byPair[RowPair(row)] else [];
      GroupGrows(current[..i], row, byPair);
      assert current[..i + 1] == current[..i] + [row];
      byPair := byPair[RowPair(row) := group + [row]];
      i := i + 1;
    }
    assert current[..i] == current;
    byPair := map pair | pair in byPair :: SortBy(byPair[pair], ById);
  }

  /** Removes every group that is left, none of which anything desired is about. */
  method RemoveUndesired(current: seq<Row>, ghost ordered: seq<Assignment>, groups: map<Key, seq<Row>>,
                         before: seq<nat>)
    returns (removals: seq<nat>)
    requires UniqueIds(current) && OrderedGroups(current, groups)
    requires forall pair :: pair in groups ==> Leader(ordered, pair).None?
    requires Removed(current, KeptIds(current, ordered), groups.Keys, before)
    ensures Removed(current, KeptIds(current, ordered), {}, removals)
  {
    removals := before;
    var byPair := groups;
    while byPair.Keys != {}
      invariant byPair.Keys <= groups.Keys && OrderedGroups(current, byPair)
      invariant Removed(current, KeptIds(current, ordered), byPair.Keys, removals)
      decreases byPair.Keys
    {
      var pair :| pair in byPair.Keys;
      GroupIsUnique(current, pair);
      NobodyKept(current, ordered, pair);
      GroupRemoved(current, KeptIds(current, ordered), byPair.Keys, removals, pair, byPair[pair], None);
      removals := removals + IdsExcept(byPair[pair], None);
      assert (byPair - {pair}).Keys == byPair.Keys - {pair};
      byPair := byPair - {pair};
    }
  }

  /** The first `n` assignments are settled. */
  ghost predicate Settled(current: seq<Row>, ordered: seq<Assignment>, n: nat,
                          byPair: map<Key, seq<Row>>, removals: seq<nat>, additions: seq<Assignment>)
    requires n <= |ordered|
  {
    && Remaining(current, ordered, n, byPair)
    && Removed(current, KeptIds(current, ordered), byPair.Keys, removals)
    && additions == Additions(current, ordered, n)
  }

  lemma RemainingAfter(current: seq<Row>, ordered: seq<Assignment>, n: nat, byPair: map<Key, seq<Row>>)
    requires n < |ordered| && Remaining(current, ordered, n, byPair)
    ensures Remaining(current, ordered, n + 1, byPair - {Pair(ordered[n])})
  {
    forall p
      ensures Leader(ordered[..n + 1], p).None? <==> Leader(ordered[..n], p).None? && p != Pair(ordered[n])
    {
      LeaderAt(ordered, n, p);
    }
  }

  /** Whether the pair's group is pending and holds a keeper is whether the assignment needs no addition. */
  lemma AdditionsAfter(current: seq<Row>, ordered: seq<Assignment>, n: nat, byPair: map<Key, seq<Row>>)
    requires UniqueIds(current) && n < |ordered| && Remaining(current, ordered, n, byPair)
    ensures var a := ordered[n];
            Additions(current, ordered, n + 1) ==
              Additions(current, ordered, n)
              + if Pair(a) in byPair && FindKeeper(byPair[Pair(a)], a.recursive).Some? then [] else [a]
  {
    GroupIsUnique(current, Pair(ordered[n]));
    assert forall r :: r in RowsOf(current, Pair(ordered[n])) <==> r in current && RowPair(r) == Pair(ordered[n]);
  }

  function IdOf(row: Option<Row>): Option<nat> {
    if row.Some? then Some(row.value.id) else None
  }

  /** Keeping the keeper of a pending group and removing the rest settles its assignment. */
  lemma GroupSettles(current: seq<Row>, ordered: seq<Assignment>, n: nat, byPair: map<Key, seq<Row>>,
                     removals: seq<nat>, additions: seq<Assignment>)
    requires UniqueIds(current) && n < |ordered| && Settled(current, ordered, n, byPair, removals, additions)
    requires Pair(ordered[n]) in byPair
    ensures var a := ordered[n];
            var keeper := FindKeeper(byPair[Pair(a)], a.recursive);
            Settled(current, ordered, n + 1, byPair - {Pair(a)}, removals + IdsExcept(byPair[Pair(a)], IdOf(keeper)),
                    if keeper.None? then additions + [a] else additions)
  {
    hide Removed, Additions, IdsExcept, FindKeeper, Kept, KeptIds, Leader;
    var a := ordered[n];
    var pair, rows := Pair(a), byPair[Pair(a)];
    RemainingAfter(current, ordered, n, byPair);
    AdditionsAfter(current, ordered, n, byPair);
    LeaderAt(ordered, n, pair);
    GroupIsUnique(current, pair);
    KeeperIsKept(current, ordered, rows, pair, a);
    GroupRemoved(current, KeptIds(current, ordered), byPair.Keys, removals, pair, rows,
                 IdOf(FindKeeper(rows, a.recursive)));
    assert (byPair - {pair}).Keys == byPair.Keys - {pair};
  }

  /** Settles one more assignment: finds its keeper, removes the rest of its group, or adds it. */
  method SettleOne(current: seq<Row>, ordered: seq<Assignment>, n: nat, groups: map<Key, seq<Row>>,
                   removed: seq<nat>, added: seq<Assignment>)
    returns (byPair: map<Key, seq<Row>>, removals: seq<nat>, additions: seq<Assignment>)
    requires UniqueIds(current) && n < |ordered| && Settled(current, ordered, n, groups, removed, added)
    ensures Settled(current, ordered, n + 1, byPair, removals, additions)
  {
    hide Removed, Additions, IdsExcept, FindKeeper, KeptIds, Leader;
    byPair, removals, additions := groups, removed, added;
    var a := ordered[n];
    if Pair(a) !in byPair {
      RemainingAfter(current, ordered, n, byPair);
      AdditionsAfter(current, ordered, n, byPair);
      additions := additions + [a];
      assert byPair - {Pair(a)} == byPair;
    } else {
      GroupSettles(current, ordered, n, byPair, removals, additions);
      var rows := byPair[Pair(a)];
      var keeper := FindKeeper(rows, a.recursive);
      byPair := byPair - {Pair(a)};
      removals := removals + IdsExcept(rows, IdOf(keeper));
      if keeper.None? {
        additions := additions + [a];
      }
    }
  }

  lemma NothingRemovedYet(current: seq<Row>, kept: set<nat>, byPair: map<Key, seq<Row>>)
    requires forall pair :: pair in byPair <==> RowsOf(current, pair) != []
    ensures Removed(current, kept, byPair.Keys, [])
  {
    assert forall r :: r in current ==> r in RowsOf(current, RowPair(r));
  }

  /** Computes the plan for the given current rows and desired assignments. */
  method Compute(current: seq<Row>, desired: seq<Assignment>) returns (plan: Plan)
    requires UniqueIds(current)
    ensures IsPlan(current, desired, plan)
  {
    var byPair := GroupRows(current);
    var ordered := SortBy(desired, Pair);
    var removals: seq<nat>, additions: seq<Assignment> := [], [];
    var n := 0;
    assert ordered[..0] == [];
    NothingRemovedYet(current, KeptIds(current, ordered), byPair);
    while n < |ordered|
      invariant 0 <= n <= |ordered| && Settled(current, ordered, n, byPair, removals, additions)
    {
      byPair, removals, additions := SettleOne(current, ordered, n, byPair, removals, additions);
      n := n + 1;
    }
    assert ordered[..n] == ordered;
    removals := RemoveUndesired(current, ordered, byPair, removals);
    EveryoneRemoved(current, ordered, removals);
    DistinctSortsAscending(removals);
    AdditionsAreOrdered(current, ordered, n);
    SortingTheSorted(additions, Pair);
    plan := Plan(SortBy(removals, Itself), SortBy(additions, Pair));
  }
}
