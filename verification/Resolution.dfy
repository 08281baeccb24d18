/** Resolving names to ids, and reading a user's assignment rows, by complete searches and item reads. */
module Resolution {
  import opened Wrappers
  import opened Sorting
  import opened Exchanges
  import opened Pagination
  import opened Planning

  // ---------------------------------------------------------------- search options

  function IdUid(kind: Kind): string {
    match kind
    case Entity => "Entity.id"
    case Profile => "Profile.id"
    case User => "User.id"
    case ProfileUser => "Profile_User.id"
  }

  function NameUid(kind: Kind): string {
    match kind
    case Entity => "Entity.completename"
    case Profile => "Profile.name"
    case User => "User.name"
    case ProfileUser => "Profile_User.User.name"
  }

  predicate Numbers(e: OptionEntry, uid: string) {
    e.uid == Some(uid) && e.number.Some?
  }

  /** Exactly one entry numbers this option. */
  ghost predicate NumbersOnce(entries: seq<OptionEntry>, uid: string, number: nat) {
    exists i ::
      && 0 <= i < |entries| && entries[i].uid == Some(uid) && entries[i].number == Some(number)
      && forall j :: 0 <= j < |entries| && Numbers(entries[j], uid) ==> j == i
  }

  /** `found` numbers exactly the required options that the entries number, each of them once. */
  ghost predicate NumbersSoFar(entries: seq<OptionEntry>, required: seq<string>, found: map<string, nat>) {
    && (forall uid :: uid in found ==> uid in required && NumbersOnce(entries, uid, found[uid]))
    && (forall j :: 0 <= j < |entries| && entries[j].uid.Some? && entries[j].number.Some? ==>
          (entries[j].uid.value in required ==> entries[j].uid.value in found))
  }

  lemma NumberAdded(entries: seq<OptionEntry>, required: seq<string>, found: map<string, nat>, e: OptionEntry)
    requires NumbersSoFar(entries, required, found)
    ensures (e.uid.None? || e.number.None? || e.uid.value !in required) ==> NumbersSoFar(entries + [e], required, found)
    ensures e.uid.Some? && e.number.Some? && e.uid.value in required && e.uid.value !in found ==>
              NumbersSoFar(entries + [e], required, found[e.uid.value := e.number.value])
  {
    var all := entries + [e];
    forall uid | uid in found && !(e.uid == Some(uid) && e.number.Some?)
      ensures NumbersOnce(all, uid, found[uid])
    {
      var i :| && 0 <= i < |entries| && entries[i].uid == Some(uid) && entries[i].number == Some(found[uid])
               && forall j :: 0 <= j < |entries| && Numbers(entries[j], uid) ==> j == i;
      assert all[i] == entries[i];
      assert forall j :: 0 <= j < |all| && Numbers(all[j], uid) ==> j == i;
    }
    if e.uid.Some? && e.number.Some? && e.uid.value in required && e.uid.value !in found {
      assert all[|entries|] == e && forall j :: 0 <= j < |all| && Numbers(all[j], e.uid.value) ==> j == |entries|;
      assert NumbersOnce(all, e.uid.value, e.number.value);
    }
  }

  /** Resolves the required options: each must be numbered exactly once; missing or repeated ones fail. */
  method ResolveSearchOptions(entries: seq<OptionEntry>, required: seq<string>)
    returns (r: Result<map<string, nat>, Failure>)
    ensures r.Ok? <==> forall uid :: uid in required ==> exists number :: NumbersOnce(entries, uid, number)
    ensures r.Ok? ==> forall uid :: uid in required ==> uid in r.value && NumbersOnce(entries, uid, r.value[uid])
    ensures r.Err? ==> r.error == SearchMetadataUnavailable
  {
    var found: map<string, nat> := map[];
    var i := 0;
    while i < |entries|
      invariant 0 <= i <= |entries| && NumbersSoFar(entries[..i], required, found)
    {
      var e := entries[i];
      NumberAdded(entries[..i], required, found, e);
      assert entries[..i + 1] == entries[..i] + [e];
      if e.uid.Some? && e.number.Some? && e.uid.value in required {
        if e.uid.value in found {
          TwiceIsNotOnce(entries, i, found[e.uid.value]);
          return Err(SearchMetadataUnavailable);
        }
        found := found[e.uid.value := e.number.value];
      }
      i := i + 1;
    }
    assert entries[..i] == entries;
    i := 0;
    while i < |required|
      invariant 0 <= i <= |required| && forall j :: 0 <= j < i ==> required[j] in found
    {
      if required[i] !in found {
        assert required[i] in required;
        return Err(SearchMetadataUnavailable);
      }
      i := i + 1;
    }
    return Ok(found);
  }

  /** An option numbered before and again is not numbered once. */
  lemma TwiceIsNotOnce(entries: seq<OptionEntry>, i: nat, earlier: nat)
    requires i < |entries| && entries[i].uid.Some? && entries[i].number.Some?
    requires NumbersOnce(entries[..i], entries[i].uid.value, earlier)
    ensures forall number :: !NumbersOnce(entries, entries[i].uid.value, number)
  {
    var k :| 0 <= k < i && entries[..i][k].uid == entries[i].uid && entries[..i][k].number == Some(earlier);
    assert Numbers(entries[k], entries[i].uid.value) && Numbers(entries[i], entries[i].uid.value);
  }

  // ---------------------------------------------------------------- exact matches

  predicate UsableId(e: Entry, allowZero: bool) {
    e.Entry? && e.id.Some? && (allowZero || e.id.value != 0)
  }

  /** An entry from which exact matching can tell what it is. */
  predicate Readable(e: Entry, selector: string, allowZero: bool) {
    e.Entry? && e.name.Some? && (e.name.value == selector ==> UsableId(e, allowZero))
  }

  predicate Exactly(e: Entry, selector: string) {
    e.Entry? && e.name == Some(selector)
  }

  /** The ids of the entries whose name is exactly the selector, each once, in order of first appearance. */
  function ExactIdsOf(entries: seq<Entry>, selector: string): seq<nat> {
    if entries == [] then []
    else
      var rest, last := ExactIdsOf(entries[..|entries| - 1], selector), entries[|entries| - 1];
      if Exactly(last, selector) && last.id.Some? && last.id.value !in rest then rest + [last.id.value] else rest
  }

  lemma {:induction false} ExactIdsMeaning(entries: seq<Entry>, selector: string)
    ensures Distinct(ExactIdsOf(entries, selector))
    ensures forall id :: id in ExactIdsOf(entries, selector) <==>
                           exists e :: e in entries && Exactly(e, selector) && e.id == Some(id)
  {
    if entries != [] {
      var init, last := entries[..|entries| - 1], entries[|entries| - 1];
      ExactIdsMeaning(init, selector);
      assert entries == init + [last];
      assert forall e :: e in entries <==> e in init || e == last;
    }
  }

  lemma ExactIdsGrow(entries: seq<Entry>, e: Entry, selector: string)
    ensures ExactIdsOf(entries + [e], selector) ==
              var ids := ExactIdsOf(entries, selector);
              if Exactly(e, selector) && e.id.Some? && e.id.value !in ids then ids + [e.id.value] else ids
  {
    assert (entries + [e])[..|entries|] == entries;
  }

  /**
   Collects exact matches. An entry whose name could not be read, or an exact match without a usable id, fails
   the whole collection rather than count as a non-match; the first such entry decides the failure.
   */
  method ExactIds(entries: seq<Entry>, selector: string, allowZero: bool) returns (r: Result<seq<nat>, Failure>)
    ensures r.Ok? <==> forall e :: e in entries ==> Readable(e, selector, allowZero)
    ensures r.Ok? ==> r.value == ExactIdsOf(entries, selector) && (0 in r.value ==> allowZero)
    ensures r.Err? ==>
              exists i ::
                && 0 <= i < |entries| && !Readable(entries[i], selector, allowZero)
                && (forall j :: 0 <= j < i ==> Readable(entries[j], selector, allowZero))
                && r.error == if Exactly(entries[i], selector) then MalformedReference else SearchPagination
  {
    var matches: seq<nat>, seen: set<nat> := [], {};
    var i := 0;
    while i < |entries|
      invariant 0 <= i <= |entries|
      invariant forall j :: 0 <= j < i ==> Readable(entries[j], selector, allowZero)
      invariant matches == ExactIdsOf(entries[..i], selector)
      invariant forall id :: id in seen <==> id in matches
      invariant 0 in matches ==> allowZero
    {
      var e := entries[i];
      assert e in entries;
      if !e.Entry? || e.name.None? {
        return Err(SearchPagination);
      }
      if e.name.value == selector {
        if !UsableId(e, allowZero) {
          return Err(MalformedReference);
        }
        if e.id.value !in seen {
          seen := seen + {e.id.value};
          matches := matches + [e.id.value];
        }
      }
      assert entries[..i + 1][..i] == entries[..i];
      i := i + 1;
    }
    assert entries[..i] == entries;
    return Ok(matches);
  }

  // ---------------------------------------------------------------- references

  /** A complete search between the two moments, readable throughout, had exactly these matching ids. */
  ghost predicate Matched(before: Log, after: Log, query: Query, allowZero: bool, ids: seq<nat>) {
    exists entries {:trigger Complete(before, after, query, entries)} ::
      && Complete(before, after, query, entries)
      && (forall e :: e in entries ==> Readable(e, query.selector, allowZero))
      && ExactIdsOf(entries, query.selector) == ids
  }

  /** As long as nothing is changed, the target has exactly these matching ids for the query. */
  ghost predicate Holds(env: Env, before: Log, query: Query, allowZero: bool, ids: seq<nat>) {
    exists list {:trigger Serves(env, before, query, list)} ::
      && Serves(env, before, query, list) && Servable(list)
      && (forall e :: e in list ==> Readable(e, query.selector, allowZero))
      && ExactIdsOf(list, query.selector) == ids
  }

  /** Only an entity may have id zero. */
  method ResolveExactId(env: Env, w: World, kind: Kind, selector: string) returns (r: Result<nat, Failure>, next: World)
    ensures Reads(env, w.log, next.log) && w.looks <= next.looks
    ensures r.Ok? ==> Matched(w.log, next.log, Query(kind, None, selector), kind == Entity, [r.value])
    ensures r.Ok? && r.value == 0 ==> kind == Entity
    ensures r == Err(MissingReference) ==> Matched(w.log, next.log, Query(kind, None, selector), kind == Entity, [])
    ensures r == Err(AmbiguousReference) ==>
              exists ids :: |ids| > 1 && Matched(w.log, next.log, Query(kind, None, selector), kind == Entity, ids)
    ensures Calm(env) ==>
              forall ids :: Holds(env, w.log, Query(kind, None, selector), kind == Entity, ids) ==>
                r == if ids == [] then Err(MissingReference)
                     else if |ids| > 1 then Err(AmbiguousReference)
                     else Ok(ids[0])
  {
    var query := Query(kind, None, selector);
    var found;
    found, next := SearchAllPages(env, w, query);
    if found.Err? {
      return Err(found.error), next;
    }
    var matches := ExactIds(found.value, selector, kind == Entity);
    if matches.Err? {
      return Err(matches.error), next;
    }
    assert Matched(w.log, next.log, query, kind == Entity, matches.value);
    if matches.value == [] {
      return Err(MissingReference), next;
    }
    if |matches.value| > 1 {
      return Err(AmbiguousReference), next;
    }
    assert matches.value == [matches.value[0]];
    return Ok(matches.value[0]), next;
  }

  // ---------------------------------------------------------------- users

  function Active(name: string): Query {
    Query(User, Some(false), name)
  }

  function Trashed(name: string): Query {
    Query(User, Some(true), name)
  }

  function AtMostOne(user: Option<nat>): seq<nat> {
    match user case None => [] case Some(id) => [id]
  }

  /** Complete listings of active and deleted users had this one exact match, or none, and no deleted one. */
  ghost predicate LookedUp(before: Log, after: Log, name: string, user: Option<nat>) {
    exists middle ::
      Matched(before, middle, Active(name), false, AtMostOne(user)) && Matched(middle, after, Trashed(name), false, [])
  }

  /** As long as nothing is changed, the target has this one active user of the name, or none, and no deleted one. */
  ghost predicate Finds(env: Env, before: Log, name: string, user: Option<nat>) {
    Holds(env, before, Active(name), false, AtMostOne(user)) && Holds(env, before, Trashed(name), false, [])
  }

  /** A readable result of a search, with these matching ids. */
  ghost predicate Finding(found: Result<seq<Entry>, Failure>, selector: string, allowZero: bool, ids: seq<nat>) {
    && found.Ok? && (forall e :: e in found.value ==> Readable(e, selector, allowZero))
    && ExactIdsOf(found.value, selector) == ids
  }

  lemma HeldIsFound(env: Env, before: Log, query: Query, allowZero: bool, found: Result<seq<Entry>, Failure>)
    requires forall list :: Serves(env, before, query, list) && Servable(list) ==> found == Ok(list)
    ensures forall ids :: Holds(env, before, query, allowZero, ids) ==> Finding(found, query.selector, allowZero, ids)
  {
  }

  lemma FoundIsMatched(before: Log, after: Log, query: Query, allowZero: bool, found: seq<Entry>)
    requires Complete(before, after, query, found)
    requires forall e :: e in found ==> Readable(e, query.selector, allowZero)
    ensures Matched(before, after, query, allowZero, ExactIdsOf(found, query.selector))
  {
  }

  method ResolveUserId(env: Env, w: World, name: string) returns (r: Result<Option<nat>, Failure>, next: World)
    ensures Reads(env, w.log, next.log) && w.looks <= next.looks
    ensures r.Ok? ==> LookedUp(w.log, next.log, name, r.value)
    ensures Calm(env) ==>
              forall active, deleted ::
                && Holds(env, w.log, Active(name), false, active)
                && Holds(env, w.log, Trashed(name), false, deleted) ==>
                  r == if deleted != [] || |active| > 1 then Err(AmbiguousReference)
                       else Ok(if active == [] then None else Some(active[0]))
  {
    hide Holds, Matched, Complete, Serves, Servable, ExactIdsOf, Readable;
    var active, deleted;
    active, next := SearchAllPages(env, w, Active(name));
    if Calm(env) {
      HeldIsFound(env, w.log, Active(name), false, active);
    }
    if active.Err? {
      return Err(active.error), next;
    }
    ghost var middle := next;
    deleted, next := SearchAllPages(env, next, Trashed(name));
    ReadsTransitive(env, w.log, middle.log, next.log);
    StillServes(env, w.log, middle.log, Trashed(name));
    if Calm(env) {
      HeldIsFound(env, w.log, Trashed(name), false, deleted);
    }
    if deleted.Err? {
      return Err(deleted.error), next;
    }
    var activeIds := ExactIds(active.value, name, false);
    if activeIds.Err? {
      return Err(activeIds.error), next;
    }
    var deletedIds := ExactIds(deleted.value, name, false);
    if deletedIds.Err? {
      return Err(deletedIds.error), next;
    }
    FoundIsMatched(w.log, middle.log, Active(name), false, active.value);
    FoundIsMatched(middle.log, next.log, Trashed(name), false, deleted.value);
    if deletedIds.value != [] || |activeIds.value| > 1 {
      return Err(AmbiguousReference), next;
    }
    var user := if activeIds.value == [] then None else Some(activeIds.value[0]);
    assert activeIds.value == AtMostOne(user);
    return Ok(user), next;
  }

  lemma StillServes(env: Env, before: Log, middle: Log, query: Query)
    requires Reads(env, before, middle)
    ensures forall list :: Serves(env, before, query, list) ==> Serves(env, middle, query, list)
  {
    forall list | Serves(env, before, query, list)
      ensures Serves(env, middle, query, list)
    {
      forall log, start, end | Reads(env, middle, log)
        ensures env.answer(log, Search(query, start, end)) == PageReply(list, start, end)
      {
        ReadsTransitive(env, before, middle, log);
      }
    }
  }

  // ---------------------------------------------------------------- assignment rows

  function Assignments(name: string): Query {
    Query(ProfileUser, None, name)
  }

  /** The item of row `row`, owned by `user`, as the target reports it. */
  function ItemOf(user: nat, row: Row): Response {
    Reply(OK, Item(row.id, user, row.entity, row.profile, if row.recursive then 1 else 0))
  }

  /** The exchanges between the two moments are item reads reporting exactly these rows, all owned by `user`. */
  ghost predicate ItemsRead(before: Log, after: Log, user: nat, rows: seq<Row>) {
    if rows == [] then before == after
    else
      var last := rows[|rows| - 1];
      && after.Then? && after.event.request == ReadItem(last.id) && after.event.response == ItemOf(user, last)
      && PlausibleItem(user, last)
      && ItemsRead(before, after.past, user, rows[..|rows| - 1])
  }

  function Ids(rows: seq<Row>): seq<nat> {
    seq(|rows|, i requires 0 <= i < |rows| => rows[i].id)
  }

  /** A complete listing of the name's assignments, each then read back as owned by `user`. */
  ghost predicate RowsRead(before: Log, after: Log, name: string, user: nat, rows: seq<Row>) {
    exists middle ::
      Matched(before, middle, Assignments(name), false, Ids(rows)) && ItemsRead(middle, after, user, rows)
  }

  predicate PlausibleItem(user: nat, row: Row) {
    row.id != 0 && user != 0 && row.profile != 0
  }

  /** Reads one item, which must be well formed and the one asked for. */
  method ReadProfileUserItem(env: Env, w: World, id: nat) returns (r: Result<(nat, Row), Failure>, next: World)
    ensures Reads(env, w.log, next.log) && w.looks <= next.looks
    ensures r.Ok? ==>
              && next.log.Then? && next.log.past == w.log && next.log.event.request == ReadItem(id)
              && next.log.event.response == ItemOf(r.value.0, r.value.1)
              && r.value.1.id == id && PlausibleItem(r.value.0, r.value.1)
    ensures Calm(env) ==>
              forall user: nat, row: Row ::
                env.answer(w.log, ReadItem(id)) == ItemOf(user, row) && PlausibleItem(user, row) && row.id == id ==>
                  r == Ok((user, row))
  {
    var (reply, sent) := Send(env, w, ReadItem(id));
    next := sent;
    if reply.Err? {
      return Err(reply.error), next;
    }
    if reply.value.status != OK || !reply.value.body.Item? {
      return Err(SearchPagination), next;
    }
    var Item(itemId, user, entity, profile, flag) := reply.value.body;
    if itemId == 0 || itemId != id || user == 0 || profile == 0 || flag > 1 {
      return Err(SearchPagination), next;
    }
    return Ok((user, Row(id, entity, profile, flag == 1))), next;
  }

  /** As long as nothing is changed, reading these rows' items reports them as they are, owned by `user`. */
  ghost predicate HoldsItems(env: Env, before: Log, user: nat, rows: seq<Row>) {
    && (forall row :: row in rows ==> PlausibleItem(user, row))
    && forall log, row :: row in rows && Reads(env, before, log) ==>
         env.answer(log, ReadItem(row.id)) == ItemOf(user, row)
  }

  ghost predicate HoldsRows(env: Env, before: Log, name: string, user: nat, rows: seq<Row>) {
    Holds(env, before, Assignments(name), false, Ids(rows)) && HoldsItems(env, before, user, rows)
  }

  /** Reads each item, which must be owned by `user`. */
  method ReadItems(env: Env, w: World, ids: seq<nat>, user: nat) returns (r: Result<seq<Row>, Failure>, next: World)
    ensures Reads(env, w.log, next.log) && w.looks <= next.looks
    ensures r.Ok? ==> ItemsRead(w.log, next.log, user, r.value) && Ids(r.value) == ids
    ensures Calm(env) ==> forall rows :: HoldsItems(env, w.log, user, rows) && Ids(rows) == ids ==> r == Ok(rows)
  {
    hide HoldsItems, PlausibleItem, ItemOf;
    var rows: seq<Row> := [];
    next := w;
    while |rows| < |ids|
      invariant Reads(env, w.log, next.log) && w.looks <= next.looks
      invariant |rows| <= |ids| && Ids(rows) == ids[..|rows|]
      invariant ItemsRead(w.log, next.log, user, rows)
      invariant Calm(env) ==> forall all :: HoldsItems(env, w.log, user, all) && Ids(all) == ids ==> rows <= all
    {
      ghost var earlier := next;
      var item;
      item, next := ReadProfileUserItem(env, next, ids[|rows|]);
      ReadsTransitive(env, w.log, earlier.log, next.log);
      NextItem(env, w.log, earlier.log, user, ids, |rows|);
      if item.Err? {
        return Err(item.error), next;
      }
      var (owner, row) := item.value;
      if owner != user {
        return Err(SearchPagination), next;
      }
      assert (rows + [row])[..|rows|] == rows;
      rows := rows + [row];
    }
    assert ids[..|rows|] == ids;
    assert forall all: seq<Row> :: rows <= all && Ids(all) == ids ==> |all| == |Ids(all)| && all == rows;
    return Ok(rows), next;
  }

  lemma NextItem(env: Env, before: Log, log: Log, user: nat, ids: seq<nat>, k: nat)
    requires Reads(env, before, log) && k < |ids|
    ensures forall all: seq<Row> :: HoldsItems(env, before, user, all) && Ids(all) == ids ==>
              && env.answer(log, ReadItem(ids[k])) == ItemOf(user, all[k]) && PlausibleItem(user, all[k])
              && all[k].id == ids[k]
  {
    forall all: seq<Row> | HoldsItems(env, before, user, all) && Ids(all) == ids
      ensures env.answer(log, ReadItem(ids[k])) == ItemOf(user, all[k]) && PlausibleItem(user, all[k])
      ensures all[k].id == ids[k]
    {
      assert Ids(all)[k] == all[k].id && all[k] in all;
    }
  }

  lemma DistinctIdsAreUnique(rows: seq<Row>)
    ensures Distinct(Ids(rows)) <==> UniqueIds(rows)
  {
    assert forall i :: 0 <= i < |rows| ==> Ids(rows)[i] == rows[i].id;
  }

  /** Reads the complete assignments of a user: a search finds the candidates, item reads tell what they are. */
  method ReadCurrentAssignments(env: Env, w: World, name: string, user: nat)
    returns (r: Result<seq<Row>, Failure>, next: World)
    ensures Reads(env, w.log, next.log) && w.looks <= next.looks
    ensures r.Ok? ==> RowsRead(w.log, next.log, name, user, r.value) && UniqueIds(r.value)
    ensures Calm(env) ==> forall rows :: HoldsRows(env, w.log, name, user, rows) ==> r == Ok(rows)
  {
    var found;
    found, next := SearchAllPages(env, w, Assignments(name));
    if found.Err? {
      return Err(found.error), next;
    }
    var candidates := ExactIds(found.value, name, false);
    if candidates.Err? {
      return Err(candidates.error), next;
    }
    assert Matched(w.log, next.log, Assignments(name), false, candidates.value);
    ghost var middle := next;
    r, next := ReadItems(env, next, candidates.value, user);
    ReadsTransitive(env, w.log, middle.log, next.log);
    StillHoldsItems(env, w.log, middle.log, user);
    if r.Ok? {
      ExactIdsMeaning(found.value, name);
      DistinctIdsAreUnique(r.value);
    }
  }

  lemma StillHoldsItems(env: Env, before: Log, middle: Log, user: nat)
    requires Reads(env, before, middle)
    ensures forall rows :: HoldsItems(env, before, user, rows) ==> HoldsItems(env, middle, user, rows)
  {
    forall rows: seq<Row>, log, row: Row | HoldsItems(env, before, user, rows) && row in rows && Reads(env, middle, log)
      ensures env.answer(log, ReadItem(row.id)) == ItemOf(user, row)
    {
      ReadsTransitive(env, before, middle, log);
    }
  }
}
