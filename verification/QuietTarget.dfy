/** A target that nobody else changes: a table, its answers, and its changes under the adapter's own mutations. */
module QuietTarget {
  import opened Wrappers
  import opened Planning
  import opened Exchanges
  import opened Pagination
  import opened Resolution

  datatype Named = Named(id: nat, name: string)

  datatype Held = Held(user: nat, row: Row)

  datatype Table = Table(entities: seq<Named>, profiles: seq<Named>, users: seq<Named>, trashed: seq<Named>,
                         held: seq<Held>, next: nat)

  /** Which further names a search for a selector lists, and what a new user is granted by the target itself. */
  datatype Rules = Rules(extra: iset<(string, string)>, granted: seq<Assignment>)

  /** Searching narrows, but never drops an exact match. */
  ghost predicate Lists(rules: Rules, selector: string, name: string) {
    selector == name || (selector, name) in rules.extra
  }

  // ---------------------------------------------------------------- answers

  ghost function ListNamed(rules: Rules, named: seq<Named>, selector: string): seq<Entry> {
    if named == [] then []
    else
      var last := named[|named| - 1];
      ListNamed(rules, named[..|named| - 1], selector)
      + (if Lists(rules, selector, last.name) then [Entry(Some(last.id), Some(last.name))] else [])
  }

  function OwnerName(named: seq<Named>, id: nat): Option<string> {
    if named == [] then None
    else if named[|named| - 1].id == id then Some(named[|named| - 1].name)
    else OwnerName(named[..|named| - 1], id)
  }

  /** Assignments are listed under the name of their owner. */
  ghost function ListHeld(rules: Rules, owners: seq<Named>, held: seq<Held>, selector: string): seq<Entry> {
    if held == [] then []
    else
      var last := held[|held| - 1];
      var name := OwnerName(owners, last.user);
      ListHeld(rules, owners, held[..|held| - 1], selector)
      + (if name.Some? && Lists(rules, selector, name.value) then [Entry(Some(last.row.id), name)] else [])
  }

  ghost function Entries(rules: Rules, t: Table, query: Query): seq<Entry> {
    match query.kind
    case Entity => ListNamed(rules, t.entities, query.selector)
    case Profile => ListNamed(rules, t.profiles, query.selector)
    case User => ListNamed(rules, if query.deleted == Some(true) then t.trashed else t.users, query.selector)
    case ProfileUser => ListHeld(rules, t.users + t.trashed, t.held, query.selector)
  }

  function FindHeld(held: seq<Held>, id: nat): (found: Option<Held>)
    ensures found.Some? ==> found.value in held && found.value.row.id == id
    ensures found.None? ==> forall h :: h in held ==> h.row.id != id
  {
    if held == [] then None
    else if held[|held| - 1].row.id == id then Some(held[|held| - 1])
    else
      assert held == held[..|held| - 1] + [held[|held| - 1]];
      FindHeld(held[..|held| - 1], id)
  }

  /** The options the adapter needs, each once. */
  function Numbering(kind: Kind): seq<OptionEntry> {
    [OptionEntry(Some(2), Some(IdUid(kind))), OptionEntry(Some(1), Some(NameUid(kind)))]
  }

  ghost function Respond(rules: Rules, t: Table, request: Request): Response {
    match request
    case InitSession => Reply(OK, Token("session"))
    case ForceAllEntities => Reply(OK, Confirmation)
    case GetFullSession => Reply(OK, Visibility(true))
    case KillSession => Reply(OK, Confirmation)
    case ListOptions(kind) => Reply(OK, Options(Numbering(kind)))
    case Search(query, start, end) => PageReply(Entries(rules, t, query), start, end)
    case ReadItem(id) =>
      var found := FindHeld(t.held, id);
      if found.Some? then ItemOf(found.value.user, found.value.row) else Reply(BAD_REQUEST, Other)
    case CreateUser(_) => Reply(CREATED, Created(t.next))
    case DeleteAssignment(id) =>
      if FindHeld(t.held, id).Some? then Reply(OK, Deleted(id, true)) else Reply(BAD_REQUEST, Other)
    case CreateAssignment(_, _, _, _) => Reply(CREATED, Created(t.next))
  }

  // ---------------------------------------------------------------- changes

  function Without(held: seq<Held>, id: nat): seq<Held> {
    if held == [] then []
    else
      var init, last := held[..|held| - 1], held[|held| - 1];
      if last.row.id == id then Without(init, id) else Without(init, id) + [last]
  }

  function Grant(t: Table, user: nat, a: Assignment): Table {
    t.(held := t.held + [Held(user, Row(t.next, a.entity, a.profile, a.recursive))], next := t.next + 1)
  }

  function GrantAll(t: Table, user: nat, granted: seq<Assignment>): Table
    decreases |granted|
  {
    if granted == [] then t
    else Grant(GrantAll(t, user, granted[..|granted| - 1]), user, granted[|granted| - 1])
  }

  function DeleteAll(t: Table, ids: seq<nat>): Table
    decreases |ids|
  {
    if ids == [] then t
    else
      var before := DeleteAll(t, ids[..|ids| - 1]);
      before.(held := Without(before.held, ids[|ids| - 1]))
  }

  function Enroll(t: Table, name: string): Table {
    t.(users := t.users + [Named(t.next, name)], next := t.next + 1)
  }

  function Change(rules: Rules, t: Table, request: Request): Table {
    match request
    case CreateUser(name) => GrantAll(Enroll(t, name), t.next, rules.granted)
    case DeleteAssignment(id) => t.(held := Without(t.held, id))
    case CreateAssignment(user, entity, profile, recursive) => Grant(t, user, Assignment(entity, profile, recursive))
    case _ => t
  }

  function After(rules: Rules, t: Table, log: Log): Table {
    match log
    case Beginning => t
    case Then(past, x) => Change(rules, After(rules, t, past), x.request)
  }

  /** The target starts as `t` and is changed by this log's own mutations only. */
  ghost predicate Quiet(env: Env, rules: Rules, t: Table) {
    && (forall a :: a in rules.granted ==> 0 < a.profile)
    && forall log, request {:trigger env.answer(log, request)} ::
      env.answer(log, request) == Respond(rules, After(rules, t, log), request)
  }

  /** There is such a target for every table, with a context that never ends. */
  lemma QuietTargetExists(rules: Rules, t: Table) returns (env: Env)
    requires forall a :: a in rules.granted ==> 0 < a.profile
    ensures Quiet(env, rules, t) && Calm(env)
  {
    env := Env((log, request) => Respond(rules, After(rules, t, log), request), _ => false, _ => 0, 1, 0);
  }

  lemma {:induction false} ReadsKeepTable(env: Env, rules: Rules, t: Table, before: Log, after: Log)
    requires Reads(env, before, after)
    ensures After(rules, t, after) == After(rules, t, before)
  {
    if before != after {
      ReadsKeepTable(env, rules, t, before, after.past);
    }
  }

  // ---------------------------------------------------------------- well-formed tables

  ghost predicate UniqueNamed(named: seq<Named>) {
    forall i, j :: 0 <= i < j < |named| ==> named[i].id != named[j].id
  }

  ghost predicate UniqueHeld(held: seq<Held>) {
    forall i, j :: 0 <= i < j < |held| ==> held[i].row.id != held[j].row.id
  }

  ghost predicate Valid(t: Table) {
    && 0 < t.next
    && UniqueNamed(t.entities) && UniqueNamed(t.profiles) && UniqueNamed(t.users + t.trashed) && UniqueHeld(t.held)
    && (forall n :: n in t.profiles ==> 0 < n.id)
    && (forall n :: n in t.users + t.trashed ==> 0 < n.id < t.next)
    && (forall h :: h in t.held ==> 0 < h.row.id < t.next && 0 < h.user && 0 < h.row.profile)
  }

  /** Even with `more` further users and rows, no listing of the table exceeds what page positions can count. */
  ghost predicate Fits(t: Table, more: nat) {
    && |t.entities| + PAGE_SIZE <= U64_MAX && |t.profiles| + PAGE_SIZE <= U64_MAX
    && |t.users| + more + PAGE_SIZE <= U64_MAX && |t.trashed| + PAGE_SIZE <= U64_MAX
    && |t.held| + more + PAGE_SIZE <= U64_MAX
  }

  /** The ids carrying a name, in order. */
  function IdsNamed(named: seq<Named>, name: string): seq<nat> {
    if named == [] then []
    else
      var last := named[|named| - 1];
      IdsNamed(named[..|named| - 1], name) + (if last.name == name then [last.id] else [])
  }

  lemma {:induction false} IdsNamedMeaning(named: seq<Named>, name: string)
    ensures forall id :: id in IdsNamed(named, name) <==> Named(id, name) in named
  {
    if named != [] {
      IdsNamedMeaning(named[..|named| - 1], name);
      assert named == named[..|named| - 1] + [named[|named| - 1]];
    }
  }

  /** The rows a user holds, in order. */
  function RowsHeld(held: seq<Held>, user: nat): seq<Row> {
    if held == [] then []
    else
      var last := held[|held| - 1];
      RowsHeld(held[..|held| - 1], user) + (if last.user == user then [last.row] else [])
  }

  lemma {:induction false} RowsHeldMeaning(held: seq<Held>, user: nat)
    ensures forall row :: row in RowsHeld(held, user) <==> Held(user, row) in held
  {
    if held != [] {
      RowsHeldMeaning(held[..|held| - 1], user);
      assert held == held[..|held| - 1] + [held[|held| - 1]];
    }
  }

  // ---------------------------------------------------------------- what searches find

  lemma {:induction false} NamedAreReadable(rules: Rules, named: seq<Named>, selector: string, allowZero: bool)
    requires allowZero || forall n :: n in named ==> 0 < n.id
    ensures var entries := ListNamed(rules, named, selector);
            NotARow !in entries && |entries| <= |named| && forall e :: e in entries ==> Readable(e, selector, allowZero)
  {
    if named != [] {
      NamedAreReadable(rules, named[..|named| - 1], selector, allowZero);
    }
  }

  lemma {:induction false} NamedMatches(rules: Rules, named: seq<Named>, selector: string)
    requires UniqueNamed(named)
    ensures ExactIdsOf(ListNamed(rules, named, selector), selector) == IdsNamed(named, selector)
  {
    if named != [] {
      var init, last := named[..|named| - 1], named[|named| - 1];
      NamedMatches(rules, init, selector);
      ExactIdsGrow(ListNamed(rules, init, selector), Entry(Some(last.id), Some(last.name)), selector);
      IdsNamedMeaning(init, selector);
      assert last.id !in IdsNamed(init, selector);
      assert ListNamed(rules, init, selector) + [] == ListNamed(rules, init, selector);
    }
  }

  lemma {:induction false} OwnerNameMeaning(named: seq<Named>, id: nat, name: string)
    requires UniqueNamed(named)
    ensures OwnerName(named, id) == Some(name) <==> Named(id, name) in named
  {
    if named != [] {
      var init, last := named[..|named| - 1], named[|named| - 1];
      assert named == init + [last];
      OwnerNameMeaning(init, id, name);
    }
  }

  lemma {:induction false} HeldAreReadable(rules: Rules, owners: seq<Named>, held: seq<Held>, name: string)
    requires forall h :: h in held ==> 0 < h.row.id
    ensures var entries := ListHeld(rules, owners, held, name);
            NotARow !in entries && |entries| <= |held| && forall e :: e in entries ==> Readable(e, name, false)
  {
    if held != [] {
      HeldAreReadable(rules, owners, held[..|held| - 1], name);
    }
  }

  lemma {:induction false} HeldMatches(rules: Rules, owners: seq<Named>, held: seq<Held>, name: string, user: nat)
    requires UniqueNamed(owners) && IdsNamed(owners, name) == [user] && UniqueHeld(held)
    ensures ExactIdsOf(ListHeld(rules, owners, held, name), name) == Ids(RowsHeld(held, user))
  {
    if held != [] {
      var init, last := held[..|held| - 1], held[|held| - 1];
      HeldMatches(rules, owners, init, name, user);
      OwnerNameMeaning(owners, last.user, name);
      IdsNamedMeaning(owners, name);
      assert last.user == user <==> last.user in IdsNamed(owners, name);
      var before, rows := ListHeld(rules, owners, init, name), RowsHeld(init, user);
      ExactIdsGrow(before, Entry(Some(last.row.id), OwnerName(owners, last.user)), name);
      assert Ids(rows + [last.row]) == Ids(rows) + [last.row.id];
      assert last.row.id !in Ids(rows) by {
        RowsHeldMeaning(init, user);
        assert forall i :: 0 <= i < |rows| ==>
                 Ids(rows)[i] == rows[i].id && rows[i] in rows && Held(user, rows[i]) in init;
      }
      assert before + [] == before && rows + [] == rows;
    }
  }

  lemma QuietServes(env: Env, rules: Rules, t: Table, log: Log, query: Query)
    requires Quiet(env, rules, t)
    ensures Serves(env, log, query, Entries(rules, After(rules, t, log), query))
  {
    forall later, start, end | Reads(env, log, later)
      ensures env.answer(later, Search(query, start, end)) ==
              PageReply(Entries(rules, After(rules, t, log), query), start, end)
    {
      ReadsKeepTable(env, rules, t, log, later);
    }
  }

  /** The names of entities, profiles and users, active or deleted, are found as they are. */
  lemma NamesAreFound(env: Env, rules: Rules, t: Table, log: Log, query: Query)
    requires Quiet(env, rules, t) && !query.kind.ProfileUser?
    requires Valid(After(rules, t, log)) && Fits(After(rules, t, log), 0)
    ensures Holds(env, log, query, query.kind == Entity, IdsNamed(NamesOf(After(rules, t, log), query), query.selector))
  {
    var now := After(rules, t, log);
    var named := NamesOf(now, query);
    QuietServes(env, rules, t, log, query);
    UsersAreUnique(now);
    NamedAreReadable(rules, named, query.selector, query.kind == Entity);
    NamedMatches(rules, named, query.selector);
    assert Servable(Entries(rules, now, query));
  }

  function NamesOf(t: Table, query: Query): seq<Named> {
    match query.kind
    case Entity => t.entities
    case Profile => t.profiles
    case User => if query.deleted == Some(true) then t.trashed else t.users
    case ProfileUser => []
  }

  lemma UsersAreUnique(t: Table)
    requires Valid(t)
    ensures UniqueNamed(t.users) && UniqueNamed(t.trashed)
    ensures forall n :: n in t.users || n in t.trashed ==> 0 < n.id < t.next
  {
    var all := t.users + t.trashed;
    forall i, j | 0 <= i < j < |t.users|
      ensures t.users[i].id != t.users[j].id
    {
      assert all[i] == t.users[i] && all[j] == t.users[j];
    }
    forall i, j | 0 <= i < j < |t.trashed|
      ensures t.trashed[i].id != t.trashed[j].id
    {
      assert all[|t.users| + i] == t.trashed[i] && all[|t.users| + j] == t.trashed[j];
    }
    forall n | n in t.users || n in t.trashed
      ensures 0 < n.id < t.next
    {
      assert n in all;
    }
  }

  lemma IdsNamedGrow(named: seq<Named>, n: Named, name: string)
    ensures IdsNamed(named + [n], name) == IdsNamed(named, name) + if n.name == name then [n.id] else []
  {
    assert (named + [n])[..|named|] == named;
  }

  lemma {:induction false} IdsNamedConcat(a: seq<Named>, b: seq<Named>, name: string)
    ensures IdsNamed(a + b, name) == IdsNamed(a, name) + IdsNamed(b, name)
  {
    if b == [] {
      assert a + b == a;
    } else {
      var init, last := b[..|b| - 1], b[|b| - 1];
      IdsNamedConcat(a, init, name);
      assert a + b == (a + init) + [last] && b == init + [last];
      hide IdsNamed;
      IdsNamedGrow(a + init, last, name);
      IdsNamedGrow(init, last, name);
    }
  }

  /** The rows of the one user with a name are found as they are. */
  lemma RowsAreFound(env: Env, rules: Rules, t: Table, log: Log, name: string, user: nat)
    requires Quiet(env, rules, t) && Valid(After(rules, t, log)) && Fits(After(rules, t, log), 0)
    requires IdsNamed(After(rules, t, log).users, name) == [user] && IdsNamed(After(rules, t, log).trashed, name) == []
    ensures HoldsRows(env, log, name, user, RowsHeld(After(rules, t, log).held, user))
  {
    var now := After(rules, t, log);
    IdsNamedConcat(now.users, now.trashed, name);
    QuietServes(env, rules, t, log, Assignments(name));
    HeldAreReadable(rules, now.users + now.trashed, now.held, name);
    HeldMatches(rules, now.users + now.trashed, now.held, name, user);
    assert Servable(Entries(rules, now, Assignments(name)));
    ItemsAreFound(env, rules, t, log, user);
  }

  lemma ItemsAreFound(env: Env, rules: Rules, t: Table, log: Log, user: nat)
    requires Quiet(env, rules, t) && Valid(After(rules, t, log))
    ensures HoldsItems(env, log, user, RowsHeld(After(rules, t, log).held, user))
  {
    var now := After(rules, t, log);
    RowsHeldMeaning(now.held, user);
    forall later, row | row in RowsHeld(now.held, user) && Reads(env, log, later)
      ensures env.answer(later, ReadItem(row.id)) == ItemOf(user, row)
    {
      ReadsKeepTable(env, rules, t, log, later);
      FoundIsTheOne(now.held, Held(user, row));
    }
  }

  lemma FoundIsTheOne(held: seq<Held>, h: Held)
    requires UniqueHeld(held) && h in held
    ensures FindHeld(held, h.row.id) == Some(h)
  {
    var found := FindHeld(held, h.row.id);
    assert found.Some?;
  }
}
