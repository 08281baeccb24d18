/** Session set-up, and resolving every desired reference before anything is looked up or changed. */
module References {
  import opened Wrappers
  import opened Normalization
  import opened Exchanges
  import opened Resolution
  import opened QuietTarget

  // ---------------------------------------------------------------- resolving names

  /** Within the exchanges between the two moments, a complete search resolved the name to the id. */
  ghost predicate ResolvedWithin(env: Env, before: Log, after: Log, kind: Kind, name: string, id: nat) {
    exists start, end {:trigger Matched(start, end, Query(kind, None, name), kind == Entity, [id])} ::
      && Reads(env, before, start) && Reads(env, start, end) && Reads(env, end, after)
      && Matched(start, end, Query(kind, None, name), kind == Entity, [id])
  }

  ghost predicate AllResolved(env: Env, before: Log, after: Log, kind: Kind, ids: map<string, nat>) {
    forall name {:trigger ResolvedWithin(env, before, after, kind, name, ids[name])} ::
      name in ids ==> ResolvedWithin(env, before, after, kind, name, ids[name])
  }

  lemma StillResolved(env: Env, before: Log, middle: Log, after: Log, kind: Kind, ids: map<string, nat>)
    requires AllResolved(env, before, middle, kind, ids) && Reads(env, middle, after)
    ensures AllResolved(env, before, after, kind, ids)
  {
    forall name | name in ids
      ensures ResolvedWithin(env, before, after, kind, name, ids[name])
    {
      var id := ids[name];
      assert ResolvedWithin(env, before, middle, kind, name, ids[name]);
      var start, end :| Reads(env, before, start) && Reads(env, start, end) && Reads(env, end, middle)
                        && Matched(start, end, Query(kind, None, name), kind == Entity, [id]);
      ReadsTransitive(env, end, middle, after);
    }
  }

  /** The ids found for names agree with what the target holds. */
  ghost predicate Agree(ids: map<string, nat>, named: seq<Named>) {
    forall name :: name in ids ==> IdsNamed(named, name) == [ids[name]]
  }

  function NamedBy(t: Table, kind: Kind): seq<Named> {
    NamesOf(t, Query(kind, None, ""))
  }

  /** Looks at the context and resolves a name unless that was done before. */
  method ResolveOnce(env: Env, w: World, kind: Kind, name: string, known: map<string, nat>)
    returns (r: Result<map<string, nat>, Failure>, next: World)
    requires kind in {Entity, Profile}
    ensures Reads(env, w.log, next.log) && w.looks <= next.looks
    ensures r.Ok? ==> r.value.Keys == known.Keys + {name} && forall n :: n in known ==> r.value[n] == known[n]
    ensures r.Ok? && name !in known ==>
              Matched(w.log, next.log, Query(kind, None, name), kind == Entity, [r.value[name]])
    ensures Calm(env) ==>
              forall rules, t ::
                && Quiet(env, rules, t) && Valid(After(rules, t, w.log)) && Fits(After(rules, t, w.log), 0)
                && Agree(known, NamedBy(After(rules, t, w.log), kind)) ==>
                  && (r.Ok? <==> |IdsNamed(NamedBy(After(rules, t, w.log), kind), name)| == 1)
                  && (r.Ok? ==> Agree(r.value, NamedBy(After(rules, t, w.log), kind)))
  {
    var live := CheckContext(env, w);
    next := Look(w);
    if live.Err? {
      return Err(live.error), next;
    }
    if name in known {
      return Ok(known), next;
    }
    var id;
    id, next := ResolveExactId(env, next, kind, name);
    if Calm(env) {
      forall rules, t | Quiet(env, rules, t) && Valid(After(rules, t, w.log)) && Fits(After(rules, t, w.log), 0)
        ensures Holds(env, w.log, Query(kind, None, name), kind == Entity,
                      IdsNamed(NamedBy(After(rules, t, w.log), kind), name))
      {
        NamesAreFound(env, rules, t, w.log, Query(kind, None, name));
      }
    }
    if id.Err? {
      return Err(id.error), next;
    }
    return Ok(known[name := id.value]), next;
  }

  lemma OneMoreResolved(env: Env, before: Log, log: Log, next: Log, kind: Kind, name: string,
                        known: map<string, nat>, grown: map<string, nat>)
    requires Reads(env, before, log) && Reads(env, log, next) && AllResolved(env, before, log, kind, known)
    requires grown.Keys == known.Keys + {name} && forall n :: n in known ==> grown[n] == known[n]
    requires name !in known ==> Matched(log, next, Query(kind, None, name), kind == Entity, [grown[name]])
    ensures AllResolved(env, before, next, kind, grown)
  {
    StillResolved(env, before, log, next, kind, known);
  }

  lemma ReadsKeepAll(env: Env, before: Log, after: Log)
    requires Reads(env, before, after)
    ensures forall rules, t :: After(rules, t, after) == After(rules, t, before)
  {
    forall rules, t
      ensures After(rules, t, after) == After(rules, t, before)
    {
      ReadsKeepTable(env, rules, t, before, after);
    }
  }

  // ---------------------------------------------------------------- every desired reference

  datatype References = References(entities: map<string, nat>, profiles: map<string, nat>)

  predicate Covers(ids: References, p: Permission) {
    p.entity in ids.entities && p.profile in ids.profiles
  }

  ghost predicate Found(env: Env, before: Log, after: Log, ids: References) {
    AllResolved(env, before, after, Entity, ids.entities) && AllResolved(env, before, after, Profile, ids.profiles)
  }

  ghost predicate Agreeing(ids: References, t: Table) {
    Agree(ids.entities, t.entities) && Agree(ids.profiles, t.profiles)
  }

  /** The desired reference is the name of exactly one entity and of exactly one profile. */
  ghost predicate ResolvableOne(t: Table, p: Permission) {
    |IdsNamed(t.entities, p.entity)| == 1 && |IdsNamed(t.profiles, p.profile)| == 1
  }

  ghost predicate Resolvable(t: Table, desired: seq<Permission>) {
    forall p :: p in desired ==> ResolvableOne(t, p)
  }

  /** A quiet target whose table, at this moment, is well formed. */
  ghost predicate QuietAt(env: Env, rules: Rules, t: Table, log: Log) {
    Quiet(env, rules, t) && Valid(After(rules, t, log)) && Fits(After(rules, t, log), 0)
  }

  lemma QuietKept(env: Env, before: Log, after: Log)
    requires Reads(env, before, after)
    ensures forall rules, t {:trigger QuietAt(env, rules, t, before)} ::
              QuietAt(env, rules, t, before) <==> QuietAt(env, rules, t, after)
  {
    hide Quiet, Valid, Fits;
    ReadsKeepAll(env, before, after);
  }

  method ResolveAssignment(env: Env, w: World, p: Permission, known: References)
    returns (r: Result<References, Failure>, next: World)
    ensures Reads(env, w.log, next.log) && w.looks <= next.looks
    ensures r.Ok? ==> Covers(r.value, p)
    ensures r.Ok? ==>
              known.entities.Keys <= r.value.entities.Keys && known.profiles.Keys <= r.value.profiles.Keys
    ensures r.Ok? ==>
              forall before {:trigger Found(env, before, w.log, known)} ::
                Reads(env, before, w.log) && Found(env, before, w.log, known) ==> Found(env, before, next.log, r.value)
    ensures Calm(env) ==>
              forall rules, t ::
                QuietAt(env, rules, t, w.log) && Agreeing(known, After(rules, t, w.log)) ==>
                  && (r.Ok? <==> ResolvableOne(After(rules, t, w.log), p))
                  && (r.Ok? ==> Agreeing(r.value, After(rules, t, w.log)))
  {
    var entities, profiles;
    entities, next := ResolveOnce(env, w, Entity, p.entity, known.entities);
    if entities.Err? {
      return Err(entities.error), next;
    }
    ghost var middle := next;
    ReadsKeepAll(env, w.log, middle.log);
    profiles, next := ResolveOnce(env, next, Profile, p.profile, known.profiles);
    ReadsTransitive(env, w.log, middle.log, next.log);
    if profiles.Err? {
      return Err(profiles.error), next;
    }
    forall before | Reads(env, before, w.log) && Found(env, before, w.log, known)
      ensures Found(env, before, next.log, References(entities.value, profiles.value))
    {
      ReadsTransitive(env, before, w.log, middle.log);
      OneMoreResolved(env, before, w.log, middle.log, Entity, p.entity, known.entities, entities.value);
      StillResolved(env, before, w.log, middle.log, Profile, known.profiles);
      OneMoreResolved(env, before, middle.log, next.log, Profile, p.profile, known.profiles, profiles.value);
      StillResolved(env, before, middle.log, next.log, Entity, entities.value);
    }
    return Ok(References(entities.value, profiles.value)), next;
  }

  /** Resolves every desired reference, each name once. */
  method ResolveReferences(env: Env, w: World, desired: seq<Permission>)
    returns (r: Result<References, Failure>, next: World)
    ensures Reads(env, w.log, next.log) && w.looks <= next.looks
    ensures r.Ok? ==> Found(env, w.log, next.log, r.value) && forall p :: p in desired ==> Covers(r.value, p)
    ensures Calm(env) ==>
              forall rules, t {:trigger QuietAt(env, rules, t, w.log)} :: QuietAt(env, rules, t, w.log) ==>
                && (r.Ok? <==> Resolvable(After(rules, t, w.log), desired))
                && (r.Ok? ==> Agreeing(r.value, After(rules, t, w.log)))
  {
    var ids := References(map[], map[]);
    next := w;
    var i := 0;
    while i < |desired|
      invariant 0 <= i <= |desired| && Reads(env, w.log, next.log) && w.looks <= next.looks
      invariant Found(env, w.log, next.log, ids) && forall p :: p in desired[..i] ==> Covers(ids, p)
      invariant Calm(env) ==>
                  forall rules, t {:trigger QuietAt(env, rules, t, w.log)} :: QuietAt(env, rules, t, w.log) ==>
                    Agreeing(ids, After(rules, t, w.log)) && Resolvable(After(rules, t, w.log), desired[..i])
    {
      assert desired[i] in desired;
      ghost var earlier := next;
      ReadsKeepAll(env, w.log, earlier.log);
      var grown;
      grown, next := ResolveAssignment(env, next, desired[i], ids);
      ReadsTransitive(env, w.log, earlier.log, next.log);
      if grown.Err? {
        return Err(grown.error), next;
      }
      assert desired[..i + 1] == desired[..i] + [desired[i]];
      ids := grown.value;
      i := i + 1;
    }
    assert desired[..i] == desired;
    return Ok(ids), next;
  }

  // ---------------------------------------------------------------- before anything is looked up

  /** Sends a request whose only acceptable reply is a 200 with this body. */
  function Expect(env: Env, w: World, request: Request, body: Body, failure: Failure): (r: (Result<(), Failure>, World))
    requires !Mutates(request)
    ensures Reads(env, w.log, r.1.log) && w.looks <= r.1.looks
    ensures r.0.Ok? <==> !Ended(env, w.looks) && env.answer(w.log, request) == Reply(OK, body)
    ensures r.0.Ok? ==> r.1.log.Then? && r.1.log.event.request == request && r.1.log.event.response == Reply(OK, body)
  {
    var (reply, next) := Send(env, w, request);
    if reply.Err? then (Err(reply.error), next)
    else if reply.value != Reply(OK, body) then (Err(failure), next)
    else (Ok(()), next)
  }

  /** The exchange listed the options of a kind, with exactly one number for its id and one for its name. */
  ghost predicate ListsOptions(x: Exchange, kind: Kind) {
    && x.request == ListOptions(kind) && x.response.Reply? && x.response.status == OK && x.response.body.Options?
    && (exists number :: NumbersOnce(x.response.body.entries, IdUid(kind), number))
    && (exists number :: NumbersOnce(x.response.body.entries, NameUid(kind), number))
  }

  /** The search options of each kind, in turn, were discovered completely. */
  ghost predicate Discovered(before: Log, after: Log, kinds: seq<Kind>)
    decreases |kinds|
  {
    if kinds == [] then before == after
    else
      && after.Then? && ListsOptions(after.event, kinds[|kinds| - 1])
      && Discovered(before, after.past, kinds[..|kinds| - 1])
  }

  method DiscoverOne(env: Env, w: World, kind: Kind) returns (r: Result<map<string, nat>, Failure>, next: World)
    ensures Reads(env, w.log, next.log) && w.looks <= next.looks
    ensures r.Ok? ==> next.log.Then? && next.log.past == w.log && ListsOptions(next.log.event, kind)
    ensures r.Ok? ==>
              && IdUid(kind) in r.value && NameUid(kind) in r.value
              && NumbersOnce(next.log.event.response.body.entries, IdUid(kind), r.value[IdUid(kind)])
              && NumbersOnce(next.log.event.response.body.entries, NameUid(kind), r.value[NameUid(kind)])
    ensures Calm(env) ==> forall rules, t :: Quiet(env, rules, t) ==> r.Ok?
  {
    var (reply, sent) := Send(env, w, ListOptions(kind));
    next := sent;
    if reply.Err? {
      return Err(reply.error), next;
    }
    if reply.value.status != OK || !reply.value.body.Options? {
      return Err(SearchMetadataUnavailable), next;
    }
    assert IdUid(kind) in [IdUid(kind), NameUid(kind)] && NameUid(kind) in [IdUid(kind), NameUid(kind)];
    NumberingSuffices(kind);
    r := ResolveSearchOptions(reply.value.body.entries, [IdUid(kind), NameUid(kind)]);
  }

  lemma NumberingSuffices(kind: Kind)
    ensures NumbersOnce(Numbering(kind), IdUid(kind), 2) && NumbersOnce(Numbering(kind), NameUid(kind), 1)
  {
    var entries := Numbering(kind);
    assert entries[0].uid == Some(IdUid(kind)) && entries[1].uid == Some(NameUid(kind)) && IdUid(kind) != NameUid(kind);
  }

  method DiscoverOptions(env: Env, w: World, kinds: seq<Kind>) returns (r: Result<(), Failure>, next: World)
    ensures Reads(env, w.log, next.log) && w.looks <= next.looks
    ensures r.Ok? ==> Discovered(w.log, next.log, kinds)
    ensures Calm(env) ==> forall rules, t :: Quiet(env, rules, t) ==> r.Ok?
  {
    hide ListsOptions;
    next := w;
    for i := 0 to |kinds|
      invariant Reads(env, w.log, next.log) && w.looks <= next.looks && Discovered(w.log, next.log, kinds[..i])
    {
      ghost var earlier := next;
      var numbers;
      numbers, next := DiscoverOne(env, next, kinds[i]);
      ReadsTransitive(env, w.log, earlier.log, next.log);
      if numbers.Err? {
        return Err(numbers.error), next;
      }
      assert kinds[..i + 1][..i] == kinds[..i];
    }
    assert kinds[..|kinds|] == kinds;
    return Ok(()), next;
  }

  /** The session was widened to every entity, and the target confirmed that it now sees all of them. */
  ghost predicate Widened(before: Log, after: Log) {
    && after.Then? && after.event.request == GetFullSession && after.event.response == Reply(OK, Visibility(true))
    && after.past.Then? && after.past.event.request == ForceAllEntities
    && after.past.event.response == Reply(OK, Confirmation) && after.past.past == before
  }

  function KindsFor(desired: seq<Permission>): seq<Kind> {
    if desired == [] then [User, ProfileUser] else [Entity, Profile, User, ProfileUser]
  }

  /** Before anything was looked up, the session saw every entity and the search options were known. */
  ghost predicate Prepared(env: Env, before: Log, ready: Log, desired: seq<Permission>) {
    exists start, listed ::
      Widened(before, start) && Discovered(start, listed, KindsFor(desired)) && Reads(env, listed, ready)
  }

  /** Widens the session to every entity, then resolves every desired reference; with none, asks for none. */
  method Prepare(env: Env, w: World, desired: seq<Permission>) returns (r: Result<References, Failure>, next: World)
    ensures Reads(env, w.log, next.log) && w.looks <= next.looks
    ensures r.Ok? ==> Prepared(env, w.log, next.log, desired)
    ensures r.Ok? ==> Found(env, w.log, next.log, r.value) && forall p :: p in desired ==> Covers(r.value, p)
    ensures Calm(env) ==>
              forall rules, t {:trigger QuietAt(env, rules, t, w.log)} :: QuietAt(env, rules, t, w.log) ==>
                && (r.Ok? <==> Resolvable(After(rules, t, w.log), desired))
                && (r.Ok? ==> Agreeing(r.value, After(rules, t, w.log)))
  {
    hide Found, Agreeing, Resolvable, Discovered;
    var (widened, w1) := Expect(env, w, ForceAllEntities, Confirmation, IncompleteVisibility);
    if widened.Err? {
      return Err(widened.error), w1;
    }
    var (visible, w2) := Expect(env, w1, GetFullSession, Visibility(true), IncompleteVisibility);
    ReadsTransitive(env, w.log, w1.log, w2.log);
    if visible.Err? {
      return Err(visible.error), w2;
    }
    var options, w3 := DiscoverOptions(env, w2, KindsFor(desired));
    ReadsTransitive(env, w.log, w2.log, w3.log);
    ReadsKeepAll(env, w.log, w3.log);
    QuietKept(env, w.log, w3.log);
    if options.Err? {
      return Err(options.error), w3;
    }
    r, next := ResolveReferences(env, w3, desired);
    ReadsTransitive(env, w.log, w3.log, next.log);
    if r.Ok? {
      AllFoundSince(env, w.log, w3.log, next.log, r.value);
      assert Widened(w.log, w2.log);
    }
  }

  lemma AllFoundSince(env: Env, before: Log, start: Log, after: Log, ids: References)
    requires Reads(env, before, start) && Found(env, start, after, ids)
    ensures Found(env, before, after, ids)
  {
    FoundSince(env, before, start, after, Entity, ids.entities);
    FoundSince(env, before, start, after, Profile, ids.profiles);
  }

  lemma FoundSince(env: Env, before: Log, start: Log, after: Log, kind: Kind, ids: map<string, nat>)
    requires Reads(env, before, start) && AllResolved(env, start, after, kind, ids)
    ensures AllResolved(env, before, after, kind, ids)
  {
    forall name | name in ids
      ensures ResolvedWithin(env, before, after, kind, name, ids[name])
    {
      var id := ids[name];
      assert ResolvedWithin(env, start, after, kind, name, ids[name]);
      var a, b :| Reads(env, start, a) && Reads(env, a, b) && Reads(env, b, after)
                  && Matched(a, b, Query(kind, None, name), kind == Entity, [id]);
      ReadsTransitive(env, before, start, a);
    }
  }
}
