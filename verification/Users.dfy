/** Finding the user, or creating it when it is provably absent. */
module Users {
  import opened Wrappers
  import opened Histories
  import opened Exchanges
  import opened Resolution
  import opened Mutating

  /**
   The moments of finding the user: `looked` after the first lookup, `tried` after the attempt to create, if any.
   A creation is attempted only when complete listings of active and deleted users had no exact match.
   */
  ghost predicate Attempted(before: Log, looked: Log, tried: Log, name: string) {
    || tried == looked
    || (&& tried.Then? && tried.past == looked && tried.event.request == CreateUser(name)
        && LookedUp(before, looked, name, None))
  }

  /** The user was found as it is, or created here and then found under exactly the created id. */
  ghost predicate Owned(before: Log, looked: Log, tried: Log, after: Log, name: string, user: nat) {
    if tried == looked then LookedUp(before, after, name, Some(user))
    else
      && tried.Then? && Confirmed(tried.event) && tried.event.response.body == Created(user)
      && LookedUp(tried, after, name, Some(user))
  }

  /** As long as nothing else is changed, the target answers a creation with this id and then finds the user. */
  ghost predicate Enrolls(env: Env, before: Log, name: string, id: nat) {
    && id != 0
    && forall log {:trigger env.answer(log, CreateUser(name))} :: Reads(env, before, log) ==>
         && env.answer(log, CreateUser(name)) == Reply(CREATED, Created(id))
         && forall x: Exchange {:trigger Then(log, x)} :: x.request == CreateUser(name) ==>
              Finds(env, Then(log, x), name, Some(id))
  }

  /** Creates the missing user and looks it up again; anything but the created id leaves ownership unproven. */
  method CreateUserAndResolveOutcome(env: Env, w: World, name: string)
    returns (r: Result<nat, Failure>, next: World, ghost tried: Log)
    ensures Sent(env, w.log, tried) && Reads(env, tried, next.log) && w.looks <= next.looks
    ensures tried == w.log || (tried.Then? && tried.past == w.log && tried.event.request == CreateUser(name))
    ensures r.Ok? ==>
              && tried != w.log && Confirmed(tried.event) && tried.event.response.body == Created(r.value)
              && LookedUp(tried, next.log, name, Some(r.value))
    ensures Calm(env) ==> forall id: nat :: Enrolls(env, w.log, name, id) ==> r == Ok(id)
  {
    hide Matched, Holds, LookedUp;
    r, next := Mutate(env, w, CreateUser(name));
    tried := next.log;
    if r.Err? {
      return;
    }
    var created := r.value;
    var found;
    found, next := ResolveUserId(env, next, name);
    assert Calm(env) ==> forall user :: Finds(env, tried, name, user) ==> found == Ok(user);
    if found.Err? {
      return Err(found.error), next, tried;
    }
    if found.value != Some(created) {
      return Err(UserCreationFailed), next, tried;
    }
    return Ok(created), next, tried;
  }

  /** Finds the user, or creates it; also says how many mutations that took. */
  method FindOrCreateUser(env: Env, w: World, name: string)
    returns (r: Result<(nat, nat), Failure>, next: World, ghost looked: Log, ghost tried: Log)
    ensures Reads(env, w.log, looked) && Sent(env, looked, tried) && Reads(env, tried, next.log)
    ensures w.looks <= next.looks
    ensures Attempted(w.log, looked, tried, name)
    ensures r.Ok? ==> Owned(w.log, looked, tried, next.log, name, r.value.0)
    ensures r.Ok? ==> r.value.1 == if tried == looked then 0 else 1
    ensures Calm(env) ==> forall user: nat :: Finds(env, w.log, name, Some(user)) ==> r == Ok((user, 0))
    ensures Calm(env) && Finds(env, w.log, name, None) ==>
              forall id: nat :: Enrolls(env, w.log, name, id) ==> r == Ok((id, 1))
    ensures Calm(env) ==>
              forall active, deleted ::
                && Holds(env, w.log, Active(name), false, active) && Holds(env, w.log, Trashed(name), false, deleted)
                && (deleted != [] || |active| > 1) ==>
                  r.Err?
  {
    hide Matched, Holds, LookedUp;
    var found;
    found, next := ResolveUserId(env, w, name);
    assert Calm(env) ==> forall user :: Finds(env, w.log, name, user) ==> found == Ok(user);
    looked, tried := next.log, next.log;
    if found.Err? {
      return Err(found.error), next, looked, tried;
    }
    if found.value.Some? {
      return Ok((found.value.value, 0)), next, looked, tried;
    }
    StillEnrolls(env, w.log, looked, name);
    var created;
    created, next, tried := CreateUserAndResolveOutcome(env, next, name);
    if created.Err? {
      return Err(created.error), next, looked, tried;
    }
    return Ok((created.value, 1)), next, looked, tried;
  }

  lemma StillEnrolls(env: Env, before: Log, middle: Log, name: string)
    requires Reads(env, before, middle)
    ensures forall id: nat :: Enrolls(env, before, name, id) ==> Enrolls(env, middle, name, id)
  {
    forall id: nat, log | Enrolls(env, before, name, id) && Reads(env, middle, log)
      ensures env.answer(log, CreateUser(name)) == Reply(CREATED, Created(id))
      ensures forall x: Exchange {:trigger Then(log, x)} :: x.request == CreateUser(name) ==>
                Finds(env, Then(log, x), name, Some(id))
    {
      ReadsTransitive(env, before, middle, log);
    }
  }
}
