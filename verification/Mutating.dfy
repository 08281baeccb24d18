/** Issuing mutations one by one: each must be confirmed in its exact documented shape before the next is sent. */
module Mutating {
  import opened Wrappers
  import opened Histories
  import opened Planning
  import opened Exchanges
  import opened QuietTarget
  import opened QuietChanges
  import opened Sorting

  /** The one shape of reply that confirms a mutation. */
  predicate ConfirmedBy(request: Request, response: Response) {
    && response.Reply?
    && match request
       case DeleteAssignment(id) => response == Reply(OK, Deleted(id, true))
       case _ => response.status == CREATED && response.body.Created? && response.body.id != 0
  }

  predicate Confirmed(x: Exchange) {
    ConfirmedBy(x.request, x.response)
  }

  /** The mutations are the first ones of the script, in order, and all but possibly the last were confirmed. */
  ghost predicate Follows(mutations: seq<Exchange>, script: seq<Request>) {
    && |mutations| <= |script|
    && (forall i :: 0 <= i < |mutations| ==> mutations[i].request == script[i])
    && (forall i :: 0 <= i < |mutations| - 1 ==> Confirmed(mutations[i]))
  }

  ghost predicate Finished(mutations: seq<Exchange>, script: seq<Request>) {
    && |mutations| == |script|
    && (forall i :: 0 <= i < |mutations| ==> mutations[i].request == script[i] && Confirmed(mutations[i]))
  }

  /** Issues one mutation. */
  method Mutate(env: Env, w: World, request: Request) returns (r: Result<nat, Failure>, next: World)
    requires Mutates(request)
    ensures Sent(env, w.log, next.log) && w.looks <= next.looks
    ensures r.Ok? <==> !Ended(env, w.looks) && ConfirmedBy(request, env.answer(w.log, request))
    ensures next.log == w.log || (next.log.Then? && next.log.past == w.log && next.log.event.request == request)
    ensures r.Ok? ==> next.log != w.log && Confirmed(next.log.event)
    ensures r.Ok? && !request.DeleteAssignment? ==> next.log.event.response.body == Created(r.value)
    ensures r.Err? && next.log != w.log ==>
              && !Confirmed(next.log.event)
              && (next.log.event.response.Reply? ==>
                    r.error == if request.CreateUser? then UserCreationFailed else MutationFailed)
  {
    var (reply, sent) := Send(env, w, request);
    next := sent;
    if reply.Ok? {
      LongerIsDifferent(w.log, next.log);
    }
    if reply.Err? {
      return Err(reply.error), next;
    }
    if !ConfirmedBy(request, reply.value) {
      return Err(if request.CreateUser? then UserCreationFailed else MutationFailed), next;
    }
    return Ok(if request.DeleteAssignment? then 0 else reply.value.body.id), next;
  }

  // ---------------------------------------------------------------- a script of mutations

  function Applied(rules: Rules, t: Table, script: seq<Request>): Table
    decreases |script|
  {
    if script == [] then t
    else Change(rules, Applied(rules, t, script[..|script| - 1]), script[|script| - 1])
  }

  /** A quiet target in state `t` confirms every mutation of the script. */
  ghost predicate Doable(rules: Rules, t: Table, script: seq<Request>)
    decreases |script|
  {
    script == [] ||
    (var init, last := script[..|script| - 1], script[|script| - 1];
     Doable(rules, t, init) && ConfirmedBy(last, Respond(rules, Applied(rules, t, init), last)))
  }

  lemma {:induction false} DoableFromTheStart(rules: Rules, t: Table, script: seq<Request>, n: nat)
    requires Doable(rules, t, script) && n <= |script|
    ensures Doable(rules, t, script[..n])
    decreases |script|
  {
    if n < |script| {
      DoableFromTheStart(rules, t, script[..|script| - 1], n);
      assert script[..|script| - 1][..n] == script[..n];
    } else {
      assert script[..n] == script;
    }
  }

  /** Issues mutations in order, stopping at the first that is not confirmed. */
  method Perform(env: Env, w: World, script: seq<Request>) returns (r: Result<nat, Failure>, next: World)
    requires forall q :: q in script ==> Mutates(q)
    ensures Sent(env, w.log, next.log) && w.looks <= next.looks
    ensures Follows(Mutations(w.log, next.log), script)
    ensures r.Ok? <==> Finished(Mutations(w.log, next.log), script)
    ensures r.Ok? ==> r.value == |script|
    ensures Calm(env) ==>
              forall rules, t :: Quiet(env, rules, t) && Doable(rules, After(rules, t, w.log), script) ==>
                r.Ok? && After(rules, t, next.log) == Applied(rules, After(rules, t, w.log), script)
  {
    next := w;
    var done := 0;
    while done < |script|
      invariant 0 <= done <= |script| && Sent(env, w.log, next.log) && w.looks <= next.looks
      invariant Finished(Mutations(w.log, next.log), script[..done])
      invariant Calm(env) ==>
                  forall rules, t :: Quiet(env, rules, t) && Doable(rules, After(rules, t, w.log), script) ==>
                    After(rules, t, next.log) == Applied(rules, After(rules, t, w.log), script[..done])
    {
      ghost var earlier := next;
      var confirmed;
      confirmed, next := Mutate(env, next, script[done]);
      OneMore(env, w.log, earlier.log, next.log);
      NextIsDoable(env, w.log, earlier, script, done);
      assert script[..done + 1][..done] == script[..done];
      if confirmed.Err? {
        return Err(confirmed.error), next;
      }
      done := done + 1;
    }
    assert script[..done] == script;
    return Ok(done), next;
  }

  lemma OneMore(env: Env, before: Log, log: Log, next: Log)
    requires Sent(env, before, log) && Sent(env, log, next)
    requires next == log || (next.Then? && next.past == log && Mutates(next.event.request))
    ensures Sent(env, before, next)
    ensures Mutations(before, next) == Mutations(before, log) + if next == log then [] else [next.event]
  {
    SentTransitive(env, before, log, next);
    MutationsConcat(env, before, log, next);
    if next != log {
      assert Mutations(log, log) == [];
    }
  }

  lemma NextIsDoable(env: Env, before: Log, w: World, script: seq<Request>, done: nat)
    requires done < |script|
    ensures forall rules, t ::
              && Quiet(env, rules, t) && Doable(rules, After(rules, t, before), script)
              && After(rules, t, w.log) == Applied(rules, After(rules, t, before), script[..done]) ==>
                ConfirmedBy(script[done], env.answer(w.log, script[done]))
  {
    forall rules, t |
      && Quiet(env, rules, t) && Doable(rules, After(rules, t, before), script)
      && After(rules, t, w.log) == Applied(rules, After(rules, t, before), script[..done])
      ensures ConfirmedBy(script[done], env.answer(w.log, script[done]))
    {
      DoableFromTheStart(rules, After(rules, t, before), script, done + 1);
      assert script[..done + 1][..done] == script[..done];
    }
  }

  // ---------------------------------------------------------------- the two scripts of a plan

  function Deletions(ids: seq<nat>): (script: seq<Request>)
    ensures forall q :: q in script ==> q.DeleteAssignment? && q.id in ids
  {
    seq(|ids|, i requires 0 <= i < |ids| => DeleteAssignment(ids[i]))
  }

  function Creations(user: nat, additions: seq<Assignment>): (script: seq<Request>)
    ensures forall q :: q in script ==> q.CreateAssignment? && q.user == user
  {
    seq(|additions|, i requires 0 <= i < |additions| =>
      CreateAssignment(user, additions[i].entity, additions[i].profile, additions[i].recursive))
  }

  ghost predicate Present(t: Table, ids: seq<nat>) {
    forall id :: id in ids ==> FindHeld(t.held, id).Some?
  }

  lemma StillPresent(t: Table, ids: seq<nat>, id: nat)
    requires id !in ids && FindHeld(t.held, id).Some?
    ensures FindHeld(DeleteAll(t, ids).held, id).Some?
  {
    DeletionsSpare(t, ids);
    assert FindHeld(t.held, id).value in DeleteAll(t, ids).held;
  }

  lemma LastDeletion(ids: seq<nat>)
    requires ids != []
    ensures var init, last := ids[..|ids| - 1], ids[|ids| - 1];
            |Deletions(ids)| == |ids| && Deletions(ids)[..|ids| - 1] == Deletions(init)
            && Deletions(ids)[|ids| - 1] == DeleteAssignment(last)
  {
  }

  lemma {:induction false} DeletionsApplied(rules: Rules, t: Table, ids: seq<nat>)
    ensures Applied(rules, t, Deletions(ids)) == DeleteAll(t, ids)
    decreases |ids|
  {
    if ids != [] {
      LastDeletion(ids);
      DeletionsApplied(rules, t, ids[..|ids| - 1]);
    }
  }

  lemma NoDeletions()
    ensures Deletions([]) == []
  {
  }

  lemma LastIsPresent(t: Table, ids: seq<nat>)
    requires ids != [] && Distinct(ids) && Present(t, ids)
    ensures var init, last := ids[..|ids| - 1], ids[|ids| - 1];
            Distinct(init) && Present(t, init) && last !in init && FindHeld(t.held, last).Some?
  {
    assert ids[|ids| - 1] in ids;
  }

  lemma {:induction false} DeletionsWork(rules: Rules, t: Table, ids: seq<nat>)
    requires Distinct(ids) && Present(t, ids)
    ensures Doable(rules, t, Deletions(ids))
    decreases |ids|
  {
    hide Distinct, Present, Deletions, DeleteAll;
    if ids == [] {
      assert Deletions(ids) == [] by { NoDeletions(); }
    } else {
      var init, last := ids[..|ids| - 1], ids[|ids| - 1];
      LastIsPresent(t, ids);
      DeletionsWork(rules, t, init);
      DeletionsApplied(rules, t, init);
      StillPresent(t, init, last);
      LastDeletion(ids);
    }
  }

  lemma {:induction false} CreationsWork(rules: Rules, t: Table, user: nat, additions: seq<Assignment>)
    requires 0 < t.next
    ensures Doable(rules, t, Creations(user, additions))
    ensures Applied(rules, t, Creations(user, additions)) == GrantAll(t, user, additions)
    decreases |additions|
  {
    if additions != [] {
      var init := additions[..|additions| - 1];
      CreationsWork(rules, t, user, init);
      assert Creations(user, additions)[..|additions| - 1] == Creations(user, init);
      GrantsShape(t, user, init);
    }
  }
}
