/** What a justified run means for its mutations, one by one, and for the order in which things were asked for. */
module AdapterTheorems {
  import opened Wrappers
  import opened Sorting
  import opened Normalization
  import opened Planning
  import opened PlanTheorems
  import opened Exchanges
  import opened Resolution
  import opened Mutating
  import opened References
  import opened Convergence
  import opened Adapter

  /** The mutations of a justified run are those of its script, in order, each confirmed before the next is sent. */
  lemma RunFollowsScript(env: Env, before: Log, after: Log, name: string, desired: seq<Permission>, s: Story)
    requires Justified(env, before, after, name, desired, s)
    ensures Follows(Mutations(before, after), Script(name, s))
  {
    hide LookedUp, RowsRead, Prepared, Referenced, IsPlan, UniqueIds;
    MutationsOfRun(env, before, after, s);
    var planned := Mutations(s.course.read, s.course.written);
    if s.tried != s.looked {
      assert planned != [] ==> s.course.plan != Plan([], []);
      assert planned != [] ==> Confirmed(s.tried.event);
    }
  }

  function Script(name: string, s: Story): seq<Request> {
    (if s.tried == s.looked then [] else [CreateUser(name)]) + PlanScript(s.user, s.course.plan)
  }

  /** All deletions precede all additions. */
  lemma DeletionsPrecedeAdditions(env: Env, before: Log, after: Log, name: string, desired: seq<Permission>, s: Story,
                                  i: nat, j: nat)
    requires Justified(env, before, after, name, desired, s)
    requires i < j < |Mutations(before, after)| && Mutations(before, after)[j].request.DeleteAssignment?
    ensures !Mutations(before, after)[i].request.CreateAssignment?
  {
    hide Justified, Follows, Mutations;
    RunFollowsScript(env, before, after, name, desired, s);
    RequestsAsScripted(Mutations(before, after), Script(name, s), i);
    RequestsAsScripted(Mutations(before, after), Script(name, s), j);
    ScriptShape(name, s, i);
    ScriptShape(name, s, j);
  }

  lemma RequestsAsScripted(mutations: seq<Exchange>, script: seq<Request>, i: nat)
    requires Follows(mutations, script) && i < |mutations|
    ensures i < |script| && mutations[i].request == script[i]
  {
  }

  /** Where in the script the three kinds of mutation stand. */
  lemma ScriptShape(name: string, s: Story, i: nat)
    requires i < |Script(name, s)|
    ensures var first := if s.tried == s.looked then 0 else 1;
            var q := Script(name, s)[i];
            if i < first then q == CreateUser(name)
            else if i < first + |s.course.plan.removals| then
              q == DeleteAssignment(s.course.plan.removals[i - first])
            else
              && i - first - |s.course.plan.removals| < |s.course.plan.additions|
              && var a := s.course.plan.additions[i - first - |s.course.plan.removals|];
                 q == CreateAssignment(s.user, a.entity, a.profile, a.recursive)
  {
  }

  /** A deletion names a row that this run itself read as the user's, and not the one kept for its pair. */
  lemma DeletionsNameOwnRows(env: Env, before: Log, after: Log, name: string, desired: seq<Permission>, s: Story,
                             i: nat)
    requires Justified(env, before, after, name, desired, s)
    requires i < |Mutations(before, after)| && Mutations(before, after)[i].request.DeleteAssignment?
    ensures RowsRead(s.owned, s.course.read, name, s.user, s.course.snapshot)
    ensures exists row :: row in s.course.snapshot && row.id == Mutations(before, after)[i].request.id
                          && !Kept(s.course.snapshot, SortBy(s.resolved, Pair), row)
  {
    hide RowsRead, Kept, SortBy, LookedUp, Follows, Mutations, Prepared, Referenced, Additions;
    RunFollowsScript(env, before, after, name, desired, s);
    RequestsAsScripted(Mutations(before, after), Script(name, s), i);
    ScriptShape(name, s, i);
    assert s.course.plan != Plan([], []);
    assert Mutations(before, after)[i].request.id in s.course.plan.removals;
  }

  /**
   A user is created at most once, as the first mutation, after every reference resolved and no such name was listed.
   */
  lemma UserIsCreatedAtMostOnce(env: Env, before: Log, after: Log, name: string, desired: seq<Permission>, s: Story,
                                i: nat)
    requires Justified(env, before, after, name, desired, s)
    requires i < |Mutations(before, after)| && Mutations(before, after)[i].request.CreateUser?
    ensures i == 0 && Mutations(before, after)[i].request == CreateUser(name)
    ensures Prepared(env, before, s.ready, desired) && Referenced(env, before, s.ready, desired, s.resolved)
    ensures LookedUp(s.ready, s.looked, name, None) && Reads(env, before, s.looked)
    ensures |Mutations(before, after)| > 1 ==>
              Confirmed(Mutations(before, after)[0]) && LookedUp(s.tried, s.owned, name, Some(s.user))
              && Mutations(before, after)[0].response.body == Created(s.user)
  {
    hide RowsRead, LookedUp, Prepared, Referenced, IsPlan, UniqueIds;
    ReadsTransitive(env, before, s.ready, s.looked);
    MutationsOfRun(env, before, after, s);
    RunFollowsScript(env, before, after, name, desired, s);
    RequestsAsScripted(Mutations(before, after), Script(name, s), i);
    ScriptShape(name, s, i);
    var planned := Mutations(s.course.read, s.course.written);
    assert planned != [] ==> s.course.plan != Plan([], []);
  }

  // ---------------------------------------------------------------- order independence, end to end

  /**
   Neither the order or repetition of permissions in the payload nor the order of rows on the target affects the plan.
   */
  lemma OrderNeverMatters(given1: seq<Permission>, given2: seq<Permission>, normal1: seq<Permission>,
                          normal2: seq<Permission>,
                          ids: References, rows1: seq<Row>, rows2: seq<Row>, plan1: Plan, plan2: Plan)
    requires forall p :: p in given1 <==> p in given2
    requires IsNormalForm(given1, normal1) && IsNormalForm(given2, normal2)
    requires UniqueIds(rows1) && multiset(rows1) == multiset(rows2)
    requires (forall p :: p in normal1 ==> Covers(ids, p)) && (forall p :: p in normal2 ==> Covers(ids, p))
    requires IsPlan(rows1, Resolve(ids, normal1), plan1) && IsPlan(rows2, Resolve(ids, normal2), plan2)
    ensures plan1 == plan2
  {
    hide IsPlan, Resolve;
    NormalFormIgnoresOrder(given1, given2, normal1, normal2);
    PlanIgnoresOrder(rows1, rows2, Resolve(ids, normal1), Resolve(ids, normal2), plan1, plan2);
  }
}
