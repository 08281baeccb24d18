/**
 One reconciliation with an open session: prepare, find or create the user, converge.
 Contracts relate moments of the exchange log, so they hold whatever other reconciliations do in between.
 */
module Adapter {
  import opened Wrappers
  import opened Histories
  import opened Normalization
  import opened Planning
  import opened PlanTheorems
  import opened Exchanges
  import opened Resolution
  import opened QuietTarget
  import opened QuietChanges
  import opened Mutating
  import opened References
  import opened Convergence
  import opened Users
  import opened Converging

  datatype Outcome = Changed | Unchanged

  // ---------------------------------------------------------------- what every run keeps

  /**
   The moments of a run: references resolved, user looked up, creation tried, user owned, and the course after that.
   */
  datatype Story =
    Story(ready: Log, resolved: seq<Assignment>, looked: Log, tried: Log, owned: Log, user: nat, course: Course)

  /** Each desired assignment was resolved, entity and profile, by complete searches between the two moments. */
  ghost predicate Referenced(env: Env, before: Log, ready: Log, desired: seq<Permission>, resolved: seq<Assignment>) {
    && |resolved| == |desired|
    && forall i :: 0 <= i < |desired| ==>
         && ResolvedWithin(env, before, ready, Entity, desired[i].entity, resolved[i].entity)
         && ResolvedWithin(env, before, ready, Profile, desired[i].profile, resolved[i].profile)
         && resolved[i].recursive == desired[i].recursive
  }

  /** The moments follow each other, and only the attempt to create and the plan's script may change anything. */
  ghost predicate Sequenced(env: Env, before: Log, after: Log, s: Story) {
    && Reads(env, before, s.ready) && Reads(env, s.ready, s.looked)
    && Sent(env, s.looked, s.tried) && Reads(env, s.tried, s.owned)
    && Reads(env, s.owned, s.course.read)
    && Sent(env, s.course.read, s.course.written) && Reads(env, s.course.written, after)
  }

  /**
   Every mutation of the run is justified, however the run ends. A user is created only after the session saw every
   entity, every reference was resolved and complete listings had no such name; assignments change only as the plan
   says, for a user found or confirmed created, from rows read in this run.
   */
  ghost predicate Justified(env: Env, before: Log, after: Log, name: string, desired: seq<Permission>, s: Story) {
    && Sequenced(env, before, after, s)
    && Attempted(s.ready, s.looked, s.tried, name)
    && (s.tried != s.looked ==>
          Prepared(env, before, s.ready, desired) && Referenced(env, before, s.ready, desired, s.resolved))
    && Follows(Mutations(s.course.read, s.course.written), PlanScript(s.user, s.course.plan))
    && (s.course.plan != Plan([], []) ==>
          && Prepared(env, before, s.ready, desired) && Referenced(env, before, s.ready, desired, s.resolved)
          && Owned(s.ready, s.looked, s.tried, s.owned, name, s.user)
          && Planned(s.owned, name, s.user, s.resolved, s.course))
  }

  /** A run that succeeds got through every stage, and its final read shows exactly the desired rows. */
  ghost predicate Succeeded(env: Env, before: Log, after: Log, name: string, desired: seq<Permission>, s: Story) {
    && Prepared(env, before, s.ready, desired) && Referenced(env, before, s.ready, desired, s.resolved)
    && Owned(s.ready, s.looked, s.tried, s.owned, name, s.user)
    && Planned(s.owned, name, s.user, s.resolved, s.course)
    && Verified(after, name, s.user, s.resolved, s.course)
  }

  lemma ReferencesResolved(env: Env, before: Log, ready: Log, desired: seq<Permission>, ids: References)
    requires Found(env, before, ready, ids) && forall p :: p in desired ==> Covers(ids, p)
    ensures Referenced(env, before, ready, desired, Resolve(ids, desired))
  {
    hide ResolvedWithin;
    var resolved := Resolve(ids, desired);
    forall i | 0 <= i < |desired|
      ensures ResolvedWithin(env, before, ready, Entity, desired[i].entity, resolved[i].entity)
      ensures ResolvedWithin(env, before, ready, Profile, desired[i].profile, resolved[i].profile)
    {
      assert desired[i] in desired;
      assert ResolvedWithin(env, before, ready, Entity, desired[i].entity, ids.entities[desired[i].entity]);
      assert ResolvedWithin(env, before, ready, Profile, desired[i].profile, ids.profiles[desired[i].profile]);
    }
  }

  /** The mutations of a run are the attempted creation, if any, followed by those of the plan. */
  lemma MutationsOfRun(env: Env, before: Log, after: Log, s: Story)
    requires Sequenced(env, before, after, s)
    requires s.tried == s.looked || (s.tried.Then? && s.tried.past == s.looked && Mutates(s.tried.event.request))
    ensures Sent(env, before, after)
    ensures Mutations(before, after) ==
              (if s.tried == s.looked then [] else [s.tried.event]) + Mutations(s.course.read, s.course.written)
  {
    ReadsTransitive(env, before, s.ready, s.looked);
    ReadsAreSent(env, before, s.looked);
    OneMore(env, before, s.looked, s.tried);
    ReadsTransitive(env, s.tried, s.owned, s.course.read);
    ReadsAreSent(env, s.tried, s.course.read);
    MutationsConcat(env, before, s.tried, s.course.read);
    SentTransitive(env, before, s.tried, s.course.read);
    MutationsConcat(env, before, s.course.read, s.course.written);
    SentTransitive(env, before, s.course.read, s.course.written);
    ReadsAreSent(env, s.course.written, after);
    MutationsConcat(env, before, s.course.written, after);
    SentTransitive(env, before, s.course.written, after);
  }

  // ---------------------------------------------------------------- a target changed by this run only

  ghost predicate Free(t: Table, name: string) {
    IdsNamed(t.users, name) == [] && IdsNamed(t.trashed, name) == []
  }

  /** No deleted user has the name, and at most one active one. */
  ghost predicate Unambiguous(t: Table, name: string) {
    IdsNamed(t.trashed, name) == [] && |IdsNamed(t.users, name)| <= 1
  }

  /** The run can do its work: references are unambiguous, and so is the user's name. */
  ghost predicate Solvable(t: Table, name: string, desired: seq<Permission>) {
    Resolvable(t, desired) && Unambiguous(t, name)
  }

  /** A quiet target, asked for a normal form, and small enough for everything the run may list. */
  ghost predicate Ready(env: Env, rules: Rules, t: Table, log: Log, desired: seq<Permission>) {
    && QuietAt(env, rules, t, log) && StrictlyOrdered(desired)
    && Fits(After(rules, t, log), 1 + |rules.granted| + 2 * |desired|)
  }

  ghost predicate Promising(env: Env, rules: Rules, t: Table, log: Log, name: string, desired: seq<Permission>) {
    Ready(env, rules, t, log, desired) && Solvable(After(rules, t, log), name, desired)
  }

  lemma FreeOrCarried(t: Table, name: string)
    ensures Unambiguous(t, name) <==> Free(t, name) || exists user :: Carries(t, name, user)
  {
    hide IdsNamed;
    var ids := IdsNamed(t.users, name);
    if |ids| == 1 {
      assert ids == [ids[0]];
      assert IdsNamed(t.trashed, name) == [] ==> Carries(t, name, ids[0]);
    }
  }

  /** An ambiguous name makes finding the user fail. */
  lemma AmbiguityIsSeen(env: Env, rules: Rules, t: Table, log: Log, ready: Log, name: string)
    requires QuietAt(env, rules, t, log) && Reads(env, log, ready)
    ensures Holds(env, ready, Active(name), false, IdsNamed(After(rules, t, log).users, name))
    ensures Holds(env, ready, Trashed(name), false, IdsNamed(After(rules, t, log).trashed, name))
  {
    hide Holds, IdsNamed, Valid, Quiet, Fits;
    ReadsKeepTable(env, rules, t, log, ready);
    NamesAreFound(env, rules, t, ready, Active(name));
    NamesAreFound(env, rules, t, ready, Trashed(name));
  }

  /** The one user of the name holds exactly the desired assignments, each in one row. */
  ghost predicate HoldsDesired(t: Table, name: string, desired: seq<Permission>) {
    && Resolvable(t, desired)
    && exists user :: Carries(t, name, user) && Canonical(RowsHeld(t.held, user), Images(t, desired))
  }

  lemma UserIsFound(env: Env, rules: Rules, t: Table, log: Log, name: string)
    requires QuietAt(env, rules, t, log)
    ensures forall user :: Carries(After(rules, t, log), name, user) ==> Finds(env, log, name, Some(user))
    ensures Free(After(rules, t, log), name) ==> Finds(env, log, name, None)
  {
    hide Holds, IdsNamed, Valid, Quiet, Fits;
    NamesAreFound(env, rules, t, log, Active(name));
    NamesAreFound(env, rules, t, log, Trashed(name));
  }

  lemma UserIsEnrolled(env: Env, rules: Rules, t: Table, log: Log, name: string)
    requires QuietAt(env, rules, t, log) && Free(After(rules, t, log), name)
    requires Fits(After(rules, t, log), 1 + |rules.granted|)
    ensures Enrolls(env, log, name, After(rules, t, log).next)
  {
    hide Finds, IdsNamed, Valid, GrantAll;
    var now := After(rules, t, log);
    EnrolmentWorks(rules, now, name);
    assert 0 < now.next by { ValidNext(now); }
    forall later | Reads(env, log, later)
      ensures env.answer(later, CreateUser(name)) == Reply(CREATED, Created(now.next))
      ensures forall x: Exchange {:trigger Then(later, x)} ::
                x.request == CreateUser(name) ==> Finds(env, Then(later, x), name, Some(now.next))
    {
      ReadsKeepTable(env, rules, t, log, later);
      forall x: Exchange | x.request == CreateUser(name)
        ensures Finds(env, Then(later, x), name, Some(now.next))
      {
        assert After(rules, t, Then(later, x)) == Change(rules, now, CreateUser(name));
        UserIsFound(env, rules, t, Then(later, x), name);
      }
    }
  }

  lemma ValidNext(t: Table)
    requires Valid(t)
    ensures 0 < t.next
  {
  }

  /** The target already is as desired, so that every further run has nothing to do. */
  ghost predicate Repeatable(env: Env, rules: Rules, t: Table, log: Log, name: string, desired: seq<Permission>) {
    && QuietAt(env, rules, t, log) && StrictlyOrdered(desired) && Fits(After(rules, t, log), |desired|)
    && HoldsDesired(After(rules, t, log), name, desired)
  }

  lemma OwnersArePositive(t: Table, name: string, user: nat)
    requires Valid(t) && Carries(t, name, user)
    ensures 0 < user < t.next
  {
    UsersAreUnique(t);
    IdsNamedMeaning(t.users, name);
    assert user in IdsNamed(t.users, name);
  }

  /** With references resolved as the target has them and the user in place, converging settles. */
  lemma ReadyToSettle(env: Env, rules: Rules, t: Table, log: Log, name: string, user: nat, desired: seq<Permission>,
                      ids: References)
    requires QuietAt(env, rules, t, log) && Fits(After(rules, t, log), |desired|) && StrictlyOrdered(desired)
    requires Resolvable(After(rules, t, log), desired) && Agreeing(ids, After(rules, t, log))
    requires (forall p :: p in desired ==> Covers(ids, p)) && Carries(After(rules, t, log), name, user)
    ensures Resolve(ids, desired) == Images(After(rules, t, log), desired)
    ensures Settles(env, log, name, user, Resolve(ids, desired), rules, t)
  {
    hide Valid, IdsNamed, Quiet, UniquePairs, Agreeing, Resolvable, ResolvableOne;
    var now := After(rules, t, log);
    ResolvedAsHeld(ids, now, desired);
    ImagesAreUnique(now, desired);
    OwnersArePositive(now, name, user);
  }

  /** What a run leaves behind once its plan is carried out. */
  lemma RunSettles(env: Env, rules: Rules, t: Table, log: Log, after: Log, name: string, user: nat,
                   desired: seq<Permission>, resolved: seq<Assignment>, plan: Plan)
    requires Settles(env, log, name, user, resolved, rules, t) && Fits(After(rules, t, log), 2 * |desired|)
    requires Resolvable(After(rules, t, log), desired) && resolved == Images(After(rules, t, log), desired)
    requires StrictlyOrdered(desired)
    requires IsPlan(RowsHeld(After(rules, t, log).held, user), resolved, plan)
    requires After(rules, t, after) == Carried(After(rules, t, log), user, plan)
    ensures Repeatable(env, rules, t, after, name, desired)
  {
    hide Valid, IdsNamed, Quiet, UniquePairs, IsPlan, RowsHeld, Canonical, Carried, StrictlyOrdered;
    var now, later := After(rules, t, log), After(rules, t, after);
    CarriedIsValid(now, user, resolved, plan);
    CarriedIsCanonical(now, user, resolved, plan);
    assert Carries(later, name, user) && Images(later, desired) == resolved;
  }

  // ---------------------------------------------------------------- the stages on such a target

  ghost predicate Favourable(env: Env, rules: Rules, t: Table, log: Log, name: string, desired: seq<Permission>) {
    Promising(env, rules, t, log, name, desired) || Repeatable(env, rules, t, log, name, desired)
  }

  /** Every reference resolves, and the user is either there or free to be created. */
  lemma FavourableMeans(env: Env, rules: Rules, t: Table, log: Log, name: string, desired: seq<Permission>)
    requires Favourable(env, rules, t, log, name, desired)
    ensures QuietAt(env, rules, t, log) && StrictlyOrdered(desired) && Resolvable(After(rules, t, log), desired)
    ensures Fits(After(rules, t, log), |desired|)
    ensures Free(After(rules, t, log), name) || exists user :: Carries(After(rules, t, log), name, user)
    ensures Free(After(rules, t, log), name) ==> Promising(env, rules, t, log, name, desired)
  {
    hide Valid, Quiet, Resolvable, IdsNamed;
    FreeOrCarried(After(rules, t, log), name);
    if Repeatable(env, rules, t, log, name, desired) {
      var user :| Carries(After(rules, t, log), name, user);
    }
  }

  /** The second stage finds or creates the user. */
  lemma UserStage(env: Env, rules: Rules, t: Table, before: Log, ready: Log, name: string, desired: seq<Permission>)
    requires Favourable(env, rules, t, before, name, desired) && Reads(env, before, ready)
    ensures forall user :: Carries(After(rules, t, before), name, user) ==> Finds(env, ready, name, Some(user))
    ensures Free(After(rules, t, before), name) ==>
              Finds(env, ready, name, None) && Enrolls(env, ready, name, After(rules, t, before).next)
  {
    hide Valid, Quiet, Resolvable, IdsNamed, Finds, Enrolls, Free, Carries;
    FavourableMeans(env, rules, t, before, name, desired);
    ReadsKeepTable(env, rules, t, before, ready);
    UserIsFound(env, rules, t, ready, name);
    if Free(After(rules, t, before), name) {
      UserIsEnrolled(env, rules, t, ready, name);
    }
  }

  /** After it, the table is as before, but for the user created, and ready for the third. */
  lemma UserStageDone(env: Env, rules: Rules, t: Table, before: Log, s: Story, name: string, desired: seq<Permission>,
                      ids: References)
    requires Favourable(env, rules, t, before, name, desired) && Agreeing(ids, After(rules, t, before))
    requires forall p :: p in desired ==> Covers(ids, p)
    requires Reads(env, before, s.ready) && Reads(env, s.ready, s.looked) && Reads(env, s.tried, s.owned)
    requires Attempted(s.ready, s.looked, s.tried, name)
    requires forall user :: Carries(After(rules, t, before), name, user) ==> s.user == user && s.tried == s.looked
    requires Free(After(rules, t, before), name) ==> s.user == After(rules, t, before).next && s.tried != s.looked
    ensures Resolvable(After(rules, t, s.owned), desired)
    ensures Resolve(ids, desired) == Images(After(rules, t, s.owned), desired)
    ensures Settles(env, s.owned, name, s.user, Resolve(ids, desired), rules, t)
    ensures Promising(env, rules, t, before, name, desired) ==> Fits(After(rules, t, s.owned), 2 * |desired|)
    ensures s.tried == s.looked ==> After(rules, t, s.owned) == After(rules, t, before)
  {
    hide Valid, Quiet, IdsNamed, LookedUp, Resolvable, ResolvableOne, Agreeing, Settles, StrictlyOrdered;
    var was := After(rules, t, before);
    FavourableMeans(env, rules, t, before, name, desired);
    ReadsKeepTable(env, rules, t, before, s.ready);
    ReadsKeepTable(env, rules, t, s.ready, s.looked);
    ReadsKeepTable(env, rules, t, s.tried, s.owned);
    if s.tried != s.looked {
      assert After(rules, t, s.tried) == Change(rules, was, CreateUser(name));
      QuietGrants(env, rules, t);
      EnrolmentWorks(rules, was, name);
      SameReferences(was, After(rules, t, s.owned), desired, ids);
    }
    ReadyToSettle(env, rules, t, s.owned, name, s.user, desired, ids);
  }

  lemma QuietGrants(env: Env, rules: Rules, t: Table)
    requires Quiet(env, rules, t)
    ensures forall a :: a in rules.granted ==> 0 < a.profile
  {
  }

  lemma SameReferences(t: Table, now: Table, desired: seq<Permission>, ids: References)
    requires t.entities == now.entities && t.profiles == now.profiles
    requires Resolvable(t, desired) && Agreeing(ids, t)
    ensures Resolvable(now, desired) && Agreeing(ids, now)
  {
    assert forall p :: ResolvableOne(t, p) <==> ResolvableOne(now, p);
  }

  /** On a target already as desired, the plan is empty and nothing changes. */
  lemma NothingToDo(env: Env, rules: Rules, t: Table, before: Log, after: Log, s: Story, name: string,
                    desired: seq<Permission>)
    requires Repeatable(env, rules, t, before, name, desired)
    requires forall user :: Carries(After(rules, t, before), name, user) ==> s.user == user
    requires After(rules, t, s.owned) == After(rules, t, before)
    requires s.resolved == Images(After(rules, t, before), desired)
    requires s.course.snapshot == RowsHeld(After(rules, t, before).held, s.user)
    requires UniqueIds(s.course.snapshot) && IsPlan(s.course.snapshot, s.resolved, s.course.plan)
    requires After(rules, t, after) == Carried(After(rules, t, s.owned), s.user, s.course.plan)
    ensures s.course.plan == Plan([], []) && Repeatable(env, rules, t, after, name, desired)
  {
    hide Valid, Quiet, Fits, IsPlan, Canonical, UniqueIds, RowsHeld, StrictlyOrdered;
    var user :| Carries(After(rules, t, before), name, user)
                && Canonical(RowsHeld(After(rules, t, before).held, user), Images(After(rules, t, before), desired));
    EmptyExactlyWhenCanonical(s.course.snapshot, s.resolved, s.course.plan);
  }

  /** Nobody's rows but the user's differ between the two tables. */
  ghost predicate OthersSpared(was: Table, now: Table, user: nat) {
    forall other :: other != user ==> RowsHeld(now.held, other) == RowsHeld(was.held, other)
  }

  lemma RunSparesOthers(env: Env, rules: Rules, t: Table, before: Log, after: Log, s: Story, name: string)
    requires Valid(After(rules, t, s.owned))
    requires IsPlan(RowsHeld(After(rules, t, s.owned).held, s.user), s.resolved, s.course.plan)
    requires After(rules, t, after) == Carried(After(rules, t, s.owned), s.user, s.course.plan)
    requires Reads(env, before, s.ready) && Reads(env, s.ready, s.looked) && Reads(env, s.tried, s.owned)
    requires Attempted(s.ready, s.looked, s.tried, name)
    requires s.tried != s.looked ==> s.user == After(rules, t, before).next
    ensures OthersSpared(After(rules, t, before), After(rules, t, after), s.user)
  {
    hide Valid, IsPlan, RowsHeld, LookedUp, GrantAll;
    var was := After(rules, t, before);
    ReadsKeepTable(env, rules, t, before, s.ready);
    ReadsKeepTable(env, rules, t, s.ready, s.looked);
    ReadsKeepTable(env, rules, t, s.tried, s.owned);
    forall other | other != s.user
      ensures RowsHeld(After(rules, t, after).held, other) == RowsHeld(was.held, other)
    {
      CarriedSparesOthers(After(rules, t, s.owned), s.user, s.resolved, s.course.plan, other);
      if s.tried != s.looked {
        assert After(rules, t, s.tried) == Change(rules, was, CreateUser(name));
        GrantsSpareOthers(Enroll(was, name), was.next, rules.granted, other);
      }
    }
  }

  lemma SettlesValid(env: Env, log: Log, name: string, user: nat, resolved: seq<Assignment>, rules: Rules, t: Table)
    requires Settles(env, log, name, user, resolved, rules, t)
    ensures Valid(After(rules, t, log))
  {
  }

  /** The whole run: a solvable target ends as desired; one already as desired is left alone. */
  lemma RunEnds(env: Env, rules: Rules, t: Table, before: Log, after: Log, s: Story, name: string,
                desired: seq<Permission>,
                ids: References)
    requires Favourable(env, rules, t, before, name, desired) && Agreeing(ids, After(rules, t, before))
    requires (forall p :: p in desired ==> Covers(ids, p)) && s.resolved == Resolve(ids, desired)
    requires Reads(env, before, s.ready) && Reads(env, s.ready, s.looked) && Reads(env, s.tried, s.owned)
    requires Attempted(s.ready, s.looked, s.tried, name)
    requires forall user :: Carries(After(rules, t, before), name, user) ==> s.user == user && s.tried == s.looked
    requires Free(After(rules, t, before), name) ==> s.user == After(rules, t, before).next && s.tried != s.looked
    requires UniqueIds(s.course.snapshot) && IsPlan(s.course.snapshot, s.resolved, s.course.plan)
    requires s.course.snapshot == RowsHeld(After(rules, t, s.owned).held, s.user)
    requires After(rules, t, after) == Carried(After(rules, t, s.owned), s.user, s.course.plan)
    ensures Repeatable(env, rules, t, after, name, desired)
    ensures Repeatable(env, rules, t, before, name, desired) ==> s.tried == s.looked && s.course.plan == Plan([], [])
    ensures OthersSpared(After(rules, t, before), After(rules, t, after), s.user)
  {
    hide OthersSpared, Valid, Quiet, Fits, IsPlan, Canonical, UniqueIds, RowsHeld, Carried, StrictlyOrdered, Settles,
      LookedUp, Resolvable, Agreeing, Images, Resolve, QuietAt, Solvable, Change, Carries, Free;
    UserStageDone(env, rules, t, before, s, name, desired, ids);
    FavourableMeans(env, rules, t, before, name, desired);
    SettlesValid(env, s.owned, name, s.user, s.resolved, rules, t);
    RunSparesOthers(env, rules, t, before, after, s, name);
    if Repeatable(env, rules, t, before, name, desired) {
      var user :| Carries(After(rules, t, before), name, user);
      NothingToDo(env, rules, t, before, after, s, name, desired);
    } else {
      RunSettles(env, rules, t, s.owned, after, name, s.user, desired, s.resolved, s.course.plan);
    }
  }

  lemma ReadyAndSolvable(env: Env, rules: Rules, t: Table, log: Log, name: string, desired: seq<Permission>)
    requires Ready(env, rules, t, log, desired) && Solvable(After(rules, t, log), name, desired)
    ensures Favourable(env, rules, t, log, name, desired)
  {
  }

  // ---------------------------------------------------------------- the run

  /**
   Reconciles one user with an open session. Whatever the target does in between, every mutation is justified and
   success means the final read shows exactly the desired rows; changed exactly when something was changed here.
   On a target nobody else changes, a run succeeds exactly when the references and the name are unambiguous, spares
   everybody else's rows, and any run after it changes nothing.
   */
  method ReconcileWithSession(env: Env, w: World, name: string, desired: seq<Permission>)
    returns (r: Result<Outcome, Failure>, next: World, ghost s: Story)
    ensures w.looks <= next.looks && Justified(env, w.log, next.log, name, desired, s)
    ensures r.Ok? ==> Succeeded(env, w.log, next.log, name, desired, s)
    ensures r.Ok? ==> (r.value == Changed <==> Mutations(w.log, next.log) != [])
    ensures Calm(env) ==>
              forall rules, t {:trigger Favourable(env, rules, t, w.log, name, desired)} ::
                Favourable(env, rules, t, w.log, name, desired) ==>
                  && r.Ok? && Repeatable(env, rules, t, next.log, name, desired)
                  && (Repeatable(env, rules, t, w.log, name, desired) ==> r.value == Unchanged)
                  && OthersSpared(After(rules, t, w.log), After(rules, t, next.log), s.user)
    ensures Calm(env) ==>
              forall rules, t {:trigger Ready(env, rules, t, w.log, desired)} ::
                Ready(env, rules, t, w.log, desired) ==>
                (r.Ok? <==> Solvable(After(rules, t, w.log), name, desired))
  {
    hide LookedUp, RowsRead, ResolvedWithin, Prepared, Found, IsPlan, Canonical, Finds, Enrolls, Settles, Favourable,
      Repeatable, Free, Carries, Quiet, RowsHeld, Carried, Change, Resolvable, Agreeing, QuietAt, Resolve, UniqueIds,
      AllResolved, OthersSpared, Holds, IdsNamed;
    var ids;
    ids, next := Prepare(env, w, desired);
    s := Story(next.log, [], next.log, next.log, next.log, 0, Course([], next.log, Plan([], []), next.log, []));
    forall rules, t | Favourable(env, rules, t, w.log, name, desired)
      ensures QuietAt(env, rules, t, w.log) && Resolvable(After(rules, t, w.log), desired)
    {
      FavourableMeans(env, rules, t, w.log, name, desired);
    }
    assert forall rules, t :: Ready(env, rules, t, w.log, desired) ==> QuietAt(env, rules, t, w.log);
    if ids.Err? {
      return Err(ids.error), next, s;
    }
    ReferencesResolved(env, w.log, next.log, desired, ids.value);
    var resolved := Resolve(ids.value, desired);
    forall rules, t | Favourable(env, rules, t, w.log, name, desired)
      ensures forall user :: Carries(After(rules, t, w.log), name, user) ==> Finds(env, s.ready, name, Some(user))
      ensures Free(After(rules, t, w.log), name) ==>
                Finds(env, s.ready, name, None) && Enrolls(env, s.ready, name, After(rules, t, w.log).next)
      ensures Free(After(rules, t, w.log), name) || exists user :: Carries(After(rules, t, w.log), name, user)
    {
      FavourableMeans(env, rules, t, w.log, name, desired);
      UserStage(env, rules, t, w.log, s.ready, name, desired);
    }
    forall rules, t | Ready(env, rules, t, w.log, desired)
      ensures Holds(env, s.ready, Active(name), false, IdsNamed(After(rules, t, w.log).users, name))
      ensures Holds(env, s.ready, Trashed(name), false, IdsNamed(After(rules, t, w.log).trashed, name))
      ensures Solvable(After(rules, t, w.log), name, desired) ==> Favourable(env, rules, t, w.log, name, desired)
    {
      AmbiguityIsSeen(env, rules, t, w.log, s.ready, name);
      if Solvable(After(rules, t, w.log), name, desired) {
        ReadyAndSolvable(env, rules, t, w.log, name, desired);
      }
    }
    var found;
    ghost var looked, tried;
    found, next, looked, tried := FindOrCreateUser(env, next, name);
    s := Story(s.ready, resolved, looked, tried, next.log, 0, Course([], next.log, Plan([], []), next.log, []));
    if found.Err? {
      return Err(found.error), next, s;
    }
    var (user, created) := found.value;
    s := s.(user := user);
    forall rules, t | Calm(env) && Favourable(env, rules, t, w.log, name, desired)
      ensures Settles(env, s.owned, name, user, resolved, rules, t)
    {
      UserStageDone(env, rules, t, w.log, s, name, desired, ids.value);
    }
    var done;
    ghost var course;
    done, next, course := Converge(env, next, name, user, resolved);
    s := s.(course := course);
    if done.Err? {
      return Err(done.error), next, s;
    }
    forall rules, t | Calm(env) && Favourable(env, rules, t, w.log, name, desired)
      ensures Repeatable(env, rules, t, next.log, name, desired)
      ensures Repeatable(env, rules, t, w.log, name, desired) ==> s.tried == s.looked && s.course.plan == Plan([], [])
      ensures OthersSpared(After(rules, t, w.log), After(rules, t, next.log), s.user)
    {
      RunEnds(env, rules, t, w.log, next.log, s, name, desired, ids.value);
    }
    MutationsOfRun(env, w.log, next.log, s);
    return Ok(if created + done.value > 0 then Changed else Unchanged), next, s;
  }
}
