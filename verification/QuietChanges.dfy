/** What the adapter's mutations do to the rows of a quiet target. */
module QuietChanges {
  import opened Planning
  import opened PlanTheorems
  import opened Exchanges
  import opened QuietTarget

  // ---------------------------------------------------------------- deletions

  lemma {:induction false} WithoutMeaning(held: seq<Held>, id: nat)
    ensures forall h :: h in Without(held, id) <==> h in held && h.row.id != id
  {
    if held != [] {
      WithoutMeaning(held[..|held| - 1], id);
      assert held == held[..|held| - 1] + [held[|held| - 1]];
    }
  }

  lemma {:induction false} RowsWithout(held: seq<Held>, id: nat, user: nat)
    ensures RowsHeld(Without(held, id), user) == Survivors(RowsHeld(held, user), [id])
  {
    if held != [] {
      var init, last := held[..|held| - 1], held[|held| - 1];
      RowsWithout(init, id, user);
      var left, rows := Without(init, id), RowsHeld(init, user);
      assert (left + [last])[..|left|] == left && (rows + [last.row])[..|rows|] == rows;
      assert rows + [] == rows && RowsHeld(left, user) + [] == RowsHeld(left, user);
    }
  }

  lemma {:induction false} SurvivorsCompose(rows: seq<Row>, removed: seq<nat>, id: nat)
    ensures Survivors(Survivors(rows, removed), [id]) == Survivors(rows, removed + [id])
  {
    if rows != [] {
      var init, last := rows[..|rows| - 1], rows[|rows| - 1];
      SurvivorsCompose(init, removed, id);
      var left := Survivors(init, removed);
      assert (left + [last])[..|left|] == left;
    }
  }

  lemma {:induction false} NothingRemoved(rows: seq<Row>, removed: seq<nat>)
    requires forall r :: r in rows ==> r.id !in removed
    ensures Survivors(rows, removed) == rows
  {
    if rows != [] {
      var init, last := rows[..|rows| - 1], rows[|rows| - 1];
      assert last in rows && last.id !in removed;
      NothingRemoved(init, removed);
      assert Survivors(rows, removed) == Survivors(init, removed) + [last];
    }
  }

  lemma {:induction false} DeletionsSpare(t: Table, ids: seq<nat>)
    ensures DeleteAll(t, ids) == t.(held := DeleteAll(t, ids).held)
    ensures forall h :: h in DeleteAll(t, ids).held <==> h in t.held && h.row.id !in ids
    decreases |ids|
  {
    if ids != [] {
      DeletionsSpare(t, ids[..|ids| - 1]);
      WithoutMeaning(DeleteAll(t, ids[..|ids| - 1]).held, ids[|ids| - 1]);
      assert ids == ids[..|ids| - 1] + [ids[|ids| - 1]];
    }
  }

  lemma {:induction false} RowsAfterDeletions(t: Table, ids: seq<nat>, user: nat)
    ensures RowsHeld(DeleteAll(t, ids).held, user) == Survivors(RowsHeld(t.held, user), ids)
    decreases |ids|
  {
    if ids == [] {
      NothingRemoved(RowsHeld(t.held, user), []);
    } else {
      var init, last := ids[..|ids| - 1], ids[|ids| - 1];
      assert ids == init + [last];
      RowsAfterDeletions(t, init, user);
      RowsWithout(DeleteAll(t, init).held, last, user);
      SurvivorsCompose(RowsHeld(t.held, user), init, last);
    }
  }

  lemma {:induction false} WithoutStaysUnique(held: seq<Held>, id: nat)
    requires UniqueHeld(held)
    ensures UniqueHeld(Without(held, id)) && |Without(held, id)| <= |held|
  {
    if held != [] {
      var init, last := held[..|held| - 1], held[|held| - 1];
      assert held == init + [last];
      WithoutStaysUnique(init, id);
      WithoutMeaning(init, id);
      var left := Without(init, id);
      assert forall i :: 0 <= i < |left| ==> left[i] in left && left[i] in init;
      assert forall h :: h in init ==> h.row.id != last.row.id;
    }
  }

  lemma {:induction false} DeletionsKeepValid(t: Table, ids: seq<nat>)
    requires Valid(t)
    ensures Valid(DeleteAll(t, ids)) && |DeleteAll(t, ids).held| <= |t.held|
    decreases |ids|
  {
    if ids != [] {
      DeletionsKeepValid(t, ids[..|ids| - 1]);
      WithoutStaysUnique(DeleteAll(t, ids[..|ids| - 1]).held, ids[|ids| - 1]);
      WithoutMeaning(DeleteAll(t, ids[..|ids| - 1]).held, ids[|ids| - 1]);
    }
  }

  // ---------------------------------------------------------------- additions

  lemma {:induction false} GrantsShape(t: Table, user: nat, granted: seq<Assignment>)
    ensures var after := GrantAll(t, user, granted);
            && after.next == t.next + |granted| && |after.held| == |t.held| + |granted|
            && after == t.(held := after.held, next := after.next)
    decreases |granted|
  {
    if granted != [] {
      GrantsShape(t, user, granted[..|granted| - 1]);
    }
  }

  lemma RowsGrow(held: seq<Held>, h: Held, user: nat)
    ensures RowsHeld(held + [h], user) == RowsHeld(held, user) + if h.user == user then [h.row] else []
  {
    assert (held + [h])[..|held|] == held;
  }

  function GrantedRows(first: nat, granted: seq<Assignment>): (rows: seq<Row>)
    ensures |rows| == |granted|
    decreases |granted|
  {
    if granted == [] then []
    else
      var last := granted[|granted| - 1];
      GrantedRows(first, granted[..|granted| - 1])
      + [Row(first + |granted| - 1, last.entity, last.profile, last.recursive)]
  }

  lemma {:induction false} GrantedAreNew(first: nat, granted: seq<Assignment>)
    ensures GrantedRows(first, granted) == NewRows(granted, seq(|granted|, i => first + i))
    decreases |granted|
  {
    if granted != [] {
      GrantedAreNew(first, granted[..|granted| - 1]);
    }
  }

  lemma {:induction false} RowsAfterGrants(t: Table, user: nat, granted: seq<Assignment>)
    ensures RowsHeld(GrantAll(t, user, granted).held, user) == RowsHeld(t.held, user) + GrantedRows(t.next, granted)
    decreases |granted|
  {
    if granted != [] {
      var init, last := granted[..|granted| - 1], granted[|granted| - 1];
      RowsAfterGrants(t, user, init);
      GrantsShape(t, user, init);
      var before := GrantAll(t, user, init);
      RowsGrow(before.held, Held(user, Row(before.next, last.entity, last.profile, last.recursive)), user);
    }
  }

  lemma {:induction false} GrantsSpareOthers(t: Table, user: nat, granted: seq<Assignment>, other: nat)
    requires other != user
    ensures RowsHeld(GrantAll(t, user, granted).held, other) == RowsHeld(t.held, other)
    decreases |granted|
  {
    if granted != [] {
      GrantsSpareOthers(t, user, granted[..|granted| - 1], other);
      var before, last := GrantAll(t, user, granted[..|granted| - 1]), granted[|granted| - 1];
      RowsGrow(before.held, Held(user, Row(before.next, last.entity, last.profile, last.recursive)), other);
    }
  }

  lemma {:induction false} GrantsKeepValid(t: Table, user: nat, granted: seq<Assignment>)
    requires Valid(t) && 0 < user && forall a :: a in granted ==> 0 < a.profile
    ensures Valid(GrantAll(t, user, granted))
    decreases |granted|
  {
    if granted != [] {
      var init, last := granted[..|granted| - 1], granted[|granted| - 1];
      assert granted == init + [last];
      GrantsKeepValid(t, user, init);
    }
  }

  // ---------------------------------------------------------------- enrolment

  /** A user created under a name nobody carries is the one carrying it, and holds what the target grants. */
  lemma EnrolmentWorks(rules: Rules, t: Table, name: string)
    requires Valid(t) && IdsNamed(t.users, name) == [] && forall a :: a in rules.granted ==> 0 < a.profile
    ensures var after := Change(rules, t, CreateUser(name));
            && Valid(after) && IdsNamed(after.users, name) == [t.next]
            && after.entities == t.entities && after.profiles == t.profiles && after.trashed == t.trashed
            && |after.users| == |t.users| + 1 && |after.held| == |t.held| + |rules.granted|
  {
    var enrolled := Enroll(t, name);
    assert enrolled.users[..|t.users|] == t.users;
    EnrolmentKeepsValid(t, name);
    GrantsShape(enrolled, t.next, rules.granted);
    GrantsKeepValid(enrolled, t.next, rules.granted);
  }

  lemma EnrolmentKeepsValid(t: Table, name: string)
    requires Valid(t)
    ensures Valid(Enroll(t, name))
  {
    var known, all := t.users + t.trashed, Enroll(t, name).users + t.trashed;
    var n := |t.users|;
    assert forall i :: 0 <= i < n ==> all[i] == known[i];
    assert all[n] == Named(t.next, name);
    assert forall i :: n < i < |all| ==> all[i] == known[i - 1];
    assert forall i :: 0 <= i < |known| ==> known[i] in known;
  }
}
