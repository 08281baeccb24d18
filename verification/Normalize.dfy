/** Normalization of a desired-state payload: every selector pair once, with the disjunction of its flags. */
module Normalization {
  import opened Wrappers

  /** One entry of the decoded `permissions` list, and equally one canonical assignment. */
  datatype Permission = Permission(entity: string, profile: string, recursive: bool)

  type Name = (string, string)

  function NameOf(p: Permission): Name {
    (p.entity, p.profile)
  }

  // ---------------------------------------------------------------- the order of selectors

  predicate Less(a: string, b: string) {
    b != [] && (a == [] || a[0] < b[0] || (a[0] == b[0] && Less(a[1..], b[1..])))
  }

  predicate Before(a: Name, b: Name) {
    Less(a.0, b.0) || (a.0 == b.0 && Less(a.1, b.1))
  }

  lemma {:induction false} LessIsStrictTotal(a: string, b: string)
    ensures !(Less(a, b) && Less(b, a)) && (Less(a, b) || Less(b, a) || a == b) && (a == b ==> !Less(a, b))
  {
    if a != [] && b != [] {
      LessIsStrictTotal(a[1..], b[1..]);
      assert a == [a[0]] + a[1..] && b == [b[0]] + b[1..];
    }
  }

  lemma {:induction false} LessIsTransitive(a: string, b: string, c: string)
    requires Less(a, b) && Less(b, c)
    ensures Less(a, c)
  {
    if a != [] && a[0] == b[0] && b[0] == c[0] {
      LessIsTransitive(a[1..], b[1..], c[1..]);
    }
  }

  lemma BeforeIsStrictTotal(a: Name, b: Name)
    ensures !(Before(a, b) && Before(b, a)) && (Before(a, b) || Before(b, a) || a == b) && (a == b ==> !Before(a, b))
  {
    LessIsStrictTotal(a.0, b.0);
    LessIsStrictTotal(a.1, b.1);
  }

  lemma BeforeIsTransitive(a: Name, b: Name, c: Name)
    requires Before(a, b) && Before(b, c)
    ensures Before(a, c)
  {
    if Less(a.0, b.0) && Less(b.0, c.0) {
      LessIsTransitive(a.0, b.0, c.0);
    }
    if Less(a.1, b.1) && Less(b.1, c.1) {
      LessIsTransitive(a.1, b.1, c.1);
    }
  }

  // ---------------------------------------------------------------- the normal form

  ghost predicate StrictlyOrdered(s: seq<Permission>) {
    forall i, j :: 0 <= i < j < |s| ==> Before(NameOf(s[i]), NameOf(s[j]))
  }

  ghost predicate Named(s: seq<Permission>, name: Name) {
    exists p :: p in s && NameOf(p) == name
  }

  ghost predicate AnyRecursive(s: seq<Permission>, name: Name) {
    exists p :: p in s && NameOf(p) == name && p.recursive
  }

  /** Every selector pair of `given` once, in order, recursive when any of its entries is. */
  ghost predicate IsNormalForm(given: seq<Permission>, normal: seq<Permission>) {
    && StrictlyOrdered(normal)
    && forall p :: p in normal <==> Named(given, NameOf(p)) && (p.recursive <==> AnyRecursive(given, NameOf(p)))
  }

  ghost predicate WellFormed(given: seq<Permission>) {
    forall p :: p in given ==> p.entity != "" && p.profile != ""
  }

  ghost predicate GroupsOf(given: seq<Permission>, groups: map<Name, bool>) {
    && (forall name :: name in groups <==> Named(given, name))
    && (forall name :: name in groups ==> (groups[name] <==> AnyRecursive(given, name)))
  }

  /** The least of a set of names. */
  method Least(names: set<Name>) returns (least: Name)
    requires names != {}
    ensures least in names && forall n :: n in names ==> n == least || Before(least, n)
  {
    var rest := names;
    least :| least in rest;
    rest := rest - {least};
    while rest != {}
      invariant rest <= names && least in names
      invariant forall n :: n in names && n !in rest ==> n == least || Before(least, n)
      decreases rest
    {
      var n :| n in rest;
      BeforeIsStrictTotal(n, least);
      if Before(n, least) {
        forall m | m in names && m !in rest
          ensures m == n || Before(n, m)
        {
          if m != least {
            BeforeIsTransitive(n, least, m);
          }
        }
        least := n;
      }
      rest := rest - {n};
    }
  }

  /** Lists the groups in the order of their names. */
  method InOrder(groups: map<Name, bool>) returns (normal: seq<Permission>)
    ensures StrictlyOrdered(normal)
    ensures forall p :: p in normal <==> NameOf(p) in groups && p.recursive == groups[NameOf(p)]
  {
    normal := [];
    var left := groups.Keys;
    while left != {}
      invariant left <= groups.Keys && StrictlyOrdered(normal)
      invariant forall p :: p in normal <==>
                              NameOf(p) in groups && NameOf(p) !in left && p.recursive == groups[NameOf(p)]
      invariant forall p, n :: p in normal && n in left ==> Before(NameOf(p), n)
      decreases left
    {
      var name := Least(left);
      var next := Permission(name.0, name.1, groups[name]);
      assert NameOf(next) == name;
      forall p | NameOf(p) == name && p.recursive == groups[name]
        ensures p == next
      {
      }
      normal := normal + [next];
      left := left - {name};
    }
  }

  lemma GroupsGrow(given: seq<Permission>, p: Permission, groups: map<Name, bool>)
    requires GroupsOf(given, groups)
    ensures var flag := if NameOf(p) in groups then groups[NameOf(p)] else false;
            GroupsOf(given + [p], groups[NameOf(p) := flag || p.recursive])
  {
    assert forall q :: q in given + [p] <==> q in given || q == p;
    forall name
      ensures Named(given + [p], name) <==> Named(given, name) || name == NameOf(p)
      ensures AnyRecursive(given + [p], name) <==> AnyRecursive(given, name) || (name == NameOf(p) && p.recursive)
    {
      assert p in given + [p];
    }
  }

  /** Rejects a list with an empty selector; otherwise computes its normal form. */
  method Normalize(given: seq<Permission>) returns (r: Result<seq<Permission>, ()>)
    ensures r.Ok? <==> WellFormed(given)
    ensures r.Ok? ==> IsNormalForm(given, r.value)
  {
    var i := 0;
    while i < |given|
      invariant 0 <= i <= |given| && forall j :: 0 <= j < i ==> given[j].entity != "" && given[j].profile != ""
    {
      if given[i].entity == "" || given[i].profile == "" {
        return Err(());
      }
      i := i + 1;
    }
    var groups: map<Name, bool> := map[];
    i := 0;
    while i < |given|
      invariant 0 <= i <= |given| && GroupsOf(given[..i], groups)
    {
      var name := NameOf(given[i]);
      var flag := if name in groups then groups[name] else false;
      GroupsGrow(given[..i], given[i], groups);
      assert given[..i + 1] == given[..i] + [given[i]];
      groups := groups[name := flag || given[i].recursive];
      i := i + 1;
    }
    assert given[..i] == given;
    var normal := InOrder(groups);
    r := Ok(normal);
  }

  // ---------------------------------------------------------------- order independence

  lemma TailOmitsHead(s: seq<Permission>)
    requires StrictlyOrdered(s) && s != []
    ensures StrictlyOrdered(s[1..]) && forall p :: p in s[1..] <==> p in s && p != s[0]
  {
    assert s == [s[0]] + s[1..];
    BeforeIsStrictTotal(NameOf(s[0]), NameOf(s[0]));
  }

  lemma {:induction false} OrderedIsUnique(a: seq<Permission>, b: seq<Permission>)
    requires StrictlyOrdered(a) && StrictlyOrdered(b) && forall p :: p in a <==> p in b
    ensures a == b
  {
    assert (a != [] ==> a[0] in b) && (b != [] ==> b[0] in a);
    if a != [] && b != [] {
      BeforeIsStrictTotal(NameOf(a[0]), NameOf(b[0]));
      assert a[0] == b[0];
      TailOmitsHead(a);
      TailOmitsHead(b);
      OrderedIsUnique(a[1..], b[1..]);
      assert a == [a[0]] + a[1..] && b == [b[0]] + b[1..];
    }
  }

  /** Permuting or repeating entries changes nothing: lists of the same entries have the same normal form. */
  lemma NormalFormIgnoresOrder(given1: seq<Permission>, given2: seq<Permission>, normal1: seq<Permission>,
                               normal2: seq<Permission>)
    requires forall p :: p in given1 <==> p in given2
    requires IsNormalForm(given1, normal1) && IsNormalForm(given2, normal2)
    ensures normal1 == normal2
  {
    assert forall name :: Named(given1, name) <==> Named(given2, name);
    assert forall name :: AnyRecursive(given1, name) <==> AnyRecursive(given2, name);
    OrderedIsUnique(normal1, normal2);
  }

  /** Normalizing what is normal changes nothing. */
  lemma NormalFormIsStable(given: seq<Permission>, normal: seq<Permission>, again: seq<Permission>)
    requires IsNormalForm(given, normal) && IsNormalForm(normal, again)
    ensures again == normal
  {
    forall p
      ensures p in again <==> p in normal
    {
      if q :| q in normal && NameOf(q) == NameOf(p) {
        SameNameSameEntry(normal, q);
      }
    }
    OrderedIsUnique(again, normal);
  }

  lemma SameNameSameEntry(normal: seq<Permission>, q: Permission)
    requires StrictlyOrdered(normal) && q in normal
    ensures forall p :: p in normal && NameOf(p) == NameOf(q) ==> p == q
  {
    BeforeIsStrictTotal(NameOf(q), NameOf(q));
  }
}
