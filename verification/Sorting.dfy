/** Stable sorting by a key that is a pair of numbers, ordered lexicographically. */
module Sorting {

  type Key = (nat, nat)

  predicate AtMost(a: Key, b: Key) {
    a.0 < b.0 || (a.0 == b.0 && a.1 <= b.1)
  }

  ghost predicate Ordered<T(!new)>(s: seq<T>, key: T -> Key) {
    forall i, j :: 0 <= i < j < |s| ==> AtMost(key(s[i]), key(s[j]))
  }

  ghost predicate Distinct<T(!new)>(s: seq<T>) {
    forall i, j :: 0 <= i < j < |s| ==> s[i] != s[j]
  }

  function Insert<T(!new)>(x: T, s: seq<T>, key: T -> Key): (r: seq<T>)
    ensures multiset(r) == multiset{x} + multiset(s)
  {
    if s == [] then [x]
    else if AtMost(key(x), key(s[0])) then [x] + s
    else
      assert s == [s[0]] + s[1..];
      [s[0]] + Insert(x, s[1..], key)
  }

  lemma PrependKeepsOrder<T(!new)>(x: T, s: seq<T>, key: T -> Key)
    requires Ordered(s, key) && forall y :: y in s ==> AtMost(key(x), key(y))
    ensures Ordered([x] + s, key)
  {
    var r := [x] + s;
    forall i, j | 0 <= i < j < |r|
      ensures AtMost(key(r[i]), key(r[j]))
    {
      assert r[j] == s[j - 1] && s[j - 1] in s;
      assert i > 0 ==> r[i] == s[i - 1];
    }
  }

  lemma {:induction false} InsertKeepsOrder<T(!new)>(x: T, s: seq<T>, key: T -> Key)
    requires Ordered(s, key)
    ensures Ordered(Insert(x, s, key), key)
  {
    if s != [] {
      assert forall y :: y in s ==> AtMost(key(s[0]), key(y));
      if AtMost(key(x), key(s[0])) {
        PrependKeepsOrder(x, s, key);
      } else {
        var rest := Insert(x, s[1..], key);
        InsertKeepsOrder(x, s[1..], key);
        SameMembers(rest, [x] + s[1..]);
        PrependKeepsOrder(s[0], rest, key);
      }
    }
  }

  function SortBy<T(!new)>(s: seq<T>, key: T -> Key): (r: seq<T>)
    ensures multiset(r) == multiset(s) && Ordered(r, key)
  {
    if s == [] then []
    else
      assert s == [s[0]] + s[1..];
      InsertKeepsOrder(s[0], SortBy(s[1..], key), key);
      Insert(s[0], SortBy(s[1..], key), key)
  }

  lemma {:induction false} SortingTheSorted<T(!new)>(s: seq<T>, key: T -> Key)
    requires Ordered(s, key)
    ensures SortBy(s, key) == s
  {
    if s != [] {
      SortingTheSorted(s[1..], key);
      assert s == [s[0]] + s[1..];
    }
  }

  lemma SameMembers<T(!new)>(a: seq<T>, b: seq<T>)
    requires multiset(a) == multiset(b)
    ensures |a| == |b| && forall x :: x in a <==> x in b
  {
    assert |multiset(a)| == |a| && |multiset(b)| == |b|;
    assert forall x :: x in a <==> x in multiset(a);
    assert forall x :: x in b <==> x in multiset(b);
  }

  lemma {:induction false} DistinctMeansOnce<T(!new)>(s: seq<T>)
    ensures Distinct(s) <==> forall x :: multiset(s)[x] <= 1
  {
    if s != [] {
      var last := s[|s| - 1];
      var rest := s[..|s| - 1];
      assert s == rest + [last];
      DistinctMeansOnce(rest);
      assert last in rest <==> multiset(rest)[last] > 0;
      if Distinct(s) {
        assert Distinct(rest) && last !in rest;
        assert forall x :: multiset(s)[x] <= 1;
      }
      if forall x :: multiset(s)[x] <= 1 {
        assert forall x :: multiset(rest)[x] <= multiset(s)[x];
        assert multiset(s)[last] == multiset(rest)[last] + 1;
      }
    }
  }

  lemma DistinctConcat<T(!new)>(a: seq<T>, b: seq<T>)
    requires Distinct(a) && Distinct(b) && forall x :: x in b ==> x !in a
    ensures Distinct(a + b)
  {
    forall i, j | 0 <= i < j < |a + b|
      ensures (a + b)[i] != (a + b)[j]
    {
      if i < |a| <= j {
        assert (a + b)[j] in b;
      }
    }
  }

  lemma HeadIsLeast<T(!new)>(s: seq<T>, key: T -> Key, x: T)
    requires Ordered(s, key) && x in s
    ensures AtMost(key(s[0]), key(x))
  {
  }

  ghost predicate DistinctKeys<T(!new)>(s: seq<T>, key: T -> Key) {
    forall i, j :: 0 <= i < j < |s| ==> key(s[i]) != key(s[j])
  }

  lemma SameHead<T(!new)>(a: seq<T>, b: seq<T>, key: T -> Key)
    requires Ordered(a, key) && Ordered(b, key) && DistinctKeys(a, key)
    requires a != [] && b != [] && a[0] in b && b[0] in a
    ensures a[0] == b[0]
  {
    HeadIsLeast(a, key, b[0]);
    HeadIsLeast(b, key, a[0]);
  }

  lemma HeadsExchanged<T(!new)>(a: seq<T>, b: seq<T>)
    requires multiset(a) == multiset(b) && a != []
    ensures b != [] && a[0] in b && b[0] in a
  {
    assert a[0] in multiset(a) && a[0] in multiset(b);
    assert b[0] in multiset(b) && b[0] in multiset(a);
  }

  lemma TailStaysOrdered<T(!new)>(s: seq<T>, key: T -> Key)
    requires s != []
    ensures Ordered(s, key) ==> Ordered(s[1..], key)
    ensures DistinctKeys(s, key) ==> DistinctKeys(s[1..], key)
  {
    hide AtMost;
  }

  lemma TailOf<T(!new)>(s: seq<T>, x: T)
    requires s != [] && s[0] == x
    ensures multiset(s[1..]) == multiset(s) - multiset{x}
  {
    assert s == [x] + s[1..];
  }

  /** Two orderings of the same elements, no two of which have the same key, are the same. */
  lemma {:induction false} OrderIsUnique<T(!new)>(a: seq<T>, b: seq<T>, key: T -> Key)
    requires Ordered(a, key) && Ordered(b, key) && multiset(a) == multiset(b) && DistinctKeys(a, key)
    ensures a == b
  {
    hide Ordered, DistinctKeys;
    if a == [] {
      assert multiset(b) == multiset(a) == multiset{};
    } else {
      HeadsExchanged(a, b);
      SameHead(a, b, key);
      TailOf(a, a[0]);
      TailOf(b, a[0]);
      TailStaysOrdered(a, key);
      TailStaysOrdered(b, key);
      OrderIsUnique(a[1..], b[1..], key);
      assert a == [a[0]] + a[1..] && b == [a[0]] + b[1..];
    }
  }
}
