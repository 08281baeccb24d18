/**
 Append-only histories. Every concurrent machine of this project keeps one: each step
 appends the events it performs, and what a run guarantees is stated as "every event is
 explained by the events before it".
 */
module Histories {

  datatype History<E> = Beginning | Then(past: History<E>, event: E)

  /** `earlier` is `later` with zero or more of the newest events taken away. */
  ghost predicate Prefix<E>(earlier: History<E>, later: History<E>) {
    earlier == later || (later.Then? && Prefix(earlier, later.past))
  }

  lemma NextExtends<E>(history: History<E>, event: E)
    ensures Prefix(history, Then(history, event))
  {
    assert Prefix(history, history);
  }

  lemma PrefixTransitive<E>(a: History<E>, b: History<E>, c: History<E>)
    requires Prefix(a, b) && Prefix(b, c)
    ensures Prefix(a, c)
  {
    if b != c {
      PrefixTransitive(a, b, c.past);
    }
  }

  lemma PrefixAntisymmetric<E>(a: History<E>, b: History<E>)
    requires Prefix(a, b) && Prefix(b, a)
    ensures a == b
  {
    PrefixIsShorter(a, b);
    PrefixIsShorter(b, a);
  }

  lemma PrefixIsShorter<E>(a: History<E>, b: History<E>)
    requires Prefix(a, b)
    ensures Length(a) <= Length(b) && (Length(a) == Length(b) ==> a == b)
  {
  }

  /** Two moments of the same history are ordered. */
  lemma PrefixesAreOrdered<E>(a: History<E>, b: History<E>, whole: History<E>)
    requires Prefix(a, whole) && Prefix(b, whole)
    ensures Prefix(a, b) || Prefix(b, a)
  {
    if a != whole && b != whole {
      PrefixesAreOrdered(a, b, whole.past);
    }
  }

  ghost function Length<E>(history: History<E>): nat {
    match history case Beginning => 0 case Then(past, _) => Length(past) + 1
  }

  lemma LongerIsDifferent<E>(history: History<E>, after: History<E>)
    requires after.Then? && (after.past == history || (after.past.Then? && after.past.past == history))
    ensures after != history
  {
    assert Length(after) > Length(after.past);
    assert after.past == history || Length(after.past) > Length(history);
  }
}
