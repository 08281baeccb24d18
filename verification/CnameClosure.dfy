/** Selecting an address from one DNS response, following only the aliases that same response contains. */
module CnameClosure {
  import opened Wrappers

  /** A domain name in the form in which names are compared. */
  type Name = string

  datatype Type = A | AAAA | CNAME | OtherType

  datatype RecordData = Address4(address: nat) | Address6(address: nat) | Alias(target: Name) | OtherData

  datatype Record = Record(owner: Name, data: RecordData)

  datatype Response = Response(noError: bool, truncated: bool, answers: seq<Record>)

  function TypeOf(r: Record): Type {
    match r.data
    case Address4(_) => A
    case Address6(_) => AAAA
    case Alias(_) => CNAME
    case OtherData => OtherType
  }

  /** One step along an alias of the response. */
  predicate Step(answers: seq<Record>, a: Name, b: Name) {
    Record(a, Alias(b)) in answers
  }

  /** A chain of aliases from the first name to the last. */
  ghost predicate Chain(answers: seq<Record>, path: seq<Name>) {
    path != [] && forall i :: 0 <= i < |path| - 1 ==> Step(answers, path[i], path[i + 1])
  }

  ghost predicate Reachable(answers: seq<Record>, from: Name, to: Name) {
    exists path :: Chain(answers, path) && path[0] == from && path[|path| - 1] == to
  }

  lemma ReachableExtends(answers: seq<Record>, from: Name, a: Name, b: Name)
    requires Reachable(answers, from, a) && Step(answers, a, b)
    ensures Reachable(answers, from, b)
  {
    var path :| Chain(answers, path) && path[0] == from && path[|path| - 1] == a;
    var longer := path + [b];
    assert Chain(answers, longer) && longer[0] == from && longer[|longer| - 1] == b;
  }

  ghost predicate ClosedUnder(answers: seq<Record>, names: seq<Name>) {
    forall a, b :: a in names && Step(answers, a, b) ==> b in names
  }

  lemma {:induction false} ClosedHoldsChain(answers: seq<Record>, names: seq<Name>, path: seq<Name>, n: nat)
    requires ClosedUnder(answers, names) && Chain(answers, path) && path[0] in names && n < |path|
    ensures path[n] in names
  {
    if n > 0 {
      ClosedHoldsChain(answers, names, path, n - 1);
      assert Step(answers, path[n - 1], path[n]);
    }
  }

  /** Names reached so far that a response can name at all. */
  function Mentioned(answers: seq<Record>, name: Name): (names: set<Name>)
    ensures name in names && forall r :: r in answers && r.data.Alias? ==> r.data.target in names
  {
    if answers == [] then {name}
    else
      assert answers == [answers[0]] + answers[1..];
      Mentioned(answers[1..], name) + if answers[0].data.Alias? then {answers[0].data.target} else {}
  }

  ghost function Members(names: seq<Name>): set<Name> {
    set n | n in names
  }

  /** One pass over the answers: accepts the alias of every name accepted so far. */
  method Pass(answers: seq<Record>, name: Name, known: seq<Name>) returns (accepted: seq<Name>)
    requires forall n :: n in known ==> Reachable(answers, name, n) && n in Mentioned(answers, name)
    ensures known <= accepted
    ensures forall n :: n in accepted ==> Reachable(answers, name, n) && n in Mentioned(answers, name)
    ensures |accepted| == |known| ==> ClosedUnder(answers, known)
    ensures |accepted| > |known| ==> exists n :: n in accepted && n !in known
  {
    accepted := known;
    var i := 0;
    while i < |answers|
      invariant 0 <= i <= |answers| && known <= accepted
      invariant forall n :: n in accepted ==> Reachable(answers, name, n) && n in Mentioned(answers, name)
      invariant forall j :: 0 <= j < i && answers[j].owner in known && answers[j].data.Alias? ==>
                  answers[j].data.target in accepted
      invariant |accepted| > |known| ==> accepted[|known|] !in known
    {
      var record := answers[i];
      if record.owner in accepted && record.data.Alias? && record.data.target !in accepted {
        assert Step(answers, record.owner, record.data.target) by {
          assert record == Record(record.owner, Alias(record.data.target));
        }
        ReachableExtends(answers, name, record.owner, record.data.target);
        accepted := accepted + [record.data.target];
      }
      i := i + 1;
    }
    assert |accepted| > |known| ==> accepted[|known|] in accepted;
    if |accepted| == |known| {
      assert accepted == known;
    }
  }

  /** Accepts names until a pass adds none: exactly those reachable from the queried one, cycles or not. */
  method AcceptedNames(answers: seq<Record>, name: Name) returns (accepted: seq<Name>)
    ensures forall n :: n in accepted <==> Reachable(answers, name, n)
  {
    accepted := [name];
    assert Chain(answers, [name]);
    ghost var universe := Mentioned(answers, name);
    while true
      invariant name in accepted
      invariant forall n :: n in accepted ==> Reachable(answers, name, n) && n in universe
      decreases universe - Members(accepted)
    {
      var known := accepted;
      accepted := Pass(answers, name, known);
      if |accepted| == |known| {
        break;
      }
      ghost var added :| added in accepted && added !in known;
      assert added in universe - Members(known) && added !in universe - Members(accepted);
    }
    forall n | Reachable(answers, name, n)
      ensures n in accepted
    {
      var path :| Chain(answers, path) && path[0] == name && path[|path| - 1] == n;
      ClosedHoldsChain(answers, accepted, path, |path| - 1);
    }
  }

  /** An answer of the wanted address type whose owner the queried name leads to. */
  ghost predicate Answers(answers: seq<Record>, name: Name, want: Type, r: Record) {
    Reachable(answers, name, r.owner) && TypeOf(r) == want && want in {A, AAAA}
  }

  /** The address of the first such answer; none from a failed or truncated response. */
  method ResponseAddress(response: Response, name: Name, want: Type) returns (r: Option<nat>)
    ensures !response.noError || response.truncated ==> r.None?
    ensures r.Some? ==>
              exists k ::
                && 0 <= k < |response.answers| && Answers(response.answers, name, want, response.answers[k])
                && r.value == response.answers[k].data.address
                && forall j :: 0 <= j < k ==> !Answers(response.answers, name, want, response.answers[j])
    ensures r.None? && response.noError && !response.truncated ==>
              forall x :: x in response.answers ==> !Answers(response.answers, name, want, x)
  {
    if !response.noError || response.truncated {
      return None;
    }
    var accepted := AcceptedNames(response.answers, name);
    var i := 0;
    while i < |response.answers|
      invariant 0 <= i <= |response.answers|
      invariant forall j :: 0 <= j < i ==> !Answers(response.answers, name, want, response.answers[j])
    {
      var record := response.answers[i];
      if record.owner in accepted && TypeOf(record) == want && (want == A || want == AAAA) {
        return Some(record.data.address);
      }
      i := i + 1;
    }
    return None;
  }
}
