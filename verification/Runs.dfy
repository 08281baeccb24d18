/** Runs of a machine that is given by its steps, and what they can be put together from. */
module Runs {

  /** `states` is what a machine goes through when it takes `steps`, one after the other. */
  ghost predicate Path<S(!new), T(!new)>(next: (S, T, S) -> bool, steps: seq<T>, states: seq<S>) {
    && |states| == |steps| + 1
    && forall i :: 0 <= i < |steps| ==> next(states[i], steps[i], states[i + 1])
  }

  ghost predicate Leads<S(!new), T(!new)>(next: (S, T, S) -> bool, s: S, t: S) {
    exists steps, states {:trigger Path(next, steps, states)} ::
      Path(next, steps, states) && states[0] == s && states[|steps|] == t
  }

  lemma Stays<S(!new), T(!new)>(next: (S, T, S) -> bool, s: S)
    ensures Leads(next, s, s)
  {
    var steps: seq<T> := [];
    assert Path(next, steps, [s]);
  }

  lemma PathsJoin<S(!new), T(!new)>(next: (S, T, S) -> bool, steps1: seq<T>, states1: seq<S>,
                                    steps2: seq<T>, states2: seq<S>)
    requires Path(next, steps1, states1) && Path(next, steps2, states2) && states1[|steps1|] == states2[0]
    ensures Path(next, steps1 + steps2, states1 + states2[1..])
  {
    var steps, states := steps1 + steps2, states1 + states2[1..];
    forall i | 0 <= i < |steps|
      ensures next(states[i], steps[i], states[i + 1])
    {
      if i < |steps1| {
        assert states[i] == states1[i] && states[i + 1] == states1[i + 1];
      } else {
        var j := i - |steps1|;
        assert states[i] == states2[j] && states[i + 1] == states2[j + 1] && steps[i] == steps2[j];
      }
    }
  }

  lemma LeadsOn<S(!new), T(!new)>(next: (S, T, S) -> bool, s: S, t: S, u: S)
    requires Leads(next, s, t) && Leads(next, t, u)
    ensures Leads(next, s, u)
  {
    var steps1, states1 :| Path(next, steps1, states1) && states1[0] == s && states1[|steps1|] == t;
    var steps2, states2 :| Path(next, steps2, states2) && states2[0] == t && states2[|steps2|] == u;
    PathsJoin(next, steps1, states1, steps2, states2);
    assert (states1 + states2[1..])[|steps1 + steps2|] == u;
  }

  lemma OneStep<S(!new), T(!new)>(next: (S, T, S) -> bool, s: S, step: T, t: S)
    requires next(s, step, t)
    ensures Leads(next, s, t)
  {
    assert Path(next, [step], [s, t]);
  }
}
