/** Putting runs of the protocol together. */
module Runs {
  import opened Protocol

  lemma {:induction false} RunAppend(s: State, first: seq<Action>, rest: seq<Action>)
    requires Run(s, first).Some?
    ensures Run(s, first + rest) == Run(Run(s, first).value, rest)
    decreases |first|
  {
    if first == [] {
      assert [] + rest == rest;
    } else {
      assert (first + rest)[1..] == first[1..] + rest;
      RunAppend(Step(s, first[0]).value, first[1..], rest);
    }
  }

  lemma RunSnoc(s: State, acts: seq<Action>, a: Action)
    requires Run(s, acts).Some?
    ensures Run(s, acts + [a]) == Step(Run(s, acts).value, a)
  {
    RunAppend(s, acts, [a]);
    var u := Run(s, acts).value;
    assert [a][1..] == [];
    assert Step(u, a).Some? ==> Run(Step(u, a).value, []) == Step(u, a);
  }
}
