/** Sums of a weight over the messages, by which the slot and wait-group counters
    are tied to the threads. */
module Sums {
  import opened Protocol

  function Sum(ms: seq<Msg>, f: Msg -> nat): nat {
    if ms == [] then 0 else Sum(ms[..|ms| - 1], f) + f(ms[|ms| - 1])
  }

  lemma SumAppend(ms: seq<Msg>, m: Msg, f: Msg -> nat)
    ensures Sum(ms + [m], f) == Sum(ms, f) + f(m)
  {
    assert (ms + [m])[..|ms|] == ms;
  }

  lemma {:induction false} SumUpdate(ms: seq<Msg>, i: nat, m: Msg, f: Msg -> nat)
    requires i < |ms|
    ensures Sum(ms[i := m], f) == Sum(ms, f) - f(ms[i]) + f(m)
  {
    var n := |ms| - 1;
    if i < n {
      SumUpdate(ms[..n], i, m, f);
      assert ms[i := m][..n] == ms[..n][i := m];
    } else {
      assert ms[i := m][..n] == ms[..n];
    }
  }

  lemma {:induction false} SumAtLeast(ms: seq<Msg>, i: nat, f: Msg -> nat)
    requires i < |ms|
    ensures f(ms[i]) <= Sum(ms, f)
  {
    if i < |ms| - 1 {
      SumAtLeast(ms[..|ms| - 1], i, f);
    }
  }

  /** A positive sum has a positive term. */
  lemma {:induction false} SumWitness(ms: seq<Msg>, f: Msg -> nat) returns (i: nat)
    requires Sum(ms, f) > 0
    ensures i < |ms| && f(ms[i]) > 0
  {
    var n := |ms| - 1;
    if f(ms[n]) > 0 {
      i := n;
    } else {
      i := SumWitness(ms[..n], f);
    }
  }

  lemma {:induction false} SumLe(ms: seq<Msg>, f: Msg -> nat, g: Msg -> nat)
    requires forall m <- ms :: f(m) <= g(m)
    ensures Sum(ms, f) <= Sum(ms, g)
  {
    if ms != [] {
      SumLe(ms[..|ms| - 1], f, g);
    }
  }
}
