/** The step-level Start and the method agree: run without interruption, the
    protocol's steps of a Start that opens receivers of the given kinds leave what
    Lifecycle.Runtime.Start promises. */
module StartAlone {
  import opened Protocol
  import opened Wrappers
  import opened Global
  import opened Runs

  function Opens(kinds: seq<Kind>): seq<Action> {
    seq(|kinds|, i requires 0 <= i < |kinds| => OpenRecv(kinds[i]))
  }

  /** The receivers a Start numbered gen opens. */
  function Receivers(kinds: seq<Kind>, gen: nat, st: Status): seq<Receiver> {
    seq(|kinds|, i requires 0 <= i < |kinds| => Receiver(gen, kinds[i], st))
  }

  lemma {:induction false} OpensRun(s: State, kinds: seq<Kind>)
    requires s.life.Opening? && s.starts > 0
    ensures Run(s, Opens(kinds)) == Some(s.(recvs := s.recvs + Receivers(kinds, s.starts - 1, Open)))
    decreases |kinds|
  {
    if kinds == [] {
      assert s.recvs + Receivers(kinds, s.starts - 1, Open) == s.recvs;
    } else {
      var r := Receiver(s.starts - 1, kinds[0], Open);
      var t := s.(recvs := s.recvs + [r]);
      assert Opens(kinds)[1..] == Opens(kinds[1..]);
      OpensRun(t, kinds[1..]);
      assert t.recvs + Receivers(kinds[1..], s.starts - 1, Open) == s.recvs + Receivers(kinds, s.starts - 1, Open);
    }
  }

  function Asks(lo: nat, hi: nat): seq<Action>
    requires lo <= hi
  {
    seq(hi - lo, i requires 0 <= i < hi - lo => AskClose(lo + i))
  }

  lemma {:induction false} AsksRun(s: State, pre: seq<Receiver>, kinds: seq<Kind>)
    requires s.life.Aborting? && s.starts > 0 && s.recvs == pre + Receivers(kinds, s.starts - 1, Open)
    ensures Run(s, Asks(|pre|, |s.recvs|)) == Some(s.(recvs := pre + Receivers(kinds, s.starts - 1, Closing)))
    decreases |kinds|
  {
    var gen := s.starts - 1;
    if kinds == [] {
      assert s.recvs == pre + Receivers(kinds, gen, Closing);
    } else {
      var n := |pre|;
      var t := SetStatus(s, n, Closing);
      var done := pre + [Receiver(gen, kinds[0], Closing)];
      assert t.recvs == done + Receivers(kinds[1..], gen, Open);
      assert Asks(n, |s.recvs|)[1..] == Asks(n + 1, |s.recvs|);
      AsksRun(t, done, kinds[1..]);
      assert done + Receivers(kinds[1..], gen, Closing) == pre + Receivers(kinds, gen, Closing);
    }
  }

  /** A Start before its receivers: the gate is open and the context is live. */
  lemma StartBegins(s: State) returns (t: State)
    requires s.life.Created? && CanWriteGate(s)
    ensures Run(s, [BeginStart, SetGate]) == Some(t)
    ensures t == s.(starts := s.starts + 1, accepting := true, life := Opening)
  {
    var u := Step(s, BeginStart).value;
    t := Step(u, SetGate).value;
    assert [BeginStart, SetGate][1..] == [SetGate] && [SetGate][1..] == [];
    assert Run(u, [SetGate]) == Some(t);
  }

  /** A Start that succeeds, run alone: every receiver is open, the gate too. */
  lemma GoodStartRuns(s: State, kinds: seq<Kind>)
    requires s.life.Created? && CanWriteGate(s)
    ensures Run(s, [BeginStart, SetGate] + Opens(kinds) + [FinishStart]) ==
      Some(s.(starts := s.starts + 1, accepting := true, life := Started,
              recvs := s.recvs + Receivers(kinds, s.starts, Open)))
  {
    var t := StartBegins(s);
    OpensRun(t, kinds);
    var u := Run(t, Opens(kinds)).value;
    RunAppend(s, [BeginStart, SetGate], Opens(kinds));
    RunAppend(s, [BeginStart, SetGate] + Opens(kinds), [FinishStart]);
    assert [FinishStart][1..] == [];
    assert Run(u, [FinishStart]) == Some(u.(life := Started));
  }

  /** abortStart after its loops: the context is cancelled and the gate shut. */
  lemma AbortEnds(s: State)
    requires s.life.Aborting? && s.starts > 0 && AllAsked(s) && CanWriteGate(s)
    ensures Run(s, [CancelHandlers, SetGate]) ==
      Some(s.(cancelled := s.cancelled + {s.starts - 1}, accepting := false, life := Created))
  {
    var u := Step(s, CancelHandlers).value;
    assert [CancelHandlers, SetGate][1..] == [SetGate] && [SetGate][1..] == [];
    assert Run(u, [SetGate]) == Step(u, SetGate);
  }

  /** A Start that fails after opening receivers of the given kinds, up to abortStart. */
  lemma StartFails(s: State, kinds: seq<Kind>)
    requires s.life.Created? && CanWriteGate(s)
    ensures Run(s, [BeginStart, SetGate] + Opens(kinds) + [FailStart]) ==
      Some(s.(starts := s.starts + 1, accepting := true, life := Aborting,
              recvs := s.recvs + Receivers(kinds, s.starts, Open)))
  {
    var t := StartBegins(s);
    OpensRun(t, kinds);
    var u := Run(t, Opens(kinds)).value;
    RunAppend(s, [BeginStart, SetGate], Opens(kinds));
    RunAppend(s, [BeginStart, SetGate] + Opens(kinds), [FailStart]);
    assert [FailStart][1..] == [];
    assert Run(u, [FailStart]) == Some(u.(life := Aborting));
  }

  /** abortStart run alone, on receivers just opened. */
  lemma AbortRuns(v: State, pre: seq<Receiver>, kinds: seq<Kind>)
    requires v.life.Aborting? && v.starts > 0 && v.recvs == pre + Receivers(kinds, v.starts - 1, Open)
    requires CanWriteGate(v) && forall c <- pre :: c.gen < v.starts - 1
    ensures Run(v, Asks(|pre|, |v.recvs|) + [CancelHandlers, SetGate]) ==
      Some(v.(cancelled := v.cancelled + {v.starts - 1}, accepting := false, life := Created,
              recvs := pre + Receivers(kinds, v.starts - 1, Closing)))
  {
    AsksRun(v, pre, kinds);
    RunAppend(v, Asks(|pre|, |v.recvs|), [CancelHandlers, SetGate]);
    AbortEnds(v.(recvs := pre + Receivers(kinds, v.starts - 1, Closing)));
  }

  /** A Start that fails after opening receivers of the given kinds, run alone:
      exactly those receivers are asked to close, its context is cancelled, the gate is
      shut and Start can be called again. */
  lemma FailedStartRuns(s: State, kinds: seq<Kind>)
    requires Reachable(s) && s.life.Created? && CanWriteGate(s)
    ensures Run(s, [BeginStart, SetGate] + Opens(kinds) + [FailStart]
                   + (Asks(|s.recvs|, |s.recvs| + |kinds|) + [CancelHandlers, SetGate])) ==
      Some(s.(starts := s.starts + 1, cancelled := s.cancelled + {s.starts}, accepting := false, life := Created,
              recvs := s.recvs + Receivers(kinds, s.starts, Closing)))
  {
    ReachableInv(s);
    StartFails(s, kinds);
    var v := s.(starts := s.starts + 1, accepting := true, life := Aborting,
                recvs := s.recvs + Receivers(kinds, s.starts, Open));
    RunAppend(s, [BeginStart, SetGate] + Opens(kinds) + [FailStart],
              Asks(|s.recvs|, |s.recvs| + |kinds|) + [CancelHandlers, SetGate]);
    AbortRuns(v, s.recvs, kinds);
  }
}
