/** The step-level walk and the method agree: run without interruption, Stop's steps
    do to the messages what Pending.AbandonPending does to the deliveries. */
module WalkAlone {
  import opened Deliveries
  import opened Protocol
  import opened Wrappers
  import opened Runs

  /** What abandon leaves of a message. */
  function AfterAbandon(m: Msg): Msg {
    if m.st == Settled then m
    else m.(st := Settled, owner := ByStop, log := m.log + AbandonEvents(m.st))
  }

  /** The messages and the pending set after every delivery in todo was abandoned. */
  ghost predicate AllAbandoned(s: State, t: State, todo: set<nat>) {
    && |t.msgs| == |s.msgs|
    && (forall i: nat :: i < |s.msgs| ==> t.msgs[i] == if i in todo then AfterAbandon(s.msgs[i]) else s.msgs[i])
    && (forall i :: i in t.pending <==> i in s.pending && !(i in todo && i < |s.msgs| && s.msgs[i].st != Settled))
    && t == s.(msgs := t.msgs, pending := t.pending, life := t.life)
  }

  /** The steps of abandon on delivery i, from start to finish. */
  function AbandonSteps(s: State, i: nat): seq<Action>
    requires i < |s.msgs|
  {
    if s.msgs[i].st == Settled then [WalkSettle(i)] else [WalkSettle(i), WalkNext, WalkNext]
  }

  lemma AbandonOne(s: State, i: nat) returns (t: State)
    requires s.life.Walking? && i in s.life.todo && HasMsg(s, i)
    ensures Run(s, AbandonSteps(s, i)) == Some(t)
    ensures t.life == Walking(s.life.todo - {i}) && AllAbandoned(s, t, {i}) && t.recvs == s.recvs
  {
    var u := SettleStep(s, i).value;
    if s.msgs[i].st == Settled {
      t := u;
      assert [WalkSettle(i)][1..] == [];
    } else {
      t := AbandonStep(AbandonStep(u).value).value;
      NextTwice(u, AbandonStep(u).value, t);
      assert [WalkSettle(i), WalkNext, WalkNext][1..] == [WalkNext, WalkNext];
    }
  }

  lemma NextTwice(u: State, v: State, t: State)
    requires AbandonStep(u) == Some(v) && AbandonStep(v) == Some(t)
    ensures Run(u, [WalkNext, WalkNext]) == Some(t)
  {
    assert [WalkNext, WalkNext][1..] == [WalkNext] && [WalkNext][1..] == [];
    assert Run(v, [WalkNext]) == Some(t);
  }

  /** Whatever order the walk takes, running it alone settles every delivery of the
      snapshot, naks exactly those that were not settled, each once and with the
      right handler_running, and untracks exactly those. */
  lemma {:induction false} WalkRuns(s: State) returns (acts: seq<Action>, t: State)
    requires s.life.Walking? && forall i :: i in s.life.todo ==> HasMsg(s, i)
    ensures Run(s, acts) == Some(t) && t.life == Walking({}) && AllAbandoned(s, t, s.life.todo)
    decreases |s.life.todo|
  {
    if s.life.todo == {} {
      return [], s;
    }
    var i :| i in s.life.todo;
    var u := AbandonOne(s, i);
    var rest;
    rest, t := WalkRuns(u);
    acts := AbandonSteps(s, i) + rest;
    RunAppend(s, AbandonSteps(s, i), rest);
  }
}
