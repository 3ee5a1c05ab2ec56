/** The drain cannot get stuck: some thread can always move until it is over, and
    every move brings its end nearer. The only things assumed are that handlers
    return and that nats.go closes a receiver it was asked to close once its
    callbacks are idle. */
module Progress {
  import opened Deliveries
  import opened Protocol
  import opened Wrappers
  import opened Invariant
  import opened Sums
  import opened Global

  /** Message i still has work to do. */
  predicate Active(m: Msg) { !m.cb.CbDone? || !(m.wk.WkNone? || m.wk.WkDone?) }

  /** dispatch's select can do neither of its two things. */
  predicate Blocked(s: State, i: nat)
    requires HasMsg(s, i)
  {
    s.msgs[i].cb.CbSelect? && s.tokens >= s.cap && RecvOf(s, i).gen !in s.cancelled
  }

  /** The next step of an active, unblocked message. */
  function MoveOf(s: State, i: nat): Action
    requires HasMsg(s, i)
  {
    if s.msgs[i].cb.CbSelect? then Select(i, s.tokens < s.cap)
    else if !s.msgs[i].cb.CbDone? then Cb(i)
    else if s.msgs[i].wk.WkHandling? then Return(i, true)
    else Wk(i)
  }

  lemma ActiveMoves(s: State, i: nat)
    requires HasMsg(s, i) && Active(s.msgs[i]) && !Blocked(s, i)
    ensures Step(s, MoveOf(s, i)).Some?
  {
  }

  /** With its context cancelled, a callback that has not returned can always take
      a step of its own, and each such step lowers its rank: it cannot hang. */
  lemma CancelledCallbackMoves(s: State, i: nat)
    requires Reachable(s) && HasMsg(s, i) && RecvOf(s, i).gen in s.cancelled && !s.msgs[i].cb.CbDone?
    ensures var a := MoveOf(s, i);
      && (a == Cb(i) || (a.Select? && a.i == i)) && Step(s, a).Some?
      && i < |Step(s, a).value.msgs| && Rank(Step(s, a).value.msgs[i]) < Rank(s.msgs[i])
  {
    ReachableInv(s);
    ActiveMoves(s, i);
    MoveLowersRank(s, MoveOf(s, i), i);
  }

  lemma MoveLowersRank(s: State, a: Action, i: nat)
    requires LocalInv(s) && MsgStep(s, a).Some? && (a == Cb(i) || (a.Select? && a.i == i))
    ensures i < |MsgStep(s, a).value.msgs| && Rank(MsgStep(s, a).value.msgs[i]) < Rank(s.msgs[i])
  {
    assert MsgOk(s, i);
    if a == Cb(i) {
      CbStepMoves(s, i);
    } else {
      SelectLowersRank(s.msgs[i], See(s, i), a.takeSlot);
    }
  }

  lemma SelectLowersRank(m: Msg, v: Sight, takeSlot: bool)
    requires SelectMove(m, v, takeSlot).Some?
    ensures Rank(SelectMove(m, v, takeSlot).value.m) < Rank(m)
  {
  }

  /** A full semaphore always has a holder that can take a step. */
  lemma FullHolderMoves(s: State) returns (i: nat)
    requires Reachable(s) && s.tokens >= s.cap
    ensures HasMsg(s, i) && Held(s.msgs[i]) == 1 && Step(s, MoveOf(s, i)).Some?
  {
    ReachableInv(s);
    i := HolderMoves(s);
  }

  lemma HolderMoves(s: State) returns (i: nat)
    requires Inv(s) && s.tokens >= s.cap
    ensures HasMsg(s, i) && Held(s.msgs[i]) == 1 && Step(s, MoveOf(s, i)).Some?
  {
    i := SumWitness(s.msgs, Held);
    assert MsgOk(s, i);
    ActiveMoves(s, i);
  }

  /** So does an active message, or else the semaphore is full. */
  lemma ActiveOrHolderMoves(s: State, i: nat) returns (a: Action)
    requires Inv(s) && HasMsg(s, i) && Active(s.msgs[i])
    ensures IsDrainStep(a) && Step(s, a).Some?
  {
    if Blocked(s, i) {
      var j := HolderMoves(s);
      a := MoveOf(s, j);
    } else {
      ActiveMoves(s, i);
      a := MoveOf(s, i);
    }
  }

  // ---------- The drain ends ----------

  /** The steps a drain is made of: those of the messages' threads, of nats.go
      closing receivers that were asked to, and of the waiter. */
  predicate IsDrainStep(a: Action) {
    a.Cb? || a.Select? || a.Wk? || a.Return? || a.CloseRecv? || a.Waiter?
  }

  function OpenRecvs(cs: seq<Receiver>): nat {
    if cs == [] then 0 else OpenRecvs(cs[..|cs| - 1]) + (if cs[|cs| - 1].status == Closed then 0 else 1)
  }

  lemma {:induction false} CloseOne(cs: seq<Receiver>, r: nat)
    requires r < |cs|
    ensures OpenRecvs(cs[r := cs[r].(status := Closed)]) == OpenRecvs(cs) - (if cs[r].status == Closed then 0 else 1)
  {
    var n, ds := |cs| - 1, cs[r := cs[r].(status := Closed)];
    if r < n {
      CloseOne(cs[..n], r);
      assert ds[..n] == cs[..n][r := cs[r].(status := Closed)];
    } else {
      assert ds[..n] == cs[..n];
    }
  }

  function WaitRank(w: WaitPc): nat {
    match w case WtNone => 5 case WtSubs => 4 case WtConsumers => 3 case WtGate => 2 case WtWait => 1 case WtDone => 0
  }

  /** Bounds the steps the drain has left, not counting messages yet to arrive. */
  function Left(s: State): nat {
    Sum(s.msgs, Rank) + OpenRecvs(s.recvs) + WaitRank(s.waiter)
  }

  lemma DrainStepNearer(s: State, a: Action)
    requires Inv(s) && IsDrainStep(a) && Step(s, a).Some?
    ensures Left(Step(s, a).value) < Left(s) && Step(s, a).value.life == s.life
    ensures |Step(s, a).value.msgs| == |s.msgs|
  {
    if a.CloseRecv? {
      CloseOne(s.recvs, a.r);
    } else if a.Waiter? {
      WaiterNearer(s);
    } else {
      MsgNearer(s, a);
    }
  }

  lemma WaiterNearer(s: State)
    requires WaiterStep(s).Some?
    ensures var t := WaiterStep(s).value;
      t.msgs == s.msgs && t.recvs == s.recvs && t.life == s.life && WaitRank(t.waiter) < WaitRank(s.waiter)
  {
  }

  lemma MsgNearer(s: State, a: Action)
    requires LocalInv(s) && MsgStep(s, a).Some?
    ensures Left(MsgStep(s, a).value) < Left(s) && MsgStep(s, a).value.life == s.life
    ensures |MsgStep(s, a).value.msgs| == |s.msgs|
  {
    var i, l := MsgStepMoves(s, a);
    SumUpdate(s.msgs, i, l.m, Rank);
  }

  /** A receiver that is not closed yet can be, or one of its callbacks can move. */
  lemma OpenRecvMoves(s: State, r: nat) returns (a: Action)
    requires Inv(s) && WaiterRuns(s.life) && r < |s.recvs|
    requires s.recvs[r].gen == Current(s) && s.recvs[r].status != Closed
    ensures IsDrainStep(a) && Step(s, a).Some?
  {
    assert s.recvs[r] in s.recvs;
    if Quiet(s, r) {
      a := CloseRecv(r);
    } else {
      var i :| 0 <= i < |s.msgs| && s.msgs[i].recv == r && s.msgs[i].cb != CbDone;
      assert MsgOk(s, i);
      a := ActiveOrHolderMoves(s, i);
    }
  }

  /** Until done is closed, some step of the drain is enabled. */
  lemma DrainCanMove(s: State) returns (a: Action)
    requires Inv(s) && WaiterRuns(s.life) && !s.waiter.WtDone?
    ensures IsDrainStep(a) && Step(s, a).Some?
  {
    if s.waiter.WtGate? && !CanWriteGate(s) {
      var i :| 0 <= i < |s.msgs| && HoldsLock(s.msgs[i]);
      assert MsgOk(s, i);
      a := ActiveOrHolderMoves(s, i);
    } else if s.waiter.WtWait? && s.wg != 0 {
      var i := SumWitness(s.msgs, Counted);
      assert MsgOk(s, i);
      a := ActiveOrHolderMoves(s, i);
    } else if WaiterStep(s).None? {
      var r :| 0 <= r < |s.recvs| && s.recvs[r].gen == Current(s) && s.recvs[r].status != Closed;
      a := OpenRecvMoves(s, r);
    } else {
      a := Waiter;
    }
  }

  // ---------- Stop returns ----------

  /** The steps of Stop itself once it waits in its select. */
  predicate IsStopStep(a: Action) {
    a.TakeDone? || a.TakeCtx? || a.CancelHandlers? || a.SetGate? || a.TakeSnapshot? || a.WalkSettle? || a.WalkNext?
    || a.WalkEnd? || a.SeeClosed? || a.BudgetPassed? || a.DoClose?
  }

  /** Stop is past its select and has not returned. */
  predicate Concluding(l: Life) {
    l.Cancelling? || l.StopGate? || l.Snapshot? || l.Walking? || l.WalkUntrack? || l.WalkNak? || l.AwaitClosed?
    || l.CloseClient?
  }

  /** Bounds Stop's own steps, when it has n messages to look at. */
  function StopRank(l: Life, n: nat): nat {
    match l
    case Selecting => 3 * n + 9
    case Cancelling(_) => 3 * n + 8
    case StopGate => 3 * n + 7
    case Snapshot => 3 * n + 6
    case Walking(todo) => 3 * |todo| + 5
    case WalkUntrack(todo, _, _) => 3 * |todo| + 7
    case WalkNak(todo, _, _) => 3 * |todo| + 6
    case AwaitClosed => 4
    case CloseClient(_) => 1
    case _ => 0
  }

  lemma {:induction false} BelowBounded(s: set<nat>, n: nat)
    requires forall i <- s :: i < n
    ensures |s| <= n
  {
    if n > 0 {
      BelowBounded(s - {n - 1}, n - 1);
    } else {
      assert s == {};
    }
  }

  /** t is nearer to Stop's return than s, and as near to the drain's end. */
  predicate Nearer(s: State, t: State) {
    && StopRank(t.life, |t.msgs|) < StopRank(s.life, |s.msgs|) && |t.msgs| == |s.msgs| && Left(t) == Left(s)
    && (Concluding(t.life) || t.life.Stopped?)
  }

  /** Each step of Stop brings its return nearer, and leaves the rest as near. */
  lemma StopStepNearer(s: State, a: Action)
    requires Inv(s) && (s.life.Selecting? || Concluding(s.life)) && IsStopStep(a) && Step(s, a).Some?
    ensures Nearer(s, Step(s, a).value)
  {
    if a.WalkSettle? {
      SettleNearer(s, a.i);
    } else if a.WalkNext? {
      NakNearer(s);
    } else if a.SetGate? || a.CancelHandlers? {
      GateNearer(s);
    } else {
      BelowBounded(s.pending, |s.msgs|);
      OwnNearer(s, a);
    }
  }

  lemma SettleNearer(s: State, i: nat)
    requires SettleStep(s, i).Some?
    ensures Nearer(s, SettleStep(s, i).value)
  {
    var m := s.msgs[i].(st := Settled, owner := ByStop);
    SumUpdate(s.msgs, i, m, Rank);
  }

  lemma NakNearer(s: State)
    requires AbandonStep(s).Some?
    ensures Nearer(s, AbandonStep(s).value)
  {
    if s.life.WalkNak? {
      var i := s.life.at;
      SumUpdate(s.msgs, i, AbandonStep(s).value.msgs[i], Rank);
    }
  }

  lemma GateNearer(s: State)
    requires s.life.Selecting? || Concluding(s.life)
    ensures SetGateStep(s).Some? ==> Nearer(s, SetGateStep(s).value)
    ensures ShutStep(s, CancelHandlers).Some? ==> Nearer(s, ShutStep(s, CancelHandlers).value)
  {
  }

  lemma OwnNearer(s: State, a: Action)
    requires (s.life.Selecting? || Concluding(s.life)) && StopStep(s, a).Some? && |s.pending| <= |s.msgs|
    ensures Nearer(s, StopStep(s, a).value)
  {
  }

  /** abandonDrain's setAccepting waits at most for callbacks about to let go of the
      gate's lock. */
  lemma GateCanMove(s: State) returns (a: Action)
    requires LocalInv(s) && s.life.StopGate?
    ensures Step(s, a).Some? && (a.SetGate? || (a.Cb? && HasMsg(s, a.i) && HoldsLock(s.msgs[a.i])))
  {
    if CanWriteGate(s) {
      a := SetGate;
    } else {
      var i :| 0 <= i < |s.msgs| && HoldsLock(s.msgs[i]);
      assert MsgOk(s, i);
      a := Cb(i);
    }
  }

  lemma WalkCanMove(s: State) returns (a: Action)
    requires WalkInv(s) && (s.life.Walking? || s.life.WalkUntrack? || s.life.WalkNak?)
    ensures Step(s, a).Some? && IsStopStep(a)
  {
    if !s.life.Walking? {
      a := WalkNext;
    } else if s.life.todo == {} {
      a := WalkEnd;
    } else {
      var i :| i in s.life.todo;
      a := WalkSettle(i);
    }
  }

  /** Past its select, Stop never waits for a handler: one of its own steps is
      enabled, or else a callback is about to let go of the gate's lock. */
  lemma StopCanMove(s: State) returns (a: Action)
    requires Reachable(s) && Concluding(s.life)
    ensures Step(s, a).Some?
    ensures IsStopStep(a) || (a.Cb? && HasMsg(s, a.i) && HoldsLock(s.msgs[a.i]))
  {
    ReachableInv(s);
    a := ConcludingMoves(s);
  }

  lemma ConcludingMoves(s: State) returns (a: Action)
    requires Inv(s) && Concluding(s.life)
    ensures Step(s, a).Some?
    ensures IsStopStep(a) || (a.Cb? && HasMsg(s, a.i) && HoldsLock(s.msgs[a.i]))
  {
    if s.life.StopGate? {
      a := GateCanMove(s);
    } else if s.life.Walking? || s.life.WalkUntrack? || s.life.WalkNak? {
      a := WalkCanMove(s);
    } else {
      a := if s.life.Cancelling? then CancelHandlers else if s.life.Snapshot? then TakeSnapshot
           else if s.life.AwaitClosed? then BudgetPassed else DoClose;
    }
  }

  // ---------- Any run from Stop's select on ----------

  /** How often a run takes an action of a kind. */
  function Count(acts: seq<Action>, kind: Action -> bool): nat
    decreases |acts|
  {
    if acts == [] then 0 else One(acts[0], kind) + Count(acts[1..], kind)
  }

  function One(a: Action, kind: Action -> bool): nat { if kind(a) then 1 else 0 }

  predicate IsArrival(a: Action) { a.Arrive? }

  /** What Stop itself has left to do. */
  function Ahead(s: State): nat { StopRank(s.life, |s.msgs|) }

  /** What action a costs: a step of the drain or of Stop brings its end nearer, a
      message that arrives puts both off by a fixed amount. */
  predicate Pays(s: State, a: Action, t: State) {
    && WaiterRuns(t.life)
    && Left(t) + One(a, IsDrainStep) <= Left(s) + 24 * One(a, IsArrival)
    && Ahead(t) + One(a, IsStopStep) <= Ahead(s) + 3 * One(a, IsArrival)
  }

  lemma ArrivePays(s: State, r: nat)
    requires WaiterRuns(s.life) && EnvStep(s, Arrive(r)).Some?
    ensures Pays(s, Arrive(r), EnvStep(s, Arrive(r)).value)
  {
    SumAppend(s.msgs, EnvStep(s, Arrive(r)).value.msgs[|s.msgs|], Rank);
  }

  lemma LosePays(s: State, a: Action)
    requires WaiterRuns(s.life) && (a.LoseRecv? || a.LoseConn?) && EnvStep(s, a).Some?
    ensures Pays(s, a, EnvStep(s, a).value)
  {
    if a.LoseRecv? {
      CloseOne(s.recvs, a.r);
    }
  }

  /** Every other step a thread can take from here on is the drain's or Stop's. */
  lemma OnlyStopSteps(s: State, a: Action)
    requires WaiterRuns(s.life) && Step(s, a).Some? && !IsDrainStep(a)
    requires !(a.Arrive? || a.LoseRecv? || a.LoseConn?)
    ensures IsStopStep(a) && !s.life.Stopped?
  {
  }

  lemma DrainPays(s: State, a: Action)
    requires Inv(s) && WaiterRuns(s.life) && IsDrainStep(a) && Step(s, a).Some?
    ensures Pays(s, a, Step(s, a).value)
  {
    DrainStepNearer(s, a);
  }

  lemma StopPays(s: State, a: Action)
    requires Inv(s) && WaiterRuns(s.life) && Step(s, a).Some? && !IsDrainStep(a)
    requires !(a.Arrive? || a.LoseRecv? || a.LoseConn?)
    ensures Pays(s, a, Step(s, a).value)
  {
    OnlyStopSteps(s, a);
    StopStepNearer(s, a);
  }

  lemma StepPays(s: State, a: Action)
    requires Inv(s) && WaiterRuns(s.life) && Step(s, a).Some?
    ensures Pays(s, a, Step(s, a).value)
  {
    if a.Arrive? {
      ArrivePays(s, a.r);
    } else if a.LoseRecv? || a.LoseConn? {
      LosePays(s, a);
    } else if IsDrainStep(a) {
      DrainPays(s, a);
    } else {
      StopPays(s, a);
    }
  }

  /** The two bounds over a whole run. */
  ghost predicate RunPays(s: State, acts: seq<Action>, t: State) {
    && Inv(t) && WaiterRuns(t.life)
    && Left(t) + Count(acts, IsDrainStep) <= Left(s) + 24 * Count(acts, IsArrival)
    && Ahead(t) + Count(acts, IsStopStep) <= Ahead(s) + 3 * Count(acts, IsArrival)
  }

  lemma {:induction false} BoundedRun(s: State, acts: seq<Action>, t: State)
    requires Inv(s) && WaiterRuns(s.life) && Run(s, acts) == Some(t)
    ensures RunPays(s, acts, t)
    decreases |acts|
  {
    if acts != [] {
      StepPays(s, acts[0]);
      StepKeeps(s, acts[0]);
      BoundedRun(Step(s, acts[0]).value, acts[1..], t);
    }
  }

  lemma DrainMovesOrDone(t: State)
    requires Inv(t) && WaiterRuns(t.life)
    ensures t.waiter.WtDone? || exists a :: IsDrainStep(a) && Step(t, a).Some?
    ensures t.waiter.WtDone? && t.life.Selecting? ==> StopStep(t, TakeDone).Some?
  {
    if !t.waiter.WtDone? {
      var a := DrainCanMove(t);
    }
  }

  /** The drain ends. In any run of all threads from Stop's select on, with messages
      still arriving, receivers and the connection being lost, and Stop giving up
      or not, the drain takes at most Left(s) steps and 24 for each message that arrives;
      and until done is closed one of its steps is enabled. While Stop still waits then,
      it can take the clean branch. */
  lemma DrainEnds(s: State, acts: seq<Action>, t: State)
    requires Reachable(s) && WaiterRuns(s.life) && Run(s, acts) == Some(t)
    ensures Left(t) + Count(acts, IsDrainStep) <= Left(s) + 24 * Count(acts, IsArrival)
    ensures t.waiter.WtDone? || exists a :: IsDrainStep(a) && Step(t, a).Some?
    ensures t.waiter.WtDone? && t.life.Selecting? ==> Step(t, TakeDone).Some?
  {
    ReachableInv(s);
    BoundedRun(s, acts, t);
    DrainMovesOrDone(t);
  }

  /** Until Stop has returned, it or the drain can take a step, without ctx being done. */
  lemma NotReturnedMoves(s: State) returns (a: Action)
    requires Inv(s) && WaiterRuns(s.life) && !s.life.Stopped?
    ensures (IsStopStep(a) || IsDrainStep(a)) && !a.TakeCtx? && Step(s, a).Some?
  {
    if Concluding(s.life) {
      a := ConcludingMoves(s);
      assert StopStep(s, TakeCtx).None?;
    } else if s.waiter.WtDone? {
      a := TakeDone;
    } else {
      a := DrainCanMove(s);
    }
  }

  /** Stop returns. In any run of all threads from its select on, Stop takes a bounded
      number of steps, three more at most for each message that arrives; and until it
      has returned one of its steps or of the drain's is enabled that does not need its ctx
      to be done. */
  lemma StopReturns(s: State, acts: seq<Action>, t: State)
    requires Reachable(s) && WaiterRuns(s.life) && Run(s, acts) == Some(t)
    ensures Ahead(t) + Count(acts, IsStopStep) <= Ahead(s) + 3 * Count(acts, IsArrival)
    ensures t.life.Stopped? || exists a :: (IsStopStep(a) || IsDrainStep(a)) && !a.TakeCtx? && Step(t, a).Some?
  {
    ReachableInv(s);
    BoundedRun(s, acts, t);
    if !t.life.Stopped? {
      var a := NotReturnedMoves(t);
    }
  }
}
