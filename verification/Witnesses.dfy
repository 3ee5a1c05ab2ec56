/** Runs that show where the guarantees stop. */
module Witnesses {
  import opened Deliveries
  import opened Protocol
  import opened Wrappers
  import opened Runs

  /** Equality of states, field by field. */
  predicate Same(s: State, t: State) {
    && s.msgs == t.msgs && s.recvs == t.recvs && s.cancelled == t.cancelled && s.pending == t.pending
    && s == t.(msgs := s.msgs, recvs := s.recvs, cancelled := s.cancelled, pending := s.pending)
  }

  /** A state one step after a reachable one is reachable. */
  lemma Reach(s: State, a: Action, t: State)
    requires Reachable(s) && Step(s, a).Some? && Same(Step(s, a).value, t)
    ensures Reachable(t)
  {
    var cap: nat, acts: seq<Action> :| cap > 0 && Run(Init(cap), acts) == Some(s);
    RunSnoc(Init(cap), acts, a);
  }

  /** One message of one acking receiver opened by the first Start. */
  function One(m: Msg, status: Status, life: Life, slots: int, wg: int): State {
    State(1, [m], [Receiver(0, JsAck, status)], 1, {}, true, slots, wg, {0}, life, WtNone, true)
  }

  function At(cb: CbPc, took: nat): Msg {
    Msg(0, cb, WkNone, Waiting, NoOwner, took, 0, [])
  }

  lemma Gated() returns (s: State)
    ensures Reachable(s) && s == Init(1).(starts := 1, accepting := true, life := Opening)
  {
    var s0 := Init(1);
    assert Run(s0, []) == Some(s0);
    var s1 := s0.(starts := 1, life := OpenGate);
    Reach(s0, BeginStart, s1);
    s := s1.(accepting := true, life := Opening);
    Reach(s1, SetGate, s);
  }

  lemma Opened()
    ensures Reachable(One(At(CbGate, 0), Open, Opening, 0, 0))
  {
    var s2 := Gated();
    var s3 := s2.(recvs := [Receiver(0, JsAck, Open)]);
    Reach(s2, OpenRecv(JsAck), s3);
    var s4 := s3.(msgs := [At(CbTrack, 0)]);
    Reach(s3, Arrive(0), s4);
    Reach(s4, Cb(0), One(At(CbGate, 0), Open, Opening, 0, 0));
  }

  lemma Slotted()
    ensures Reachable(One(At(CbLock, 1), Open, Opening, 1, 0))
  {
    Opened();
    Reach(One(At(CbGate, 0), Open, Opening, 0, 0), Cb(0), One(At(CbCtx, 0), Open, Opening, 0, 0));
    Reach(One(At(CbCtx, 0), Open, Opening, 0, 0), Cb(0), One(At(CbSelect, 0), Open, Opening, 0, 0));
    Reach(One(At(CbSelect, 0), Open, Opening, 0, 0), Select(0, true), One(At(CbLock, 1), Open, Opening, 1, 0));
  }

  lemma Rechecked()
    ensures Reachable(One(At(CbAdd, 1), Open, Opening, 1, 0))
  {
    Slotted();
    Reach(One(At(CbLock, 1), Open, Opening, 1, 0), Cb(0), One(At(CbRecheck, 1), Open, Opening, 1, 0));
    Reach(One(At(CbRecheck, 1), Open, Opening, 1, 0), Cb(0), One(At(CbRecheckCtx, 1), Open, Opening, 1, 0));
    Reach(One(At(CbRecheckCtx, 1), Open, Opening, 1, 0), Cb(0), One(At(CbAdd, 1), Open, Opening, 1, 0));
  }

  lemma Counting()
    ensures Reachable(One(At(CbSpawn, 1), Open, Opening, 1, 1))
  {
    Rechecked();
    Reach(One(At(CbAdd, 1), Open, Opening, 1, 0), Cb(0), One(At(CbUnlock, 1), Open, Opening, 1, 1));
    Reach(One(At(CbUnlock, 1), Open, Opening, 1, 1), Cb(0), One(At(CbSpawn, 1), Open, Opening, 1, 1));
  }

  lemma Failing() returns (s: State)
    ensures Reachable(s) && s == One(At(CbSpawn, 1), Closing, Aborting, 1, 1)
  {
    Counting();
    var s0 := One(At(CbSpawn, 1), Open, Aborting, 1, 1);
    Reach(One(At(CbSpawn, 1), Open, Opening, 1, 1), FailStart, s0);
    s := One(At(CbSpawn, 1), Closing, Aborting, 1, 1);
    Reach(s0, AskClose(0), s);
  }

  /** A failed Start can return while a message it admitted is between RUnlock and
      go, so its worker is still spawned afterwards; what has ended is admission. */
  lemma SpawnAfterFailedStart() returns (s: State, t: State)
    ensures Reachable(s) && s.life.Created? && Step(s, Cb(0)) == Some(t)
    ensures |t.msgs| == 1 && s.msgs[0].wk.WkNone? && t.msgs[0].wk.WkBegin?
  {
    var s2 := Failing();
    var s3 := s2.(cancelled := {0}, life := AbortGate);
    Reach(s2, CancelHandlers, s3);
    s := s3.(accepting := false, life := Created);
    Reach(s3, SetGate, s);
    t := Step(s, Cb(0)).value;
  }

  /** The message of One once its worker w has run some of the way. */
  function Worked(w: WkPc, st: DeliveryState, owner: Owner, log: seq<Event>): Msg {
    Msg(0, CbDone, w, st, owner, 1, 0, log)
  }

  lemma Begun()
    ensures Reachable(One(Worked(WkCall, Running, NoOwner, [Began]), Open, Started, 1, 1))
  {
    Counting();
    var s0 := One(At(CbSpawn, 1), Open, Opening, 1, 1);
    var s1 := One(Worked(WkBegin, Waiting, NoOwner, []), Open, Opening, 1, 1);
    Reach(s0, Cb(0), s1);
    var s2 := One(Worked(WkBegin, Waiting, NoOwner, []), Open, Started, 1, 1);
    Reach(s1, FinishStart, s2);
    assert [] + [Began] == [Began];
    Reach(s2, Wk(0), One(Worked(WkCall, Running, NoOwner, [Began]), Open, Started, 1, 1));
  }

  /** The worker has won settle and not yet sent its ack. */
  function Unsent(): Msg {
    Worked(WkUntrack(true), Settled, ByWorker, [Began, Called, Returned(true)])
  }

  lemma Handling()
    ensures Reachable(One(Worked(WkHandling, Running, NoOwner, [Began, Called]), Open, Started, 1, 1))
  {
    Begun();
    assert [Began] + [Called] == [Began, Called];
    Reach(One(Worked(WkCall, Running, NoOwner, [Began]), Open, Started, 1, 1), Wk(0),
          One(Worked(WkHandling, Running, NoOwner, [Began, Called]), Open, Started, 1, 1));
  }

  lemma HandledOk()
    ensures
      Reachable(One(Worked(WkSettle(true), Running, NoOwner, [Began, Called, Returned(true)]), Open, Started, 1, 1))
  {
    Handling();
    assert [Began, Called] + [Returned(true)] == [Began, Called, Returned(true)];
    Reach(One(Worked(WkHandling, Running, NoOwner, [Began, Called]), Open, Started, 1, 1), Return(0, true),
          One(Worked(WkSettle(true), Running, NoOwner, [Began, Called, Returned(true)]), Open, Started, 1, 1));
  }

  lemma Settling() returns (s: State)
    ensures Reachable(s) && s == One(Unsent(), Open, Draining, 1, 1)
  {
    HandledOk();
    var s0 := One(Worked(WkSettle(true), Running, NoOwner, [Began, Called, Returned(true)]), Open, Started, 1, 1);
    Reach(s0, Wk(0), One(Unsent(), Open, Started, 1, 1));
    s := One(Unsent(), Open, Draining, 1, 1);
    Reach(One(Unsent(), Open, Started, 1, 1), BeginStop, s);
  }

  lemma DrainBegun() returns (s: State)
    ensures Reachable(s) && s == One(Unsent(), Closing, Selecting, 1, 1).(waiter := WtSubs)
  {
    var s1 := Settling();
    var s2 := One(Unsent(), Closing, Draining, 1, 1);
    Reach(s1, AskClose(0), s2);
    s := s2.(life := Selecting, waiter := WtSubs);
    Reach(s2, SpawnWaiter, s);
  }

  lemma Abandoning() returns (s: State)
    ensures Reachable(s)
    ensures s == One(Unsent(), Closing, StopGate, 1, 1).(cancelled := {0}, waiter := WtSubs)
  {
    var s3 := DrainBegun();
    var s4 := s3.(life := Cancelling(false));
    Reach(s3, TakeCtx, s4);
    s := s4.(cancelled := {0}, life := StopGate);
    Reach(s4, CancelHandlers, s);
  }

  lemma Copied() returns (s: State)
    ensures Reachable(s)
    ensures s == One(Unsent(), Closing, Walking({0}), 1, 1).(accepting := false, cancelled := {0}, waiter := WtSubs)
  {
    var s0 := Abandoning();
    var s1 := s0.(accepting := false, life := Snapshot);
    Reach(s0, SetGate, s1);
    s := s1.(life := Walking({0}));
    Reach(s1, TakeSnapshot, s);
  }

  lemma Emptied() returns (s: State)
    ensures Reachable(s)
    ensures s == One(Unsent(), Closing, Walking({}), 1, 1).(accepting := false, cancelled := {0}, waiter := WtSubs)
  {
    var s0 := Copied();
    s := s0.(life := Walking({}));
    assert {0} - {0} == {};
    Reach(s0, WalkSettle(0), s);
  }

  lemma WalkedPast() returns (s: State)
    ensures Reachable(s)
    ensures s == One(Unsent(), Closing, AwaitClosed, 1, 1).(accepting := false, cancelled := {0}, waiter := WtSubs)
  {
    var s0 := Emptied();
    s := s0.(life := AwaitClosed);
    Reach(s0, WalkEnd, s);
  }

  lemma RecvClosed() returns (s: State)
    ensures Reachable(s)
    ensures s == One(Unsent(), Closed, AwaitClosed, 1, 1).(accepting := false, cancelled := {0}, waiter := WtSubs)
  {
    var s0 := WalkedPast();
    s := s0.(recvs := [Receiver(0, JsAck, Closed)]);
    assert Quiet(s0, 0);
    Reach(s0, CloseRecv(0), s);
  }

  lemma Seen() returns (s: State)
    ensures Reachable(s)
    ensures s == One(Unsent(), Closed, CloseClient(Abandon(true)), 1, 1)
                   .(accepting := false, cancelled := {0}, waiter := WtSubs)
  {
    var s0 := RecvClosed();
    s := s0.(life := CloseClient(Abandon(true)));
    Reach(s0, SeeClosed, s);
  }

  /** Stop can return from an abandoned drain, the consumers closed in time, while
      a worker that won settle has not sent its ack yet: the client is closed, so
      settled does not mean that the server ever sees the ack. */
  lemma ClosedBeforeTheAck() returns (s: State)
    ensures Reachable(s) && s.life == Stopped(Abandon(true)) && !s.connOpen
    ensures |s.msgs| == 1 && s.msgs[0] == Unsent()
  {
    var s0 := Seen();
    s := s0.(connOpen := false, life := Stopped(Abandon(true)));
    Reach(s0, DoClose, s);
  }

  /** One message of one core subscription of the first Start, its callback at cb. */
  function Core1(cb: CbPc, status: Status, life: Life, waiter: WaitPc, accepting: bool, connOpen: bool): State {
    State(1, [At(cb, 0)], [Receiver(0, Core, status)], 1, {}, accepting, 0, 0, {}, life, waiter, connOpen)
  }

  lemma CoreArrived()
    ensures Reachable(Core1(CbGate, Open, Opening, WtNone, true, true))
  {
    var s0 := Gated();
    var s1 := s0.(recvs := [Receiver(0, Core, Open)]);
    Reach(s0, OpenRecv(Core), s1);
    Reach(s1, Arrive(0), Core1(CbGate, Open, Opening, WtNone, true, true));
  }

  lemma CoreStopping()
    ensures Reachable(Core1(CbGate, Closing, Draining, WtNone, true, true))
  {
    CoreArrived();
    var s0 := Core1(CbGate, Open, Started, WtNone, true, true);
    Reach(Core1(CbGate, Open, Opening, WtNone, true, true), FinishStart, s0);
    var s1 := Core1(CbGate, Open, Draining, WtNone, true, true);
    Reach(s0, BeginStop, s1);
    Reach(s1, AskClose(0), Core1(CbGate, Closing, Draining, WtNone, true, true));
  }

  lemma CoreConnLost()
    ensures Reachable(Core1(CbGate, Closing, Selecting, WtConsumers, true, false))
  {
    CoreStopping();
    var s0 := Core1(CbGate, Closing, Selecting, WtSubs, true, true);
    Reach(Core1(CbGate, Closing, Draining, WtNone, true, true), SpawnWaiter, s0);
    var s1 := Core1(CbGate, Closing, Selecting, WtSubs, true, false);
    Reach(s0, LoseConn, s1);
    Reach(s1, Waiter, Core1(CbGate, Closing, Selecting, WtConsumers, true, false));
  }

  lemma CoreRefused()
    ensures Reachable(Core1(CbRefused, Closing, Selecting, WtWait, false, false))
  {
    CoreConnLost();
    var s0 := Core1(CbGate, Closing, Selecting, WtGate, true, false);
    Reach(Core1(CbGate, Closing, Selecting, WtConsumers, true, false), Waiter, s0);
    var s1 := Core1(CbGate, Closing, Selecting, WtWait, false, false);
    Reach(s0, Waiter, s1);
    Reach(s1, Cb(0), Core1(CbRefused, Closing, Selecting, WtWait, false, false));
  }

  /** When the connection closes during the drain, Stop can still end clean although a
      core message already received was refused: the waiter stops waiting for core
      subscriptions then. So a clean end needs the connection for core messages. */
  lemma CoreMessageLostWithConnection() returns (s: State)
    ensures Reachable(s) && s.life == Cancelling(true) && !s.connOpen
    ensures |s.msgs| == 1 && s.msgs[0].cb == CbDone && s.msgs[0].wk == WkNone && s.msgs[0].log == []
  {
    CoreRefused();
    var s0 := Core1(CbDone, Closing, Selecting, WtWait, false, false);
    Reach(Core1(CbRefused, Closing, Selecting, WtWait, false, false), Cb(0), s0);
    var s1 := Core1(CbDone, Closing, Selecting, WtDone, false, false);
    Reach(s0, Waiter, s1);
    s := Core1(CbDone, Closing, Cancelling(true), WtDone, false, false);
    Reach(s1, TakeDone, s);
  }
}
