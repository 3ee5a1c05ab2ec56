/** What the protocol guarantees in every reachable state and over every run. */
module Safety {
  import opened Deliveries
  import opened Protocol
  import opened Wrappers
  import opened Invariant
  import opened Summary
  import opened Sums
  import opened Global

  // ---------- Reading a log ----------

  predicate IsAttempt(e: Event) { e.Acked? || e.Nacked? }

  /** What must have happened before an event, said of the history itself. */
  predicate Justified(acks: bool, before: seq<Event>, e: Event) {
    && (e.Began? ==> acks && Began !in before)
    && (e.Called? ==> Called !in before && (acks ==> Began in before))
    && (e.Returned? ==> Called in before && Returned(true) !in before && Returned(false) !in before)
    && (IsAttempt(e) ==> acks && forall x <- before :: !IsAttempt(x))
    && (e.Acked? ==> Returned(true) in before)
    && (e == Nacked(HandlerFailed) ==> Returned(false) in before)
    && (e.Nacked? && e.cause.Abandoned? ==> (e.cause.running <==> Began in before))
  }

  /** The ack or nak attempts in a log are all equal to a. */
  predicate OnlyAttempt(log: seq<Event>, a: Option<Event>) {
    && (forall x <- log :: IsAttempt(x) ==> a == Some(x))
    && (a.Some? ==> a.value in log && IsAttempt(a.value))
  }

  predicate OnlyReturn(log: seq<Event>, ret: Option<bool>) {
    (Returned(true) in log <==> ret == Some(true)) && (Returned(false) in log <==> ret == Some(false))
  }

  /** Digest d says what is in the log. */
  predicate Says(d: Digest, log: seq<Event>) {
    && (d.began <==> Began in log) && (d.called <==> Called in log)
    && OnlyReturn(log, d.ret) && OnlyAttempt(log, d.attempt)
  }

  lemma SaysAppend(acks: bool, d: Digest, log: seq<Event>, e: Event)
    requires Says(d, log) && Follows(acks, d, e)
    ensures Says(Absorb(acks, d, e), log + [e])
  {
    assert forall x :: x in log + [e] <==> x in log || x == e;
  }

  /** What Follows says of a digest, Justified says of the log. */
  lemma FollowsJustified(acks: bool, d: Digest, log: seq<Event>, e: Event)
    requires Says(d, log) && Follows(acks, d, e)
    ensures Justified(acks, log, e)
  {
  }

  lemma {:induction false} DigestSays(acks: bool, log: seq<Event>)
    requires Read(acks, log).good
    ensures Says(Read(acks, log), log)
  {
    if log != [] {
      var k := |log| - 1;
      DigestSays(acks, log[..k]);
      SaysAppend(acks, Read(acks, log[..k]), log[..k], log[k]);
      assert log == log[..k] + [log[k]];
    }
  }

  lemma {:induction false} GoodLog(acks: bool, log: seq<Event>, k: nat)
    requires Read(acks, log).good && k < |log|
    ensures Justified(acks, log[..k], log[k])
    decreases |log|
  {
    var n := |log| - 1;
    if k < n {
      GoodLog(acks, log[..n], k);
      assert log[..n][..k] == log[..k];
    } else {
      DigestSays(acks, log[..n]);
      FollowsJustified(acks, Read(acks, log[..n]), log[..n], log[n]);
    }
  }

  /** In a good log the attempt fits what the handler returned. */
  predicate Coherent(d: Digest) {
    && (d.attempt == Some(Acked) ==> d.ret == Some(true))
    && (d.attempt == Some(Nacked(HandlerFailed)) ==> d.ret == Some(false))
  }

  lemma {:induction false} GoodCoherent(acks: bool, log: seq<Event>)
    requires Read(acks, log).good
    ensures Coherent(Read(acks, log))
  {
    if log != [] {
      GoodCoherent(acks, log[..|log| - 1]);
    }
  }

  lemma OneAttempt(acks: bool, log: seq<Event>, j: nat, k: nat)
    requires Read(acks, log).good && j < k < |log|
    ensures !(IsAttempt(log[j]) && IsAttempt(log[k]))
  {
    GoodLog(acks, log, k);
    assert log[j] in log[..k];
  }

  /** A good log that holds nothing but attempts holds at most one event. */
  lemma {:induction false} OnlyAttempts(acks: bool, log: seq<Event>)
    requires Read(acks, log).good && forall e <- log :: IsAttempt(e)
    ensures |log| <= 1 && (Read(acks, log).attempt.Some? <==> log != [])
  {
    if log != [] {
      assert log[|log| - 1] in log;
      OnlyAttempts(acks, log[..|log| - 1]);
    }
  }

  // ---------- Settlement ----------

  /** In every interleaving, every event of a message is justified by what came
      before it; in particular an ack follows its handler's nil return, a nak a
      failed handler or an abandonment, and a reported handler_running is true
      exactly when begin had succeeded. */
  lemma EveryEventJustified(s: State, i: nat, k: nat)
    requires Reachable(s) && HasMsg(s, i) && k < |s.msgs[i].log|
    ensures Justified(Acks(s, i), s.msgs[i].log[..k], s.msgs[i].log[k])
  {
    ReachableInv(s);
    assert MsgOk(s, i);
    GoodLog(Acks(s, i), s.msgs[i].log, k);
  }

  /** At most one ack or nak is attempted per delivery, although its worker, its
      callback and Stop race; and none for a delivery that is never acked. */
  lemma AtMostOneAttempt(s: State, i: nat)
    requires Reachable(s) && HasMsg(s, i)
    ensures var log := s.msgs[i].log;
      && (forall j, k :: 0 <= j < k < |log| ==> !(IsAttempt(log[j]) && IsAttempt(log[k])))
      && (!Acks(s, i) ==> i !in s.pending && forall e <- log :: !IsAttempt(e))
  {
    ReachableInv(s);
    var log := s.msgs[i].log;
    assert MsgOk(s, i);
    forall j, k | 0 <= j < k < |log| ensures !(IsAttempt(log[j]) && IsAttempt(log[k])) {
      OneAttempt(Acks(s, i), log, j, k);
    }
    DigestSays(Acks(s, i), log);
  }

  /** No thread still has work on message i. */
  predicate Finished(s: State, i: nat)
    requires HasMsg(s, i)
  {
    s.msgs[i].cb.CbDone? && (s.msgs[i].wk.WkNone? || s.msgs[i].wk.WkDone?) && StopPhase(s.life, i).Idle?
  }

  /** An acking delivery whose threads have finished was settled by one attempt:
      an ack if its worker settled it after a nil return, a nak otherwise. */
  lemma FinishedMeansOneAttempt(s: State, i: nat)
    requires Reachable(s) && HasMsg(s, i) && Acks(s, i) && Finished(s, i)
    ensures var log := s.msgs[i].log;
      && s.msgs[i].st == Settled && i !in s.pending
      && (exists k :: 0 <= k < |log| && IsAttempt(log[k]))
      && (Acked in log ==> Returned(true) in log && s.msgs[i].owner == ByWorker)
      && (s.msgs[i].owner == ByWorker && Returned(true) in log ==> Acked in log)
      && (s.msgs[i].owner == ByWorker && Returned(false) in log ==> Nacked(HandlerFailed) in log)
      && (s.msgs[i].owner != ByWorker <==> Nacked(Abandoned(true)) in log || Nacked(Abandoned(false)) in log)
  {
    ReachableInv(s);
    assert MsgOk(s, i);
    DigestSays(true, s.msgs[i].log);
    GoodCoherent(true, s.msgs[i].log);
  }

  // ---------- What a run keeps ----------

  /** t is a later state than s as far as each message is concerned: logs only
      grow, delivery states only move forward, receivers stay the same. */
  ghost predicate Later(s: State, t: State) {
    && |s.msgs| <= |t.msgs| && |s.recvs| <= |t.recvs| && s.starts <= t.starts && s.cancelled <= t.cancelled
    && (forall r: nat :: r < |s.recvs| ==> SameRecv(s, t, r))
    && (forall i: nat :: i < |s.msgs| ==> LaterMsg(s.msgs[i], t.msgs[i]))
  }

  predicate SameRecv(s: State, t: State, r: nat)
    requires r < |s.recvs| <= |t.recvs|
  {
    t.recvs[r].gen == s.recvs[r].gen && t.recvs[r].kind == s.recvs[r].kind
    && (s.recvs[r].status == Closed ==> t.recvs[r].status == Closed)
  }

  predicate LaterMsg(m: Msg, n: Msg) {
    n.recv == m.recv && m.log <= n.log && Precedes(m.st, n.st)
    && (Spawned(m) ==> Spawned(n)) && (m.cb.CbDone? ==> n.cb.CbDone?)
  }

  lemma MsgStepLater(s: State, a: Action)
    requires LocalInv(s) && MsgStep(s, a).Some?
    ensures Later(s, MsgStep(s, a).value)
  {
    var i, l := MsgStepMoves(s, a);
  }

  lemma WalkLater(s: State, t: State, i: nat)
    requires WalkMoved(s, t, i)
    ensures Later(s, t)
  {
  }

  lemma EnvLater(s: State, a: Action)
    requires EnvStep(s, a).Some?
    ensures Later(s, EnvStep(s, a).value)
  {
  }

  lemma StartLater(s: State, a: Action)
    requires StartStep(s, a).Some?
    ensures Later(s, StartStep(s, a).value)
  {
  }

  lemma ShutLater(s: State, a: Action)
    requires ShutStep(s, a).Some?
    ensures Later(s, ShutStep(s, a).value)
  {
  }

  lemma StopLater(s: State, a: Action)
    requires StopStep(s, a).Some?
    ensures Later(s, StopStep(s, a).value)
  {
  }

  lemma GateLater(s: State)
    ensures WaiterStep(s).Some? ==> Later(s, WaiterStep(s).value)
    ensures SetGateStep(s).Some? ==> Later(s, SetGateStep(s).value)
  {
  }

  lemma StepLater(s: State, a: Action)
    requires Inv(s) && Step(s, a).Some?
    ensures Later(s, Step(s, a).value)
  {
    var t := Step(s, a).value;
    if a.Cb? || a.Select? || a.Wk? || a.Return? {
      MsgStepLater(s, a);
    } else if a.WalkSettle? {
      SettleStepMoves(s, a.i);
      WalkLater(s, t, a.i);
    } else if a.WalkNext? {
      AbandonStepFrame(s);
      WalkLater(s, t, s.life.at);
    } else if a.Arrive? || a.CloseRecv? || a.LoseRecv? || a.LoseConn? {
      EnvLater(s, a);
    } else if a.Waiter? || a.SetGate? {
      GateLater(s);
    } else if a.AskClose? || a.CancelHandlers? {
      ShutLater(s, a);
    } else if a.BeginStart? || a.OpenRecv? || a.FailStart? || a.FinishStart? {
      StartLater(s, a);
    } else {
      StopLater(s, a);
    }
  }

  lemma {:induction false} RunLater(s: State, acts: seq<Action>)
    requires Inv(s) && Run(s, acts).Some?
    ensures Later(s, Run(s, acts).value)
    decreases |acts|
  {
    if acts != [] {
      var u := Step(s, acts[0]).value;
      StepLater(s, acts[0]);
      StepKeeps(s, acts[0]);
      RunLater(u, acts[1..]);
      LaterTrans(s, u, Run(s, acts).value);
    }
  }

  lemma LaterTrans(s: State, u: State, t: State)
    requires Later(s, u) && Later(u, t)
    ensures Later(s, t)
  {
    forall i: nat | i < |s.msgs| ensures LaterMsg(s.msgs[i], t.msgs[i]) {
      assert LaterMsg(s.msgs[i], u.msgs[i]) && LaterMsg(u.msgs[i], t.msgs[i]);
    }
    forall r: nat | r < |s.recvs| ensures SameRecv(s, t, r) {
      assert SameRecv(s, u, r) && SameRecv(u, t, r);
    }
  }

  /** Over any run a delivery only moves waiting to running to settled, or
      straight to settled, and its history only grows. */
  lemma DeliveriesMoveForward(s: State, acts: seq<Action>, t: State, i: nat)
    requires Reachable(s) && Run(s, acts) == Some(t) && i < |s.msgs|
    ensures i < |t.msgs| && Precedes(s.msgs[i].st, t.msgs[i].st) && s.msgs[i].log <= t.msgs[i].log
  {
    ReachableInv(s);
    RunLater(s, acts);
    assert LaterMsg(s.msgs[i], t.msgs[i]);
  }

  /** pending holds exactly the tracked deliveries that are unsettled, or whose
      settler is between settle and untrack. */
  lemma PendingAgrees(s: State, i: nat)
    requires Reachable(s)
    ensures i in s.pending <==>
      HasMsg(s, i) && Acks(s, i) && !s.msgs[i].cb.CbTrack?
      && (s.msgs[i].st != Settled || InUntrack(s.msgs[i], StopPhase(s.life, i)))
  {
    ReachableInv(s);
    assert i < |s.msgs| ==> MsgOk(s, i);
  }

  // ---------- The abandoned drain ----------

  /** abandonPending has returned. */
  predicate Walked(l: Life) { PastSnapshot(l) && Todo(l) == {} && !l.Walking? && !l.WalkUntrack? && !l.WalkNak? }

  /** Once abandonPending has returned, every acking delivery with a worker, of
      any generation, is settled, so its begin can only fail. */
  lemma WorkersSettledAfterWalk(s: State, i: nat)
    requires Reachable(s) && Walked(s.life) && HasMsg(s, i) && Acks(s, i) && Spawned(s.msgs[i])
    ensures s.msgs[i].st == Settled
  {
    ReachableInv(s);
    assert WalkOk(s, i);
  }

  /** If acking message i has begun in t, it had already begun in s. */
  predicate NoNewBegin(s: State, t: State, i: nat) {
    HasMsg(t, i) && Acks(t, i) && Began in t.msgs[i].log ==> i < |s.msgs| && Began in s.msgs[i].log
  }

  lemma WalkedMsgStep(s: State, a: Action, i: nat)
    requires LocalInv(s) && WalkInv(s) && Walked(s.life) && MsgStep(s, a).Some?
    ensures NoNewBegin(s, MsgStep(s, a).value, i) && MsgStep(s, a).value.life == s.life
  {
    var j, l := MsgStepMoves(s, a);
    assert MsgOk(s, j) && WalkOk(s, j);
  }

  lemma WalkedLifeStep(s: State, a: Action)
    requires Walked(s.life)
    ensures StopStep(s, a).Some? ==> Walked(StopStep(s, a).value.life) && StopStep(s, a).value.msgs == s.msgs
    ensures WaiterStep(s).Some? ==> Walked(WaiterStep(s).value.life) && WaiterStep(s).value.msgs == s.msgs
    ensures StartStep(s, a).None? && ShutStep(s, a).None? && SetGateStep(s).None? && AbandonStep(s).None?
  {
  }

  lemma WalkedStep(s: State, a: Action, i: nat)
    requires Inv(s) && Walked(s.life) && Step(s, a).Some?
    ensures Walked(Step(s, a).value.life) && NoNewBegin(s, Step(s, a).value, i)
  {
    if a.Cb? || a.Select? || a.Wk? || a.Return? {
      WalkedMsgStep(s, a, i);
    } else if !(a.Arrive? || a.CloseRecv? || a.LoseRecv? || a.LoseConn?) {
      WalkedLifeStep(s, a);
    }
  }

  lemma NoNewBeginTrans(s: State, u: State, t: State, i: nat)
    requires NoNewBegin(s, u, i) && NoNewBegin(u, t, i) && Later(u, t) && LocalInv(u)
    ensures NoNewBegin(s, t, i)
  {
    if i < |u.msgs| {
      assert MsgOk(u, i) && LaterMsg(u.msgs[i], t.msgs[i]) && SameRecv(u, t, u.msgs[i].recv);
    }
  }

  lemma {:induction false} NoBeginFrom(s: State, acts: seq<Action>, i: nat)
    requires Inv(s) && Walked(s.life) && Run(s, acts).Some?
    ensures NoNewBegin(s, Run(s, acts).value, i)
    decreases |acts|
  {
    if acts != [] {
      var u := Step(s, acts[0]).value;
      WalkedStep(s, acts[0], i);
      StepKeeps(s, acts[0]);
      NoBeginFrom(u, acts[1..], i);
      RunLater(u, acts[1..]);
      NoNewBeginTrans(s, u, Run(s, acts).value, i);
    }
  }

  /** A call of an acking handler comes after its begin. */
  lemma CalledAfterBegan(s: State, i: nat)
    requires LocalInv(s) && HasMsg(s, i) && Acks(s, i) && Called in s.msgs[i].log
    ensures Began in s.msgs[i].log
  {
    var log := s.msgs[i].log;
    assert MsgOk(s, i);
    var k :| 0 <= k < |log| && log[k] == Called;
    GoodLog(true, log, k);
    var j :| 0 <= j < k && log[..k][j] == Began;
    assert log[j] == Began;
  }

  /** After abandonPending has returned, no acking delivery of any generation
      begins in any later state: a handler called later had begun before, and its
      delivery was settled by now. */
  lemma NoBeginAfterAbandon(s: State, acts: seq<Action>, t: State, i: nat)
    requires Reachable(s) && Walked(s.life) && Run(s, acts) == Some(t)
    requires HasMsg(t, i) && Acks(t, i) && (Began in t.msgs[i].log || Called in t.msgs[i].log)
    ensures i < |s.msgs| && Began in s.msgs[i].log && s.msgs[i].st == Settled
  {
    ReachableInv(s);
    RunKeeps(s, acts);
    if Called in t.msgs[i].log {
      CalledAfterBegan(t, i);
    }
    NoBeginFrom(s, acts, i);
    RunLater(s, acts);
    BegunSettled(s, t, i);
  }

  lemma BegunSettled(s: State, t: State, i: nat)
    requires LocalInv(s) && WalkInv(s) && Walked(s.life) && Later(s, t)
    requires i < |s.msgs| && HasMsg(t, i) && Acks(t, i) && Began in s.msgs[i].log
    ensures s.msgs[i].st == Settled
  {
    assert MsgOk(s, i) && WalkOk(s, i) && LaterMsg(s.msgs[i], t.msgs[i]) && SameRecv(s, t, s.msgs[i].recv);
    DigestSays(true, s.msgs[i].log);
  }

  /** When the consumers closed within the budget, every acking delivery of the
      Start that was running is settled; its ack or nak was attempted, except exactly
      when its worker won settle and has yet to send it. */
  lemma AbandonedInTimeSettlesAll(s: State, i: nat)
    requires Reachable(s) && ClosedInTime(s.life)
    requires HasMsg(s, i) && Acks(s, i) && RecvOf(s, i).gen == Current(s)
    ensures s.msgs[i].cb == CbDone && s.msgs[i].st == Settled
    ensures (exists e <- s.msgs[i].log :: IsAttempt(e)) <==> !(s.msgs[i].wk.WkUntrack? || s.msgs[i].wk.WkAttempt?)
  {
    ReachableInv(s);
    assert RecvOf(s, i) in s.recvs;
    assert MsgOk(s, i) && ClosedQuiet(s, i) && WalkOk(s, i);
    DigestSays(true, s.msgs[i].log);
  }

  // ---------- What leaves the messages' threads where they are ----------

  /** Message i stands where it stood, or has just arrived. */
  predicate SamePcs(s: State, t: State, i: nat) {
    && (i < |s.msgs| ==> i < |t.msgs| && t.msgs[i].cb == s.msgs[i].cb && t.msgs[i].wk == s.msgs[i].wk)
    && (|s.msgs| <= i < |t.msgs| ==> t.msgs[i].wk.WkNone? && (t.msgs[i].cb.CbTrack? || t.msgs[i].cb.CbGate?))
  }

  lemma QuietStep(s: State, a: Action)
    requires Step(s, a).Some? && !(a.Cb? || a.Select? || a.Wk? || a.Return?)
    requires !(a.WalkSettle? || a.WalkNext? || a.Arrive?)
    ensures Step(s, a).value.msgs == s.msgs
  {
  }

  lemma WalkStepPcs(s: State, a: Action, i: nat)
    requires LocalInv(s) && WalkInv(s) && (a.WalkSettle? || a.WalkNext?) && Step(s, a).Some?
    ensures SamePcs(s, Step(s, a).value, i)
  {
  }

  lemma OtherStepPcs(s: State, a: Action, i: nat)
    requires LocalInv(s) && WalkInv(s) && Step(s, a).Some? && !(a.Cb? || a.Select? || a.Wk? || a.Return?)
    ensures SamePcs(s, Step(s, a).value, i)
  {
    if a.WalkSettle? || a.WalkNext? {
      WalkStepPcs(s, a, i);
    } else if !a.Arrive? {
      QuietStep(s, a);
    }
  }

  // ---------- The clean drain ----------

  /** Message i was handled to the end, and settled, if it is acked, by its own
      handler's result and not by an abandonment. */
  predicate Handled(s: State, i: nat)
    requires HasMsg(s, i)
  {
    var m := s.msgs[i];
    && m.cb == CbDone && m.wk == WkDone
    && (Returned(true) in m.log || Returned(false) in m.log)
    && (Acks(s, i) ==>
          && (Returned(true) in m.log ==> Acked in m.log)
          && (Returned(false) in m.log ==> Nacked(HandlerFailed) in m.log)
          && Nacked(Abandoned(true)) !in m.log && Nacked(Abandoned(false)) !in m.log)
  }

  /** 1 for a message whose worker has ended. */
  function Ended(m: Msg): nat { if m.wk.WkDone? then 1 else 0 }

  /** The message was added to wg, at some time. */
  predicate Added(m: Msg) { Counted(m) + Ended(m) == 1 }

  /** At a clean end a message added to wg was handled, and no other was called. */
  lemma CleanEnd(s: State, i: nat)
    requires Inv(s) && DrainedClean(s.life) && HasMsg(s, i)
    ensures if Added(s.msgs[i]) then Handled(s, i) else s.msgs[i].wk.WkNone? && Called !in s.msgs[i].log
  {
    assert MsgOk(s, i) && WalkOk(s, i);
    SumAtLeast(s.msgs, i, Counted);
    DigestSays(Acks(s, i), s.msgs[i].log);
    GoodCoherent(Acks(s, i), s.msgs[i].log);
  }

  /** When Stop took the done branch, every JetStream message handed to a callback
      of the successful Start was handled to the end, and so was every core
      message if the connection was open throughout. */
  lemma CleanDrainLosesNothing(s: State, i: nat)
    requires Reachable(s) && DrainedClean(s.life)
    requires HasMsg(s, i) && RecvOf(s, i).gen == Current(s) && (RecvOf(s, i).kind != Core || ConnHeld(s))
    ensures Handled(s, i)
  {
    ReachableInv(s);
    assert RecvOf(s, i) in s.recvs;
    assert MsgOk(s, i) && ClosedQuiet(s, i) && ServedOk(s, i);
    CleanEnd(s, i);
  }

  /** Message i was added to wg in t exactly if it was in s. */
  predicate SameAdded(s: State, t: State, i: nat) {
    (i < |t.msgs| && Added(t.msgs[i])) <==> (i < |s.msgs| && Added(s.msgs[i]))
  }

  lemma MsgStepAdded(s: State, a: Action, i: nat)
    requires LocalInv(s) && GateInv(s) && !s.accepting && MsgStep(s, a).Some?
    ensures SameAdded(s, MsgStep(s, a).value, i)
  {
    var j, l := MsgStepMoves(s, a);
    assert MsgOk(s, j) && AdmittedOk(s, j);
  }

  lemma OtherStepAdded(s: State, a: Action, i: nat)
    requires LocalInv(s) && WalkInv(s) && Step(s, a).Some? && !(a.Cb? || a.Select? || a.Wk? || a.Return?)
    ensures SameAdded(s, Step(s, a).value, i)
  {
    OtherStepPcs(s, a, i);
  }

  /** The waiter never turns back after it has shut the gate. */
  lemma WaiterStays(s: State, a: Action)
    requires LifeInv(s) && WaiterShutGate(s.waiter) && Step(s, a).Some?
    ensures WaiterShutGate(Step(s, a).value.waiter)
    ensures s.waiter.WtDone? ==> Step(s, a).value.waiter.WtDone?
  {
    if a.Waiter? {
      assert WaiterStep(s) == Step(s, a);
    } else {
      OthersLeaveWaiter(s, a);
    }
  }

  lemma OthersLeaveWaiter(s: State, a: Action)
    requires Step(s, a).Some? && !a.Waiter? && (a.SpawnWaiter? ==> WaiterRuns(s.life))
    ensures Step(s, a).value.waiter == s.waiter
  {
  }

  lemma {:induction false} AddedOverRun(s: State, acts: seq<Action>, i: nat)
    requires Inv(s) && WaiterShutGate(s.waiter) && Run(s, acts).Some?
    ensures SameAdded(s, Run(s, acts).value, i)
    decreases |acts|
  {
    if acts != [] {
      var a := acts[0];
      if a.Cb? || a.Select? || a.Wk? || a.Return? {
        MsgStepAdded(s, a, i);
      } else {
        OtherStepAdded(s, a, i);
      }
      StepKeeps(s, a);
      WaiterStays(s, a);
      AddedOverRun(Step(s, a).value, acts[1..], i);
    }
  }

  /** What a clean drain handles, exactly: the messages of any kind and any Start that
      were added to wg before the waiter shut the gate, however late their workers start
      and whatever became of the connection. The handler of any other message is never
      called. */
  lemma CleanDrainExact(s: State, acts: seq<Action>, t: State, i: nat)
    requires Reachable(s) && WaiterShutGate(s.waiter) && Run(s, acts) == Some(t) && DrainedClean(t.life)
    requires HasMsg(t, i)
    ensures Handled(t, i) <==> i < |s.msgs| && Added(s.msgs[i])
    ensures Handled(t, i) || (t.msgs[i].wk.WkNone? && Called !in t.msgs[i].log)
  {
    ReachableInv(s);
    RunKeeps(s, acts);
    AddedOverRun(s, acts, i);
    CleanEnd(t, i);
  }

  // ---------- Failed Starts ----------

  /** The Starts numbered below g have all failed and returned. */
  ghost predicate Isolated(s: State, g: nat) {
    g <= s.starts && (g < s.starts || s.life.Created?)
  }

  lemma IsolatedNotAdding(s: State, g: nat, i: nat)
    requires LifeInv(s) && GateInv(s) && Isolated(s, g) && HasMsg(s, i) && RecvOf(s, i).gen < g
    ensures !Adding(s.msgs[i].cb)
  {
    assert AdmittedOk(s, i);
  }

  lemma IsolatedStep(s: State, a: Action, g: nat)
    requires Isolated(s, g) && Step(s, a).Some?
    ensures Isolated(Step(s, a).value, g)
  {
  }

  /** If message i of an early Start is spawned in t, it already was in s. */
  predicate NoNewSpawn(s: State, t: State, g: nat, i: nat) {
    HasMsg(t, i) && RecvOf(t, i).gen < g && Spawned(t.msgs[i]) ==> i < |s.msgs| && Spawned(s.msgs[i])
  }

  lemma IsolatedMsgStep(s: State, a: Action, g: nat, i: nat)
    requires LocalInv(s) && LifeInv(s) && GateInv(s) && Isolated(s, g) && MsgStep(s, a).Some?
    ensures NoNewSpawn(s, MsgStep(s, a).value, g, i)
  {
    var j, l := MsgStepMoves(s, a);
    if RecvOf(s, j).gen < g {
      IsolatedNotAdding(s, g, j);
    }
  }

  /** The steps of the other threads spawn nothing. */
  lemma OtherStepSpawnsNone(s: State, a: Action, i: nat)
    requires LocalInv(s) && WalkInv(s) && Step(s, a).Some? && !(a.Cb? || a.Select? || a.Wk? || a.Return?)
    ensures var t := Step(s, a).value; i < |t.msgs| && Spawned(t.msgs[i]) ==> i < |s.msgs| && Spawned(s.msgs[i])
  {
    OtherStepPcs(s, a, i);
  }

  lemma NoNewSpawnTrans(s: State, u: State, t: State, g: nat, i: nat)
    requires NoNewSpawn(s, u, g, i) && NoNewSpawn(u, t, g, i) && Later(u, t) && LocalInv(u)
    ensures NoNewSpawn(s, t, g, i)
  {
    if i < |u.msgs| {
      assert MsgOk(u, i) && LaterMsg(u.msgs[i], t.msgs[i]) && SameRecv(u, t, u.msgs[i].recv);
    }
  }

  lemma {:induction false} NoSpawnFrom(s: State, acts: seq<Action>, g: nat, i: nat)
    requires Inv(s) && Isolated(s, g) && Run(s, acts).Some?
    ensures NoNewSpawn(s, Run(s, acts).value, g, i)
    decreases |acts|
  {
    if acts != [] {
      var a := acts[0];
      var u := Step(s, a).value;
      if a.Cb? || a.Select? || a.Wk? || a.Return? {
        IsolatedMsgStep(s, a, g, i);
      } else {
        OtherStepSpawnsNone(s, a, i);
      }
      StepKeeps(s, a);
      IsolatedStep(s, a, g);
      NoSpawnFrom(u, acts[1..], g, i);
      RunLater(u, acts[1..]);
      NoNewSpawnTrans(s, u, Run(s, acts).value, g, i);
    }
  }

  /** Start number gen has failed and returned. */
  predicate FailedStart(s: State, gen: nat) { gen < Current(s) || (gen == Current(s) && s.life.Created?) }

  /** Once a failed Start has returned, no callback it opened is admitted by the
      gate any more, whatever later Starts do: the messages that ever get a worker are
      exactly those counted in wg already, or whose worker has ended. */
  lemma FailedStartSpawnsNoMore(s: State, acts: seq<Action>, t: State, i: nat)
    requires Reachable(s) && Run(s, acts) == Some(t)
    requires HasMsg(t, i) && FailedStart(s, RecvOf(t, i).gen)
    ensures !Adding(t.msgs[i].cb)
    ensures Spawned(t.msgs[i]) <==> i < |s.msgs| && Added(s.msgs[i])
  {
    ReachableInv(s);
    RunKeeps(s, acts);
    var g := RecvOf(t, i).gen + 1;
    NoSpawnFrom(s, acts, g, i);
    RunIsolated(s, acts, g);
    IsolatedNotAdding(t, g, i);
    if i < |s.msgs| {
      RunLater(s, acts);
      assert MsgOk(s, i) && LaterMsg(s.msgs[i], t.msgs[i]) && SameRecv(s, t, s.msgs[i].recv);
      IsolatedNotAdding(s, g, i);
    }
  }

  /** Message i has a worker after the run. */
  predicate GetsWorker(s: State, acts: seq<Action>, i: nat) {
    var t := Run(s, acts);
    t.Some? && i < |t.value.msgs| && !t.value.msgs[i].wk.WkNone?
  }

  /** A message of a failed Start that has no worker yet gets one in some later run
      exactly when its callback stands before the go statement. */
  lemma LateSpawnExact(s: State, i: nat)
    requires Reachable(s) && HasMsg(s, i) && FailedStart(s, RecvOf(s, i).gen) && s.msgs[i].wk.WkNone?
    ensures (exists acts: seq<Action> :: GetsWorker(s, acts, i)) <==> s.msgs[i].cb.CbSpawn?
  {
    ReachableInv(s);
    if s.msgs[i].cb.CbSpawn? {
      assert [Cb(i)][1..] == [];
      assert GetsWorker(s, [Cb(i)], i);
    }
    forall acts: seq<Action> | GetsWorker(s, acts, i) ensures s.msgs[i].cb.CbSpawn? {
      RunLater(s, acts);
      var t := Run(s, acts).value;
      assert SameRecv(s, t, s.msgs[i].recv) && LaterMsg(s.msgs[i], t.msgs[i]);
      NoSpawnFrom(s, acts, RecvOf(s, i).gen + 1, i);
    }
  }

  lemma {:induction false} RunIsolated(s: State, acts: seq<Action>, g: nat)
    requires Isolated(s, g) && Run(s, acts).Some?
    ensures Isolated(Run(s, acts).value, g)
    decreases |acts|
  {
    if acts != [] {
      IsolatedStep(s, acts[0], g);
      RunIsolated(Step(s, acts[0]).value, acts[1..], g);
    }
  }

  /** An acking delivery that got no worker, because dispatch refused it, is
      nacked exactly once instead, as abandoned before its handler ran, once its
      callback and any abandonment by Stop are over. */
  lemma RefusedMeansOneNak(s: State, i: nat)
    requires Reachable(s) && HasMsg(s, i) && Acks(s, i) && !Spawned(s.msgs[i]) && Finished(s, i)
    ensures s.msgs[i].log == [Nacked(Abandoned(false))] && s.msgs[i].st == Settled && i !in s.pending
  {
    ReachableInv(s);
    var log := s.msgs[i].log;
    assert MsgOk(s, i);
    DigestSays(true, log);
    forall k | 0 <= k < |log| ensures log[k] == Nacked(Abandoned(false)) {
      GoodLog(true, log, k);
      assert log[k] in log;
    }
    OnlyAttempts(true, log);
  }

  // ---------- At rest ----------

  /** A receiver whose context is cancelled was asked to close. */
  ghost predicate AskedInv(s: State) {
    forall c <- s.recvs :: c.gen in s.cancelled ==> c.status != Open
  }

  lemma StatusAsked(s: State, r: nat, st: Status)
    requires AskedInv(s) && r < |s.recvs| && st != Open
    ensures AskedInv(SetStatus(s, r, st))
  {
    var t := SetStatus(s, r, st);
    forall k | 0 <= k < |t.recvs| && t.recvs[k].gen in t.cancelled ensures t.recvs[k].status != Open {
      assert s.recvs[k] in s.recvs;
    }
  }

  lemma CancelAsked(s: State)
    requires Inv(s) && AskedInv(s) && ShutStep(s, CancelHandlers).Some?
    ensures AskedInv(ShutStep(s, CancelHandlers).value)
  {
    assert AllAsked(s);
  }

  lemma OpenAsked(s: State, kind: Kind)
    requires LifeInv(s) && AskedInv(s) && StartStep(s, OpenRecv(kind)).Some?
    ensures AskedInv(StartStep(s, OpenRecv(kind)).value)
  {
    assert s.starts - 1 !in s.cancelled;
  }

  /** The other actions neither cancel nor touch a receiver. */
  lemma OtherAsked(s: State, a: Action)
    requires Step(s, a).Some? && !a.CancelHandlers? && !a.OpenRecv?
    requires !(a.AskClose? || a.CloseRecv? || a.LoseRecv?)
    ensures Step(s, a).value.recvs == s.recvs && Step(s, a).value.cancelled == s.cancelled
  {
  }

  lemma StepAsked(s: State, a: Action)
    requires Inv(s) && AskedInv(s) && Step(s, a).Some?
    ensures AskedInv(Step(s, a).value)
  {
    if a.CancelHandlers? {
      CancelAsked(s);
    } else if a.OpenRecv? {
      OpenAsked(s, a.kind);
    } else if a.AskClose? {
      StatusAsked(s, a.r, Closing);
    } else if a.CloseRecv? || a.LoseRecv? {
      StatusAsked(s, a.r, Closed);
    } else {
      OtherAsked(s, a);
    }
  }

  lemma {:induction false} RunAsked(s: State, acts: seq<Action>)
    requires Inv(s) && AskedInv(s) && Run(s, acts).Some?
    ensures AskedInv(Run(s, acts).value)
    decreases |acts|
  {
    if acts != [] {
      StepAsked(s, acts[0]);
      StepKeeps(s, acts[0]);
      RunAsked(Step(s, acts[0]).value, acts[1..]);
    }
  }

  /** Whenever Start can be called, and once Stop has returned, the gate is shut, the context
      of every Start is cancelled and every receiver any of them opened was asked to close.
      No context is cancelled while its Start is open or running. */
  lemma AtRest(s: State)
    requires Reachable(s)
    ensures s.life.Created? || s.life.Stopped? ==>
      && !s.accepting && (forall g: nat :: g < s.starts ==> g in s.cancelled)
      && forall c <- s.recvs :: c.status != Open
    ensures s.life.Opening? || s.life.Started? ==> s.accepting && Current(s) !in s.cancelled
  {
    ReachableInv(s);
    var cap: nat, acts: seq<Action> :| cap > 0 && Run(Init(cap), acts) == Some(s);
    InitInv(cap);
    RunAsked(Init(cap), acts);
  }

  // ---------- Slots and the wait group ----------

  /** The slots taken are the callbacks between select and go plus the workers that
      have not released theirs; each message takes at most one and gives it back
      exactly once. */
  lemma SlotsConserved(s: State, i: nat)
    requires Reachable(s) && HasMsg(s, i)
    ensures s.tokens == Sum(s.msgs, Held) && 0 <= s.tokens <= s.cap
    ensures s.msgs[i].freed <= s.msgs[i].took <= 1 && s.msgs[i].took == s.msgs[i].freed + Held(s.msgs[i])
    ensures Held(s.msgs[i]) == 1 ==> s.tokens > 0
    ensures Finished(s, i) ==> s.msgs[i].took == s.msgs[i].freed
  {
    ReachableInv(s);
    assert MsgOk(s, i);
    SumAtLeast(s.msgs, i, Held);
  }

  /** 1 for a message whose handler is running. */
  function InHandler(m: Msg): nat { if m.wk.WkHandling? then 1 else 0 }

  /** At most concurrency handlers run at once, over all receivers and Starts. */
  lemma HandlersBounded(s: State)
    requires Reachable(s)
    ensures Sum(s.msgs, InHandler) <= s.cap
  {
    ReachableInv(s);
    SumLe(s.msgs, InHandler, Held);
  }

  /** wg counts exactly the messages between Add and Done, of every Start. */
  lemma WaitGroupCounts(s: State)
    requires Reachable(s)
    ensures s.wg == Sum(s.msgs, Counted) >= 0
  {
    ReachableInv(s);
  }

  lemma MsgAddsNothing(s: State, a: Action)
    requires Inv(s) && WaiterShutGate(s.waiter) && MsgStep(s, a).Some?
    ensures MsgStep(s, a).value.wg <= s.wg
  {
    var i, l := MsgStepMoves(s, a);
    assert AdmittedOk(s, i);
  }

  lemma OtherStepKeepsWg(s: State, a: Action)
    requires Step(s, a).Some? && !(a.Cb? || a.Select? || a.Wk? || a.Return?)
    ensures Step(s, a).value.wg == s.wg
  {
  }

  /** Once the waiter has shut the gate, no step adds to wg. */
  lemma NoAddAfterGate(s: State, a: Action)
    requires Reachable(s) && WaiterShutGate(s.waiter) && Step(s, a).Some?
    ensures Step(s, a).value.wg <= s.wg
  {
    ReachableInv(s);
    if a.Cb? || a.Select? || a.Wk? || a.Return? {
      MsgAddsNothing(s, a);
    } else {
      OtherStepKeepsWg(s, a);
    }
  }

  /** wg.Wait returning means that no worker is live, and none ever will be. */
  lemma WaitMeansNoWorkers(s: State, acts: seq<Action>, t: State, i: nat)
    requires Reachable(s) && s.waiter.WtDone? && Run(s, acts) == Some(t) && i < |t.msgs|
    ensures t.waiter.WtDone? && t.wg == 0 && Counted(t.msgs[i]) == 0
    ensures Spawned(t.msgs[i]) ==> t.msgs[i].wk.WkDone?
  {
    ReachableInv(s);
    RunKeeps(s, acts);
    WaiterStaysDone(s, acts);
    SumAtLeast(t.msgs, i, Counted);
  }

  lemma {:induction false} WaiterStaysDone(s: State, acts: seq<Action>)
    requires s.waiter.WtDone? && Run(s, acts).Some? && Inv(s)
    ensures Run(s, acts).value.waiter.WtDone?
    decreases |acts|
  {
    if acts != [] {
      StepKeeps(s, acts[0]);
      WaiterStays(s, acts[0]);
      WaiterStaysDone(Step(s, acts[0]).value, acts[1..]);
    }
  }

}
