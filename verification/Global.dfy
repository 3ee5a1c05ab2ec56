/** The invariant of the whole system, and its preservation by every step. */
module Global {
  import opened Deliveries
  import opened Protocol
  import opened Wrappers
  import opened Invariant
  import opened Summary
  import opened Sums

  // ---------- The invariant ----------

  predicate Acks(s: State, i: nat)
    requires HasMsg(s, i)
  {
    RecvOf(s, i).kind == JsAck
  }

  /** Message i and what else belongs to it: log, state, owner, pending. */
  predicate MsgOk(s: State, i: nat) {
    HasMsg(s, i) && LocalOk(s.msgs[i], Acks(s, i), i in s.pending, StopPhase(s.life, i))
  }

  ghost predicate LocalInv(s: State) {
    && (forall i: nat :: i < |s.msgs| ==> MsgOk(s, i))
    && (forall i :: i in s.pending ==> i < |s.msgs|)
  }

  /** The counters are the threads they count. */
  predicate CountInv(s: State) {
    && s.cap > 0
    && s.tokens == Sum(s.msgs, Held) <= s.cap
    && s.wg == Sum(s.msgs, Counted)
  }

  /** The latest Start's context is cancelled. */
  predicate CtxDone(l: Life) {
    l.Created? || l.AbortGate? || l.StopGate? || l.Snapshot? || PastSnapshot(l) || l.CloseClient? || l.Stopped?
  }

  predicate PastSnapshot(l: Life) {
    l.Walking? || l.WalkUntrack? || l.WalkNak? || l.AwaitClosed?
    || (l.CloseClient? && l.outcome.Abandon?) || (l.Stopped? && l.outcome.Abandon?)
  }

  predicate WaiterRuns(l: Life) {
    l.Selecting? || l.Cancelling? || l.StopGate? || l.Snapshot? || PastSnapshot(l) || l.CloseClient? || l.Stopped?
  }

  predicate DrainedClean(l: Life) {
    (l.Cancelling? && l.clean) || (l.CloseClient? && l.outcome.Clean?) || (l.Stopped? && l.outcome.Clean?)
  }

  predicate WaiterShutGate(w: WaitPc) { w.WtWait? || w.WtDone? }

  /** Exactly when the gate is open. */
  predicate GateOpen(s: State) {
    s.life.Opening? || s.life.Aborting? || s.life.AbortGate? || s.life.Started? || s.life.Draining?
    || ((s.life.Selecting? || s.life.Cancelling? || s.life.StopGate?) && !WaiterShutGate(s.waiter))
  }

  ghost predicate LifeInv(s: State) {
    && (s.starts == 0 ==> s.life.Created?)
    && (forall g :: g in s.cancelled ==> g < s.starts)
    && (forall g: nat :: g + 1 < s.starts ==> g in s.cancelled)
    && (s.starts > 0 ==> (s.starts - 1 in s.cancelled <==> CtxDone(s.life)))
    && (s.waiter.WtNone? <==> !WaiterRuns(s.life))
    && (s.accepting <==> GateOpen(s))
    && (DrainedClean(s.life) ==> s.waiter.WtDone?)
    && (s.waiter.WtDone? ==> s.wg == 0)
  }

  /** The connection was open when the drain ended. */
  predicate ConnHeld(s: State) {
    s.connOpen || (s.life.CloseClient? && s.life.outcome == Clean(true))
    || (s.life.Stopped? && s.life.outcome == Clean(true))
  }

  predicate ClosedInTime(l: Life) {
    (l.CloseClient? && l.outcome == Abandon(true)) || (l.Stopped? && l.outcome == Abandon(true))
  }

  predicate ClosedQuiet(s: State, i: nat)
    requires HasMsg(s, i)
  {
    RecvOf(s, i).status == Closed ==> s.msgs[i].cb == CbDone
  }

  ghost predicate RecvInv(s: State) {
    && (forall c <- s.recvs :: c.gen < s.starts)
    && (s.life.OpenGate? ==> forall c <- s.recvs :: c.gen + 1 < s.starts)
    && (forall i: nat :: HasMsg(s, i) ==> ClosedQuiet(s, i))
    && (!s.waiter.WtNone? ==> AllAsked(s))
    && (!s.waiter.WtNone? && !s.waiter.WtSubs? && ConnHeld(s) ==> SubsClosed(s))
    && (s.waiter.WtGate? || WaiterShutGate(s.waiter) ==> ConsumersClosed(s))
    && (ClosedInTime(s.life) ==> ConsumersClosed(s))
  }

  predicate AdmittedOk(s: State, i: nat)
    requires HasMsg(s, i)
  {
    && (Admitted(s.msgs[i].cb) ==> s.accepting)
    && (Adding(s.msgs[i].cb) ==>
          RecvOf(s, i).gen !in s.cancelled
          || (RecvOf(s, i).gen == Current(s) && (s.life.AbortGate? || s.life.StopGate?)))
  }

  ghost predicate GateInv(s: State) {
    forall i: nat :: HasMsg(s, i) ==> AdmittedOk(s, i)
  }

  /** From the latest Start's success, or before it, up to a clean end. */
  predicate Serving(l: Life) {
    l.Opening? || l.Started? || l.Draining? || l.Selecting? || l.Cancelling? || DrainedClean(l)
  }

  predicate ServedOk(s: State, i: nat)
    requires HasMsg(s, i)
  {
    RecvOf(s, i).gen == Current(s) && (RecvOf(s, i).kind != Core || ConnHeld(s)) ==> Unrefused(s.msgs[i])
  }

  ghost predicate ServedInv(s: State) {
    Serving(s.life) ==> forall i: nat :: HasMsg(s, i) ==> ServedOk(s, i)
  }

  /** The deliveries of the snapshot that Stop has not come to yet. */
  function Todo(l: Life): set<nat> {
    match l
    case Walking(todo) => todo
    case WalkUntrack(todo, _, _) => todo
    case WalkNak(todo, _, _) => todo
    case _ => {}
  }

  predicate WalkOk(s: State, i: nat)
    requires HasMsg(s, i)
  {
    && (PastSnapshot(s.life) && Acks(s, i) && Spawned(s.msgs[i]) && !s.msgs[i].st.Settled? ==> i in Todo(s.life))
    && (s.msgs[i].owner.ByStop? ==> PastSnapshot(s.life))
  }

  ghost predicate WalkInv(s: State) {
    && (forall i: nat :: HasMsg(s, i) ==> WalkOk(s, i))
    && (forall i :: i in Todo(s.life) ==> HasMsg(s, i) && Acks(s, i) && !s.msgs[i].cb.CbTrack?)
    && (s.life.WalkUntrack? || s.life.WalkNak? ==> HasMsg(s, s.life.at) && Acks(s, s.life.at))
  }

  ghost predicate Inv(s: State) {
    LocalInv(s) && CountInv(s) && LifeInv(s) && RecvInv(s) && GateInv(s) && ServedInv(s) && WalkInv(s)
  }

  lemma InitInv(cap: nat)
    requires cap > 0
    ensures Inv(Init(cap))
  {
  }

  // ---------- Steps of a message's threads ----------

  /** One step of a message's threads, seen from outside. */
  ghost predicate MsgMoved(s: State, i: nat, l: Local) {
    && HasMsg(s, i)
    && LocalOk(l.m, Acks(s, i), l.tracked, StopPhase(s.life, i))
    && Held(l.m) == Held(s.msgs[i]) + l.slots && Counted(l.m) == Counted(s.msgs[i]) + l.wg
    && Rank(l.m) < Rank(s.msgs[i])
    && Summarized(s.msgs[i], l, See(s, i))
  }

  lemma MsgStepMoves(s: State, a: Action) returns (i: nat, l: Local)
    requires LocalInv(s) && MsgStep(s, a).Some?
    ensures MsgMoved(s, i, l) && MsgStep(s, a) == Some(Write(s, i, l))
  {
    i := match a case Cb(i) => i case Select(i, _) => i case Wk(i) => i case Return(i, _) => i;
    assert MsgOk(s, i);
    var m, v, p := s.msgs[i], See(s, i), StopPhase(s.life, i);
    match a
    case Cb(_) =>
      l := CbMove(m, v).value;
      CbStepMoves(s, i);
    case Select(_, takeSlot) =>
      l := SelectMove(m, v, takeSlot).value;
      SelectSummary(m, v, takeSlot);
      SelectKeeps(m, Read(v.acks, m.log), v, p, takeSlot);
    case Wk(_) =>
      l := WkMove(m, v).value;
      WkStepMoves(s, i);
    case Return(_, ok) =>
      l := ReturnMove(m, v, ok).value;
      ReturnSummary(m, v, ok);
      ReturnKeeps(m, Read(v.acks, m.log), v, p, ok);
      ReadAppend(v.acks, m.log, Returned(ok));
  }

  lemma CbStepMoves(s: State, i: nat)
    requires MsgOk(s, i) && CbMove(s.msgs[i], See(s, i)).Some?
    ensures MsgMoved(s, i, CbMove(s.msgs[i], See(s, i)).value)
  {
    CbSummary(s.msgs[i], See(s, i));
    CallbackMoves(s.msgs[i], See(s, i), StopPhase(s.life, i));
  }

  lemma WkStepMoves(s: State, i: nat)
    requires MsgOk(s, i) && WkMove(s.msgs[i], See(s, i)).Some?
    ensures MsgMoved(s, i, WkMove(s.msgs[i], See(s, i)).value)
  {
    WkSummary(s.msgs[i], See(s, i));
    WorkerMoves(s.msgs[i], See(s, i), StopPhase(s.life, i));
  }

  /** GoodMove with the digest read off the log after the step. */
  predicate Moves(m: Msg, l: Local, v: Sight, p: Phase) {
    GoodMove(m, l, Read(v.acks, l.m.log), v.acks, p)
  }

  lemma CallbackMoves(m: Msg, v: Sight, p: Phase)
    requires LocalOk(m, v.acks, v.tracked, p) && CbMove(m, v).Some?
    ensures Moves(m, CbMove(m, v).value, v, p)
  {
    var d := Read(v.acks, m.log);
    if m.cb.CbNak? {
      NakKeeps(m, d, v, p);
      ReadAppend(v.acks, m.log, Nacked(Abandoned(m.cb.running)));
    } else {
      CbKeeps(m, d, v, p);
      assert CbMove(m, v).value.m.log == m.log;
    }
  }

  lemma WorkerMoves(m: Msg, v: Sight, p: Phase)
    requires LocalOk(m, v.acks, v.tracked, p) && WkMove(m, v).Some?
    ensures Moves(m, WkMove(m, v).value, v, p)
  {
    var l, d := WkMove(m, v).value, Read(v.acks, m.log);
    if m.wk.WkBegin? || m.wk.WkCall? {
      HandlerKeeps(m, d, v, p);
    } else if m.wk.WkRelease? || m.wk.WkWgDone? {
      EndKeeps(m, d, v, p);
    } else {
      SettleKeeps(m, d, v, p);
    }
    if WkEvent(m, v).Some? {
      ReadAppend(v.acks, m.log, WkEvent(m, v).value);
      assert l.m.log == m.log + [WkEvent(m, v).value];
    } else {
      assert l.m.log == m.log;
    }
  }

  lemma MsgKeepsLocal(s: State, i: nat, l: Local)
    requires LocalInv(s) && CountInv(s) && MsgMoved(s, i, l)
    ensures LocalInv(Write(s, i, l)) && CountInv(Write(s, i, l))
  {
    var t := Write(s, i, l);
    SumUpdate(s.msgs, i, l.m, Held);
    SumUpdate(s.msgs, i, l.m, Counted);
    forall j: nat | j < |t.msgs| ensures MsgOk(t, j) {
      assert MsgOk(s, j);
    }
  }

  lemma MsgKeepsRecvs(s: State, i: nat, l: Local)
    requires RecvInv(s) && MsgMoved(s, i, l)
    ensures RecvInv(Write(s, i, l))
  {
    var t := Write(s, i, l);
    forall j: nat | HasMsg(t, j) ensures ClosedQuiet(t, j) {
      assert HasMsg(s, j) && ClosedQuiet(s, j);
    }
  }

  /** Once the waiter's wg.Wait has returned, no thread changes wg. */
  lemma WgStaysZero(s: State, i: nat, l: Local)
    requires LifeInv(s) && CountInv(s) && GateInv(s) && MsgMoved(s, i, l) && s.waiter.WtDone?
    ensures s.wg + l.wg == 0
  {
    SumAtLeast(s.msgs, i, Counted);
    assert AdmittedOk(s, i);
  }

  lemma MsgKeepsLife(s: State, i: nat, l: Local)
    requires LifeInv(s) && HasMsg(s, i) && (s.waiter.WtDone? ==> s.wg + l.wg == 0)
    ensures LifeInv(Write(s, i, l))
  {
  }

  lemma MsgKeepsGate(s: State, i: nat, l: Local)
    requires GateInv(s) && MsgMoved(s, i, l)
    ensures GateInv(Write(s, i, l))
  {
    var t := Write(s, i, l);
    forall j: nat | HasMsg(t, j) ensures AdmittedOk(t, j) {
      assert HasMsg(s, j) && AdmittedOk(s, j);
    }
  }

  /** The current generation's callbacks find the gate open and their context
      live until they have all returned. */
  lemma StillServed(s: State, i: nat)
    requires LifeInv(s) && RecvInv(s) && Serving(s.life) && HasMsg(s, i)
    requires RecvOf(s, i).gen == Current(s) && (RecvOf(s, i).kind != Core || ConnHeld(s))
    ensures s.msgs[i].cb == CbDone || (s.accepting && Current(s) !in s.cancelled)
  {
    assert ClosedQuiet(s, i);
    assert RecvOf(s, i) in s.recvs;
  }

  lemma MsgKeepsServed(s: State, i: nat, l: Local)
    requires LifeInv(s) && RecvInv(s) && ServedInv(s) && MsgMoved(s, i, l)
    ensures ServedInv(Write(s, i, l))
  {
    var t := Write(s, i, l);
    if Serving(t.life) {
      forall j: nat | HasMsg(t, j) ensures ServedOk(t, j) {
        assert HasMsg(s, j) && ServedOk(s, j);
        if j == i && RecvOf(s, i).gen == Current(s) && (RecvOf(s, i).kind != Core || ConnHeld(s)) {
          StillServed(s, i);
        }
      }
    }
  }

  lemma MsgKeepsWalk(s: State, i: nat, l: Local)
    requires LifeInv(s) && GateInv(s) && WalkInv(s) && MsgMoved(s, i, l)
    ensures WalkInv(Write(s, i, l))
  {
    var t := Write(s, i, l);
    forall j: nat | HasMsg(t, j) ensures WalkOk(t, j) {
      assert HasMsg(s, j) && WalkOk(s, j) && AdmittedOk(s, j);
    }
  }

  lemma MsgKeeps(s: State, a: Action)
    requires Inv(s) && MsgStep(s, a).Some?
    ensures Inv(MsgStep(s, a).value)
  {
    var i, l := MsgStepMoves(s, a);
    MsgKeepsLocal(s, i, l);
    if s.waiter.WtDone? {
      WgStaysZero(s, i, l);
    }
    MsgKeepsLife(s, i, l);
    MsgKeepsRecvs(s, i, l);
    MsgKeepsGate(s, i, l);
    MsgKeepsServed(s, i, l);
    MsgKeepsWalk(s, i, l);
  }

  // ---------- Steps of Stop's walk ----------

  /** A step of abandon on message i, as a change of its phase. */
  ghost predicate WalkMoved(s: State, t: State, i: nat) {
    && HasMsg(s, i) && i < |t.msgs| && Acks(s, i)
    && t == s.(msgs := s.msgs[i := t.msgs[i]], pending := t.pending, life := t.life)
    && t.pending <= s.pending
    && (forall j :: j != i ==> (j in t.pending <==> j in s.pending))
    && (forall j: nat :: j != i ==> StopPhase(t.life, j) == StopPhase(s.life, j))
    && t.msgs[i] == s.msgs[i].(st := t.msgs[i].st, owner := t.msgs[i].owner, log := t.msgs[i].log)
    && PastSnapshot(s.life) && PastSnapshot(t.life) && !ClosedInTime(s.life) && !ClosedInTime(t.life)
    && (forall j :: j in Todo(t.life) ==> j in Todo(s.life))
    && (forall j :: j in Todo(s.life) ==> j in Todo(t.life) || (j == i && t.msgs[i].st.Settled?))
    && (t.life.WalkUntrack? || t.life.WalkNak? ==> t.life.at == i)
    && Precedes(s.msgs[i].st, t.msgs[i].st)
    && s.msgs[i].log <= t.msgs[i].log && (Began in t.msgs[i].log ==> Began in s.msgs[i].log)
  }

  predicate WalkLocal(t: State, i: nat) {
    i < |t.msgs| && LocalOk(t.msgs[i], true, i in t.pending, StopPhase(t.life, i))
  }

  /** Settling by Stop, on one message. */
  lemma StopSettleKeeps(m: Msg, d: Digest, tracked: bool)
    requires DigestOk(m, d, true, tracked, Idle) && m.st != Settled && !m.cb.CbTrack?
    ensures DigestOk(m.(st := Settled, owner := ByStop), d, true, tracked, Untracking(m.st == Running))
  {
  }

  lemma StopUntrackKeeps(m: Msg, d: Digest, tracked: bool, running: bool)
    requires DigestOk(m, d, true, tracked, Untracking(running))
    ensures DigestOk(m, d, true, false, Nacking(running))
  {
  }

  lemma StopNakKeeps(m: Msg, d: Digest, tracked: bool, running: bool)
    requires DigestOk(m, d, true, tracked, Nacking(running))
    ensures DigestOk(m.(log := m.log + [Nacked(Abandoned(running))]),
                     Absorb(true, d, Nacked(Abandoned(running))), true, tracked, Idle)
  {
  }

  lemma SettleStepMoves(s: State, i: nat)
    requires LocalInv(s) && WalkInv(s) && SettleStep(s, i).Some?
    ensures WalkMoved(s, SettleStep(s, i).value, i)
    ensures WalkLocal(SettleStep(s, i).value, i)
  {
    assert MsgOk(s, i);
    if s.msgs[i].st != Settled {
      StopSettleKeeps(s.msgs[i], Read(true, s.msgs[i].log), i in s.pending);
    }
  }

  lemma AbandonStepFrame(s: State)
    requires WalkInv(s) && AbandonStep(s).Some?
    ensures WalkMoved(s, AbandonStep(s).value, s.life.at)
  {
  }

  lemma AbandonStepLocal(s: State)
    requires LocalInv(s) && WalkInv(s) && AbandonStep(s).Some?
    ensures WalkLocal(AbandonStep(s).value, s.life.at)
  {
    var i, running := s.life.at, s.life.running;
    assert MsgOk(s, i);
    var log, tracked := s.msgs[i].log, i in s.pending;
    if s.life.WalkUntrack? {
      StopUntrackKeeps(s.msgs[i], Read(true, log), tracked, running);
    } else {
      StopNakKeeps(s.msgs[i], Read(true, log), tracked, running);
      ReadAppend(true, log, Nacked(Abandoned(running)));
    }
  }

  lemma WalkKeepsLocal(s: State, t: State, i: nat)
    requires LocalInv(s) && CountInv(s) && WalkMoved(s, t, i)
    requires WalkLocal(t, i)
    ensures LocalInv(t) && CountInv(t)
  {
    SumUpdate(s.msgs, i, t.msgs[i], Held);
    SumUpdate(s.msgs, i, t.msgs[i], Counted);
    forall j: nat | j < |t.msgs| ensures MsgOk(t, j) {
      assert MsgOk(s, j);
    }
  }

  lemma WalkKeepsLife(s: State, t: State, i: nat)
    requires LifeInv(s) && RecvInv(s) && WalkMoved(s, t, i)
    ensures LifeInv(t) && RecvInv(t) && ServedInv(t)
  {
    forall j: nat | HasMsg(t, j) ensures ClosedQuiet(t, j) {
      assert HasMsg(s, j) && ClosedQuiet(s, j);
    }
  }

  lemma WalkKeepsGate(s: State, t: State, i: nat)
    requires GateInv(s) && WalkInv(s) && WalkMoved(s, t, i)
    ensures GateInv(t) && WalkInv(t)
  {
    forall j: nat | HasMsg(t, j) ensures AdmittedOk(t, j) && WalkOk(t, j) {
      assert HasMsg(s, j) && AdmittedOk(s, j) && WalkOk(s, j);
    }
  }

  lemma WalkKeeps(s: State, t: State, i: nat)
    requires Inv(s) && WalkMoved(s, t, i) && WalkLocal(t, i)
    ensures Inv(t)
  {
    WalkKeepsLocal(s, t, i);
    WalkKeepsLife(s, t, i);
    WalkKeepsGate(s, t, i);
  }

  lemma StopWalkKeeps(s: State, a: Action)
    requires Inv(s) && (a.WalkSettle? || a.WalkNext?) && Step(s, a).Some?
    ensures Inv(Step(s, a).value)
  {
    match a
    case WalkSettle(i) =>
      SettleStepMoves(s, i);
      WalkKeeps(s, Step(s, a).value, i);
    case WalkNext =>
      AbandonStepFrame(s);
      AbandonStepLocal(s);
      WalkKeeps(s, Step(s, a).value, s.life.at);
  }

  // ---------- Steps that leave the messages alone ----------

  /** Only receivers, gate, contexts and program counters change. */
  predicate SameMsgs(s: State, t: State) {
    && t.msgs == s.msgs && t.tokens == s.tokens && t.wg == s.wg && t.cap == s.cap && t.pending == s.pending
    && (t.life == s.life
        || (!s.life.WalkUntrack? && !s.life.WalkNak? && !t.life.WalkUntrack? && !t.life.WalkNak?))
    && |s.recvs| <= |t.recvs| && forall r :: 0 <= r < |s.recvs| ==>
         s.recvs[r].gen == t.recvs[r].gen && s.recvs[r].kind == t.recvs[r].kind
  }

  lemma SameKeepsLocal(s: State, t: State)
    requires LocalInv(s) && CountInv(s) && SameMsgs(s, t)
    ensures LocalInv(t) && CountInv(t)
  {
    forall i: nat | i < |t.msgs| ensures MsgOk(t, i) {
      assert MsgOk(s, i);
    }
  }

  /** What the invariant says about message i besides its own state. */
  predicate Each(s: State, i: nat)
    requires HasMsg(s, i)
  {
    ClosedQuiet(s, i) && AdmittedOk(s, i) && WalkOk(s, i) && (Serving(s.life) ==> ServedOk(s, i))
  }

  /** What the lifecycle and the waiter know of the receivers. */
  ghost predicate RecvsOk(s: State) {
    && (forall c <- s.recvs :: c.gen < s.starts)
    && (s.life.OpenGate? ==> forall c <- s.recvs :: c.gen + 1 < s.starts)
    && (!s.waiter.WtNone? ==> AllAsked(s))
    && (!s.waiter.WtNone? && !s.waiter.WtSubs? && ConnHeld(s) ==> SubsClosed(s))
    && (s.waiter.WtGate? || WaiterShutGate(s.waiter) ==> ConsumersClosed(s))
    && (ClosedInTime(s.life) ==> ConsumersClosed(s))
  }

  /** What Stop's walk knows of the messages it still holds. */
  ghost predicate TodoOk(s: State) {
    && (forall i :: i in Todo(s.life) ==> HasMsg(s, i) && Acks(s, i) && !s.msgs[i].cb.CbTrack?)
    && (s.life.WalkUntrack? || s.life.WalkNak? ==> HasMsg(s, s.life.at) && Acks(s, s.life.at))
  }

  ghost predicate RestInv(s: State) { RecvsOk(s) && TodoOk(s) }

  lemma Apart(s: State, i: nat)
    requires Inv(s) && HasMsg(s, i)
    ensures Each(s, i)
  {
  }

  lemma Together(s: State)
    requires LocalInv(s) && CountInv(s) && LifeInv(s) && RestInv(s)
    requires forall i: nat :: HasMsg(s, i) ==> Each(s, i)
    ensures Inv(s)
  {
    forall i: nat | HasMsg(s, i)
      ensures ClosedQuiet(s, i) && AdmittedOk(s, i) && WalkOk(s, i) && (Serving(s.life) ==> ServedOk(s, i))
    {
      assert Each(s, i);
    }
  }

  lemma ArriveRest(s: State, r: nat)
    requires LifeInv(s) && RestInv(s) && EnvStep(s, Arrive(r)).Some?
    ensures LifeInv(EnvStep(s, Arrive(r)).value) && RestInv(EnvStep(s, Arrive(r)).value)
  {
  }

  /** A message arrives. */
  lemma ArriveKeeps(s: State, r: nat)
    requires Inv(s) && EnvStep(s, Arrive(r)).Some?
    ensures Inv(EnvStep(s, Arrive(r)).value)
  {
    var t := EnvStep(s, Arrive(r)).value;
    InvRest(s);
    ArriveRest(s, r);
    ArriveKeepsLocal(s, r);
    forall i: nat | HasMsg(t, i) ensures Each(t, i) {
      ArriveKeepsEach(s, r, i);
    }
    Together(t);
  }

  lemma ArriveKeepsLocal(s: State, r: nat)
    requires LocalInv(s) && CountInv(s) && WalkInv(s) && EnvStep(s, Arrive(r)).Some?
    ensures LocalInv(EnvStep(s, Arrive(r)).value) && CountInv(EnvStep(s, Arrive(r)).value)
  {
    var t, n := EnvStep(s, Arrive(r)).value, |s.msgs|;
    SumAppend(s.msgs, t.msgs[n], Held);
    SumAppend(s.msgs, t.msgs[n], Counted);
    forall i: nat | i < |t.msgs| ensures MsgOk(t, i) {
      assert i < n ==> MsgOk(s, i);
    }
  }

  lemma ArriveKeepsEach(s: State, r: nat, i: nat)
    requires Inv(s) && EnvStep(s, Arrive(r)).Some? && HasMsg(EnvStep(s, Arrive(r)).value, i)
    ensures Each(EnvStep(s, Arrive(r)).value, i)
  {
    if i < |s.msgs| {
      assert HasMsg(s, i);
      Apart(s, i);
    }
  }

  /** A receiver changes status: asked to close, or closed once it is quiet. */
  lemma StatusKeeps(s: State, r: nat, st: Status)
    requires Inv(s) && r < |s.recvs| && st != Open
    requires if st == Closed then Quiet(s, r) else s.recvs[r].status == Open
    ensures Inv(SetStatus(s, r, st))
  {
    var t := SetStatus(s, r, st);
    SameKeepsLocal(s, t);
    StatusKeepsRest(s, r, st);
    forall i: nat | HasMsg(t, i) ensures Each(t, i) {
      Apart(s, i);
    }
    Together(t);
  }

  lemma StatusKeepsRest(s: State, r: nat, st: Status)
    requires RestInv(s) && r < |s.recvs| && st != Open && (s.recvs[r].status == Closed ==> st == Closed)
    ensures RestInv(SetStatus(s, r, st))
  {
    var t := SetStatus(s, r, st);
    forall c | c in t.recvs
      ensures exists b :: b in s.recvs && b.gen == c.gen && b.kind == c.kind && (c.status == b.status || c.status == st)
    {
      var k :| 0 <= k < |t.recvs| && t.recvs[k] == c;
      assert s.recvs[k] in s.recvs;
    }
  }

  lemma EnvKeeps(s: State, a: Action)
    requires Inv(s) && EnvStep(s, a).Some?
    ensures Inv(EnvStep(s, a).value)
  {
    match a
    case Arrive(r) => ArriveKeeps(s, r);
    case CloseRecv(r) => StatusKeeps(s, r, Closed);
    case LoseRecv(r) => StatusKeeps(s, r, Closed);
    case LoseConn => LoseConnKeeps(s);
  }

  lemma LoseConnKeeps(s: State)
    requires Inv(s)
    ensures Inv(s.(connOpen := false))
  {
    var t := s.(connOpen := false);
    SameKeepsLocal(s, t);
    forall i: nat | HasMsg(t, i) ensures Each(t, i) {
      Apart(s, i);
    }
    Together(t);
  }

  lemma InvRest(s: State)
    requires Inv(s)
    ensures RestInv(s)
  {
  }

  /** A step that leaves the messages alone keeps their own invariant. */
  lemma SameKeeps(s: State, t: State)
    requires Inv(s) && SameMsgs(s, t) && LifeInv(t) && RestInv(t)
    requires forall i: nat :: HasMsg(t, i) ==> Each(t, i)
    ensures Inv(t)
  {
    SameKeepsLocal(s, t);
    Together(t);
  }

  lemma WaiterEach(s: State, i: nat)
    requires LifeInv(s) && WaiterStep(s).Some? && HasMsg(s, i) && Each(s, i)
    ensures Each(WaiterStep(s).value, i)
  {
    assert s.msgs[i] in s.msgs;
  }

  lemma WaiterLife(s: State)
    requires LifeInv(s) && WaiterStep(s).Some?
    ensures LifeInv(WaiterStep(s).value)
  {
  }

  lemma WaiterRecvs(s: State)
    requires LifeInv(s) && RecvsOk(s) && WaiterStep(s).Some?
    ensures RecvsOk(WaiterStep(s).value)
  {
  }

  lemma WaiterTodo(s: State)
    requires TodoOk(s) && WaiterStep(s).Some?
    ensures TodoOk(WaiterStep(s).value)
  {
  }

  lemma WaiterKeeps(s: State)
    requires Inv(s) && WaiterStep(s).Some?
    ensures Inv(WaiterStep(s).value)
  {
    var t := WaiterStep(s).value;
    InvRest(s);
    WaiterLife(s);
    WaiterRecvs(s);
    WaiterTodo(s);
    forall i: nat | HasMsg(t, i) ensures Each(t, i) {
      Apart(s, i);
      WaiterEach(s, i);
    }
    SameKeeps(s, t);
  }

  lemma SetGateEach(s: State, i: nat)
    requires LifeInv(s) && RestInv(s) && SetGateStep(s).Some? && HasMsg(s, i) && Each(s, i)
    ensures Each(SetGateStep(s).value, i)
  {
    assert s.msgs[i] in s.msgs && RecvOf(s, i) in s.recvs;
  }

  lemma SetGateRest(s: State)
    requires LifeInv(s) && RestInv(s) && SetGateStep(s).Some?
    ensures LifeInv(SetGateStep(s).value) && RestInv(SetGateStep(s).value)
  {
  }

  lemma SetGateKeeps(s: State)
    requires Inv(s) && SetGateStep(s).Some?
    ensures Inv(SetGateStep(s).value)
  {
    var t := SetGateStep(s).value;
    InvRest(s);
    SetGateRest(s);
    forall i: nat | HasMsg(t, i) ensures Each(t, i) {
      Apart(s, i);
      SetGateEach(s, i);
    }
    SameKeeps(s, t);
  }

  lemma StartEach(s: State, a: Action, i: nat)
    requires LifeInv(s) && RestInv(s) && StartStep(s, a).Some? && HasMsg(s, i) && Each(s, i)
    ensures HasMsg(StartStep(s, a).value, i) && Each(StartStep(s, a).value, i)
  {
    assert RecvOf(s, i) in s.recvs;
  }

  lemma StartRest(s: State, a: Action)
    requires LifeInv(s) && RestInv(s) && StartStep(s, a).Some?
    ensures LifeInv(StartStep(s, a).value) && RestInv(StartStep(s, a).value)
  {
  }

  lemma StartKeeps(s: State, a: Action)
    requires Inv(s) && StartStep(s, a).Some?
    ensures Inv(StartStep(s, a).value)
  {
    var t := StartStep(s, a).value;
    InvRest(s);
    StartRest(s, a);
    forall i: nat | HasMsg(t, i) ensures Each(t, i) {
      assert MsgOk(s, i);
      Apart(s, i);
      StartEach(s, a, i);
    }
    SameKeeps(s, t);
  }

  lemma CancelEach(s: State, i: nat)
    requires LifeInv(s) && RestInv(s) && ShutStep(s, CancelHandlers).Some? && HasMsg(s, i) && Each(s, i)
    ensures Each(ShutStep(s, CancelHandlers).value, i)
  {
  }

  lemma CancelRest(s: State)
    requires LifeInv(s) && RestInv(s) && ShutStep(s, CancelHandlers).Some?
    ensures LifeInv(ShutStep(s, CancelHandlers).value) && RestInv(ShutStep(s, CancelHandlers).value)
  {
  }

  lemma ShutKeeps(s: State, a: Action)
    requires Inv(s) && ShutStep(s, a).Some?
    ensures Inv(ShutStep(s, a).value)
  {
    var t := ShutStep(s, a).value;
    if a.AskClose? {
      StatusKeeps(s, a.r, Closing);
    } else {
      InvRest(s);
      CancelRest(s);
      forall i: nat | HasMsg(t, i) ensures Each(t, i) {
        Apart(s, i);
        CancelEach(s, i);
      }
      SameKeeps(s, t);
    }
  }

  /** What pending says of message i. */
  predicate Tracked(s: State, i: nat) {
    && (i in s.pending ==> HasMsg(s, i) && Acks(s, i) && !s.msgs[i].cb.CbTrack?)
    && (HasMsg(s, i) && Acks(s, i) && Spawned(s.msgs[i]) && !s.msgs[i].st.Settled? ==> i in s.pending)
  }

  lemma PendingTracked(s: State, i: nat)
    requires LocalInv(s)
    ensures Tracked(s, i)
  {
    assert i < |s.msgs| ==> MsgOk(s, i);
  }

  lemma StopEach(s: State, a: Action, i: nat)
    requires StopStep(s, a).Some? && LifeInv(s) && HasMsg(s, i) && Each(s, i) && Tracked(s, i)
    ensures Each(StopStep(s, a).value, i)
  {
  }

  lemma DoneLife(s: State, a: Action)
    requires LifeInv(s) && StopStep(s, a).Some? && (a.SpawnWaiter? || a.TakeDone?)
    ensures LifeInv(StopStep(s, a).value)
  {
  }

  lemma StopLife(s: State, a: Action)
    requires LifeInv(s) && StopStep(s, a).Some? && !a.SpawnWaiter? && !a.TakeDone?
    ensures LifeInv(StopStep(s, a).value)
  {
  }

  /** RecvsOk as far as it depends on the receivers only. */
  lemma RecvsOkFrame(s: State, t: State)
    requires RecvsOk(s) && t.recvs == s.recvs && t.starts == s.starts && t.waiter == s.waiter && !t.life.OpenGate?
    requires ConnHeld(t) ==> ConnHeld(s)
    requires ClosedInTime(t.life) ==> ClosedInTime(s.life) || ConsumersClosed(s)
    ensures RecvsOk(t)
  {
  }

  lemma StopRecvs(s: State, a: Action)
    requires LifeInv(s) && RecvsOk(s) && StopStep(s, a).Some? && !a.SpawnWaiter?
    ensures RecvsOk(StopStep(s, a).value)
  {
    RecvsOkFrame(s, StopStep(s, a).value);
  }

  lemma SpawnWaiterRecvs(s: State)
    requires LifeInv(s) && RecvsOk(s) && StopStep(s, SpawnWaiter).Some?
    ensures RecvsOk(StopStep(s, SpawnWaiter).value)
  {
  }

  lemma StopTodo(s: State, a: Action)
    requires TodoOk(s) && StopStep(s, a).Some?
    requires forall i :: i in s.pending ==> HasMsg(s, i) && Acks(s, i) && !s.msgs[i].cb.CbTrack?
    ensures TodoOk(StopStep(s, a).value)
  {
  }

  lemma StopKeeps(s: State, a: Action)
    requires Inv(s) && StopStep(s, a).Some?
    ensures Inv(StopStep(s, a).value)
  {
    var t := StopStep(s, a).value;
    InvRest(s);
    forall i | i in s.pending ensures HasMsg(s, i) && Acks(s, i) && !s.msgs[i].cb.CbTrack? {
      PendingTracked(s, i);
    }
    if a.SpawnWaiter? || a.TakeDone? {
      DoneLife(s, a);
    } else {
      StopLife(s, a);
    }
    if a.SpawnWaiter? {
      SpawnWaiterRecvs(s);
    } else {
      StopRecvs(s, a);
    }
    StopTodo(s, a);
    forall i: nat | HasMsg(t, i) ensures Each(t, i) {
      Apart(s, i);
      PendingTracked(s, i);
      StopEach(s, a, i);
    }
    SameKeeps(s, t);
  }

  // ---------- Every step, and every run ----------

  lemma StepKeeps(s: State, a: Action)
    requires Inv(s) && Step(s, a).Some?
    ensures Inv(Step(s, a).value)
  {
    if a.Arrive? || a.CloseRecv? || a.LoseRecv? || a.LoseConn? {
      EnvKeeps(s, a);
    } else if a.Cb? || a.Select? || a.Wk? || a.Return? {
      MsgKeeps(s, a);
    } else if a.Waiter? {
      WaiterKeeps(s);
    } else if a.BeginStart? || a.OpenRecv? || a.FailStart? || a.FinishStart? {
      StartKeeps(s, a);
    } else if a.SetGate? {
      SetGateKeeps(s);
    } else if a.AskClose? || a.CancelHandlers? {
      ShutKeeps(s, a);
    } else if a.WalkSettle? || a.WalkNext? {
      StopWalkKeeps(s, a);
    } else {
      StopKeeps(s, a);
    }
  }

  lemma {:induction false} RunKeeps(s: State, acts: seq<Action>)
    requires Inv(s) && Run(s, acts).Some?
    ensures Inv(Run(s, acts).value)
    decreases |acts|
  {
    if acts != [] {
      StepKeeps(s, acts[0]);
      RunKeeps(Step(s, acts[0]).value, acts[1..]);
    }
  }

  /** The invariant holds in every reachable state. */
  lemma ReachableInv(s: State)
    requires Reachable(s)
    ensures Inv(s)
  {
    var cap: nat, acts: seq<Action> :| cap > 0 && Run(Init(cap), acts) == Some(s);
    InitInv(cap);
    RunKeeps(Init(cap), acts);
  }
}
