/** The step-level receive and the methods agree: runs of the protocol in which a
    callback and its worker are let be by the other threads, but for Stop's walk, leave
    what Dispatch.Gate.Dispatch and Pending's methods promise. */
module ServeAlone {
  import opened Deliveries
  import opened Protocol
  import opened Wrappers
  import opened Invariant
  import opened Global
  import opened Runs
  import opened WalkAlone
  import D = Dispatch
  import Pending

  // ---------- Runs of one message's threads ----------

  predicate Own(a: Action, i: nat) {
    a == Cb(i) || a == Wk(i) || (a.Select? && a.i == i) || (a.Return? && a.i == i)
  }

  /** The empty step. */
  function Still(s: State, i: nat): Local
    requires HasMsg(s, i)
  {
    Local(s.msgs[i], i in s.pending, 0, 0)
  }

  /** What message i's threads see after the local step l. */
  function Seen(s: State, i: nat, l: Local): Sight
    requires HasMsg(s, i)
  {
    See(s, i).(tracked := l.tracked, slotFree := s.tokens + l.slots < s.cap)
  }

  function Move(a: Action, m: Msg, v: Sight): Option<Local> {
    match a
    case Cb(_) => CbMove(m, v)
    case Select(_, takeSlot) => SelectMove(m, v, takeSlot)
    case Wk(_) => WkMove(m, v)
    case Return(_, ok) => ReturnMove(m, v, ok)
    case _ => None
  }

  /** Adds up the slots and counts of two steps. */
  function Then(l: Local, n: Local): Local { n.(slots := l.slots + n.slots, wg := l.wg + n.wg) }

  /** Actions in the order taken, the latest outermost. */
  datatype Trail = Start | More(before: Trail, a: Action)

  function Acts(tr: Trail): seq<Action> {
    match tr case Start => [] case More(before, a) => Acts(before) + [a]
  }

  /** What actions of message i's threads come to, as one local step. */
  function Fold(s: State, i: nat, tr: Trail): Option<Local>
    requires HasMsg(s, i)
  {
    match tr
    case Start => Some(Still(s, i))
    case More(before, a) =>
      var l := Fold(s, i, before);
      if l.None? || !Own(a, i) then None
      else
        var n := Move(a, l.value.m, Seen(s, i, l.value));
        if n.None? then None else Some(Then(l.value, n.value))
  }

  predicate Goes(s: State, tr: Trail, i: nat, l: Local) {
    HasMsg(s, i) && Fold(s, i, tr) == Some(l)
  }

  lemma StillGoes(s: State, i: nat)
    requires HasMsg(s, i)
    ensures Goes(s, Start, i, Still(s, i))
  {
  }

  /** One more action of message i's threads. */
  lemma Next(s: State, tr: Trail, i: nat, l: Local, a: Action, n: Local)
    requires Goes(s, tr, i, l) && Own(a, i) && Move(a, l.m, Seen(s, i, l)) == Some(n)
    ensures Goes(s, More(tr, a), i, Then(l, n))
  {
  }

  lemma WriteTwice(s: State, i: nat, l: Local, n: Local)
    requires HasMsg(s, i) && l.m.recv == s.msgs[i].recv
    ensures HasMsg(Write(s, i, l), i) && See(Write(s, i, l), i) == Seen(s, i, l) && Write(s, i, l).msgs[i] == l.m
    ensures Write(Write(s, i, l), i, n) == Write(s, i, Then(l, n))
  {
    var t, u := Write(Write(s, i, l), i, n), Write(s, i, Then(l, n));
    assert t.msgs == u.msgs && t.pending == u.pending;
  }

  lemma MoveKeepsRecv(a: Action, m: Msg, v: Sight)
    requires Move(a, m, v).Some?
    ensures Move(a, m, v).value.m.recv == m.recv
  {
  }

  /** The actions are a run of the protocol, and it comes to just that step. */
  lemma {:induction false} GoesRuns(s: State, tr: Trail, i: nat, l: Local)
    requires Goes(s, tr, i, l)
    ensures Run(s, Acts(tr)) == Some(Write(s, i, l)) && l.m.recv == s.msgs[i].recv
    ensures forall a <- Acts(tr) :: Own(a, i)
  {
    match tr
    case Start =>
      assert s.msgs[i := s.msgs[i]] == s.msgs;
      assert (if i in s.pending then s.pending + {i} else s.pending - {i}) == s.pending;
    case More(before, a) =>
      var k := Fold(s, i, before).value;
      GoesRuns(s, before, i, k);
      MoveKeepsRecv(a, k.m, Seen(s, i, k));
      WriteTwice(s, i, k, Move(a, k.m, Seen(s, i, k)).value);
      RunSnoc(s, Acts(before), a);
  }

  /** A local step that moves the message to m. */
  function To(l: Local, m: Msg): Local { Local(m, l.tracked, 0, 0) }

  // ---------- dispatch ----------

  /** Both of dispatch's first looks. */
  predicate Passes(v: Sight) { v.accepting && !v.ctxDone }

  /** Up to the select. */
  lemma GateGoes(s: State, i: nat) returns (tr: Trail)
    requires HasMsg(s, i) && s.msgs[i].cb == CbGate
    ensures Goes(s, tr, i, To(Still(s, i), s.msgs[i].(cb := if Passes(See(s, i)) then CbSelect else CbRefused)))
  {
    StillGoes(s, i);
    var l := Still(s, i);
    if !s.accepting {
      Next(s, Start, i, l, Cb(i), To(l, l.m.(cb := CbRefused)));
      tr := More(Start, Cb(i));
    } else {
      var q := To(l, l.m.(cb := CbCtx));
      Next(s, Start, i, l, Cb(i), q);
      Next(s, More(Start, Cb(i)), i, q, Cb(i), To(l, l.m.(cb := if See(s, i).ctxDone then CbRefused else CbSelect)));
      tr := More(More(Start, Cb(i)), Cb(i));
    }
  }

  /** A message is admitted. */
  lemma AdmitGoes(s: State, tr: Trail, i: nat, l: Local) returns (out: Trail)
    requires Goes(s, tr, i, l) && l.m.cb == CbAdd
    ensures Goes(s, out, i, l.(m := l.m.(cb := CbDone, wk := WkBegin), wg := l.wg + 1))
  {
    var q := l.(m := l.m.(cb := CbUnlock), wg := l.wg + 1);
    Next(s, tr, i, l, Cb(i), Local(q.m, l.tracked, 0, 1));
    var r := q.(m := q.m.(cb := CbSpawn));
    Next(s, More(tr, Cb(i)), i, q, Cb(i), To(q, r.m));
    Next(s, More(More(tr, Cb(i)), Cb(i)), i, r, Cb(i), To(r, r.m.(cb := CbDone, wk := WkBegin)));
    out := More(More(More(tr, Cb(i)), Cb(i)), Cb(i));
  }

  /** A message is refused by the second look, and gives its slot back. */
  lemma RefuseGoes(s: State, tr: Trail, i: nat, l: Local) returns (out: Trail)
    requires Goes(s, tr, i, l) && l.m.cb == CbFailUnlock
    ensures Goes(s, out, i, l.(m := l.m.(cb := CbRefused, freed := l.m.freed + 1), slots := l.slots - 1))
  {
    var q := l.(m := l.m.(cb := CbFailRelease));
    Next(s, tr, i, l, Cb(i), To(l, q.m));
    Next(s, More(tr, Cb(i)), i, q, Cb(i), Local(q.m.(cb := CbRefused, freed := q.m.freed + 1), l.tracked, -1, 0));
    out := More(More(tr, Cb(i)), Cb(i));
  }

  /** Where the second look sends a callback that holds a slot. */
  function Looked(l: Local, v: Sight): Local {
    if Passes(v) then l.(m := l.m.(cb := CbDone, wk := WkBegin), wg := l.wg + 1)
    else l.(m := l.m.(cb := CbRefused, freed := l.m.freed + 1), slots := l.slots - 1)
  }

  lemma LookGoes(s: State, tr: Trail, i: nat, l: Local) returns (out: Trail)
    requires Goes(s, tr, i, l) && l.m.cb == CbRecheckCtx && s.accepting
    ensures Goes(s, out, i, Looked(l, See(s, i)))
  {
    var q := l.(m := l.m.(cb := if See(s, i).ctxDone then CbFailUnlock else CbAdd));
    Next(s, tr, i, l, Cb(i), To(l, q.m));
    if See(s, i).ctxDone {
      out := RefuseGoes(s, More(tr, Cb(i)), i, q);
    } else {
      out := AdmitGoes(s, More(tr, Cb(i)), i, q);
    }
  }

  lemma OpenGoes(s: State, tr: Trail, i: nat, l: Local) returns (out: Trail)
    requires Goes(s, tr, i, l) && l.m.cb == CbRecheck && s.accepting
    ensures Goes(s, out, i, Looked(l, See(s, i)))
  {
    var q := l.(m := l.m.(cb := CbRecheckCtx));
    Next(s, tr, i, l, Cb(i), To(l, q.m));
    out := LookGoes(s, More(tr, Cb(i)), i, q);
  }

  lemma ShutGoes(s: State, tr: Trail, i: nat, l: Local) returns (out: Trail)
    requires Goes(s, tr, i, l) && l.m.cb == CbRecheck && !s.accepting
    ensures Goes(s, out, i, Looked(l, See(s, i)))
  {
    var q := l.(m := l.m.(cb := CbFailUnlock));
    assert Looked(l, See(s, i)) == q.(m := q.m.(cb := CbRefused, freed := q.m.freed + 1), slots := q.slots - 1);
    Next(s, tr, i, l, Cb(i), To(l, q.m));
    out := RefuseGoes(s, More(tr, Cb(i)), i, q);
  }

  /** From the slot on. */
  lemma SlotGoes(s: State, tr: Trail, i: nat, l: Local) returns (out: Trail)
    requires Goes(s, tr, i, l) && l.m.cb == CbLock
    ensures Goes(s, out, i, Looked(l, See(s, i)))
  {
    var q := l.(m := l.m.(cb := CbRecheck));
    Next(s, tr, i, l, Cb(i), To(l, q.m));
    if s.accepting {
      out := OpenGoes(s, More(tr, Cb(i)), i, q);
    } else {
      out := ShutGoes(s, More(tr, Cb(i)), i, q);
    }
  }

  /** Where dispatch goes from its select, when the callback sees v there and later. */
  function Selected(l: Local, v: Sight, pick: bool): Local {
    if v.slotFree && (pick || !v.ctxDone) then
      if Passes(v) then Local(l.m.(cb := CbDone, wk := WkBegin, took := l.m.took + 1), l.tracked, 1, 1)
      else To(l, l.m.(cb := CbRefused, took := l.m.took + 1, freed := l.m.freed + 1))
    else if v.ctxDone then To(l, l.m.(cb := CbRefused))
    else l
  }

  lemma SelectGoes(s: State, i: nat, pick: bool) returns (tr: Trail)
    requires HasMsg(s, i) && s.msgs[i].cb == CbSelect
    ensures Goes(s, tr, i, Selected(Still(s, i), See(s, i), pick))
  {
    StillGoes(s, i);
    var l, v := Still(s, i), See(s, i);
    if v.slotFree && (pick || !v.ctxDone) {
      var q := Local(l.m.(cb := CbLock, took := l.m.took + 1), l.tracked, 1, 0);
      Next(s, Start, i, l, Select(i, true), q);
      tr := SlotGoes(s, More(Start, Select(i, true)), i, q);
    } else if v.ctxDone {
      Next(s, Start, i, l, Select(i, false), To(l, l.m.(cb := CbRefused)));
      tr := More(Start, Select(i, false));
    } else {
      tr := Start;
    }
  }

  // ---------- the worker and the refused callback ----------

  /** The deferred calls: the slot, then the count. */
  lemma EndGoes(s: State, tr: Trail, i: nat, l: Local) returns (out: Trail)
    requires Goes(s, tr, i, l) && l.m.wk == WkRelease
    ensures Goes(s, out, i, Local(l.m.(wk := WkDone, freed := l.m.freed + 1), l.tracked, l.slots - 1, l.wg - 1))
  {
    var q := l.(m := l.m.(wk := WkWgDone, freed := l.m.freed + 1), slots := l.slots - 1);
    Next(s, tr, i, l, Wk(i), Local(q.m, l.tracked, -1, 0));
    Next(s, More(tr, Wk(i)), i, q, Wk(i), Local(q.m.(wk := WkDone), l.tracked, 0, -1));
    out := More(More(tr, Wk(i)), Wk(i));
  }

  /** What a worker sends by its handler's result. */
  function Sends(ok: bool): Event { if ok then Acked else Nacked(HandlerFailed) }

  /** What a worker does once its settle has won. */
  lemma SendGoes(s: State, tr: Trail, i: nat, l: Local, ok: bool) returns (out: Trail)
    requires Goes(s, tr, i, l) && l.m.wk == WkUntrack(ok)
    ensures Goes(s, out, i, Local(l.m.(wk := WkDone, freed := l.m.freed + 1, log := l.m.log + [Sends(ok)]),
                                  false, l.slots - 1, l.wg - 1))
  {
    var q := l.(m := l.m.(wk := WkAttempt(ok)), tracked := false);
    Next(s, tr, i, l, Wk(i), To(q, q.m));
    var r := q.(m := q.m.(wk := WkRelease, log := q.m.log + [Sends(ok)]));
    Next(s, More(tr, Wk(i)), i, q, Wk(i), To(q, r.m));
    out := EndGoes(s, More(More(tr, Wk(i)), Wk(i)), i, r);
  }

  /** From settle on: the worker settles and sends, unless Stop was first. */
  lemma SettleGoes(s: State, tr: Trail, i: nat, l: Local, ok: bool) returns (out: Trail)
    requires Goes(s, tr, i, l) && l.m.wk == WkSettle(ok)
    ensures Goes(s, out, i,
      if l.m.st == Settled
      then Local(l.m.(wk := WkDone, freed := l.m.freed + 1), l.tracked, l.slots - 1, l.wg - 1)
      else Local(l.m.(wk := WkDone, freed := l.m.freed + 1, st := Settled, owner := ByWorker,
                      log := l.m.log + [Sends(ok)]), false, l.slots - 1, l.wg - 1))
  {
    if l.m.st == Settled {
      Next(s, tr, i, l, Wk(i), To(l, l.m.(wk := WkRelease)));
      out := EndGoes(s, More(tr, Wk(i)), i, l.(m := l.m.(wk := WkRelease)));
    } else {
      var q := l.(m := l.m.(wk := WkUntrack(ok), st := Settled, owner := ByWorker));
      Next(s, tr, i, l, Wk(i), To(l, q.m));
      out := SendGoes(s, More(tr, Wk(i)), i, q, ok);
    }
  }

  /** From the handler's return on. */
  lemma ReturnGoes(s: State, i: nat, ok: bool) returns (tr: Trail)
    requires HasMsg(s, i) && s.msgs[i].wk == WkHandling
    ensures var m := s.msgs[i].(wk := WkDone, freed := s.msgs[i].freed + 1, log := s.msgs[i].log + [Returned(ok)]);
      Goes(s, tr, i,
        if Acks(s, i) && m.st != Settled
        then Local(m.(st := Settled, owner := ByWorker, log := m.log + [Sends(ok)]), false, -1, -1)
        else Local(m, i in s.pending, -1, -1))
  {
    StillGoes(s, i);
    var l := Still(s, i);
    var q := To(l, l.m.(wk := if Acks(s, i) then WkSettle(ok) else WkRelease, log := l.m.log + [Returned(ok)]));
    Next(s, Start, i, l, Return(i, ok), q);
    if Acks(s, i) {
      tr := SettleGoes(s, More(Start, Return(i, ok)), i, q, ok);
    } else {
      tr := EndGoes(s, More(Start, Return(i, ok)), i, q);
    }
  }

  /** The refused callback: what Abandon promises, and nothing for a message that is not
      acked. */
  lemma RefusedGoes(s: State, i: nat) returns (tr: Trail)
    requires HasMsg(s, i) && s.msgs[i].cb == CbRefused
    ensures var m := s.msgs[i].(cb := CbDone);
      Goes(s, tr, i,
        if Acks(s, i) && m.st != Settled
        then Local(m.(st := Settled, owner := ByCallback, log := m.log + AbandonEvents(m.st)), false, 0, 0)
        else Local(m, i in s.pending, 0, 0))
  {
    StillGoes(s, i);
    var l := Still(s, i);
    if Acks(s, i) && l.m.st != Settled {
      var q := To(l, l.m.(cb := CbUntrack(l.m.st == Running), st := Settled, owner := ByCallback));
      Next(s, Start, i, l, Cb(i), q);
      var r := Local(q.m.(cb := CbNak(l.m.st == Running)), false, 0, 0);
      Next(s, More(Start, Cb(i)), i, q, Cb(i), r);
      Next(s, More(More(Start, Cb(i)), Cb(i)), i, r, Cb(i),
           To(r, r.m.(cb := CbDone, log := r.m.log + AbandonEvents(l.m.st))));
      tr := More(More(More(Start, Cb(i)), Cb(i)), Cb(i));
    } else {
      Next(s, Start, i, l, Cb(i), To(l, l.m.(cb := CbDone)));
      tr := More(Start, Cb(i));
    }
  }

  // ---------- What other threads do meanwhile ----------

  /** From s to t the other threads let message i be, but for Stop's walk when it is
      stopped. */
  predicate LetBe(s: State, t: State, i: nat, stopped: bool) {
    && HasMsg(s, i) && HasMsg(t, i) && Acks(t, i) == Acks(s, i)
    && t.msgs[i] == (if stopped then AfterAbandon(s.msgs[i]) else s.msgs[i])
    && (i in t.pending <==> i in s.pending && !(stopped && s.msgs[i].st != Settled))
  }

  /** Any actions of theirs that do. */
  predicate Meanwhile(s: State, acts: seq<Action>, t: State, i: nat, stopped: bool) {
    Run(s, acts) == Some(t) && LetBe(s, t, i, stopped)
  }

  /** Stop's walk over the one message is such a run. */
  lemma WalkComes(s: State, i: nat) returns (t: State)
    requires s.life.Walking? && i in s.life.todo && HasMsg(s, i)
    ensures Meanwhile(s, AbandonSteps(s, i), t, i, true)
  {
    t := AbandonOne(s, i);
  }

  /** What a run leaves of message i: its history grows by es, its state is st, it holds
      as many slots as before, and it is in pending if tracked. */
  predicate Leaves(s: State, t: State, i: nat, es: seq<Event>, st: DeliveryState, tracked: bool) {
    && HasMsg(s, i) && HasMsg(t, i)
    && t.msgs[i].log == s.msgs[i].log + es && t.msgs[i].st == st
    && t.msgs[i].took - t.msgs[i].freed == s.msgs[i].took - s.msgs[i].freed
    && (i in t.pending <==> tracked)
  }

  // ---------- Whole runs ----------

  /** The worker calls the handler, as it does unless the delivery is settled. */
  predicate Calls(s: State, i: nat) {
    HasMsg(s, i) && s.msgs[i].wk == WkBegin && !(Acks(s, i) && s.msgs[i].st == Settled)
  }

  /** The state when it has. */
  function Calling(s: State, i: nat): State
    requires HasMsg(s, i)
  {
    var m := s.msgs[i];
    Write(s, i, To(Still(s, i), if Acks(s, i) then m.(wk := WkHandling, st := Running, log := m.log + [Began, Called])
                                else m.(wk := WkHandling, log := m.log + [Called])))
  }

  lemma CallGoes(s: State, i: nat) returns (acts: seq<Action>)
    requires Calls(s, i)
    ensures Run(s, acts) == Some(Calling(s, i)) && forall a <- acts :: Own(a, i)
  {
    StillGoes(s, i);
    var l := Still(s, i);
    var m := l.m;
    var q := To(l, if Acks(s, i) then m.(wk := WkCall, st := Running, log := m.log + [Began]) else m.(wk := WkCall));
    Next(s, Start, i, l, Wk(i), q);
    var r := To(q, q.m.(wk := WkHandling, log := q.m.log + [Called]));
    Next(s, More(Start, Wk(i)), i, q, Wk(i), r);
    assert m.log + [Began] + [Called] == m.log + [Began, Called];
    GoesRuns(s, More(More(Start, Wk(i)), Wk(i)), i, r);
    acts := Acts(More(More(Start, Wk(i)), Wk(i)));
  }

  /** The worker of a delivery that was settled before. */
  lemma LateWorkerRuns(s: State, i: nat) returns (acts: seq<Action>, t: State)
    requires HasMsg(s, i) && s.msgs[i].wk == WkBegin && Acks(s, i) && s.msgs[i].st == Settled
    ensures Run(s, acts) == Some(t) && HasMsg(t, i) && (i in t.pending <==> i in s.pending)
    ensures t.msgs[i] == s.msgs[i].(wk := WkDone, freed := s.msgs[i].freed + 1)
  {
    StillGoes(s, i);
    var q := To(Still(s, i), s.msgs[i].(wk := WkRelease));
    Next(s, Start, i, Still(s, i), Wk(i), q);
    var tr := EndGoes(s, More(Start, Wk(i)), i, q);
    var l := Local(q.m.(wk := WkDone, freed := q.m.freed + 1), q.tracked, -1, -1);
    GoesRuns(s, tr, i, l);
    acts, t := Acts(tr), Write(s, i, l);
  }

  /** What a run from the handler's return leaves of message m. */
  function Served(m: Msg, acks: bool, ok: bool): Msg {
    var n := m.(wk := WkDone, freed := m.freed + 1);
    if acks && m.st != Settled
    then n.(st := Settled, owner := ByWorker, log := m.log + [Returned(ok)] + [Sends(ok)])
    else n.(log := m.log + [Returned(ok)])
  }

  lemma ReturnRuns(s: State, i: nat, ok: bool) returns (acts: seq<Action>, t: State)
    requires HasMsg(s, i) && s.msgs[i].wk == WkHandling
    ensures Run(s, acts) == Some(t) && HasMsg(t, i) && t.msgs[i] == Served(s.msgs[i], Acks(s, i), ok)
    ensures i in t.pending <==> i in s.pending && !(Acks(s, i) && s.msgs[i].st != Settled)
  {
    var l := Local(Served(s.msgs[i], Acks(s, i), ok),
                   i in s.pending && !(Acks(s, i) && s.msgs[i].st != Settled), -1, -1);
    var tr := ReturnGoes(s, i, ok);
    GoesRuns(s, tr, i, l);
    acts, t := Acts(tr), Write(s, i, l);
  }

  /** The history over the handler's call, what Stop did meanwhile and the return. */
  lemma ServeHistory(s: State, h: State, t: State, i: nat, stopped: bool, ok: bool)
    requires Calls(s, i) && LetBe(Calling(s, i), h, i, Acks(s, i) && stopped)
    requires HasMsg(t, i) && t.msgs[i] == Served(h.msgs[i], Acks(s, i), ok)
    ensures t.msgs[i].log == s.msgs[i].log + ServeEvents(Acks(s, i), s.msgs[i].st, stopped, ok)
  {
  }

  /** The worker's run: the history and the state are those ServeJetStream promises, the
      message leaves pending when it settles, and its slot is given back. In the handler
      the other threads do c, and Stop's walk comes by if stopped. */
  lemma ServeRuns(s: State, i: nat, c: seq<Action>, h: State, stopped: bool, ok: bool)
    returns (acts: seq<Action>, t: State)
    requires HasMsg(s, i) && s.msgs[i].wk == WkBegin
    requires Calls(s, i) ==> Meanwhile(Calling(s, i), c, h, i, Acks(s, i) && stopped)
    ensures Run(s, acts) == Some(t) && HasMsg(t, i) && t.msgs[i].wk == WkDone
    ensures t.msgs[i].freed == s.msgs[i].freed + 1 && t.msgs[i].took == s.msgs[i].took
    ensures t.msgs[i].log == s.msgs[i].log + ServeEvents(Acks(s, i), s.msgs[i].st, stopped, ok)
    ensures t.msgs[i].st == if Acks(s, i) then Settled else s.msgs[i].st
    ensures i in t.pending <==> i in s.pending && !(Acks(s, i) && s.msgs[i].st != Settled)
  {
    if !Calls(s, i) {
      acts, t := LateWorkerRuns(s, i);
      return;
    }
    var first := CallGoes(s, i);
    var last;
    last, t := ReturnRuns(h, i, ok);
    RunAppend(s, first, c);
    RunAppend(s, first + c, last);
    acts := first + c + last;
    ServeHistory(s, h, t, i, stopped, ok);
  }

  /** The refused callback's run: Abandon's promise for an acking delivery, nothing for
      another message. */
  lemma RefusedRuns(s: State, i: nat) returns (acts: seq<Action>, t: State)
    requires HasMsg(s, i) && s.msgs[i].cb == CbRefused
    ensures Run(s, acts) == Some(t) && HasMsg(t, i) && t.msgs[i].cb == CbDone && t.msgs[i].wk == s.msgs[i].wk
    ensures Leaves(s, t, i, if Acks(s, i) then AbandonEvents(s.msgs[i].st) else [],
                   if Acks(s, i) then Settled else s.msgs[i].st,
                   i in s.pending && !(Acks(s, i) && s.msgs[i].st != Settled))
  {
    var m := s.msgs[i].(cb := CbDone);
    var l := if Acks(s, i) && m.st != Settled
             then Local(m.(st := Settled, owner := ByCallback, log := m.log + AbandonEvents(m.st)), false, 0, 0)
             else Local(m, i in s.pending, 0, 0);
    var tr := RefusedGoes(s, i);
    GoesRuns(s, tr, i, l);
    acts, t := Acts(tr), Write(s, i, l);
  }

  /** dispatch's result when the callback passed its first look and sees v from its
      select on. */
  function Result(v: Sight): D.Outcome { D.Verdict(true, false, v.slotFree, v.accepting, v.ctxDone) }

  function AfterSelect(s: State, i: nat, pick: bool): State
    requires HasMsg(s, i)
  {
    Write(s, i, Selected(Still(s, i), See(s, i), pick))
  }

  /** What follows dispatch's result r. */
  function Tail(acks: bool, st: DeliveryState, r: D.Outcome, stopped: bool, ok: bool): seq<Event> {
    match r
    case Spawned => ServeEvents(acks, st, stopped, ok)
    case Refused => if acks then AbandonEvents(st) else []
    case Blocks => []
  }

  /** The run leaves what the methods promise of message i for dispatch's result r. */
  predicate LeavesTail(s: State, t: State, i: nat, r: D.Outcome, stopped: bool, ok: bool) {
    HasMsg(s, i) &&
    var acks, st := Acks(s, i), s.msgs[i].st;
    Leaves(s, t, i, Tail(acks, st, r, stopped, ok), if acks && r != D.Blocks then Settled else st,
           i in s.pending && !(acks && r != D.Blocks && st != Settled))
  }

  lemma SelectEnds(s: State, i: nat, pick: bool)
    requires HasMsg(s, i) && s.msgs[i].cb == CbSelect && s.msgs[i].wk == WkNone
    ensures var u := AfterSelect(s, i, pick);
      && HasMsg(u, i) && Acks(u, i) == Acks(s, i) && (i in u.pending <==> i in s.pending)
      && u.msgs[i].log == s.msgs[i].log && u.msgs[i].st == s.msgs[i].st
      && (match Result(See(s, i))
          case Spawned => u.msgs[i] == s.msgs[i].(cb := CbDone, wk := WkBegin, took := s.msgs[i].took + 1)
          case Refused =>
            u.msgs[i].cb == CbRefused && u.msgs[i].wk == WkNone
            && u.msgs[i].took - u.msgs[i].freed == s.msgs[i].took - s.msgs[i].freed
          case Blocks => u.msgs[i] == s.msgs[i])
  {
    WriteTwice(s, i, Selected(Still(s, i), See(s, i), pick), Still(s, i));
  }

  /** From dispatch's select to the end, or until the message waits there. */
  lemma SelectRuns(s: State, i: nat, pick: bool, c: seq<Action>, h: State, stopped: bool, ok: bool)
    returns (acts: seq<Action>, t: State)
    requires HasMsg(s, i) && s.msgs[i].cb == CbSelect && s.msgs[i].wk == WkNone
    requires var u := AfterSelect(s, i, pick);
      Calls(u, i) ==> Meanwhile(Calling(u, i), c, h, i, Acks(u, i) && stopped)
    ensures Run(s, acts) == Some(t) && LeavesTail(s, t, i, Result(See(s, i)), stopped, ok)
  {
    var u := AfterSelect(s, i, pick);
    SelectEnds(s, i, pick);
    var tr := SelectGoes(s, i, pick);
    GoesRuns(s, tr, i, Selected(Still(s, i), See(s, i), pick));
    var rest;
    match Result(See(s, i)) {
      case Spawned => rest, t := ServeRuns(u, i, c, h, stopped, ok);
      case Refused => rest, t := RefusedRuns(u, i);
      case Blocks => rest, t := [], u;
    }
    RunAppend(s, Acts(tr), rest);
    acts := Acts(tr) + rest;
  }

  /** The state when the callback has passed dispatch's first look. */
  function AtSelect(s: State, i: nat): State
    requires HasMsg(s, i)
  {
    Write(s, i, To(Still(s, i), s.msgs[i].(cb := CbSelect)))
  }

  /** dispatch's result when the callback finds s at its first look, and p at its select. */
  function Decision(s: State, i: nat, p: State): D.Outcome
    requires HasMsg(s, i) && (Passes(See(s, i)) ==> HasMsg(p, i))
  {
    var v := See(s, i);
    var w := if Passes(v) then See(p, i) else v;
    D.Verdict(v.accepting, v.ctxDone, w.slotFree, w.accepting, w.ctxDone)
  }

  /** The handler is called, so that c is what the other threads do meanwhile. */
  predicate CallMeanwhile(p: State, i: nat, pick: bool, c: seq<Action>, h: State, stopped: bool)
    requires HasMsg(p, i)
  {
    var u := AfterSelect(p, i, pick);
    Calls(u, i) ==> Meanwhile(Calling(u, i), c, h, i, Acks(u, i) && stopped)
  }

  /** From dispatch's first look to the end; the other threads do b before its select
      and c in the handler. */
  lemma GateRuns(s: State, i: nat, b: seq<Action>, p: State, pick: bool, c: seq<Action>, h: State, stopped: bool,
                 ok: bool) returns (acts: seq<Action>, t: State)
    requires HasMsg(s, i) && s.msgs[i].cb == CbGate && s.msgs[i].wk == WkNone
    requires Passes(See(s, i)) ==>
      Meanwhile(AtSelect(s, i), b, p, i, false) && CallMeanwhile(p, i, pick, c, h, stopped)
    ensures Run(s, acts) == Some(t) && LeavesTail(s, t, i, Decision(s, i, p), stopped, ok)
  {
    var tr := GateGoes(s, i);
    var l := To(Still(s, i), s.msgs[i].(cb := if Passes(See(s, i)) then CbSelect else CbRefused));
    GoesRuns(s, tr, i, l);
    WriteTwice(s, i, l, l);
    var u, rest := Write(s, i, l), [];
    if Passes(See(s, i)) {
      rest, t := SelectRuns(p, i, pick, c, h, stopped, ok);
      RunAppend(u, b, rest);
      rest := b + rest;
    } else {
      rest, t := RefusedRuns(u, i);
    }
    RunAppend(s, Acts(tr), rest);
    acts := Acts(tr) + rest;
  }

  /** A message as it arrives. */
  predicate Fresh(s: State, i: nat) {
    HasMsg(s, i) && i !in s.pending
    && s.msgs[i] == Msg(s.msgs[i].recv, if Acks(s, i) then CbTrack else CbGate, WkNone, Waiting, NoOwner, 0, 0, [])
  }

  lemma ArrivesFresh(s: State, r: nat)
    requires LocalInv(s) && Step(s, Arrive(r)).Some?
    ensures Fresh(Step(s, Arrive(r)).value, |s.msgs|)
  {
  }

  /** The state when receive has put it into pending, if it is acked. */
  function Inserted(s: State, i: nat): State
    requires HasMsg(s, i)
  {
    if Acks(s, i) then Write(s, i, Local(s.msgs[i].(cb := CbGate), true, 0, 0)) else s
  }

  lemma InsertRuns(s: State, i: nat) returns (acts: seq<Action>)
    requires Fresh(s, i)
    ensures Run(s, acts) == Some(Inserted(s, i))
    ensures var u := Inserted(s, i);
      && HasMsg(u, i) && Acks(u, i) == Acks(s, i) && (i in u.pending <==> Acks(s, i))
      && u.msgs[i] == s.msgs[i].(cb := CbGate)
  {
    acts := [];
    if Acks(s, i) {
      StillGoes(s, i);
      var l := Local(s.msgs[i].(cb := CbGate), true, 0, 0);
      Next(s, Start, i, Still(s, i), Cb(i), l);
      GoesRuns(s, More(Start, Cb(i)), i, l);
      WriteTwice(s, i, l, l);
      acts := Acts(More(Start, Cb(i)));
    }
  }

  /** receive's whole run, from the message's arrival until its threads have finished or
      it waits for a slot: the run takes the outcome of dispatch to the history, the state
      and the place in pending that Pending.Receive promises, and no slot is kept. The
      other threads do a before dispatch, b before its select and c in the handler; they
      change gate, contexts and slots at will, and Stop's walk comes by as stop says. */
  lemma ReceiveRuns(s: State, i: nat, a: seq<Action>, g: State, b: seq<Action>, p: State, c: seq<Action>, h: State,
                    pick: bool, stop: Pending.StopAt, ok: bool) returns (acts: seq<Action>, t: State)
    requires Fresh(s, i)
    requires Meanwhile(Inserted(s, i), a, g, i, Acks(s, i) && stop == Pending.WhileWaiting)
    requires Passes(See(g, i)) ==>
      Meanwhile(AtSelect(g, i), b, p, i, false) && CallMeanwhile(p, i, pick, c, h, stop == Pending.WhileHandling)
    ensures Run(s, acts) == Some(t)
    ensures var acks, r := Acks(s, i), Decision(g, i, p);
      Leaves(s, t, i, Pending.ReceiveEvents(acks, stop, r, ok),
             if acks && (r != D.Blocks || stop == Pending.WhileWaiting) then Settled else Waiting,
             acks && r == D.Blocks && stop != Pending.WhileWaiting)
  {
    var first := InsertRuns(s, i);
    var rest;
    rest, t := GateRuns(g, i, b, p, pick, c, h, stop == Pending.WhileHandling, ok);
    RunAppend(s, first, a);
    RunAppend(s, first + a, rest);
    acts := first + a + rest;
    ReceiveHistory(s, g, t, i, stop, Decision(g, i, p), ok);
  }

  lemma ReceiveHistory(s: State, g: State, t: State, i: nat, stop: Pending.StopAt, r: D.Outcome, ok: bool)
    requires Fresh(s, i) && LetBe(Inserted(s, i), g, i, Acks(s, i) && stop == Pending.WhileWaiting)
    requires LeavesTail(g, t, i, r, stop == Pending.WhileHandling, ok)
    ensures Leaves(s, t, i, Pending.ReceiveEvents(Acks(s, i), stop, r, ok),
                   if Acks(s, i) && (r != D.Blocks || stop == Pending.WhileWaiting) then Settled else Waiting,
                   Acks(s, i) && r == D.Blocks && stop != Pending.WhileWaiting)
  {
  }

  // ---------- The histories the methods promise ----------

  lemma ReadTwo(acks: bool, a: Event, b: Event)
    ensures Read(acks, [a]) == Absorb(acks, Read(acks, []), a)
    ensures Read(acks, [a, b]) == Absorb(acks, Absorb(acks, Read(acks, []), a), b)
  {
    ReadAppend(acks, [], a);
    ReadAppend(acks, [a], b);
    assert [a] == [] + [a] && [a, b] == [a] + [b];
  }

  lemma ReadFour(acks: bool, a: Event, b: Event, c: Event, d: Event)
    ensures Read(acks, [a, b, c, d]) == Absorb(acks, Absorb(acks, Read(acks, [a, b]), c), d)
  {
    ReadAppend(acks, [a, b], c);
    ReadAppend(acks, [a, b, c], d);
    assert [a, b, c] == [a, b] + [c] && [a, b, c, d] == [a, b, c] + [d];
  }

  /** A history serveJetStream leaves obeys the protocol's rules for a history: the handler
      is called once, and an acking delivery gets one attempt. */
  lemma ServeFollows(acks: bool, stopped: bool, ok: bool)
    ensures var d := Read(acks, ServeEvents(acks, Waiting, stopped, ok));
      d.good && d.called && d.began == acks && (d.attempt.Some? <==> acks)
  {
    if !acks {
      ReadTwo(acks, Called, Returned(ok));
    } else {
      var last := if ok then Acked else Nacked(HandlerFailed);
      ReadTwo(acks, Began, Called);
      if stopped {
        ReadFour(acks, Began, Called, Nacked(Abandoned(true)), Returned(ok));
      } else {
        ReadFour(acks, Began, Called, Returned(ok), last);
      }
      assert ServeEvents(acks, Waiting, stopped, ok) ==
        if stopped then [Began, Called, Nacked(Abandoned(true)), Returned(ok)] else [Began, Called, Returned(ok), last];
    }
  }

  /** So does every history Pending.Receive promises: an ack or nak is attempted once, and
      exactly if the message is acked and does not wait for a slot any more. */
  lemma ReceiveFollows(acks: bool, stop: Pending.StopAt, r: D.Outcome, ok: bool)
    ensures var d := Read(acks, Pending.ReceiveEvents(acks, stop, r, ok));
      && d.good
      && (d.attempt.Some? <==> acks && (r != D.Blocks || stop == Pending.WhileWaiting))
      && (d.called <==> r == D.Spawned && !(acks && stop == Pending.WhileWaiting))
  {
    ServeFollows(acks, acks && stop == Pending.WhileHandling, ok);
    ReadTwo(acks, Nacked(Abandoned(false)), Called);
  }
}
