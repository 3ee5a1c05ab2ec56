/** The inductive invariant of the protocol, in parts, and what each step keeps. */
module Invariant {
  import opened Deliveries
  import opened Protocol
  import opened Wrappers

  // ---------- Logs ----------

  /** What a history says: whether begin succeeded, whether the handler was
      called, what it returned, the ack or nak attempted, and whether every event
      followed what came before it. */
  datatype Digest = Digest(began: bool, called: bool, ret: Option<bool>, attempt: Option<Event>, good: bool)

  /** When event e may follow the history before it. */
  predicate Follows(acks: bool, d: Digest, e: Event) {
    match e
    case Began => acks && !d.began && d.attempt.None?
    case Called => (acks ==> d.began) && !d.called
    case Returned(_) => d.called && d.ret.None?
    case Acked => acks && d.attempt.None? && d.ret == Some(true)
    case Nacked(cause) =>
      acks && d.attempt.None? &&
      (match cause case HandlerFailed => d.ret == Some(false) case Abandoned(running) => running == d.began)
  }

  function Absorb(acks: bool, d: Digest, e: Event): Digest {
    var good := d.good && Follows(acks, d, e);
    match e
    case Began => Digest(true, d.called, d.ret, d.attempt, good)
    case Called => Digest(d.began, true, d.ret, d.attempt, good)
    case Returned(ok) => Digest(d.began, d.called, Some(ok), d.attempt, good)
    case Acked => Digest(d.began, d.called, d.ret, Some(e), good)
    case Nacked(_) => Digest(d.began, d.called, d.ret, Some(e), good)
  }

  function Read(acks: bool, log: seq<Event>): Digest {
    if log == [] then Digest(false, false, None, None, true)
    else Absorb(acks, Read(acks, log[..|log| - 1]), log[|log| - 1])
  }

  lemma ReadAppend(acks: bool, log: seq<Event>, e: Event)
    ensures Read(acks, log + [e]) == Absorb(acks, Read(acks, log), e)
  {
    assert (log + [e])[..|log|] == log;
  }

  // ---------- One message by itself ----------

  /** Where Stop's walk stands with one message. */
  datatype Phase = Idle | Untracking(running: bool) | Nacking(running: bool)

  function StopPhase(l: Life, i: nat): Phase {
    match l
    case WalkUntrack(_, at, running) => if at == i then Untracking(running) else Idle
    case WalkNak(_, at, running) => if at == i then Nacking(running) else Idle
    case _ => Idle
  }

  /** The thread that won settle has not yet deleted the message from pending. */
  predicate InUntrack(m: Msg, p: Phase) { m.cb.CbUntrack? || m.wk.WkUntrack? || p.Untracking? }

  /** The thread that won settle has not yet sent its ack or nak. */
  predicate InAttempt(m: Msg, p: Phase) { m.cb.CbNak? || m.wk.WkAttempt? || p.Nacking? }

  /** The worker is past the handler and past its settlement. */
  predicate Ending(wk: WkPc) { wk.WkRelease? || wk.WkWgDone? || wk.WkDone? }

  function Held(m: Msg): nat {
    if m.cb.CbLock? || m.cb.CbRecheck? || m.cb.CbRecheckCtx? || m.cb.CbAdd? || m.cb.CbUnlock? || m.cb.CbSpawn?
       || m.cb.CbFailUnlock? || m.cb.CbFailRelease?
       || !(m.wk.WkNone? || m.wk.WkWgDone? || m.wk.WkDone?)
    then 1 else 0
  }

  /** wg counts a message from its Add until its worker's Done. */
  function Counted(m: Msg): nat {
    if m.cb.CbUnlock? || m.cb.CbSpawn? || !(m.wk.WkNone? || m.wk.WkDone?) then 1 else 0
  }

  /** Each slot taken is given back once, and at most one is taken. */
  predicate SlotOk(m: Msg) {
    && m.took == m.freed + Held(m) && m.took <= 1
    && (m.cb.CbTrack? || m.cb.CbGate? || m.cb.CbCtx? || m.cb.CbSelect? ==> m.took == 0)
    && (m.wk != WkNone ==> m.cb == CbDone)
  }

  predicate LogOk(m: Msg, d: Digest) {
    && d.good
    && (m.wk.WkNone? || m.wk.WkBegin? || m.wk.WkCall? ==> !d.called && d.ret.None?)
    && (m.wk.WkHandling? ==> d.called && d.ret.None?)
    && (m.wk.WkSettle? || m.wk.WkUntrack? || m.wk.WkAttempt? ==> d.ret == Some(m.wk.ok))
    && (Ending(m.wk) ==> d.ret.Some? || m.owner.ByStop?)
  }

  /** A message that is never acked: no settlement, no tracking. */
  predicate PlainOk(m: Msg, d: Digest, tracked: bool, p: Phase) {
    && !tracked && p.Idle? && m.st.Waiting? && m.owner.NoOwner?
    && !m.cb.CbTrack? && !m.cb.CbUntrack? && !m.cb.CbNak?
    && !m.wk.WkSettle? && !m.wk.WkUntrack? && !m.wk.WkAttempt?
    && d.attempt.None? && !d.began
  }

  /** begin, settle and the log agree. */
  predicate StateOk(m: Msg, d: Digest, p: Phase) {
    && (m.st.Waiting? ==> !d.began)
    && (m.st.Running? ==> d.began)
    && (m.wk.WkNone? || m.wk.WkBegin? ==> !d.began)
    && (m.wk.WkCall? || m.wk.WkHandling? || m.wk.WkSettle? || m.wk.WkUntrack? || m.wk.WkAttempt? ==> d.began)
    && (m.cb.CbUntrack? || m.cb.CbNak? ==> (m.cb.running <==> d.began))
    && (!p.Idle? ==> (p.running <==> d.began))
  }

  /** Exactly one thread owns a settled delivery. */
  predicate OwnerOk(m: Msg, p: Phase) {
    && (m.st.Settled? <==> !m.owner.NoOwner?)
    && (m.owner.ByCallback? ==> m.wk.WkNone? && (m.cb.CbUntrack? || m.cb.CbNak? || m.cb.CbDone?))
    && (m.owner.ByWorker? ==> m.wk.WkUntrack? || m.wk.WkAttempt? || Ending(m.wk))
    && (m.cb.CbUntrack? || m.cb.CbNak? ==> m.owner.ByCallback?)
    && (m.wk.WkUntrack? || m.wk.WkAttempt? ==> m.owner.ByWorker?)
    && (!p.Idle? ==> m.owner.ByStop?)
    && (m.cb.CbTrack? ==> m.st.Waiting?)
    && (m.cb.CbDone? && m.wk.WkNone? ==> m.st.Settled?)
    && (Ending(m.wk) ==> m.st.Settled?)
  }

  /** The attempt is the worker's own: an ack or a nak by the handler's result. */
  predicate ByResult(d: Digest) {
    d.attempt.Some? && (d.attempt.value.Acked? || (d.attempt.value.Nacked? && d.attempt.value.cause.HandlerFailed?))
  }

  /** The owner, and no one else, makes the one attempt. */
  predicate TriesOk(m: Msg, d: Digest, p: Phase) {
    && (d.attempt.Some? <==> m.st.Settled? && !InUntrack(m, p) && !InAttempt(m, p))
    && (d.attempt.Some? ==> (ByResult(d) <==> m.owner.ByWorker?))
  }

  predicate TrackOk(m: Msg, tracked: bool, p: Phase) {
    tracked <==> !m.cb.CbTrack? && (!m.st.Settled? || InUntrack(m, p))
  }

  predicate DigestOk(m: Msg, d: Digest, acks: bool, tracked: bool, p: Phase) {
    && SlotOk(m) && LogOk(m, d)
    && (if acks then StateOk(m, d, p) && OwnerOk(m, p) && TriesOk(m, d, p) && TrackOk(m, tracked, p)
        else PlainOk(m, d, tracked, p))
  }

  /** The whole local invariant of a message. */
  predicate LocalOk(m: Msg, acks: bool, tracked: bool, p: Phase) {
    DigestOk(m, Read(acks, m.log), acks, tracked, p)
  }

  /** Bounds the steps a message's threads have left. */
  function Rank(m: Msg): nat { CbRank(m.cb) + WkRank(m.wk) }

  function CbRank(cb: CbPc): nat {
    match cb
    case CbTrack => 24 case CbGate => 23 case CbCtx => 22 case CbSelect => 21
    case CbLock => 20 case CbRecheck => 19 case CbRecheckCtx => 18
    case CbAdd => 17 case CbUnlock => 16 case CbSpawn => 15
    case CbFailUnlock => 14 case CbFailRelease => 13
    case CbRefused => 12 case CbUntrack(_) => 11 case CbNak(_) => 10 case CbDone => 0
  }

  function WkRank(wk: WkPc): nat {
    match wk
    case WkNone => 0 case WkBegin => 9 case WkCall => 8 case WkHandling => 7
    case WkSettle(_) => 6 case WkUntrack(_) => 5 case WkAttempt(_) => 4
    case WkRelease => 3 case WkWgDone => 2 case WkDone => 0
  }

  /** What a local step of a message leaves: the invariant, the counters, a
      smaller rank and the same receiver. */
  predicate GoodMove(m: Msg, l: Local, d: Digest, acks: bool, p: Phase) {
    && DigestOk(l.m, d, acks, l.tracked, p)
    && Held(l.m) == Held(m) + l.slots && Counted(l.m) == Counted(m) + l.wg
    && Rank(l.m) < Rank(m) && l.m.recv == m.recv
  }

  predicate Ordinary(cb: CbPc) { !cb.CbTrack? && !cb.CbUntrack? && !cb.CbNak? && !cb.CbDone? }

  /** Moving the program counter between ordinary points of dispatch. */
  lemma ShiftKeeps(m: Msg, n: Msg, d: Digest, acks: bool, tracked: bool, p: Phase)
    requires DigestOk(m, d, acks, tracked, p) && Ordinary(m.cb) && Ordinary(n.cb)
    requires n == m.(cb := n.cb, took := n.took, freed := n.freed) && SlotOk(n)
    ensures DigestOk(n, d, acks, tracked, p)
  {
  }

  lemma CbKeeps(m: Msg, d: Digest, v: Sight, p: Phase)
    requires DigestOk(m, d, v.acks, v.tracked, p) && CbMove(m, v).Some? && !m.cb.CbNak?
    ensures GoodMove(m, CbMove(m, v).value, d, v.acks, p)
  {
    if m.cb.CbRefused? {
      RefusedKeeps(m, d, v, p);
    } else if m.cb.CbSpawn? {
      SpawnKeeps(m, d, v, p);
    } else if m.cb.CbTrack? || m.cb.CbUntrack? {
      TrackingKeeps(m, d, v, p);
    } else {
      DispatchKeeps(m, d, v, p);
    }
  }

  lemma DispatchKeeps(m: Msg, d: Digest, v: Sight, p: Phase)
    requires DigestOk(m, d, v.acks, v.tracked, p) && CbMove(m, v).Some?
    requires Ordinary(m.cb) && !m.cb.CbRefused? && !m.cb.CbSpawn?
    ensures GoodMove(m, CbMove(m, v).value, d, v.acks, p)
  {
    DispatchSlots(m, v);
    ShiftKeeps(m, CbMove(m, v).value.m, d, v.acks, v.tracked, p);
  }

  lemma DispatchSlots(m: Msg, v: Sight)
    requires SlotOk(m) && Ordinary(m.cb) && !m.cb.CbRefused? && !m.cb.CbSpawn? && CbMove(m, v).Some?
    ensures var l := CbMove(m, v).value;
      && Ordinary(l.m.cb) && SlotOk(l.m) && l.tracked == v.tracked
      && l.m == m.(cb := l.m.cb, took := l.m.took, freed := l.m.freed)
      && Held(l.m) == Held(m) + l.slots && Counted(l.m) == Counted(m) + l.wg && Rank(l.m) < Rank(m)
  {
  }

  lemma TrackingKeeps(m: Msg, d: Digest, v: Sight, p: Phase)
    requires DigestOk(m, d, v.acks, v.tracked, p) && (m.cb.CbTrack? || m.cb.CbUntrack?)
    ensures GoodMove(m, CbMove(m, v).value, d, v.acks, p)
  {
  }

  lemma RefusedKeeps(m: Msg, d: Digest, v: Sight, p: Phase)
    requires DigestOk(m, d, v.acks, v.tracked, p) && m.cb.CbRefused?
    ensures GoodMove(m, CbMove(m, v).value, d, v.acks, p)
  {
  }

  lemma SpawnKeeps(m: Msg, d: Digest, v: Sight, p: Phase)
    requires DigestOk(m, d, v.acks, v.tracked, p) && m.cb.CbSpawn?
    ensures GoodMove(m, CbMove(m, v).value, d, v.acks, p)
  {
  }

  lemma NakKeeps(m: Msg, d: Digest, v: Sight, p: Phase)
    requires DigestOk(m, d, v.acks, v.tracked, p) && m.cb.CbNak?
    ensures GoodMove(m, CbMove(m, v).value, Absorb(v.acks, d, Nacked(Abandoned(m.cb.running))), v.acks, p)
  {
  }

  lemma SelectKeeps(m: Msg, d: Digest, v: Sight, p: Phase, takeSlot: bool)
    requires DigestOk(m, d, v.acks, v.tracked, p) && SelectMove(m, v, takeSlot).Some?
    ensures GoodMove(m, SelectMove(m, v, takeSlot).value, d, v.acks, p)
  {
    ShiftKeeps(m, SelectMove(m, v, takeSlot).value.m, d, v.acks, v.tracked, p);
  }

  /** The event a worker's step logs, if any. */
  function WkEvent(m: Msg, v: Sight): Option<Event> {
    match m.wk
    case WkBegin => if v.acks && m.st != Settled then Some(Began) else None
    case WkCall => Some(Called)
    case WkAttempt(ok) => Some(if ok then Acked else Nacked(HandlerFailed))
    case _ => None
  }

  function AbsorbSome(acks: bool, d: Digest, e: Option<Event>): Digest {
    if e.Some? then Absorb(acks, d, e.value) else d
  }

  lemma HandlerKeeps(m: Msg, d: Digest, v: Sight, p: Phase)
    requires DigestOk(m, d, v.acks, v.tracked, p) && (m.wk.WkBegin? || m.wk.WkCall?)
    ensures GoodMove(m, WkMove(m, v).value, AbsorbSome(v.acks, d, WkEvent(m, v)), v.acks, p)
  {
  }

  lemma SettleKeeps(m: Msg, d: Digest, v: Sight, p: Phase)
    requires DigestOk(m, d, v.acks, v.tracked, p) && (m.wk.WkSettle? || m.wk.WkUntrack? || m.wk.WkAttempt?)
    ensures GoodMove(m, WkMove(m, v).value, AbsorbSome(v.acks, d, WkEvent(m, v)), v.acks, p)
  {
  }

  lemma EndKeeps(m: Msg, d: Digest, v: Sight, p: Phase)
    requires DigestOk(m, d, v.acks, v.tracked, p) && (m.wk.WkRelease? || m.wk.WkWgDone?)
    ensures GoodMove(m, WkMove(m, v).value, d, v.acks, p)
  {
  }

  lemma ReturnKeeps(m: Msg, d: Digest, v: Sight, p: Phase, ok: bool)
    requires DigestOk(m, d, v.acks, v.tracked, p) && ReturnMove(m, v, ok).Some?
    ensures GoodMove(m, ReturnMove(m, v, ok).value, Absorb(v.acks, d, Returned(ok)), v.acks, p)
  {
  }
}
