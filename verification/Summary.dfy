/** What the rest of the system can rely on about one step of a message's
    threads, without looking at which step it was. */
module Summary {
  import opened Deliveries
  import opened Protocol

  /** The callback has been refused, or is about to be. */
  predicate Refusing(cb: CbPc) {
    cb.CbFailUnlock? || cb.CbFailRelease? || cb.CbRefused? || cb.CbUntrack? || cb.CbNak?
  }

  predicate Unrefused(m: Msg) {
    !Refusing(m.cb) && (m.cb.CbDone? ==> !m.wk.WkNone?)
  }

  /** Past the first look at accepting under the lock, and still under it. */
  predicate Admitted(cb: CbPc) { cb.CbRecheckCtx? || cb.CbAdd? || cb.CbUnlock? }

  /** Past the context check under the lock, and still under it. */
  predicate Adding(cb: CbPc) { cb.CbAdd? || cb.CbUnlock? }

  /** A worker exists, or the go statement is next. */
  predicate Spawned(m: Msg) { !m.wk.WkNone? || m.cb.CbSpawn? }

  predicate Summarized(m: Msg, l: Local, v: Sight) {
    var n := l.m;
    && n.recv == m.recv
    && (Admitted(n.cb) ==> v.accepting || Admitted(m.cb))
    && (Adding(n.cb) ==> !v.ctxDone || Adding(m.cb))
    && (Unrefused(m) && (m.cb.CbDone? || (v.accepting && !v.ctxDone)) ==> Unrefused(n))
    && (m.cb.CbDone? ==> n.cb.CbDone?)
    && (n.cb.CbTrack? ==> m.cb.CbTrack?)
    && (Spawned(n) ==> Spawned(m) || m.cb.CbUnlock?)
    && (Spawned(m) ==> Spawned(n))
    && Precedes(m.st, n.st)
    && (n.owner.ByStop? ==> m.owner.ByStop?)
    && (!m.owner.NoOwner? && m.st.Settled? ==> n.owner == m.owner)
    && (l.wg > 0 ==> m.cb.CbAdd?)
    && (l.wg < 0 ==> m.wk.WkWgDone?)
    && (l.slots > 0 ==> v.slotFree)
    && (Began in n.log ==> Began in m.log || (m.wk.WkBegin? && !m.st.Settled?))
    && m.log <= n.log
    && l.slots <= 1
  }

  lemma CbSummary(m: Msg, v: Sight)
    requires CbMove(m, v).Some?
    ensures Summarized(m, CbMove(m, v).value, v)
  {
    if Refusing(m.cb) {
      RefusingSummary(m, v);
    } else {
      GateSummary(m, v);
    }
  }

  lemma GateSummary(m: Msg, v: Sight)
    requires CbMove(m, v).Some? && !Refusing(m.cb)
    ensures Summarized(m, CbMove(m, v).value, v)
  {
  }

  lemma RefusingSummary(m: Msg, v: Sight)
    requires Refusing(m.cb)
    ensures Summarized(m, CbMove(m, v).value, v)
  {
  }

  lemma SelectSummary(m: Msg, v: Sight, takeSlot: bool)
    requires SelectMove(m, v, takeSlot).Some?
    ensures Summarized(m, SelectMove(m, v, takeSlot).value, v)
  {
  }

  lemma WkSummary(m: Msg, v: Sight)
    requires WkMove(m, v).Some?
    requires !m.wk.WkNone? ==> m.cb.CbDone?
    ensures Summarized(m, WkMove(m, v).value, v)
  {
  }

  lemma ReturnSummary(m: Msg, v: Sight, ok: bool)
    requires ReturnMove(m, v, ok).Some?
    requires !m.wk.WkNone? ==> m.cb.CbDone?
    ensures Summarized(m, ReturnMove(m, v, ok).value, v)
  {
  }
}
