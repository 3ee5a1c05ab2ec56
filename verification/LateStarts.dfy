/** The late-start warnings of one JetStream consumer (nats/consumers.go). Times are
    nanoseconds since the zero time.Time. */
module LateStarts {
  import opened Ints

  const INTERVAL := 60_000_000_000

  /** time.Time.Sub, which saturates. */
  function Sub(t: int, u: int): int {
    if t - u > MAX_INT64 then MAX_INT64 else if t - u < MIN_INT64 then MIN_INT64 else t - u
  }

  /** The time of the latest log, and the late starts kept quiet since then. */
  datatype Late = Late(last: int, skipped: nat)

  /** What one call reports. */
  datatype Report = Report(logged: bool, skipped: nat)

  function After(l: Late, now: int): Late {
    if now - l.last < INTERVAL then Late(l.last, l.skipped + 1) else Late(now, 0)
  }

  function ReportOf(l: Late, now: int): Report {
    if now - l.last < INTERVAL then Report(false, 0) else Report(true, l.skipped)
  }

  class LateLog {
    var lastLateLog: int
    var lateSkipped: nat

    constructor ()
      ensures lastLateLog == 0 && lateSkipped == 0
    {
      lastLateLog, lateSkipped := 0, 0;
    }

    method LateStartLogged(now: int) returns (skipped: nat, logged: bool)
      modifies this
      ensures Late(lastLateLog, lateSkipped) == After(Late(old(lastLateLog), old(lateSkipped)), now)
      ensures Report(logged, skipped) == ReportOf(Late(old(lastLateLog), old(lateSkipped)), now)
      ensures logged <==> now - old(lastLateLog) >= 60_000_000_000
      ensures if logged then skipped == old(lateSkipped) && lastLateLog == now && lateSkipped == 0
              else skipped == 0 && lastLateLog == old(lastLateLog) && lateSkipped == old(lateSkipped) + 1
    {
      if Sub(now, lastLateLog) < INTERVAL {
        lateSkipped := lateSkipped + 1;
        return 0, false;
      }
      skipped := lateSkipped;
      lastLateLog, lateSkipped := now, 0;
      return skipped, true;
    }
  }

  /** The state after calls at the given times, in the order of the calls. */
  function Final(l: Late, nows: seq<int>): Late
    decreases |nows|
  {
    if nows == [] then l else Final(After(l, nows[0]), nows[1..])
  }

  function Reports(l: Late, nows: seq<int>): (r: seq<Report>)
    ensures |r| == |nows|
    decreases |nows|
  {
    if nows == [] then [] else [ReportOf(l, nows[0])] + Reports(After(l, nows[0]), nows[1..])
  }

  function Logged(rs: seq<Report>): nat {
    if rs == [] then 0 else (if rs[0].logged then 1 else 0) + Logged(rs[1..])
  }

  function Skipped(rs: seq<Report>): nat {
    if rs == [] then 0 else rs[0].skipped + Skipped(rs[1..])
  }

  /** A logged call is at least INTERVAL after the last logged one before it. */
  lemma {:induction false} LoggedAfterLast(l: Late, nows: seq<int>, j: nat)
    requires j < |nows| && Reports(l, nows)[j].logged
    ensures nows[j] - l.last >= INTERVAL
    decreases |nows|
  {
    if j > 0 {
      LoggedAfterLast(After(l, nows[0]), nows[1..], j - 1);
    }
  }

  /** Two logged calls are at least INTERVAL apart, even when the times passed in are
      out of order. */
  lemma {:induction false} LoggedApart(l: Late, nows: seq<int>, i: nat, j: nat)
    requires i < j < |nows| && Reports(l, nows)[i].logged && Reports(l, nows)[j].logged
    ensures nows[j] - nows[i] >= INTERVAL
    decreases |nows|
  {
    var t := After(l, nows[0]);
    assert Reports(l, nows)[j] == Reports(t, nows[1..])[j - 1];
    if i == 0 {
      LoggedAfterLast(t, nows[1..], j - 1);
    } else {
      assert Reports(l, nows)[i] == Reports(t, nows[1..])[i - 1];
      LoggedApart(t, nows[1..], i - 1, j - 1);
    }
  }

  /** Call i is logged and no call from there to j is. */
  predicate LastBefore(rs: seq<Report>, i: nat, j: nat) {
    i < j <= |rs| && rs[i].logged && forall k :: i < k < j ==> !rs[k].logged
  }

  /** The first logged call, exactly: before any other was, call j is logged if and only if
      it comes a minute after the log the calls started from, and it reports all that was
      skipped since then. */
  lemma {:induction false} FirstLogged(l: Late, nows: seq<int>, j: nat)
    requires j < |nows| && forall k :: 0 <= k < j ==> !Reports(l, nows)[k].logged
    ensures Reports(l, nows)[j].logged <==> nows[j] - l.last >= 60_000_000_000
    ensures Reports(l, nows)[j].skipped == if Reports(l, nows)[j].logged then l.skipped + j else 0
    decreases |nows|
  {
    if j > 0 {
      var t := After(l, nows[0]);
      assert !Reports(l, nows)[0].logged;
      forall k | 0 <= k < j - 1 ensures !Reports(t, nows[1..])[k].logged {
        assert Reports(l, nows)[k + 1] == Reports(t, nows[1..])[k];
      }
      FirstLogged(t, nows[1..], j - 1);
    }
  }

  /** Every later one, exactly: after logged call i, call j is logged if and only if it comes
      a minute after it, and it reports the calls between them. */
  lemma {:induction false} NextLogged(l: Late, nows: seq<int>, i: nat, j: nat)
    requires j < |nows| && LastBefore(Reports(l, nows), i, j)
    ensures Reports(l, nows)[j].logged <==> nows[j] - nows[i] >= 60_000_000_000
    ensures Reports(l, nows)[j].skipped == if Reports(l, nows)[j].logged then j - i - 1 else 0
    decreases |nows|
  {
    var t := After(l, nows[0]);
    forall k | 0 <= k < |nows| - 1 ensures Reports(l, nows)[k + 1] == Reports(t, nows[1..])[k] {
    }
    if i == 0 {
      forall k | 0 <= k < j - 1 ensures !Reports(t, nows[1..])[k].logged {
        assert !Reports(l, nows)[k + 1].logged;
      }
      FirstLogged(t, nows[1..], j - 1);
    } else {
      NextLogged(t, nows[1..], i - 1, j - 1);
    }
  }

  /** No late start is lost: each one was logged, was reported as skipped by a later
      log, or is waiting to be reported. */
  lemma {:induction false} EveryStartCounted(l: Late, nows: seq<int>)
    ensures var rs := Reports(l, nows);
      Logged(rs) + Skipped(rs) + Final(l, nows).skipped == |nows| + l.skipped
    decreases |nows|
  {
    if nows != [] {
      var t, rs := After(l, nows[0]), Reports(l, nows);
      EveryStartCounted(t, nows[1..]);
      assert rs[1..] == Reports(t, nows[1..]);
    }
  }
}
