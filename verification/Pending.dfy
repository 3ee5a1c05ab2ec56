/** JetStream deliveries as the code handles them (nats/runtime_jetstream.go): the
    pending set, a message received and handled by one callback and its worker, and
    the abandonment of what is left at the end of a drain. */
module Pending {
  import opened Deliveries
  import opened Dispatch

  /** An event of a delivery: a begin, a handler call or return, an ack or nak. */
  datatype Entry = Entry(d: Delivery, e: Event)

  /** Events of one delivery. */
  function Of(d: Delivery, es: seq<Event>): seq<Entry> {
    if es == [] then [] else Of(d, es[..|es| - 1]) + [Entry(d, es[|es| - 1])]
  }

  lemma OfOne(d: Delivery, e: Event)
    ensures Of(d, [e]) == [Entry(d, e)]
  {
    assert [e][..0] == [];
  }

  lemma {:induction false} OfConcat(d: Delivery, es: seq<Event>, fs: seq<Event>)
    ensures Of(d, es + fs) == Of(d, es) + Of(d, fs)
  {
    if fs == [] {
      assert es + fs == es;
    } else {
      OfConcat(d, es, fs[..|fs| - 1]);
      assert (es + fs)[..|es + fs| - 1] == es + fs[..|fs| - 1];
    }
  }

  /** When Stop's walk comes to a delivery, if it does. */
  datatype StopAt = Never | WhileWaiting | WhileHandling

  /** What receive and its worker do to a new message, when dispatch's result is r. */
  function ReceiveEvents(acks: bool, stop: StopAt, r: Outcome, ok: bool): seq<Event> {
    if !acks then if r == Spawned then ServeEvents(false, Waiting, false, ok) else []
    else if stop == WhileWaiting || r == Refused then AbandonEvents(Waiting)
    else if r == Blocks then []
    else ServeEvents(true, Waiting, stop == WhileHandling, ok)
  }

  /** ds holds the members of s, each once. */
  ghost predicate Lists(ds: seq<Delivery>, s: set<Delivery>) {
    (forall d <- ds :: d in s) && (forall d <- s :: d in ds) && forall j, k :: 0 <= j < k < |ds| ==> ds[j] != ds[k]
  }

  ghost function States(s: set<Delivery>): map<Delivery, DeliveryState>
    reads s
  {
    map d | d in s :: d.state
  }

  /** The naks for the deliveries of ds that were not settled, in order, each with
      the handler_running of its state. */
  ghost function NaksFor(ds: seq<Delivery>, was: map<Delivery, DeliveryState>): seq<Entry>
    requires forall d <- ds :: d in was
  {
    if ds == [] then []
    else
      var d := ds[|ds| - 1];
      NaksFor(ds[..|ds| - 1], was) + Of(d, AbandonEvents(was[d]))
  }

  ghost function Unsettled(ds: seq<Delivery>, was: map<Delivery, DeliveryState>): set<Delivery>
    requires forall d <- ds :: d in was
  {
    set d | d in ds && was[d] != Settled
  }

  /** What the walk has done by delivery i, and one delivery later. */
  lemma WalkOne(ds: seq<Delivery>, i: nat, was: map<Delivery, DeliveryState>, log: seq<Entry>, pending: set<Delivery>)
    requires i < |ds| && forall d <- ds :: d in was
    ensures log + NaksFor(ds[..i + 1], was) == log + NaksFor(ds[..i], was) + Of(ds[i], AbandonEvents(was[ds[i]]))
    ensures pending - Unsettled(ds[..i + 1], was) ==
      pending - Unsettled(ds[..i], was) - (if was[ds[i]] == Settled then {} else {ds[i]})
  {
    assert ds[..i + 1][..i] == ds[..i];
  }

  /** Every unsettled delivery of the list is nacked exactly once, no other is. */
  lemma {:induction false} NaksForEach(ds: seq<Delivery>, was: map<Delivery, DeliveryState>)
    requires (forall d <- ds :: d in was) && forall j, k :: 0 <= j < k < |ds| ==> ds[j] != ds[k]
    ensures forall x <- NaksFor(ds, was) ::
      x.d in ds && was[x.d] != Settled && x.e == Nacked(Abandoned(was[x.d] == Running))
    ensures forall d <- ds :: was[d] != Settled ==> Entry(d, Nacked(Abandoned(was[d] == Running))) in NaksFor(ds, was)
    ensures forall j, k :: 0 <= j < k < |NaksFor(ds, was)| ==> NaksFor(ds, was)[j].d != NaksFor(ds, was)[k].d
  {
    if ds != [] {
      var n := |ds| - 1;
      NaksForEach(ds[..n], was);
      OfOne(ds[n], Nacked(Abandoned(was[ds[n]] == Running)));
      forall j | 0 <= j < |NaksFor(ds[..n], was)| ensures NaksFor(ds[..n], was)[j].d != ds[n] {
        assert NaksFor(ds[..n], was)[j] in NaksFor(ds[..n], was);
      }
    }
  }

  /** ServeEvents, one event at a time. */
  lemma OfServe(d: Delivery, stopped: bool, ok: bool)
    ensures Of(d, [Called, Returned(ok)]) == Of(d, [Called]) + Of(d, [Returned(ok)])
    ensures forall st :: st != Settled ==>
      Of(d, ServeEvents(true, st, stopped, ok)) ==
        Of(d, [Began]) + Of(d, [Called])
        + (if stopped then Of(d, [Nacked(Abandoned(true))]) + Of(d, [Returned(ok)])
           else Of(d, [Returned(ok)]) + Of(d, [if ok then Acked else Nacked(HandlerFailed)]))
  {
    var last := if ok then Acked else Nacked(HandlerFailed);
    OfConcat(d, [Called], [Returned(ok)]);
    OfConcat(d, [Began], [Called]);
    OfConcat(d, [Nacked(Abandoned(true))], [Returned(ok)]);
    OfConcat(d, [Returned(ok)], [last]);
    OfConcat(d, [Began, Called],
             if stopped then [Nacked(Abandoned(true)), Returned(ok)] else [Returned(ok), last]);
    assert [Called] + [Returned(ok)] == [Called, Returned(ok)] && [Began] + [Called] == [Began, Called];
    assert [Nacked(Abandoned(true))] + [Returned(ok)] == [Nacked(Abandoned(true)), Returned(ok)];
    assert [Returned(ok)] + [last] == [Returned(ok), last];
  }

  /** Two events, and four, written out. */
  lemma OfSome(d: Delivery, a: Event, b: Event, c: Event, e: Event)
    ensures Of(d, [a, b]) == [Entry(d, a), Entry(d, b)]
    ensures Of(d, [a, b, c, e]) == [Entry(d, a), Entry(d, b), Entry(d, c), Entry(d, e)]
  {
    OfOne(d, a);
    OfOne(d, b);
    OfOne(d, c);
    OfOne(d, e);
    OfConcat(d, [a], [b]);
    OfConcat(d, [c], [e]);
    OfConcat(d, [a, b], [c, e]);
    assert [a] + [b] == [a, b] && [c] + [e] == [c, e] && [a, b] + [c, e] == [a, b, c, e];
  }

  class Pending {
    var pending: set<Delivery>
    var log: seq<Entry>

    constructor ()
      ensures pending == {} && log == []
    {
      pending, log := {}, [];
    }

    method Track(d: Delivery)
      modifies this`pending
      ensures pending == old(pending) + {d}
    {
      pending := pending + {d};
    }

    method Untrack(d: Delivery)
      modifies this`pending
      ensures pending == old(pending) - {d}
    {
      pending := pending - {d};
    }

    /** Adds an event to the history. */
    method Note(d: Delivery, e: Event)
      modifies this`log
      ensures log == old(log) + Of(d, [e])
    {
      log := log + [Entry(d, e)];
      OfOne(d, e);
    }

    /** receive, with its worker run to the end when dispatch spawns one. on and done are
        the gate and the context as dispatch's second look finds them, pick is its
        select's choice, stop is when Stop abandons the delivery, if it does, and ok is
        what the handler makes of the message. The delivery stays pending exactly while
        it waits for a slot, and whatever slot and count it took are given back. */
    method Receive(gate: Gate, acks: bool, ctxDone: bool, on: bool, done: bool, pick: bool, stop: StopAt,
                   ok: bool)
      returns (d: Delivery, r: Outcome)
      requires gate.Valid()
      modifies this, gate`slots, gate`wg
      ensures gate.Valid() && gate.slots == old(gate.slots) && gate.wg == old(gate.wg) && fresh(d)
      ensures r == Verdict(gate.accepting, ctxDone, gate.slots < gate.cap, on, done)
      ensures pending == old(pending) + (if acks && r == Blocks && stop != WhileWaiting then {d} else {})
      ensures log == old(log) + Of(d, ReceiveEvents(acks, stop, r, ok))
      ensures acks && (!gate.accepting || ctxDone || done || (gate.slots < gate.cap && !on) || stop == WhileWaiting) ==>
        d.state == Settled && d !in pending && log == old(log) + [Entry(d, Nacked(Abandoned(false)))]
      ensures acks && stop != WhileWaiting && gate.accepting && !ctxDone && gate.slots >= gate.cap && !done ==>
        d.state == Waiting && d in pending && log == old(log)
      ensures acks && stop != WhileWaiting && gate.accepting && !ctxDone && gate.slots < gate.cap && on && !done ==>
        d.state == Settled && d !in pending
        && log == old(log) +
             (if stop == WhileHandling
              then [Entry(d, Began), Entry(d, Called), Entry(d, Nacked(Abandoned(true))), Entry(d, Returned(ok))]
              else [Entry(d, Began), Entry(d, Called), Entry(d, Returned(ok)),
                    Entry(d, if ok then Acked else Nacked(HandlerFailed))])
      ensures !acks ==>
        log == old(log) + (if gate.accepting && !ctxDone && gate.slots < gate.cap && on && !done
                           then [Entry(d, Called), Entry(d, Returned(ok))] else [])
      ensures d.state == if acks && (r != Blocks || stop == WhileWaiting) then Settled else Waiting
    {
      d := new Delivery();
      OfOne(d, Nacked(Abandoned(false)));
      OfSome(d, Called, Returned(ok), Began, Began);
      ghost var third := if stop == WhileHandling then Nacked(Abandoned(true)) else Returned(ok);
      ghost var last := if stop == WhileHandling then Returned(ok) else if ok then Acked else Nacked(HandlerFailed);
      OfSome(d, Began, Called, third, last);
      assert ServeEvents(true, Waiting, stop == WhileHandling, ok) == [Began, Called, third, last];
      if acks {
        Track(d);
        if stop == WhileWaiting {
          Abandon(d);
        }
      }
      r := gate.Dispatch(ctxDone, on, done, pick);
      match r
      case Spawned =>
        ServeJetStream(d, acks, stop == WhileHandling, ok);
        gate.Finish();
      case Refused =>
        if acks {
          Abandon(d);
        }
      case Blocks =>
    }

    /** The worker: the handler runs between begin and settle. A delivery settled before
        begin is left alone, and one that Stop settles during the handler gets nothing
        more. */
    method ServeJetStream(d: Delivery, acks: bool, stopped: bool, ok: bool)
      modifies this, d
      ensures log == old(log) + Of(d, ServeEvents(acks, old(d.state), stopped, ok))
      ensures d.state == if acks then Settled else old(d.state)
      ensures pending == if acks && old(d.state) != Settled then old(pending) - {d} else old(pending)
    {
      if acks {
        var began := d.Begin();
        if !began {
          return;
        }
        Note(d, Began);
      }
      Note(d, Called);
      if acks && stopped {
        Abandon(d);
      }
      Note(d, Returned(ok));
      OfServe(d, stopped, ok);
      if !acks {
        return;
      }
      var _, won := d.Settle();
      if !won {
        return;
      }
      Untrack(d);
      if !ok {
        Note(d, Nacked(HandlerFailed));
        return;
      }
      Note(d, Acked);
    }

    /** Stop or a refused callback nak the delivery if they win its settle. */
    method Abandon(d: Delivery)
      modifies this, d
      ensures d.state == Settled
      ensures log == old(log) + Of(d, AbandonEvents(old(d.state)))
      ensures pending == old(pending) - (if old(d.state) == Settled then {} else {d})
    {
      var running, ok := d.Settle();
      if !ok {
        return;
      }
      Untrack(d);
      Note(d, Nacked(Abandoned(running)));
    }

    /** The walk over the snapshot: each delivery is settled, those that were not
        settled before are untracked and nacked once each, and the others are left to
        the thread that settled them. */
    method AbandonEach(ds: seq<Delivery>, ghost was: map<Delivery, DeliveryState>)
      requires forall j, k :: 0 <= j < k < |ds| ==> ds[j] != ds[k]
      requires forall d <- ds :: d in was && was[d] == d.state
      modifies this, ds
      ensures forall d <- ds :: d.state == Settled
      ensures log == old(log) + NaksFor(ds, was)
      ensures pending == old(pending) - Unsettled(ds, was)
    {
      var i := 0;
      while i < |ds|
        invariant 0 <= i <= |ds|
        invariant forall k :: 0 <= k < i ==> ds[k].state == Settled
        invariant forall k :: i <= k < |ds| ==> ds[k].state == was[ds[k]]
        invariant pending == old(pending) - Unsettled(ds[..i], was)
        invariant log == old(log) + NaksFor(ds[..i], was)
      {
        WalkOne(ds, i, was, old(log), old(pending));
        var d := ds[i];
        assert d in ds && d.state == was[d];
        Abandon(d);
        i := i + 1;
      }
      assert ds[..i] == ds;
    }

    /** The end of a drain: the pending deliveries, in an order nobody knows. */
    method AbandonPending() returns (ghost ds: seq<Delivery>)
      modifies this, pending
      ensures Lists(ds, old(pending)) && log == old(log) + NaksFor(ds, old(States(pending)))
      ensures forall d <- old(pending) :: d.state == Settled
      ensures pending == set d | d in old(pending) && old(d.state) == Settled
    {
      var list := Copy(pending);
      AbandonEach(list, States(pending));
      ds := list;
    }

    /** The snapshot under pendingMu: every pending delivery once, in some order. */
    method Copy(s: set<Delivery>) returns (ds: seq<Delivery>)
      ensures Lists(ds, s)
    {
      ds := [];
      var rest := s;
      while rest != {}
        invariant rest <= s && Lists(ds, s - rest)
      {
        var d :| d in rest;
        ds := ds + [d];
        rest := rest - {d};
      }
    }
  }
}
