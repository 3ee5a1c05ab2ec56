/** The three-state machine of one JetStream delivery (nats/jetstream.go).
    A worker, the callback whose dispatch was refused, and Stop's walk over the
    pending deliveries all race to settle the same delivery. */
module Deliveries {
  datatype DeliveryState = Waiting | Running | Settled

  /** Why a message was nacked. Abandoned carries the reported handler_running. */
  datatype Cause = HandlerFailed | Abandoned(running: bool)

  /** A message's history. Began is a successful begin; Acked and Nacked are
      attempts, which the server may never receive. */
  datatype Event = Began | Called | Returned(ok: bool) | Acked | Nacked(cause: Cause)

  /** What abandon does to a delivery in state st: a nak unless it was settled. */
  function AbandonEvents(st: DeliveryState): seq<Event> {
    if st == Settled then [] else [Nacked(Abandoned(st == Running))]
  }

  /** What serveJetStream does to a delivery in state st when its handler's result is
      ok; stopped says that Stop abandons it while the handler runs. */
  function ServeEvents(acks: bool, st: DeliveryState, stopped: bool, ok: bool): seq<Event> {
    if !acks then [Called, Returned(ok)]
    else if st == Settled then []
    else [Began, Called]
         + (if stopped then [Nacked(Abandoned(true)), Returned(ok)]
            else [Returned(ok), if ok then Acked else Nacked(HandlerFailed)])
  }

  /** What begin leaves behind. */
  function AfterBegin(st: DeliveryState): DeliveryState {
    if st == Settled then Settled else Running
  }

  /** The order the state may move in: waiting to running to settled, or
      straight from waiting to settled. */
  predicate Precedes(before: DeliveryState, after: DeliveryState) {
    before == after || before == Waiting || after == Settled
  }

  /** The settlement race over any sequence of calls: true stands for a call of
      begin, false for a call of settle. Counts the calls of settle that won. */
  function SettleWins(st: DeliveryState, calls: seq<bool>): nat
    decreases |calls|
  {
    if calls == [] then 0
    else if calls[0] then SettleWins(AfterBegin(st), calls[1..])
    else (if st == Settled then 0 else 1) + SettleWins(Settled, calls[1..])
  }

  /** However begin and settle calls interleave, exactly one settle wins when
      there is one at all and the delivery was not settled before. */
  lemma {:induction false} OneSettleWins(st: DeliveryState, calls: seq<bool>)
    ensures SettleWins(st, calls) == if st != Settled && false in calls then 1 else 0
    decreases |calls|
  {
    if calls != [] {
      assert calls == [calls[0]] + calls[1..];
      OneSettleWins(if calls[0] then AfterBegin(st) else Settled, calls[1..]);
    }
  }

  class Delivery {
    var state: DeliveryState

    constructor ()
      ensures state == Waiting
    {
      state := Waiting;
    }

    /** The worker claims the delivery for its handler, unless someone settled it. */
    method Begin() returns (ok: bool)
      modifies this
      ensures state == AfterBegin(old(state)) && Precedes(old(state), state)
      ensures state == if old(state) == Settled then Settled else Running
      ensures ok == (old(state) != Settled)
    {
      if state == Settled {
        return false;
      }
      state := Running;
      return true;
    }

    /** Claims the right to ack or nak; only the first caller gets it. */
    method Settle() returns (running: bool, ok: bool)
      modifies this
      ensures state == Settled && Precedes(old(state), state)
      ensures ok == (old(state) != Settled)
      ensures running == (old(state) == Running)
    {
      if state == Settled {
        return false, false;
      }
      running := state == Running;
      state := Settled;
      return running, true;
    }
  }
}
