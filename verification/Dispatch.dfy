/** The admission gate as the code keeps it (nats/runtime_dispatch.go): the accepting
    flag, the semaphore and the wait group, and dispatch run by one callback alone. */
module Dispatch {

  /** Spawned and Refused are dispatch's results; a callback that Blocks is waiting
      in the select for a slot or for its context. */
  datatype Outcome = Spawned | Refused | Blocks

  /** dispatch's result, from what its two looks find and whether a slot is free. */
  function Verdict(accepting: bool, ctxDone: bool, free: bool, on: bool, done: bool): Outcome {
    if !accepting || ctxDone || done || (free && !on) then Refused else if free then Spawned else Blocks
  }

  class Gate {
    const cap: nat
    var accepting: bool
    var slots: nat
    var wg: nat

    ghost predicate Valid()
      reads this
    {
      slots <= cap
    }

    constructor (concurrency: nat)
      requires concurrency > 0
      ensures Valid() && cap == concurrency && !accepting && slots == 0 && wg == 0
    {
      cap, accepting, slots, wg := concurrency, false, 0, 0;
    }

    method IsAccepting() returns (on: bool)
      ensures on == accepting
    {
      return accepting;
    }

    /** dispatch, with what other threads may have changed by the time the callback
        is at the select or past it: the gate (on) and the context (done). When both
        cases of the select are ready, pick says whether it takes the slot; the result
        does not depend on it. A message is refused when either look finds the gate shut
        or the context done, and only an admitted one keeps a slot and adds to wg. */
    method Dispatch(ctxDone: bool, on: bool, done: bool, pick: bool) returns (r: Outcome)
      requires Valid()
      modifies this`slots, this`wg
      ensures Valid()
      ensures r == Verdict(accepting, ctxDone, old(slots) < cap, on, done)
      ensures r == Refused <==> !accepting || ctxDone || done || (old(slots) < cap && !on)
      ensures r == Spawned <==> accepting && !ctxDone && old(slots) < cap && on && !done
      ensures slots == old(slots) + (if r == Spawned then 1 else 0)
      ensures wg == old(wg) + (if r == Spawned then 1 else 0)
    {
      var first := IsAccepting();
      if !first || ctxDone {
        return Refused;
      }
      if slots < cap && (pick || !done) {
        slots := slots + 1;
      } else if done {
        return Refused;
      } else {
        return Blocks;
      }
      if !on || done {
        slots := slots - 1;
        return Refused;
      }
      wg := wg + 1;
      return Spawned;
    }

    /** The worker's deferred calls, in the order they run. */
    method Finish()
      requires Valid() && slots > 0 && wg > 0
      modifies this`slots, this`wg
      ensures Valid() && slots == old(slots) - 1 && wg == old(wg) - 1
    {
      slots := slots - 1;
      wg := wg - 1;
    }
  }
}
