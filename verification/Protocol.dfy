/** The delivery and drain protocol as a transition system. The threads are the
    receive callbacks and the workers of every message, the sequence of Start
    calls followed by one Stop, and Stop's background waiter. Each step is one
    shared access of the code: a lock section, a channel operation, a context
    check, or a request to the server. */
module Protocol {
  import opened Deliveries
  import opened Wrappers

  /** What a receiver's messages need: a core subscription, a JetStream consumer
      without acks, or one with acks. */
  datatype Kind = Core | JsNoAck | JsAck

  /** nats.go's side of a receiver. Drain, Stop and Unsubscribe only ask for it to
      close; messages already buffered keep arriving until it is Closed. */
  datatype Status = Open | Closing | Closed

  /** A receiver and the Start (numbered from 0) that opened it. */
  datatype Receiver = Receiver(gen: nat, kind: Kind, status: Status)

  /** Where a callback stands in receive and dispatch. */
  datatype CbPc =
    | CbTrack                  // insert into pending (acking consumers only)
    | CbGate                   // isAccepting
    | CbCtx                    // ctx.Err() beside it
    | CbSelect                 // select: take a slot, or ctx.Done
    | CbLock                   // slot held; acceptMu.RLock
    | CbRecheck                // lock held; read accepting again
    | CbRecheckCtx             // lock held; ctx.Err() again
    | CbAdd                    // lock held; wg.Add(1)
    | CbUnlock                 // lock held; RUnlock after the Add
    | CbSpawn                  // the go statement
    | CbFailUnlock             // lock held; RUnlock after a failed recheck
    | CbFailRelease            // give the slot back
    | CbRefused                // dispatch returned false; abandon's settle
    | CbUntrack(running: bool) // abandon won; delete from pending
    | CbNak(running: bool)     // abandon won; send the nak
    | CbDone

  /** Where a worker goroutine stands in serveJetStream (or serve). */
  datatype WkPc =
    | WkNone                   // not spawned
    | WkBegin                  // begin (acking consumers only)
    | WkCall                   // about to call the handler
    | WkHandling               // inside the handler
    | WkSettle(ok: bool)       // the handler returned; settle
    | WkUntrack(ok: bool)      // settle won; delete from pending
    | WkAttempt(ok: bool)      // send the ack or the nak
    | WkRelease                // deferred: give the slot back
    | WkWgDone                 // deferred: wg.Done
    | WkDone

  /** Who won settle. */
  datatype Owner = NoOwner | ByWorker | ByCallback | ByStop

  /** One message handed to a callback: its callback, its worker, its delivery
      state, how often it took and freed a slot, and its history. */
  datatype Msg = Msg(recv: nat, cb: CbPc, wk: WkPc, st: DeliveryState, owner: Owner,
                     took: nat, freed: nat, log: seq<Event>)

  /** How the drain ended. held: the connection was still open when the drain
      finished. inTime: the consumers closed within the budget. */
  datatype Outcome = Clean(held: bool) | Abandon(inTime: bool)

  /** The lifecycle thread. Start and Stop run one at a time under r.mu. */
  datatype Life =
    | Created                  // no Start is running and none has succeeded
    | OpenGate                 // Start: context made; setAccepting(true) next
    | Opening                  // Start: openReceivers and flush
    | Aborting                 // abortStart: unsubscribe and stop each receiver
    | AbortGate                // abortStart: cancelled; setAccepting(false) next
    | Started                  // Start succeeded
    | Draining                 // Stop: ask each receiver to drain
    | Selecting                // Stop: wait for done or ctx.Done
    | Cancelling(clean: bool)  // Stop: cancelHandlers next
    | StopGate                 // abandonDrain: setAccepting(false) next
    | Snapshot                 // abandonPending: copy the pending set
    | Walking(todo: set<nat>)  // abandonPending: abandon the rest of the copy
    | WalkUntrack(todo: set<nat>, at: nat, running: bool)
    | WalkNak(todo: set<nat>, at: nat, running: bool)
    | AwaitClosed              // waitConsumersClosed
    | CloseClient(outcome: Outcome)
    | Stopped(outcome: Outcome)

  /** Stop's background waiter. */
  datatype WaitPc = WtNone | WtSubs | WtConsumers | WtGate | WtWait | WtDone

  datatype State = State(
    cap: nat, msgs: seq<Msg>, recvs: seq<Receiver>, starts: nat, cancelled: set<nat>,
    accepting: bool, tokens: int, wg: int, pending: set<nat>,
    life: Life, waiter: WaitPc, connOpen: bool)

  function Init(cap: nat): State {
    State(cap, [], [], 0, {}, false, 0, 0, {}, Created, WtNone, true)
  }

  // ---------- What each thread reads ----------

  predicate HasMsg(s: State, i: nat) { i < |s.msgs| && s.msgs[i].recv < |s.recvs| }

  function RecvOf(s: State, i: nat): Receiver
    requires HasMsg(s, i)
  {
    s.recvs[s.msgs[i].recv]
  }

  /** The generation of the latest Start. */
  function Current(s: State): int { s.starts - 1 }

  /** A thread holds acceptMu for reading exactly between RLock and RUnlock. */
  predicate HoldsLock(m: Msg) {
    m.cb.CbRecheck? || m.cb.CbRecheckCtx? || m.cb.CbAdd? || m.cb.CbUnlock? || m.cb.CbFailUnlock?
  }

  /** setAccepting takes the write lock, so it waits for every reader. */
  predicate CanWriteGate(s: State) {
    forall m <- s.msgs :: !HoldsLock(m)
  }

  /** The part of the shared state one message's threads see. */
  datatype Sight = Sight(acks: bool, tracked: bool, accepting: bool, ctxDone: bool, slotFree: bool)

  function See(s: State, i: nat): Sight
    requires HasMsg(s, i)
  {
    Sight(RecvOf(s, i).kind == JsAck, i in s.pending, s.accepting, RecvOf(s, i).gen in s.cancelled,
          s.tokens < s.cap)
  }

  /** What one step of a message's threads writes: the message, whether it is in
      pending afterwards, and the change to the slots taken and to wg. */
  datatype Local = Local(m: Msg, tracked: bool, slots: int, wg: int)

  // ---------- Thread steps ----------

  /** receive and dispatch, one step. None where the callback cannot move by
      itself: at the select, and after it returned. */
  function CbMove(m: Msg, v: Sight): (l: Option<Local>) {
    match m.cb
    case CbTrack => Some(Local(m.(cb := CbGate), true, 0, 0))
    case CbGate => Some(Local(m.(cb := if v.accepting then CbCtx else CbRefused), v.tracked, 0, 0))
    case CbCtx => Some(Local(m.(cb := if v.ctxDone then CbRefused else CbSelect), v.tracked, 0, 0))
    case CbSelect => None
    case CbLock => Some(Local(m.(cb := CbRecheck), v.tracked, 0, 0))
    case CbRecheck =>
      Some(Local(m.(cb := if v.accepting then CbRecheckCtx else CbFailUnlock), v.tracked, 0, 0))
    case CbRecheckCtx =>
      Some(Local(m.(cb := if v.ctxDone then CbFailUnlock else CbAdd), v.tracked, 0, 0))
    case CbAdd => Some(Local(m.(cb := CbUnlock), v.tracked, 0, 1))
    case CbUnlock => Some(Local(m.(cb := CbSpawn), v.tracked, 0, 0))
    case CbSpawn => Some(Local(m.(cb := CbDone, wk := WkBegin), v.tracked, 0, 0))
    case CbFailUnlock => Some(Local(m.(cb := CbFailRelease), v.tracked, 0, 0))
    case CbFailRelease => Some(Local(m.(cb := CbRefused, freed := m.freed + 1), v.tracked, -1, 0))
    case CbRefused =>
      if v.acks && m.st != Settled then
        Some(Local(m.(cb := CbUntrack(m.st == Running), st := Settled, owner := ByCallback), v.tracked, 0, 0))
      else
        Some(Local(m.(cb := CbDone), v.tracked, 0, 0))
    case CbUntrack(running) => Some(Local(m.(cb := CbNak(running)), false, 0, 0))
    case CbNak(running) =>
      Some(Local(m.(cb := CbDone, log := m.log + [Nacked(Abandoned(running))]), v.tracked, 0, 0))
    case CbDone => None
  }

  /** The two ways out of dispatch's select. */
  function SelectMove(m: Msg, v: Sight, takeSlot: bool): Option<Local> {
    if m.cb != CbSelect then None
    else if takeSlot then
      if v.slotFree then Some(Local(m.(cb := CbLock, took := m.took + 1), v.tracked, 1, 0)) else None
    else
      if v.ctxDone then Some(Local(m.(cb := CbRefused), v.tracked, 0, 0)) else None
  }

  /** The worker goroutine, one step. None inside the handler. */
  function WkMove(m: Msg, v: Sight): Option<Local> {
    match m.wk
    case WkNone => None
    case WkBegin =>
      if !v.acks then Some(Local(m.(wk := WkCall), v.tracked, 0, 0))
      else if m.st == Settled then Some(Local(m.(wk := WkRelease), v.tracked, 0, 0))
      else Some(Local(m.(wk := WkCall, st := AfterBegin(m.st), log := m.log + [Began]), v.tracked, 0, 0))
    case WkCall => Some(Local(m.(wk := WkHandling, log := m.log + [Called]), v.tracked, 0, 0))
    case WkHandling => None
    case WkSettle(ok) =>
      if m.st == Settled then Some(Local(m.(wk := WkRelease), v.tracked, 0, 0))
      else Some(Local(m.(wk := WkUntrack(ok), st := Settled, owner := ByWorker), v.tracked, 0, 0))
    case WkUntrack(ok) => Some(Local(m.(wk := WkAttempt(ok)), false, 0, 0))
    case WkAttempt(ok) =>
      Some(Local(m.(wk := WkRelease, log := m.log + [if ok then Acked else Nacked(HandlerFailed)]),
                 v.tracked, 0, 0))
    case WkRelease => Some(Local(m.(wk := WkWgDone, freed := m.freed + 1), v.tracked, -1, 0))
    case WkWgDone => Some(Local(m.(wk := WkDone), v.tracked, 0, -1))
    case WkDone => None
  }

  /** The handler returns nil (ok), or an error or a panic. */
  function ReturnMove(m: Msg, v: Sight, ok: bool): Option<Local> {
    if m.wk != WkHandling then None
    else Some(Local(m.(wk := if v.acks then WkSettle(ok) else WkRelease, log := m.log + [Returned(ok)]),
                    v.tracked, 0, 0))
  }

  /** Writes a local step of message i back into the shared state. */
  function Write(s: State, i: nat, l: Local): State
    requires HasMsg(s, i)
  {
    s.(msgs := s.msgs[i := l.m],
       pending := if l.tracked then s.pending + {i} else s.pending - {i},
       tokens := s.tokens + l.slots,
       wg := s.wg + l.wg)
  }

  // ---------- Receivers ----------

  /** No callback of receiver r is active. */
  predicate Quiet(s: State, r: nat) {
    forall m <- s.msgs :: m.recv == r ==> m.cb == CbDone
  }

  predicate SubsClosed(s: State) {
    forall c <- s.recvs :: c.gen == Current(s) && c.kind == Core ==> c.status == Closed
  }

  predicate ConsumersClosed(s: State) {
    forall c <- s.recvs :: c.gen == Current(s) && c.kind != Core ==> c.status == Closed
  }

  /** Every receiver of the latest Start was asked to close. */
  predicate AllAsked(s: State) {
    forall c <- s.recvs :: c.gen == Current(s) ==> c.status != Open
  }

  function SetStatus(s: State, r: nat, st: Status): State
    requires r < |s.recvs|
  {
    s.(recvs := s.recvs[r := s.recvs[r].(status := st)])
  }

  // ---------- Lifecycle and waiter ----------

  datatype Action =
    // nats.go, the network and the callers
    | Arrive(r: nat)          // nats.go hands a message to a callback of r
    | CloseRecv(r: nat)       // a receiver asked to close has closed
    | LoseRecv(r: nat)        // a receiver closed unasked: connection or consumer lost
    | LoseConn                // the connection closed, or the client was closed directly
    // a message's threads
    | Cb(i: nat)
    | Select(i: nat, takeSlot: bool)
    | Wk(i: nat)
    | Return(i: nat, ok: bool)
    // Stop's waiter
    | Waiter
    // Start
    | BeginStart
    | SetGate                 // the pending setAccepting of Start, abortStart or abandonDrain
    | OpenRecv(kind: Kind)    // subscribe or Consume succeeded
    | FailStart               // a lookup, subscribe, Consume or flush failed
    | FinishStart
    | AskClose(r: nat)        // Unsubscribe, Stop or Drain on one receiver
    | CancelHandlers
    // Stop
    | BeginStop
    | SpawnWaiter
    | TakeDone
    | TakeCtx
    | TakeSnapshot
    | WalkSettle(i: nat)
    | WalkNext                // the untrack or the nak of the delivery being abandoned
    | WalkEnd
    | SeeClosed               // waitConsumersClosed saw every consumer closed
    | BudgetPassed
    | DoClose

  function EnvStep(s: State, a: Action): Option<State> {
    match a
    case Arrive(r) =>
      if r < |s.recvs| && s.recvs[r].status != Closed then
        var cb := if s.recvs[r].kind == JsAck then CbTrack else CbGate;
        Some(s.(msgs := s.msgs + [Msg(r, cb, WkNone, Waiting, NoOwner, 0, 0, [])]))
      else None
    case CloseRecv(r) =>
      if r < |s.recvs| && s.recvs[r].status == Closing && Quiet(s, r) then Some(SetStatus(s, r, Closed)) else None
    case LoseRecv(r) =>
      if r < |s.recvs| && Quiet(s, r) then Some(SetStatus(s, r, Closed)) else None
    case LoseConn => Some(s.(connOpen := false))
    case _ => None
  }

  function MsgStep(s: State, a: Action): Option<State> {
    match a
    case Cb(i) => if HasMsg(s, i) then Commit(s, i, CbMove(s.msgs[i], See(s, i))) else None
    case Select(i, takeSlot) =>
      if HasMsg(s, i) then Commit(s, i, SelectMove(s.msgs[i], See(s, i), takeSlot)) else None
    case Wk(i) => if HasMsg(s, i) then Commit(s, i, WkMove(s.msgs[i], See(s, i))) else None
    case Return(i, ok) => if HasMsg(s, i) then Commit(s, i, ReturnMove(s.msgs[i], See(s, i), ok)) else None
    case _ => None
  }

  function Commit(s: State, i: nat, l: Option<Local>): Option<State>
    requires HasMsg(s, i)
  {
    if l.Some? then Some(Write(s, i, l.value)) else None
  }

  /** waitSubscriptionsDrained, then each consumer's Closed, the gate, wg.Wait and
      close(done). The wait for core subscriptions ends early when the connection
      closes; the wait for consumers does not. */
  function WaiterStep(s: State): Option<State> {
    match s.waiter
    case WtSubs => if SubsClosed(s) || !s.connOpen then Some(s.(waiter := WtConsumers)) else None
    case WtConsumers => if ConsumersClosed(s) then Some(s.(waiter := WtGate)) else None
    case WtGate => if CanWriteGate(s) then Some(s.(accepting := false, waiter := WtWait)) else None
    case WtWait => if s.wg == 0 then Some(s.(waiter := WtDone)) else None
    case _ => None
  }

  function StartStep(s: State, a: Action): Option<State> {
    match (a, s.life)
    case (BeginStart, Created) => Some(s.(starts := s.starts + 1, life := OpenGate))
    case (OpenRecv(kind), Opening) =>
      if s.starts > 0 then Some(s.(recvs := s.recvs + [Receiver(s.starts - 1, kind, Open)])) else None
    case (FailStart, Opening) => Some(s.(life := Aborting))
    case (FinishStart, Opening) => Some(s.(life := Started))
    case _ => None
  }

  function SetGateStep(s: State): Option<State> {
    if !CanWriteGate(s) then None
    else
      match s.life
      case OpenGate => Some(s.(accepting := true, life := Opening))
      case AbortGate => Some(s.(accepting := false, life := Created))
      case StopGate => Some(s.(accepting := false, life := Snapshot))
      case _ => None
  }

  /** AskClose and CancelHandlers serve both abortStart and Stop. */
  function ShutStep(s: State, a: Action): Option<State> {
    match (a, s.life)
    case (AskClose(r), Aborting) => Ask(s, r)
    case (AskClose(r), Draining) => Ask(s, r)
    case (CancelHandlers, Aborting) =>
      if AllAsked(s) then Some(Cancelled(s).(life := AbortGate)) else None
    case (CancelHandlers, Cancelling(clean)) =>
      Some(Cancelled(s).(life := if clean then CloseClient(Clean(s.connOpen)) else StopGate))
    case _ => None
  }

  function Ask(s: State, r: nat): Option<State> {
    if r < |s.recvs| && s.recvs[r].gen == Current(s) && s.recvs[r].status == Open
    then Some(SetStatus(s, r, Closing)) else None
  }

  function Cancelled(s: State): State {
    s.(cancelled := if s.starts > 0 then s.cancelled + {s.starts - 1} else s.cancelled)
  }

  function StopStep(s: State, a: Action): Option<State> {
    match (a, s.life)
    case (BeginStop, Started) => Some(s.(life := Draining))
    case (SpawnWaiter, Draining) =>
      if AllAsked(s) then Some(s.(waiter := WtSubs, life := Selecting)) else None
    case (TakeDone, Selecting) => if s.waiter == WtDone then Some(s.(life := Cancelling(true))) else None
    case (TakeCtx, Selecting) => Some(s.(life := Cancelling(false)))
    case (TakeSnapshot, Snapshot) => Some(s.(life := Walking(s.pending)))
    case (WalkEnd, Walking(todo)) => if todo == {} then Some(s.(life := AwaitClosed)) else None
    case (SeeClosed, AwaitClosed) =>
      if ConsumersClosed(s) then Some(s.(life := CloseClient(Abandon(true)))) else None
    case (BudgetPassed, AwaitClosed) => Some(s.(life := CloseClient(Abandon(false))))
    case (DoClose, CloseClient(outcome)) => Some(s.(connOpen := false, life := Stopped(outcome)))
    case _ => None
  }

  /** abandon on one delivery of the snapshot: settle. */
  function SettleStep(s: State, i: nat): Option<State> {
    if !s.life.Walking? || !HasMsg(s, i) || i !in s.life.todo then None
    else if s.msgs[i].st == Settled then Some(s.(life := Walking(s.life.todo - {i})))
    else
      Some(s.(msgs := s.msgs[i := s.msgs[i].(st := Settled, owner := ByStop)],
              life := WalkUntrack(s.life.todo - {i}, i, s.msgs[i].st == Running)))
  }

  /** abandon after a settle that won: untrack, then the nak. */
  function AbandonStep(s: State): Option<State> {
    match s.life
    case WalkUntrack(todo, i, running) =>
      Some(s.(pending := s.pending - {i}, life := WalkNak(todo, i, running)))
    case WalkNak(todo, i, running) =>
      if HasMsg(s, i) then
        Some(s.(msgs := s.msgs[i := s.msgs[i].(log := s.msgs[i].log + [Nacked(Abandoned(running))])],
                life := Walking(todo)))
      else None
    case _ => None
  }

  function Step(s: State, a: Action): Option<State> {
    match a
    case Arrive(_) => EnvStep(s, a)
    case CloseRecv(_) => EnvStep(s, a)
    case LoseRecv(_) => EnvStep(s, a)
    case LoseConn => EnvStep(s, a)
    case Cb(_) => MsgStep(s, a)
    case Select(_, _) => MsgStep(s, a)
    case Wk(_) => MsgStep(s, a)
    case Return(_, _) => MsgStep(s, a)
    case Waiter => WaiterStep(s)
    case BeginStart => StartStep(s, a)
    case OpenRecv(_) => StartStep(s, a)
    case FailStart => StartStep(s, a)
    case FinishStart => StartStep(s, a)
    case SetGate => SetGateStep(s)
    case AskClose(_) => ShutStep(s, a)
    case CancelHandlers => ShutStep(s, a)
    case WalkSettle(i) => SettleStep(s, i)
    case WalkNext => AbandonStep(s)
    case _ => StopStep(s, a)
  }

  /** A run: the actions taken one after the other, None when one is not enabled. */
  function Run(s: State, acts: seq<Action>): Option<State>
    decreases |acts|
  {
    if acts == [] then Some(s)
    else
      match Step(s, acts[0])
      case None => None
      case Some(t) => Run(t, acts[1..])
  }

  ghost predicate Reachable(s: State) {
    exists cap: nat, acts: seq<Action> :: cap > 0 && Run(Init(cap), acts) == Some(s)
  }
}
