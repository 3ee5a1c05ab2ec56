# Verification of the NATS transport's runtime

A Dafny model of `service-mesh-nats-go` and proofs about it. The core is the
runtime's delivery and drain protocol: how messages that arrive on concurrent
nats.go callbacks are admitted, run under a concurrency limit, settled, and
drained or abandoned by `Stop`, also after earlier `Start` calls that failed.

`dafny verify dfyconfig.toml` checks the whole project.

## How it is built

**The protocol as a transition system** (`Protocol.dfy`). A state holds every
message ever handed to a callback, with the program counters of its callback
(`receive`, `dispatch`) and of its worker (`serveJetStream`), its delivery
state and its history; the receivers of every Start; the gate, the semaphore,
the wait group and the pending set; the cancelled contexts; and the program
counters of the lifecycle thread (any number of failing Starts, at most one
that succeeds, then one Stop) and of Stop's waiter. One action is one shared
access: a look at `accepting`, a context check, taking or freeing a slot,
`RLock`, `wg.Add`, `RUnlock`, the `go` statement, `settle`, `untrack`, the ack
or nak itself, the snapshot of `abandonPending`, one step of its walk.
`Run(s, acts)` executes any interleaving, and `Reachable` is what runs reach
from a fresh runtime with a positive concurrency.

`setAccepting` is one action that waits until no callback holds the read lock,
and `isAccepting` is one action: each is a lock section around a single access.
A callback holds the read lock over five program counters, so both gate
closings and both cancellations interleave with it freely. nats.go may hand any
number of messages to a receiver until it is `Closed`, and a receiver becomes
`Closed` only when none of its callbacks is active. It may close unasked, and
the connection may be lost at any time. Acks and naks are attempts.

**The invariant** (`Invariant.dfy`, `Summary.dfy`, `Sums.dfy`, `Global.dfy`)
says for each message how its program counters, delivery state, owner, log and
membership in `pending` fit together, that the counters are sums over the
messages, exactly when the gate is open, and what Stop's walk still has to do.

**The guarantees** are in `Safety.dfy` and `Progress.dfy`, and `Witnesses.dfy`
gives runs that show where they stop:

- after a failed Start has returned, no callback of it passes the gate any
  more, but a `go` statement already counted in the wait group can still be due
  (`Witnesses.SpawnAfterFailedStart`, and exactly then: `Safety.LateSpawnExact`);
- Stop can return with a delivery settled and its ack not yet sent
  (`Witnesses.ClosedBeforeTheAck`);
- a clean Stop has handled every JetStream message of the successful Start, but
  not always every core message (`Witnesses.CoreMessageLostWithConnection`). It
  has handled exactly the messages that were added to the wait group before the
  waiter shut the gate (`Safety.CleanDrainExact`), and all core messages are among
  them when the connection is open until the drain ends
  (`Safety.CleanDrainLosesNothing`).

**The code's own form.** `Deliveries.dfy`, `Dispatch.dfy`, `Pending.dfy`,
`Lifecycle.dfy` and `LateStarts.dfy` hold the classes with their fields and
loops, each method run by one thread alone. The lock sections `begin` and
`settle` are the delivery steps of the protocol. `ServeAlone.ReceiveRuns`,
`WalkAlone.WalkRuns`, `StartAlone.GoodStartRuns` and `StartAlone.FailedStartRuns`
give runs of the protocol that come to what the methods promise. In
`ReceiveRuns` the other threads do anything between the parts of receive that the
method takes as its parameters. Both sides tell what happens to a delivery by the
same functions, `Deliveries.ServeEvents` and `Deliveries.AbandonEvents`.

**Around the protocol**: consumer settings and ack deadlines
(`Consumers.dfy`), requests, timeouts and replies (`Requests.dfy`), headers
(`Headers.dfy`) and subjects (`Subjects.dfy`). Integers are unbounded except
where Go's 64-bit wrap-around is written out (`Ints.dfy`).

## Where the code and its documentation differ

The model follows the code.

- `nats/consumers.go:141-143` says that with a MaxDeliver of -1 no delivery is
  the last. Delivery number 2^64-1 is (`Consumers.LastDeliveryExact`).
- `nats/config.go:79-84` says that deliveries past the end of the backoff list
  use its last entry. Past 2^63 `int(delivered)` is negative and the first entry
  is used (`Consumers.BackoffIndexExact`).
- `docs/transport-specific-implementation.md` gives `Mesh-Deadline` as the
  arrival time plus `Mesh-Timeout`. The multiplication overflows beyond
  9223372036854 milliseconds (`Requests.AllowanceExact`,
  `Requests.AllowanceOverflows`); a value that `Request` wrote never does.
- `nats/errors.go:35-37` says that `HandlerError` means that the handler failed.
  A handler that succeeds with `Mesh-Handler-Error` among its metadata gives one
  too (`Requests.Exchange`).
- `nats/runtime.go:215-217` says that draining hands the messages already
  received to their handlers. It hands over exactly those added to the wait
  group before the waiter shuts the gate. A core message may come later when the
  connection is lost (`Safety.CleanDrainExact`).

## Model

| member | source | states |
|---|---|---|
| Deliveries.Delivery.Begin | nats/jetstream.go:342-350 | succeeds and marks the handler running exactly when the delivery was not settled; the state only moves forward |
| Deliveries.Delivery.Settle | nats/jetstream.go:354-363 | wins exactly when not settled before, reports whether begin had succeeded, and always leaves the delivery settled |
| Deliveries.OneSettleWins | nats/jetstream.go:342-363 | over any sequence of begin and settle calls exactly one settle wins, if there is one and the delivery was not settled |
| Global.StepKeeps | nats/runtime_jetstream.go:15-104 | every enabled action of every thread keeps the system invariant |
| Global.ReachableInv | nats/runtime_dispatch.go:23-50 | the invariant holds after every run of any interleaving |
| Safety.EveryEventJustified | nats/runtime_jetstream.go:38-104 | in every reachable state each event of a message is justified by its history: an ack follows its handler's nil return, a nak a failure or an abandonment, an attempt is the first and only on an acking delivery, and handler_running is true exactly when begin had succeeded |
| Safety.AtMostOneAttempt | nats/runtime_jetstream.go:22-104 | the worker, the refused callback and Stop together attempt at most one ack or nak per delivery; a message that is not acked gets none and is never pending |
| Safety.FinishedMeansOneAttempt | nats/runtime_jetstream.go:74-103 | once its threads are done an acking delivery is settled, out of pending, and got its attempt: an ack after nil, a nak after a failure, or a nak as abandoned exactly when its worker did not settle it |
| Safety.DeliveriesMoveForward | nats/jetstream.go:322-363 | over any run a delivery state only moves waiting to running to settled or straight to settled, and the history only grows |
| Safety.PendingAgrees | nats/runtime_jetstream.go:27-31 | pending is exactly the tracked acking deliveries that are unsettled or whose settler is between settle and untrack |
| Safety.WorkersSettledAfterWalk | nats/runtime_jetstream.go:159-169 | once abandonPending has returned, every acking delivery with a worker, of any Start, is settled |
| Safety.NoBeginAfterAbandon | nats/runtime_jetstream.go:15-19 | in every later run no acking delivery of any Start begins; one whose handler is called later had begun before and was settled by then |
| Safety.AbandonedInTimeSettlesAll | nats/runtime_jetstream.go:12-19 | if the consumers closed within the budget, every acking delivery of the running Start is settled, and its attempt was made except exactly when its worker stands between settle and sending it |
| Safety.CleanDrainLosesNothing | nats/runtime.go:239-256 | when Stop took the done branch, every JetStream message of the successful Start, and every core one if the connection was open until the drain ended, had its handler run to the end; each acking one was acked or nacked by its own result, never abandoned |
| Safety.CleanDrainExact | nats/runtime.go:239-256 | over any run from the shutting of the gate to a clean end, a message of any kind and any Start is handled so if and only if it had been added to wg when the gate was shut; the handler of any other is never called |
| Safety.FailedStartSpawnsNoMore | nats/runtime_receivers.go:75-84 | after a failed Start returned, over any later run, none of its callbacks passes the gate; the messages of it that have a worker or are due one are exactly those counted in wg already or ended |
| Safety.LateSpawnExact | nats/runtime_dispatch.go:33-48 | a message of a failed Start without a worker gets one in some later run if and only if its callback stands before the go statement |
| Safety.RefusedMeansOneNak | nats/runtime_jetstream.go:32-34 | an acking delivery that never got a worker ends with exactly one nak, as abandoned before its handler ran, and nothing else in its history |
| Safety.AtRest | nats/runtime.go:180-186 | whenever Start can be called, and once Stop has returned, the gate is shut, every Start's context is cancelled and every receiver was asked to close; while a Start opens or runs, the gate is open and its context live |
| Safety.SlotsConserved | nats/runtime_dispatch.go:27-48 | the semaphore holds exactly the slots of callbacks between select and go and of workers before their release; each message takes at most one and gives it back exactly once, and a release never finds the semaphore empty |
| Safety.HandlersBounded | nats/runtime.go:108 | at most concurrency handlers run at once over all receivers and Starts |
| Safety.WaitGroupCounts | nats/runtime_dispatch.go:39-48 | wg is exactly the number of messages between their Add and their Done, of every Start |
| Safety.NoAddAfterGate | nats/runtime_dispatch.go:33-40 | once the waiter has shut the gate, no step of any thread adds to wg |
| Safety.WaitMeansNoWorkers | nats/runtime.go:245-247 | once wg.Wait has returned, no worker is live and none ever will be, over any run |
| Progress.CancelledCallbackMoves | nats/runtime_dispatch.go:24-48 | with its context cancelled a callback that has not returned always has a step of its own, which lowers its rank |
| Progress.FullHolderMoves | nats/runtime_dispatch.go:27-31 | a full semaphore always has a holder that can take a step |
| Progress.DrainEnds | nats/runtime.go:239-256 | in any run of all threads from Stop's select on, arrivals and losses included, the drain's steps are bounded by the work left and 24 for each message that arrives; until done is closed one of them is enabled, and then a waiting Stop can take the clean branch |
| Progress.StopCanMove | nats/runtime.go:256-267 | past its select Stop never waits for a handler: one of its steps is enabled, or a callback is about to release the gate's lock |
| Progress.StopReturns | nats/runtime.go:249-268 | in any such run Stop's own steps are bounded, three more at most for each message that arrives, and until it has returned one of its steps or of the drain's is enabled, even if its ctx is never done |
| Witnesses.SpawnAfterFailedStart | nats/runtime_dispatch.go:40-44 | a reachable state where a failed Start has returned and the next step still spawns a worker it admitted |
| Witnesses.ClosedBeforeTheAck | nats/runtime_jetstream.go:77-103 | a reachable state where Stop has returned, the consumers closed in time, and a settled delivery's ack is unsent |
| Witnesses.CoreMessageLostWithConnection | nats/runtime_receivers.go:58-71 | a reachable clean end of the drain, the connection lost, with a received core message refused |
| Dispatch.Gate.Dispatch | nats/runtime_dispatch.go:23-50 | refused exactly when either look finds the gate shut or the context done, whichever ready case the select picks; a slot and a count in wg are kept exactly by an admitted message |
| Pending.Pending.Receive | nats/runtime_jetstream.go:22-35 | an acking message that either look finds unwelcome, or that Stop abandons first, is nacked once and settled; one that waits for a slot stays pending; an admitted one is called and settled by its result, or by Stop's nak; without acks nothing is sent; slots and wg are balanced |
| Pending.Pending.ServeJetStream | nats/runtime_jetstream.go:38-104 | the exact history from begin to the ack or nak; nothing for a delivery settled before, and no attempt of its own when Stop settles it while the handler runs |
| Pending.Pending.Abandon | nats/runtime_jetstream.go:173-195 | naks and untracks exactly when not settled before, with the right handler_running |
| Pending.Pending.AbandonPending | nats/runtime_jetstream.go:159-169 | settles every pending delivery, naks and untracks those unsettled, in some order, and leaves the others to their settlers |
| Pending.NaksForEach | nats/runtime_jetstream.go:159-195 | the naks sent are exactly one for each unsettled delivery, with its handler_running |
| WalkAlone.WalkRuns | nats/runtime_jetstream.go:159-195 | the protocol's walk, uninterrupted, settles and untracks exactly the same deliveries as the method and adds to each the same events, in whatever order |
| ServeAlone.GateRuns | nats/runtime_dispatch.go:23-50 | from dispatch's first look to the end, the protocol's run has the result Gate.Dispatch promises and leaves the history, state, place in pending and slots that go with it |
| ServeAlone.ServeRuns | nats/runtime_jetstream.go:38-104 | the worker's run, with whatever other threads do in its handler, leaves what ServeJetStream promises, by Stop's nak if Stop came first, and gives back its slot |
| ServeAlone.RefusedRuns | nats/runtime_jetstream.go:32-34 | the refused callback's run leaves what Abandon promises |
| ServeAlone.ReceiveRuns | nats/runtime_jetstream.go:22-104 | the run from a message's arrival to its end, with whatever other threads do before dispatch, before its select and in the handler, leaves the history, state and place in pending Receive promises and keeps no slot |
| ServeAlone.ReceiveFollows | nats/runtime_jetstream.go:22-104 | every history Receive promises obeys the protocol's rules; it holds an attempt exactly if the message is acked and no longer waits, and a handler call exactly if it was admitted and not abandoned before |
| Lifecycle.Prepare | nats/target.go:55-68 | which error, in order of the checks; otherwise subject, queue group and target are the party's, and its stream is its own setting, or its target's when it has none, an empty one meaning no JetStream; an endpoint with a stream is refused |
| Lifecycle.OwnSettingsWin | nats/runtime.go:119-137 | key by key the settings read are the party's own, and its target's where it has none |
| Lifecycle.New | nats/runtime.go:97-142 | the subscriptions of the endpoints and then of the subscribers, in order, each with its own party's target and stream, or the error of the first party that is refused |
| Lifecycle.CheckEndpointStreams | nats/jetstream.go:299-318 | the first endpoint whose lookup is not "not found" decides, and how; with none it passes |
| Lifecycle.BootExact | nats/jetstream.go:299-318 | the check passes if and only if every endpoint with a stream or a failed lookup comes after one whose server has no JetStream |
| Lifecycle.Runtime.OpenReceivers | nats/runtime_receivers.go:14-38 | opens every subscription's receiver in order, or on the first failure exactly those before it |
| Lifecycle.Runtime.AbortStart | nats/runtime_receivers.go:75-84 | closes each receiver it is given, cancels their context and shuts the gate |
| Lifecycle.Runtime.Start | nats/runtime.go:163-196 | succeeds exactly when created, the client open and nothing it asks for fails; otherwise state, receivers, running and gate are as before and every receiver it opened is closing with its context cancelled; which error comes first |
| Lifecycle.Runtime.Stop | nats/runtime.go:221-268 | on a running runtime asks every receiver to drain, cancels their context, shuts the gate, closes the client and ends stopped; otherwise changes nothing |
| Lifecycle.IndicesList | nats/runtime_receivers.go:19-37 | the receivers' order lists exactly the subscriptions of their kind, strictly increasing |
| Lifecycle.Runtime.Lookup | nats/runtime_public.go:37-57 | while running, finds the first endpoint or subscriber given to New for the target; its consumer is nil exactly when that party's settings name no stream, its own before its target's, and otherwise the one made for it |
| Lifecycle.StateMovesForward | nats/runtime.go:25-29 | over any calls the state only moves created to running to stopped |
| Lifecycle.FailuresLeaveItStartable | nats/runtime.go:159-162 | after any number of failed Starts the next good one succeeds |
| StartAlone.GoodStartRuns | nats/runtime.go:175-195 | the protocol's steps of a successful Start leave all receivers open and the gate open |
| StartAlone.FailedStartRuns | nats/runtime.go:175-186 | the protocol's steps of a failing Start leave exactly its receivers closing, its context cancelled, the gate shut and Start callable |
| LateStarts.LateLog.LateStartLogged | nats/consumers.go:84-94 | logs exactly when the interval has passed since the last log, reporting and resetting the skipped count, despite the saturating time difference |
| LateStarts.LoggedApart | nats/consumers.go:84-94 | over any sequence of times, in order or not, two logged calls are at least the interval apart |
| LateStarts.FirstLogged | nats/consumers.go:84-94 | until a call is logged, a call is logged if and only if it comes a minute after the log before them, and it reports all skipped since then |
| LateStarts.NextLogged | nats/consumers.go:84-94 | after a logged call, the next is the first that comes a minute after it, and it reports exactly the calls between |
| LateStarts.EveryStartCounted | nats/consumers.go:84-94 | logged calls, reported skips and the current count together are all the calls |
| Consumers.BackoffSetting | nats/jetstream.go:224-239 | the loop gives the parsed entries of the list, or refuses the key |
| Consumers.EntriesPositive | nats/jetstream.go:229-237 | an accepted list has one positive entry per part, the part's own |
| Consumers.ConfigSound | nats/jetstream.go:159-191 | an accepted configuration acks exactly unless the policy is none, has positive entries and limit, and fewer entries than deliveries when it is created |
| Consumers.SettingsRead | nats/jetstream.go:75-101 | accepted settings give JetStream options exactly when they name a stream, each option the given one or its default |
| Consumers.ConfigReads | nats/jetstream.go:159-191 | the configuration sent, setting by setting with its defaults; the ack settings only when it acks |
| Consumers.PullReads | nats/jetstream.go:252-271 | each pull setting is the given one or the runtime's |
| Consumers.SettingsRefused | nats/jetstream.go:75-101 | settings with a stream are refused if and only if one of fifteen checks fails, with the key of the first that does, in the code's order |
| Consumers.ServerGoverns | nats/consumers.go:71-82 | for any answer of the server, a consumer that is not ordered gives a delivery the server's own backoff entry, its last one past the list, or its ack wait; and the server's limit decides the last delivery |
| Consumers.EveryEntryGoverns | nats/consumers.go:98-105 | from the settings to the deadline: for every created acking consumer, the k-th duration listed under backoff is what delivery k gets, and that delivery is not the last; later ones get the last duration; without a list it is the duration under ack_wait, or the server's choice |
| Consumers.BackoffIndexExact | nats/consumers.go:98-105 | the index is in range for every uint64 and is the delivery's own exactly from 1 to 2^63 or with one entry |
| Consumers.LastDeliveryExact | nats/consumers.go:144-146 | with -1 only the largest uint64 is last; with a limit exactly the numbers from it on |
| Consumers.MergeSettings | nats/target.go:86-95 | every key of either map, the second map's value winning |
| Requests.BoundWait | nats/client.go:210-217 | exactly the shorter of the timeout and what is left, and zero when nothing is |
| Requests.RequestHeader | nats/client.go:99-103 | the timeout key holds the wait in whole milliseconds whatever the metadata says of it; every other key but the NATS ID is the metadata's |
| Requests.IntRoundTrip | nats/runtime_serve.go:31 | every int64 survives printing and parsing in base 10 |
| Requests.DigitAt | nats/client.go:103 | what is printed is decimal, digit by digit |
| Requests.ParseIntExact | nats/runtime_serve.go:31 | decimal digits with an optional sign are read as their number when it is an int64, and refused otherwise |
| Requests.ParseIntRefuses | nats/runtime_serve.go:31 | nothing else is read |
| Requests.HandlerDeadline | nats/runtime_serve.go:28-38 | for any header: a timeout from 0 to 9223372036854 gives the arrival plus so many milliseconds as deadline and metadata, a negative, unreadable or missing one changes nothing; every other key has its first value |
| Requests.TimeoutTransfer | nats/client.go:99-103 | whatever the caller's metadata, the handler's allowance is the client's wait in whole milliseconds: at most the wait, short by less than 1 ms, no overflow |
| Requests.SendRequest | nats/client.go:99-103 | from the call to the handler: the deadline is the arrival plus the wait, short by less than 1 ms, the wait is within the timeout and what is left, and all other metadata arrives unchanged |
| Requests.AllowanceExact | nats/runtime_serve.go:31-32 | for any metadata with a timeout, the allowance is the number it stands for if and only if that is from 0 to 9223372036854; a negative or unreadable one gives none |
| Requests.AllowanceOverflows | nats/runtime_serve.go:32 | one more millisecond and the deadline lies in the past |
| Requests.BuildReply | nats/runtime_serve.go:46-55 | the reply carries the handler's metadata and payload, or only the failure's text |
| Requests.ReadReply | nats/client.go:114-126 | a HandlerError exactly when the error key is in the header, with its first value |
| Requests.Exchange | nats/client.go:114-126 | the caller gets a HandlerError if and only if the handler failed, panicked or replied with the error key; its text is exact, and otherwise payload and metadata arrive unchanged |
| Headers.ToHeader | nats/header.go:11-20 | one value per key; nil for no metadata |
| Headers.FromHeader | nats/header.go:23-34 | the first value of each key that has one; nil for no header |
| Headers.OutgoingHeader | nats/header.go:38-44 | key by key one value, the metadata's, except that the mesh ID is also the NATS one |
| Headers.IncomingMetadata | nats/header.go:49-58 | for any header, every key has its first value, except that the NATS ID takes the place of the mesh one whenever it has a value; never nil |
| Headers.SendReceive | nats/header.go:36-58 | what the handler gets is what was sent with the two ID keys unified, the mesh key winning |
| Headers.UnifiedIdempotent | nats/header.go:36-58 | unifying again changes nothing, both keys then carry one ID, and no other key changes |
| Subjects.CheckSegment | nats/target.go:25-42 | accepts exactly the non-empty segments without dot, wildcard, space or non-printable character, and otherwise gives the reason of the first refused character |
| Subjects.Subject | nats/target.go:13-23 | accepts exactly the non-empty lists of accepted segments, and otherwise names the first refused segment and its reason |
| Subjects.SubjectSplits | nats/target.go:22 | splitting a subject on its dots gives back the segments |
| Strings.JoinConcat | nats/target.go:22 | joining keeps the order of the segments, with one separator between |
| Strings.JoinSplit | nats/jetstream.go:229 | splitting any text gives parts without separators that join to it |
| Strings.TrimSpaceExact | nats/jetstream.go:232 | trimming takes blank text off both ends, and all of it |
| Subjects.SubjectsDistinct | nats/target.go:13-23 | distinct accepted segment lists have distinct subjects |
| Subjects.SubjectLiteral | nats/target.go:25-42 | a subject holds no wildcard, whitespace, non-printable character or empty token |

## Left out

- nats.go, the NATS server and JetStream: only what the code relies on is assumed. A receiver is closed only when none of its callbacks is active, and none follows. Header values are taken to travel unchanged.
- Pending.Pending.Receive: run by one callback and its worker, with Stop's abandonment of the delivery before dispatch or in the handler as a parameter; every other interleaving is in the protocol.
- Pending.Pending.ServeJetStream: the handler's result and an abandonment by Stop while it runs are parameters; the single and the confirmed ack are one attempt, and the ack deadline is in Consumers.
- Dispatch.Gate.Dispatch: run by one callback alone, with what its second look finds and which ready case its select picks as parameters.
- Lifecycle.Runtime.Stop: states the end of the call only, not its waits, which are in the protocol.
- Progress.DrainEnds: assumes that handlers return and that nats.go closes a receiver it was asked to close once that is quiet. Go's rule that a waiting writer holds back new readers of an RWMutex is not modelled.
- Requests.HandlerDeadline: RFC 3339 formatting (section 5.6 of RFC 3339) is an uninterpreted function.
- Consumers.EveryEntryGoverns: takes the server to keep the limit, the backoff list and a positive ack wait it was sent, and the limit to fit an int64; ServerGoverns takes nothing.
- time.ParseDuration, strconv.Atoi and the Unicode tables are parameters; strings are sequences of characters, with no encoding.
- Late starts and the skipped count are unbounded integers; overflow of the counter is not modelled.
- The missing-consumer watch, log texts other than handler_running and skipped, and the delivery metadata keys: logging and copying only.
- Client construction, Publish and its JetStream wait, Request's transport and timeout errors, Close, flushes: I/O with no logic of their own. The runtime's client is a flag.
- mesh's own types, such as Target.Equal, are not part of this repository; kinds and segments are compared.
- Examples, runbook programs and tests.
