/** New, Start, Stop and the receiver lookup (nats/runtime.go,
    nats/runtime_receivers.go, nats/runtime_public.go), each run alone under r.mu. What
    nats.go and the server answer is a parameter. */
module Lifecycle {
  import opened Subjects
  import opened Wrappers
  import C = Consumers

  datatype Kind = Route | Topic

  datatype Target = Target(kind: Kind, segments: seq<string>, metadata: C.Settings)

  /** mesh's Target.Equal: the kind and the segments. */
  predicate Equal(a: Target, b: Target) { a.kind == b.kind && a.segments == b.segments }

  /** A validated endpoint or subscriber. */
  datatype Subscription = Subscription(subject: string, queue: string, target: Target, endpoint: bool,
                                       js: Option<C.JsSettings>)

  // ---------- New ----------

  const GROUP_NONE := "none"

  /** consumerGroup: the queue group, empty for a plain subscription. */
  function ConsumerGroup(group: string, deployment: string): string {
    if group == "" then deployment else if group == GROUP_NONE then "" else group
  }

  /** An endpoint or a subscriber given to New. */
  datatype Party = Party(target: Target, group: string, metadata: C.Settings, handler: bool)

  /** What New reads from the configuration, and the libraries it parses with. */
  datatype Setup = Setup(deployment: string, maxDeliver: int, pull: C.Pull, parsers: C.Parsers, unicode: Unicode)

  datatype NewError = KindMismatch | InvalidTarget | NilHandler | BadConfig(key: string)

  predicate NamesStream(md: C.Settings) { C.STREAM in md && md[C.STREAM] != "" }

  /** A party's own settings over its target's. */
  function Merged(p: Party): C.Settings { p.target.metadata + p.metadata }

  /** Key by key: a setting of the party's own hides its target's. */
  lemma OwnSettingsWin(p: Party)
    ensures forall k :: k in Merged(p) <==> k in p.metadata || k in p.target.metadata
    ensures forall k <- p.metadata :: Merged(p)[k] == p.metadata[k]
    ensures forall k <- p.target.metadata :: k !in p.metadata ==> Merged(p)[k] == p.target.metadata[k]
  {
  }

  /** The stream a party consumes from, empty for none: its own setting if it has one, and
      otherwise its target's. */
  function StreamOf(p: Party): string {
    if "stream" in p.metadata then p.metadata["stream"]
    else if "stream" in p.target.metadata then p.target.metadata["stream"]
    else ""
  }

  /** What the checks of a party look at, in order: kind, segments, handler. */
  predicate KindFits(p: Party, endpoint: bool) { p.target.kind == Route <==> endpoint }

  /** What New promises of the subscription it makes of a party. */
  predicate Built(s: Setup, p: Party, endpoint: bool, b: Subscription) {
    var md := Merged(p);
    && Accepted(s.unicode, p.target.segments) && p.target.kind == (if endpoint then Route else Topic) && p.handler
    && b.subject == Strings.Join(p.target.segments, '.')
    && b.queue == ConsumerGroup(p.group, s.deployment)
    && b.target == p.target && b.endpoint == endpoint
    && (if endpoint then !NamesStream(md) && b.js.None?
        else C.ParseJetStream(s.parsers, md, b.subject, b.queue, s.maxDeliver, s.pull) == Ok(b.js))
  }

  /** Error e is the one a party is refused with: the checks come in this order. */
  predicate Refused(s: Setup, p: Party, endpoint: bool, e: NewError) {
    var kind := p.target.kind == (if endpoint then Route else Topic);
    var subject := Accepted(s.unicode, p.target.segments);
    match e
    case KindMismatch => !kind
    case InvalidTarget => kind && !subject
    case NilHandler => kind && subject && !p.handler
    case BadConfig(key) =>
      kind && subject && p.handler
      && (if endpoint then key == C.STREAM && NamesStream(Merged(p))
          else C.ParseJetStream(s.parsers, Merged(p), Strings.Join(p.target.segments, '.'),
                                ConsumerGroup(p.group, s.deployment), s.maxDeliver, s.pull) == Err(key))
  }

  /** prepareSubscription and New's checks for one party. */
  method Prepare(s: Setup, p: Party, endpoint: bool) returns (r: Result<Subscription, NewError>)
    ensures r.Ok? <==> exists b :: Built(s, p, endpoint, b)
    ensures r.Ok? ==> Built(s, p, endpoint, r.value)
    ensures r.Err? ==> Refused(s, p, endpoint, r.error)
    ensures forall e :: Refused(s, p, endpoint, e) ==> r == Err(e)
    ensures r == Err(KindMismatch) <==> !KindFits(p, endpoint)
    ensures r == Err(InvalidTarget) <==> KindFits(p, endpoint) && !Accepted(s.unicode, p.target.segments)
    ensures r == Err(NilHandler) <==>
      KindFits(p, endpoint) && Accepted(s.unicode, p.target.segments) && !p.handler
    ensures endpoint ==>
      (r == Err(BadConfig("stream")) <==>
         KindFits(p, true) && Accepted(s.unicode, p.target.segments) && p.handler && StreamOf(p) != "")
    ensures r.Ok? && !endpoint && "stream" in p.metadata ==>
      if p.metadata["stream"] == "" then r.value.js.None?
      else r.value.js.Some? && r.value.js.value.stream == p.metadata["stream"]
    ensures r.Ok? && !endpoint && "stream" !in p.metadata && "stream" in p.target.metadata ==>
      if p.target.metadata["stream"] == "" then r.value.js.None?
      else r.value.js.Some? && r.value.js.value.stream == p.target.metadata["stream"]
    ensures r.Ok? ==>
      var b := r.value;
      && b.subject == Strings.Join(p.target.segments, '.') && b.target == p.target && b.endpoint == endpoint
      && BuiltLaw(s, p, b) && (endpoint ==> b.js.None?)
  {
    if p.target.kind != (if endpoint then Route else Topic) {
      return Err(KindMismatch);
    }
    var subject := Subject(s.unicode, p.target.segments);
    if subject.Err? {
      return Err(InvalidTarget);
    }
    var b := Subscription(subject.value, ConsumerGroup(p.group, s.deployment), p.target, endpoint, None);
    if !p.handler {
      return Err(NilHandler);
    }
    var md := C.MergeSettings(p.target.metadata, p.metadata);
    if endpoint {
      if NamesStream(md) {
        return Err(BadConfig(C.STREAM));
      }
      assert Built(s, p, endpoint, b);
      BuiltMeans(s, p, endpoint, b);
      return Ok(b);
    }
    var js := C.ParseJetStream(s.parsers, md, b.subject, b.queue, s.maxDeliver, s.pull);
    if js.Err? {
      return Err(BadConfig(js.error));
    }
    assert Built(s, p, endpoint, b.(js := js.value));
    BuiltMeans(s, p, endpoint, b.(js := js.value));
    return Ok(b.(js := js.value));
  }

  /** The i-th party: the endpoints come first. */
  function PartyAt(endpoints: seq<Party>, subscribers: seq<Party>, i: nat): Party
    requires i < |endpoints| + |subscribers|
  {
    if i < |endpoints| then endpoints[i] else subscribers[i - |endpoints|]
  }

  /** The first n parties have their subscriptions, in order. */
  predicate AllBuilt(s: Setup, endpoints: seq<Party>, subscribers: seq<Party>, bs: seq<Subscription>, n: nat) {
    |bs| == n <= |endpoints| + |subscribers|
    && forall i: nat :: i < n ==> Built(s, PartyAt(endpoints, subscribers, i), i < |endpoints|, bs[i])
  }

  /** Party k is the first one refused, with error e. */
  ghost predicate FirstRefused(s: Setup, endpoints: seq<Party>, subscribers: seq<Party>, k: nat, e: NewError) {
    k < |endpoints| + |subscribers|
    && Refused(s, PartyAt(endpoints, subscribers, k), k < |endpoints|, e)
    && exists bs :: AllBuilt(s, endpoints, subscribers, bs, k)
  }

  /** New: one subscription for each endpoint and then each subscriber, in order, or
      the error of the first one that is refused. */
  method New(s: Setup, endpoints: seq<Party>, subscribers: seq<Party>) returns (r: Result<seq<Subscription>, NewError>)
    ensures r.Ok? ==> AllBuilt(s, endpoints, subscribers, r.value, |endpoints| + |subscribers|)
    ensures r.Ok? ==> InOrder(endpoints, subscribers, r.value)
    ensures r.Err? ==> exists k :: FirstRefused(s, endpoints, subscribers, k, r.error)
  {
    var bs: seq<Subscription> := [];
    for i := 0 to |endpoints|
      invariant AllBuilt(s, endpoints, subscribers, bs, i)
    {
      var b := Prepare(s, endpoints[i], true);
      if b.Err? {
        assert FirstRefused(s, endpoints, subscribers, i, b.error);
        return Err(b.error);
      }
      bs := bs + [b.value];
    }
    for i := 0 to |subscribers|
      invariant AllBuilt(s, endpoints, subscribers, bs, |endpoints| + i)
    {
      var b := Prepare(s, subscribers[i], false);
      if b.Err? {
        assert FirstRefused(s, endpoints, subscribers, |endpoints| + i, b.error);
        return Err(b.error);
      }
      bs := bs + [b.value];
    }
    BuiltInOrder(s, endpoints, subscribers, bs);
    return Ok(bs);
  }

  /** The subscriptions of the endpoints, and after them those of the subscribers. */
  predicate InOrder(endpoints: seq<Party>, subscribers: seq<Party>, bs: seq<Subscription>) {
    && |bs| == |endpoints| + |subscribers|
    && (forall i :: 0 <= i < |endpoints| ==>
          bs[i].endpoint && bs[i].target == endpoints[i].target && bs[i].js.None? && StreamOf(endpoints[i]) == "")
    && (forall i :: 0 <= i < |subscribers| ==>
          var b := bs[|endpoints| + i];
          && !b.endpoint && b.target == subscribers[i].target
          && StreamOf(subscribers[i]) == if b.js.None? then "" else b.js.value.stream)
  }

  lemma BuiltAt(s: Setup, endpoints: seq<Party>, subscribers: seq<Party>, bs: seq<Subscription>, i: nat)
    requires i < |bs| && AllBuilt(s, endpoints, subscribers, bs, |bs|)
    ensures BuiltLaw(s, PartyAt(endpoints, subscribers, i), bs[i]) && (bs[i].endpoint <==> i < |endpoints|)
    ensures i < |endpoints| ==> bs[i].js.None?
  {
    BuiltMeans(s, PartyAt(endpoints, subscribers, i), i < |endpoints|, bs[i]);
  }

  lemma BuiltInOrder(s: Setup, endpoints: seq<Party>, subscribers: seq<Party>, bs: seq<Subscription>)
    requires AllBuilt(s, endpoints, subscribers, bs, |endpoints| + |subscribers|)
    ensures InOrder(endpoints, subscribers, bs)
  {
    forall i | 0 <= i < |endpoints|
      ensures bs[i].endpoint && bs[i].target == endpoints[i].target && bs[i].js.None? && StreamOf(endpoints[i]) == ""
    {
      BuiltAt(s, endpoints, subscribers, bs, i);
    }
    forall i | 0 <= i < |subscribers|
      ensures var b := bs[|endpoints| + i];
        && !b.endpoint && b.target == subscribers[i].target
        && StreamOf(subscribers[i]) == if b.js.None? then "" else b.js.value.stream
    {
      BuiltAt(s, endpoints, subscribers, bs, |endpoints| + i);
    }
  }

  /** The stream, the group and the target of a subscription are its party's. */
  predicate BuiltLaw(s: Setup, p: Party, b: Subscription) {
    && b.target == p.target
    && (p.group == "" ==> b.queue == s.deployment) && (p.group == "none" ==> b.queue == "")
    && (p.group != "" && p.group != "none" ==> b.queue == p.group)
    && (b.js.None? <==> StreamOf(p) == "")
    && (b.js.Some? ==>
          var js := b.js.value;
          && js.stream == StreamOf(p) && js.group == b.queue
          && js.config.durable == b.queue && js.config.filter == b.subject)
  }

  lemma BuiltMeans(s: Setup, p: Party, endpoint: bool, b: Subscription)
    requires Built(s, p, endpoint, b)
    ensures BuiltLaw(s, p, b) && (endpoint ==> b.js.None?)
  {
    if !endpoint {
      C.SettingsRead(s.parsers, Merged(p), b.subject, b.queue, s.maxDeliver, s.pull);
      if b.js.Some? {
        var js := b.js.value;
        C.ConfigReads(s.parsers, Merged(p), b.subject, b.queue, js.create, js.ack, s.maxDeliver);
      }
    }
  }

  // ---------- The boot check ----------

  /** StreamNameBySubject's answer for an endpoint's subject. */
  datatype Lookup = Found | NotFound | NoJetStream | LookupError

  datatype StartError =
    | AlreadyStarted | HasStopped | CtxDone | ClientClosed
    | StreamCoversRoute(at: nat) | LookupFailed(at: nat) | OpenFailed(at: nat) | FlushFailed

  /** Every endpoint before n has no stream. */
  predicate Clear(subs: seq<Subscription>, lookups: nat -> Lookup, n: nat)
    requires n <= |subs|
  {
    forall i: nat :: i < n && subs[i].endpoint ==> lookups(i) == NotFound
  }

  /** The boot check passes: no endpoint's subject has a stream, up to the end or up
      to an endpoint whose lookup says that the server has no JetStream. */
  ghost predicate BootPasses(subs: seq<Subscription>, lookups: nat -> Lookup) {
    exists n: nat :: n <= |subs| && Clear(subs, lookups, n)
                     && (n == |subs| || (subs[n].endpoint && lookups(n) == NoJetStream))
  }

  /** Endpoint i is the first whose lookup says anything but "not found". */
  predicate Decides(subs: seq<Subscription>, lookups: nat -> Lookup, i: nat) {
    i < |subs| && subs[i].endpoint && lookups(i) != NotFound
    && forall j: nat :: j < i && subs[j].endpoint ==> lookups(j) == NotFound
  }

  /** The boot check passes exactly when every endpoint whose subject has a stream, or whose
      lookup fails, comes after one whose lookup says that the server has no JetStream. */
  lemma {:induction false} BootExact(subs: seq<Subscription>, lookups: nat -> Lookup)
    ensures BootPasses(subs, lookups) <==>
      forall i: nat :: i < |subs| && subs[i].endpoint && (lookups(i) == Found || lookups(i) == LookupError) ==>
        exists j: nat :: j < i && subs[j].endpoint && lookups(j) == NoJetStream
  {
    var n := FirstDecided(subs, lookups, 0);
    if n < |subs| && lookups(n) != NoJetStream {
      assert !exists j: nat :: j < n && subs[j].endpoint && lookups(j) == NoJetStream;
    }
  }

  lemma FirstDecided(subs: seq<Subscription>, lookups: nat -> Lookup, k: nat) returns (n: nat)
    requires k <= |subs| && Clear(subs, lookups, k)
    ensures n <= |subs| && Clear(subs, lookups, n) && (n < |subs| ==> Decides(subs, lookups, n))
    decreases |subs| - k
  {
    if k == |subs| || (subs[k].endpoint && lookups(k) != NotFound) {
      n := k;
    } else {
      n := FirstDecided(subs, lookups, k + 1);
    }
  }

  /** checkEndpointStreams: the first endpoint whose lookup says anything but "not
      found" decides; a server without JetStream passes. */
  method CheckEndpointStreams(subs: seq<Subscription>, lookups: nat -> Lookup) returns (err: Option<StartError>)
    ensures err.None? <==> BootPasses(subs, lookups)
    ensures err.Some? ==>
      (err.value.StreamCoversRoute? || err.value.LookupFailed?) && err.value.at < |subs|
      && Clear(subs, lookups, err.value.at) && subs[err.value.at].endpoint
      && lookups(err.value.at) == if err.value.StreamCoversRoute? then Found else LookupError
    ensures forall i: nat :: Decides(subs, lookups, i) ==>
      match lookups(i)
      case Found => err == Some(StreamCoversRoute(i))
      case LookupError => err == Some(LookupFailed(i))
      case _ => err == None
    ensures (forall i: nat :: !Decides(subs, lookups, i)) ==> err == None
  {
    for i := 0 to |subs|
      invariant Clear(subs, lookups, i)
    {
      assert subs[i].endpoint && lookups(i) != NotFound ==> Decides(subs, lookups, i);
      if subs[i].endpoint {
        match lookups(i)
        case Found => return Some(StreamCoversRoute(i));
        case NotFound =>
        case NoJetStream => return None;
        case LookupError => return Some(LookupFailed(i));
      }
    }
    return None;
  }

  // ---------- The runtime ----------

  datatype RunState = Created | Running | Stopped

  /** The handlers' context of one Start. */
  class Context {
    var done: bool

    constructor ()
      ensures !done
    {
      done := false;
    }

    method Cancel()
      modifies this
      ensures done
    {
      done := true;
    }
  }

  /** An open subscription or consumer of the subscription at index at, with the
      context its handlers get; closing once it was drained, stopped or
      unsubscribed. */
  class Opened {
    const at: nat
    const ctx: Context
    var closing: bool

    constructor (at: nat, ctx: Context)
      ensures this.at == at && this.ctx == ctx && !closing
    {
      this.at, this.ctx, closing := at, ctx, false;
    }

    method Close()
      modifies this
      ensures closing
    {
      closing := true;
    }
  }

  function Ats(os: seq<Opened>): seq<nat> {
    seq(|os|, i requires 0 <= i < |os| => os[i].at)
  }

  /** The indices below n of the core subscriptions, or of the JetStream ones. */
  function Indices(subs: seq<Subscription>, js: bool, n: nat): (r: seq<nat>)
    requires n <= |subs|
  {
    if n == 0 then [] else Indices(subs, js, n - 1) + (if subs[n - 1].js.Some? == js then [n - 1] else [])
  }

  /** Indices is the order-preserving listing of the subscriptions of its kind. */
  lemma {:induction false} IndicesList(subs: seq<Subscription>, js: bool, n: nat)
    requires n <= |subs|
    ensures forall i :: i in Indices(subs, js, n) <==> 0 <= i < n && subs[i].js.Some? == js
    ensures forall j, k :: 0 <= j < k < |Indices(subs, js, n)| ==> Indices(subs, js, n)[j] < Indices(subs, js, n)[k]
  {
    if n > 0 {
      IndicesList(subs, js, n - 1);
      var before := Indices(subs, js, n - 1);
      forall j | 0 <= j < |before| ensures before[j] < n - 1 {
        assert before[j] in before;
      }
    }
  }

  /** What nats.go and the server answer during one Start. */
  datatype Answers = Answers(ctxDone: bool, lookups: nat -> Lookup, opens: nat -> bool, flushed: bool)

  /** The boot check passes and every receiver opens. */
  ghost predicate AllOpen(subs: seq<Subscription>, ans: Answers) {
    BootPasses(subs, ans.lookups) && forall i: nat :: i < |subs| ==> ans.opens(i)
  }

  /** The error is the boot check's. */
  predicate BootError(subs: seq<Subscription>, ans: Answers, e: StartError) {
    (e.StreamCoversRoute? || e.LookupFailed?) && Decides(subs, ans.lookups, e.at)
    && ans.lookups(e.at) == if e.StreamCoversRoute? then Found else LookupError
  }

  /** Nothing a Start asks for fails. */
  ghost predicate Good(subs: seq<Subscription>, ans: Answers) {
    !ans.ctxDone && ans.flushed && AllOpen(subs, ans)
  }

  /** A receiver found by target: its subscription's index, and its consumer. */
  datatype Receiver = Receiver(at: nat, consumer: Opened?)

  class Runtime {
    const subscriptions: seq<Subscription>
    ghost const setup: Setup
    ghost const endpoints: seq<Party>
    ghost const subscribers: seq<Party>
    var state: RunState
    var ctx: Context?
    var subs: seq<Opened>
    var consumers: seq<Opened>
    var running: bool
    var accepting: bool
    var closed: bool

    /** What holds between calls: receivers exist exactly while running, and then they
        match the configuration and share one live context. */
    ghost predicate Valid()
      reads this, ctx
    {
      && AllBuilt(setup, endpoints, subscribers, subscriptions, |endpoints| + |subscribers|)
      && (state != Running ==> subs == [] && consumers == [] && !running && !accepting && (ctx != null ==> ctx.done))
      && (state == Running ==>
            running && accepting && ctx != null && !ctx.done
            && (forall o <- subs + consumers :: o.ctx == ctx)
            && Ats(subs) == Indices(subscriptions, false, |subscriptions|)
            && Ats(consumers) == Indices(subscriptions, true, |subscriptions|))
    }

    /** The runtime of the subscriptions New made. */
    constructor (subscriptions: seq<Subscription>, ghost s: Setup, ghost endpoints: seq<Party>,
                 ghost subscribers: seq<Party>)
      requires AllBuilt(s, endpoints, subscribers, subscriptions, |endpoints| + |subscribers|)
      ensures Valid() && this.subscriptions == subscriptions && state == Created && !closed
      ensures setup == s && this.endpoints == endpoints && this.subscribers == subscribers
    {
      this.subscriptions, setup, this.endpoints, this.subscribers := subscriptions, s, endpoints, subscribers;
      state, ctx, subs, consumers, running, accepting, closed := Created, null, [], [], false, false, false;
    }

    /** openReceivers: opens the receivers of every subscription in order, or, on the
        first failure, of exactly the subscriptions before it. */
    method OpenReceivers(ans: Answers) returns (ss: seq<Opened>, cs: seq<Opened>, err: Option<StartError>)
      requires ctx != null
      ensures fresh(ss) && fresh(cs)
      ensures forall o <- ss + cs :: !o.closing && o.ctx == ctx
      ensures err.None? ==> Ats(ss) == Indices(subscriptions, false, |subscriptions|)
      ensures err.None? ==> Ats(cs) == Indices(subscriptions, true, |subscriptions|)
      ensures err.None? <==> AllOpen(subscriptions, ans)
      ensures err.Some? ==> err.value.StreamCoversRoute? || err.value.LookupFailed? || err.value.OpenFailed?
      ensures err.None? || err.value.OpenFailed? <==> BootPasses(subscriptions, ans.lookups)
      ensures err.Some? && !err.value.OpenFailed? ==> ss == [] && cs == [] && BootError(subscriptions, ans, err.value)
      ensures err.Some? && err.value.OpenFailed? ==>
        err.value.at < |subscriptions| && !ans.opens(err.value.at)
        && (forall i: nat :: i < err.value.at ==> ans.opens(i))
        && Ats(ss) == Indices(subscriptions, false, err.value.at)
        && Ats(cs) == Indices(subscriptions, true, err.value.at)
    {
      ss, cs := [], [];
      err := CheckEndpointStreams(subscriptions, ans.lookups);
      if err.Some? {
        return;
      }
      for i := 0 to |subscriptions|
        invariant fresh(ss) && fresh(cs)
        invariant forall o <- ss + cs :: !o.closing && o.ctx == ctx
        invariant Ats(ss) == Indices(subscriptions, false, i)
        invariant Ats(cs) == Indices(subscriptions, true, i)
        invariant forall j: nat :: j < i ==> ans.opens(j)
      {
        if !ans.opens(i) {
          return ss, cs, Some(OpenFailed(i));
        }
        var o := new Opened(i, ctx);
        if subscriptions[i].js.Some? {
          cs := cs + [o];
        } else {
          ss := ss + [o];
        }
      }
    }

    /** abortStart: closes each receiver made so far, cancels their context and shuts the
        gate. */
    method AbortStart(ss: seq<Opened>, cs: seq<Opened>)
      requires ctx != null
      modifies this`accepting, ctx, ss, cs
      ensures !accepting && ctx.done && forall o <- ss + cs :: o.closing
    {
      CloseAll(ss);
      CloseAll(cs);
      ctx.Cancel();
      accepting := false;
    }

    /** Asks every receiver of the list to close. */
    static method CloseAll(os: seq<Opened>)
      modifies os
      ensures forall o <- os :: o.closing
      ensures forall o: Opened :: old(allocated(o)) && old(o.closing) ==> o.closing
    {
      for i := 0 to |os|
        invariant forall j :: 0 <= j < i ==> os[j].closing
        invariant forall o: Opened :: old(allocated(o)) && old(o.closing) ==> o.closing
      {
        os[i].Close();
      }
    }

    /** checkStartable, then the client's connection. */
    method CheckStartable(ctxDone: bool) returns (err: Option<StartError>)
      ensures err == if state == Running then Some(AlreadyStarted) else if state == Stopped then Some(HasStopped)
                     else if ctxDone then Some(CtxDone) else if closed then Some(ClientClosed) else None
    {
      if state == Running {
        return Some(AlreadyStarted);
      } else if state == Stopped {
        return Some(HasStopped);
      } else if ctxDone {
        return Some(CtxDone);
      } else if closed {
        return Some(ClientClosed);
      }
      return None;
    }

    /** Start is all or nothing: it succeeds and has a receiver for every subscription,
        or it leaves the runtime as it was, every receiver it made asked to close and its
        context cancelled, so that Start can be called again. */
    method Start(ans: Answers) returns (err: Option<StartError>, ghost made: seq<Opened>)
      requires Valid()
      modifies this
      ensures Valid() && closed == old(closed) && fresh(made)
      ensures err.None? <==> old(state) == Created && !old(closed) && Good(subscriptions, ans)
      ensures state == Next(old(state), StartCall(!old(closed) && Good(subscriptions, ans)))
      ensures err.None? ==> made == subs + consumers && forall o <- made :: !o.closing && !o.ctx.done
      ensures err.Some? ==>
        state == old(state) && subs == old(subs) && consumers == old(consumers)
        && running == old(running) && accepting == old(accepting)
      ensures err.Some? ==> forall o <- made :: o.closing && o.ctx.done
      ensures err == Some(AlreadyStarted) <==> old(state) == Running
      ensures err == Some(HasStopped) <==> old(state) == Stopped
      ensures old(state) == Created && (ans.ctxDone || old(closed)) ==>
        err == Some(if ans.ctxDone then CtxDone else ClientClosed)
      ensures err.None? <==>
        old(state) == Created && !old(closed) && !ans.ctxDone && ans.flushed && BootPasses(subscriptions, ans.lookups)
        && forall i: nat :: i < |subscriptions| ==> ans.opens(i)
      ensures state == if err.None? then Running else old(state)
      ensures err.Some? && (err.value.StreamCoversRoute? || err.value.LookupFailed?) ==>
        BootError(subscriptions, ans, err.value)
      ensures err.Some? && err.value.OpenFailed? ==>
        err.value.at < |subscriptions| && !ans.opens(err.value.at)
        && forall i: nat :: i < err.value.at ==> ans.opens(i)
      ensures err == Some(FlushFailed) ==> !ans.flushed && Good(subscriptions, ans.(flushed := true))
    {
      made := [];
      err := CheckStartable(ans.ctxDone);
      if err.Some? {
        return;
      }
      err, made := OpenAll(ans);
    }

    /** Start on a startable runtime with an open client. */
    method OpenAll(ans: Answers) returns (err: Option<StartError>, ghost made: seq<Opened>)
      requires Valid() && state == Created && !ans.ctxDone
      modifies this
      ensures Valid() && closed == old(closed) && fresh(made)
      ensures err.None? <==> Good(subscriptions, ans)
      ensures err.None? ==>
        state == Running && made == subs + consumers && forall o <- made :: !o.closing && !o.ctx.done
      ensures err.Some? ==> state == Created && forall o <- made :: o.closing && o.ctx.done
      ensures err.Some? ==>
        err.value.OpenFailed? || err.value.FlushFailed? || BootError(subscriptions, ans, err.value)
      ensures err.Some? && err.value.OpenFailed? ==>
        err.value.at < |subscriptions| && !ans.opens(err.value.at)
        && forall i: nat :: i < err.value.at ==> ans.opens(i)
      ensures err == Some(FlushFailed) ==> !ans.flushed && Good(subscriptions, ans.(flushed := true))
    {
      ctx := new Context();
      accepting := true;
      var ss, cs, failed := OpenReceivers(ans);
      made := ss + cs;
      if failed.None? && !ans.flushed {
        failed := Some(FlushFailed);
      }
      if failed.Some? {
        AbortStart(ss, cs);
        return failed, made;
      }
      subs, consumers := ss, cs;
      state, running := Running, true;
      err := None;
    }

    /** Stop, from one end to the other: every receiver is asked to drain, their context
        cancelled, the gate shut, the client closed. It reports whether ctx was done before
        the drain. It leaves a runtime in any other state alone. */
    method Stop(ctxFirst: bool) returns (abandoned: bool)
      requires Valid()
      modifies this, ctx, subs, consumers
      ensures Valid()
      ensures old(state) != Running ==> unchanged(this) && !abandoned
      ensures state == Next(old(state), StopCall)
      ensures old(state) == Running ==> closed && abandoned == ctxFirst
      ensures old(state) == Running ==> forall o <- old(subs) + old(consumers) :: o.closing && o.ctx.done
    {
      if state != Running {
        return false;
      }
      state, running := Stopped, false;
      CloseAll(subs);
      CloseAll(consumers);
      ctx.Cancel();
      accepting := false;
      closed := true;
      subs, consumers := [], [];
      return ctxFirst;
    }

    /** Receiver: while running, the first endpoint or subscriber for the target, in the
        order given to New; its consumer is nil exactly when its merged settings name no
        stream, and otherwise it is the one consumer made for it. */
    method Lookup(target: Target) returns (r: Option<Receiver>)
      requires Valid()
      ensures r.Some? <==> state == Running && exists i: nat :: i < |subscriptions| && Matches(i, target)
      ensures r.Some? ==> var at := r.value.at;
        at < |subscriptions| && Matches(at, target) && (forall j: nat :: j < at ==> !Matches(j, target))
        && (r.value.consumer == null <==> StreamOf(PartyAt(endpoints, subscribers, at)) == "")
      ensures r.Some? && r.value.consumer != null ==>
        r.value.consumer in consumers && r.value.consumer.at == r.value.at
        && forall c <- consumers :: c.at == r.value.at ==> c == r.value.consumer
    {
      if state != Running {
        return None;
      }
      for i := 0 to |subscriptions|
        invariant forall j: nat :: j < i ==> !Matches(j, target)
      {
        BuiltAt(setup, endpoints, subscribers, subscriptions, i);
        if Equal(subscriptions[i].target, target) {
          var c := ConsumerOf(i);
          assert Matches(i, target);
          return Some(Receiver(i, c));
        }
      }
      return None;
    }

    /** The i-th party given to New is for the target. */
    ghost predicate Matches(i: nat, target: Target)
      requires i < |endpoints| + |subscribers|
    {
      Equal(PartyAt(endpoints, subscribers, i).target, target)
    }

    /** The last consumer made for subscription i; there is at most one. */
    method ConsumerOf(i: nat) returns (c: Opened?)
      requires Ats(consumers) == Indices(subscriptions, true, |subscriptions|) && i < |subscriptions|
      ensures c == null <==> subscriptions[i].js.None?
      ensures c != null ==> c in consumers && c.at == i && forall d <- consumers :: d.at == i ==> d == c
    {
      c := null;
      for k := 0 to |consumers|
        invariant c == null <==> i !in Ats(consumers)[..k]
        invariant c != null ==> exists j :: 0 <= j < k && consumers[j] == c && c.at == i
      {
        assert Ats(consumers)[..k + 1] == Ats(consumers)[..k] + [consumers[k].at];
        if consumers[k].at == i {
          c := consumers[k];
        }
      }
      IndicesList(subscriptions, true, |subscriptions|);
      assert Ats(consumers)[..|consumers|] == Ats(consumers);
      if c != null {
        var j :| 0 <= j < |consumers| && consumers[j] == c && c.at == i;
        forall d | d in consumers && d.at == i ensures d == c {
          var k :| 0 <= k < |consumers| && consumers[k] == d;
          assert Ats(consumers)[k] == Ats(consumers)[j];
        }
      }
    }
  }

  // ---------- Sequences of calls ----------

  /** A call of Start that would succeed or fail on a startable runtime, or of Stop. */
  datatype Call = StartCall(good: bool) | StopCall

  /** The state Start and Stop promise. */
  function Next(s: RunState, c: Call): RunState {
    if s == Created && c == StartCall(true) then Running else if s == Running && c == StopCall then Stopped else s
  }

  function After(s: RunState, calls: seq<Call>): RunState
    decreases |calls|
  {
    if calls == [] then s else After(Next(s, calls[0]), calls[1..])
  }

  function Order(s: RunState): nat {
    match s case Created => 0 case Running => 1 case Stopped => 2
  }

  /** The state only moves from created to running to stopped. */
  lemma {:induction false} StateMovesForward(s: RunState, calls: seq<Call>)
    ensures Order(s) <= Order(After(s, calls))
    ensures s == Stopped ==> After(s, calls) == Stopped
    decreases |calls|
  {
    if calls != [] {
      StateMovesForward(Next(s, calls[0]), calls[1..]);
    }
  }

  /** After any number of failed Starts, with Stops in between that do nothing, the
      next good Start still succeeds; and it has run exactly when one was good. */
  lemma {:induction false} FailuresLeaveItStartable(calls: seq<Call>)
    ensures After(Created, calls) == Created <==> StartCall(true) !in calls
    ensures After(Created, calls) == Created ==> Next(After(Created, calls), StartCall(true)) == Running
    decreases |calls|
  {
    if calls != [] {
      assert calls == [calls[0]] + calls[1..];
      if calls[0] == StartCall(true) {
        StateMovesForward(Running, calls[1..]);
      } else {
        FailuresLeaveItStartable(calls[1..]);
      }
    }
  }
}
