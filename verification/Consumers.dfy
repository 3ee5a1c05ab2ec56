/** A JetStream subscriber's settings and what its deliveries get from them
    (nats/jetstream.go, nats/config.go, nats/consumers.go). Durations are int64
    nanoseconds; the library's duration and integer parsers are parameters. */
module Consumers {
  import opened Ints
  import opened Strings
  import opened Wrappers

  /** An ErrBadConfig carries the key whose value is refused. */
  type Checked<+T> = Result<T, string>

  type Settings = map<string, string>

  const STREAM := "stream"
  const CREATE_CONSUMER := "create_consumer"
  const ACK_POLICY := "ack_policy"
  const ACK_WAIT := "ack_wait"
  const BACKOFF := "backoff"
  const NAK_DELAY := "nak_delay"
  const MAX_ACK_PENDING := "max_ack_pending"
  const MAX_DELIVER := "max_deliver"
  const DELIVER_POLICY := "deliver_policy"
  const INACTIVE_THRESHOLD := "consumer_inactive_threshold"
  const PULL_MAX_MESSAGES := "pull_max_messages"
  const PULL_MAX_BYTES := "pull_max_bytes"
  const PULL_THRESHOLD_MESSAGES := "pull_threshold_messages"
  const PULL_EXPIRY := "pull_expiry"
  const PULL_HEARTBEAT := "pull_heartbeat"

  const SECOND := 1_000_000_000
  const NAMED_INACTIVE := 7 * 24 * 3600 * SECOND
  const ORDERED_INACTIVE := 5 * 60 * SECOND

  /** time.ParseDuration, strconv.Atoi and unicode.IsSpace. */
  datatype Parsers = Parsers(duration: string -> Option<int>, atoi: string -> Option<int>, isSpace: char -> bool)

  datatype AckPolicy = AckDouble | AckExplicit | AckNone

  datatype DeliverPolicy = DeliverAll | DeliverNew

  /** The settings sent to the server. */
  datatype Config = Config(durable: string, filter: string, deliver: DeliverPolicy, acks: bool, inactive: int,
                           ackWait: int, maxDeliver: int, backoff: seq<int>, maxAckPending: int)

  /** How a subscriber pulls; zero where nats.go is to choose. */
  datatype Pull = Pull(maxMessages: int, maxBytes: int, threshold: int, expiry: int, heartbeat: int)

  datatype JsSettings = JsSettings(stream: string, group: string, create: bool, ack: AckPolicy, nakDelay: int,
                                   config: Config, pull: Pull)

  // ---------- Single settings ----------

  function DurationSetting(p: Parsers, md: Settings, key: string, fallback: int): Checked<int> {
    if key !in md then Ok(fallback)
    else
      match p.duration(md[key])
      case None => Err(key)
      case Some(d) => if d <= 0 then Err(key) else Ok(d)
  }

  function PositiveIntSetting(p: Parsers, md: Settings, key: string, fallback: int): Checked<int> {
    if key !in md then Ok(fallback)
    else
      match p.atoi(md[key])
      case None => Err(key)
      case Some(n) => if n <= 0 then Err(key) else Ok(n)
  }

  function CreateSetting(md: Settings, group: string): Checked<bool> {
    if CREATE_CONSUMER !in md || md[CREATE_CONSUMER] == "true" then Ok(true)
    else if md[CREATE_CONSUMER] == "false" then (if group == "" then Err(CREATE_CONSUMER) else Ok(false))
    else Err(CREATE_CONSUMER)
  }

  function AckPolicySetting(md: Settings): Checked<AckPolicy> {
    if ACK_POLICY !in md || md[ACK_POLICY] == "double" then Ok(AckDouble)
    else if md[ACK_POLICY] == "explicit" then Ok(AckExplicit)
    else if md[ACK_POLICY] == "none" then Ok(AckNone)
    else Err(ACK_POLICY)
  }

  function DeliverPolicySetting(md: Settings): Checked<DeliverPolicy> {
    if DELIVER_POLICY !in md || md[DELIVER_POLICY] == "all" then Ok(DeliverAll)
    else if md[DELIVER_POLICY] == "new" then Ok(DeliverNew)
    else Err(DELIVER_POLICY)
  }

  /** One entry of the backoff list, when it is a positive duration. */
  function Entry(p: Parsers, part: string): Option<int> {
    match p.duration(TrimSpace(part, p.isSpace))
    case None => None
    case Some(d) => if d <= 0 then None else Some(d)
  }

  /** The entries of the parts, None when one of them is not a positive duration. */
  function Entries(p: Parsers, parts: seq<string>): Option<seq<int>> {
    if parts == [] then Some([])
    else
      var init, last := Entries(p, parts[..|parts| - 1]), Entry(p, parts[|parts| - 1]);
      if init.None? || last.None? then None else Some(init.value + [last.value])
  }

  lemma {:induction false} EntriesFail(p: Parsers, parts: seq<string>, n: nat)
    requires n <= |parts| && Entries(p, parts[..n]).None?
    ensures Entries(p, parts).None?
    decreases |parts| - n
  {
    if n < |parts| {
      assert parts[..n + 1][..n] == parts[..n];
      EntriesFail(p, parts, n + 1);
    } else {
      assert parts[..n] == parts;
    }
  }

  lemma {:induction false} EntriesPositive(p: Parsers, parts: seq<string>)
    requires Entries(p, parts).Some?
    ensures |Entries(p, parts).value| == |parts|
    ensures forall k :: 0 <= k < |parts| ==>
      Entries(p, parts).value[k] > 0 && Entry(p, parts[k]) == Some(Entries(p, parts).value[k])
  {
    if parts != [] {
      EntriesPositive(p, parts[..|parts| - 1]);
    }
  }

  function Backoff(p: Parsers, md: Settings): Checked<seq<int>> {
    if BACKOFF !in md then Ok([])
    else
      match Entries(p, Split(md[BACKOFF], ','))
      case None => Err(BACKOFF)
      case Some(entries) => Ok(entries)
  }

  /** backoffSetting, as the code builds the list. */
  method BackoffSetting(p: Parsers, md: Settings) returns (r: Checked<seq<int>>)
    ensures r == Backoff(p, md)
  {
    if BACKOFF !in md {
      return Ok([]);
    }
    var parts := Split(md[BACKOFF], ',');
    var backoff: seq<int> := [];
    for i := 0 to |parts|
      invariant Entries(p, parts[..i]) == Some(backoff)
    {
      assert parts[..i + 1][..i] == parts[..i];
      var d := p.duration(TrimSpace(parts[i], p.isSpace));
      if d.None? || d.value <= 0 {
        EntriesFail(p, parts, i + 1);
        return Err(BACKOFF);
      }
      backoff := backoff + [d.value];
    }
    assert parts[..|parts|] == parts;
    return Ok(backoff);
  }

  // ---------- The consumer's configuration ----------

  predicate Ordered(group: string, ack: AckPolicy) { group == "" && ack == AckNone }

  function DefaultInactive(group: string, ack: AckPolicy): int {
    if Ordered(group, ack) then ORDERED_INACTIVE else if group == "" then 0 else NAMED_INACTIVE
  }

  datatype AckValues = AckValues(wait: int, maxDeliver: int, maxAckPending: int, backoff: seq<int>)

  function AckSettings(p: Parsers, md: Settings, maxDeliver: int): Checked<AckValues> {
    var wait :- DurationSetting(p, md, ACK_WAIT, 0);
    var most :- PositiveIntSetting(p, md, MAX_DELIVER, maxDeliver);
    var pending :- PositiveIntSetting(p, md, MAX_ACK_PENDING, 0);
    var backoff :- Backoff(p, md);
    Ok(AckValues(wait, most, pending, backoff))
  }

  function ConsumerConfig(p: Parsers, md: Settings, subject: string, group: string, create: bool, ack: AckPolicy,
                          maxDeliver: int): Checked<Config> {
    var deliver :- DeliverPolicySetting(md);
    var inactive :- DurationSetting(p, md, INACTIVE_THRESHOLD, DefaultInactive(group, ack));
    var a :- AckSettings(p, md, maxDeliver);
    if create && ack != AckNone && |a.backoff| >= a.maxDeliver then Err(MAX_DELIVER)
    else if ack == AckNone then Ok(Config(group, subject, deliver, false, inactive, 0, 0, [], 0))
    else Ok(Config(group, subject, deliver, true, inactive, a.wait, a.maxDeliver, a.backoff, a.maxAckPending))
  }

  function ReadPull(p: Parsers, md: Settings, fallback: Pull): Checked<Pull> {
    var messages :- PositiveIntSetting(p, md, PULL_MAX_MESSAGES, fallback.maxMessages);
    var bytes :- PositiveIntSetting(p, md, PULL_MAX_BYTES, fallback.maxBytes);
    var threshold :- PositiveIntSetting(p, md, PULL_THRESHOLD_MESSAGES, fallback.threshold);
    var expiry :- DurationSetting(p, md, PULL_EXPIRY, fallback.expiry);
    var heartbeat :- DurationSetting(p, md, PULL_HEARTBEAT, fallback.heartbeat);
    Ok(Pull(messages, bytes, threshold, expiry, heartbeat))
  }

  /** parseJetStream: None when md names no stream. */
  function ParseJetStream(p: Parsers, md: Settings, subject: string, group: string, maxDeliver: int, fallback: Pull)
    : Checked<Option<JsSettings>>
  {
    if STREAM !in md || md[STREAM] == "" then Ok(None)
    else
      var create :- CreateSetting(md, group);
      var ack :- AckPolicySetting(md);
      var nakDelay :- DurationSetting(p, md, NAK_DELAY, 0);
      var config :- ConsumerConfig(p, md, subject, group, create, ack, maxDeliver);
      var pull :- ReadPull(p, md, fallback);
      Ok(Some(JsSettings(md[STREAM], group, create, ack, nakDelay, config, pull)))
  }

  // ---------- A consumer and its deliveries ----------

  function Min(a: int, b: int): int { if a < b then a else b }
  function Max(a: int, b: int): int { if a > b then a else b }

  /** What Start keeps of a consumer, as the server reports it. */
  datatype Consumer = Consumer(acks: bool, ackWait: int, backoff: seq<int>, maxDeliver: int)

  /** openConsumer: an ordered consumer takes nothing from the server. */
  function OpenConsumer(s: JsSettings, server: Config): Consumer {
    if Ordered(s.group, s.ack) then Consumer(false, 0, [], 0)
    else Consumer(s.ack != AckNone && server.acks, server.ackWait, server.backoff, server.maxDeliver)
  }

  function BackoffIndex(delivered: nat, n: nat): int
    requires delivered < TWO64 && n > 0
  {
    Min(Max(Wrap(Wrap(delivered) - 1), 0), n - 1)
  }

  /** When the server sends delivery number delivered again. */
  function Deadline(c: Consumer, arrival: int, delivered: nat): int
    requires delivered < TWO64
  {
    var i := if c.backoff == [] then 0 else BackoffIndex(delivered, |c.backoff|);
    arrival + if 0 <= i < |c.backoff| then c.backoff[i] else c.ackWait
  }

  predicate LastDelivery(c: Consumer, delivered: nat)
    requires delivered < TWO64 && MIN_INT64 <= c.maxDeliver <= MAX_INT64
  {
    delivered >= ToUint(c.maxDeliver)
  }

  /** The index is in range for every uint64, and it is the delivery's own entry, or
      the last one past the end of the list, if and only if the delivery number is
      from 1 to 2^63 or there is one entry only. Beyond 2^63 int(delivered) is negative
      and the first entry is used. */
  lemma BackoffIndexExact(delivered: nat, n: nat)
    requires delivered < TWO64 && n > 0
    ensures 0 <= BackoffIndex(delivered, n) < n
    ensures 1 <= delivered <= TWO63 || (n == 1 && delivered > 0) <==>
      BackoffIndex(delivered, n) == if delivered <= n then delivered - 1 else n - 1
    ensures delivered > TWO63 ==> BackoffIndex(delivered, n) == 0
  {
  }

  /** With no limit (-1) every delivery number but the largest uint64 is not the last;
      with a limit the last ones are exactly those from the limit on. */
  lemma LastDeliveryExact(c: Consumer, delivered: nat)
    requires delivered < TWO64 && MIN_INT64 <= c.maxDeliver <= MAX_INT64
    ensures c.maxDeliver == -1 ==> (LastDelivery(c, delivered) <==> delivered == 0xFFFF_FFFF_FFFF_FFFF)
    ensures c.maxDeliver >= 0 ==> (LastDelivery(c, delivered) <==> delivered >= c.maxDeliver)
    ensures c.maxDeliver < 0 ==> (LastDelivery(c, delivered) <==> delivered >= c.maxDeliver + 0x1_0000_0000_0000_0000)
  {
  }

  /** The configuration ParseJetStream accepts, as far as acks go. */
  lemma ConfigSound(p: Parsers, md: Settings, subject: string, group: string, create: bool, ack: AckPolicy,
                    maxDeliver: int)
    requires maxDeliver > 0 && ConsumerConfig(p, md, subject, group, create, ack, maxDeliver).Ok?
    ensures var c := ConsumerConfig(p, md, subject, group, create, ack, maxDeliver).value;
      && (c.acks <==> ack != AckNone)
      && (forall d <- c.backoff :: d > 0)
      && (c.acks ==> c.maxDeliver > 0)
      && (c.acks && create ==> |c.backoff| < c.maxDeliver)
  {
    if BACKOFF in md {
      EntriesPositive(p, Split(md[BACKOFF], ','));
    }
  }

  // ---------- What the settings come to ----------

  /** v is the duration md gives for the key, or the fallback when it has none. */
  predicate DurationFrom(v: int, p: Parsers, md: Settings, key: string, fallback: int) {
    if key in md then p.duration(md[key]) == Some(v) && v > 0 else v == fallback
  }

  predicate IntFrom(v: int, p: Parsers, md: Settings, key: string, fallback: int) {
    if key in md then p.atoi(md[key]) == Some(v) && v > 0 else v == fallback
  }

  predicate PartGives(v: int, p: Parsers, part: string) {
    p.duration(TrimSpace(part, p.isSpace)) == Some(v) && v > 0
  }

  /** backoff is the list md gives, one entry for each part between commas. */
  predicate BackoffFrom(backoff: seq<int>, p: Parsers, md: Settings) {
    if "backoff" !in md then backoff == []
    else
      var parts := Split(md["backoff"], ',');
      |backoff| == |parts| && forall k :: 0 <= k < |parts| ==> PartGives(backoff[k], p, parts[k])
  }

  /** Whether md sets the key to the value. */
  predicate Says(md: Settings, key: string, value: string) { key in md && md[key] == value }

  lemma BackoffReads(p: Parsers, md: Settings)
    requires Backoff(p, md).Ok?
    ensures BackoffFrom(Backoff(p, md).value, p, md)
  {
    if BACKOFF in md {
      EntriesPositive(p, Split(md[BACKOFF], ','));
    }
  }

  /** The configuration sent, setting by setting; the ack settings only when it acks. */
  lemma ConfigReads(p: Parsers, md: Settings, subject: string, group: string, create: bool, ack: AckPolicy,
                    maxDeliver: int)
    requires ConsumerConfig(p, md, subject, group, create, ack, maxDeliver).Ok?
    ensures var c := ConsumerConfig(p, md, subject, group, create, ack, maxDeliver).value;
      && c.durable == group && c.filter == subject
      && (c.deliver == DeliverNew <==> Says(md, "deliver_policy", "new"))
      && DurationFrom(c.inactive, p, md, "consumer_inactive_threshold",
                      if group != "" then 604_800_000_000_000 else if ack == AckNone then 300_000_000_000 else 0)
      && (c.acks <==> ack != AckNone)
      && (c.acks ==>
            && DurationFrom(c.ackWait, p, md, "ack_wait", 0) && IntFrom(c.maxDeliver, p, md, "max_deliver", maxDeliver)
            && IntFrom(c.maxAckPending, p, md, "max_ack_pending", 0) && BackoffFrom(c.backoff, p, md))
      && (!c.acks ==> c.ackWait == 0 && c.maxDeliver == 0 && c.maxAckPending == 0 && c.backoff == [])
  {
    BackoffReads(p, md);
  }

  lemma PullReads(p: Parsers, md: Settings, fallback: Pull)
    requires ReadPull(p, md, fallback).Ok?
    ensures var u := ReadPull(p, md, fallback).value;
      && IntFrom(u.maxMessages, p, md, "pull_max_messages", fallback.maxMessages)
      && IntFrom(u.maxBytes, p, md, "pull_max_bytes", fallback.maxBytes)
      && IntFrom(u.threshold, p, md, "pull_threshold_messages", fallback.threshold)
      && DurationFrom(u.expiry, p, md, "pull_expiry", fallback.expiry)
      && DurationFrom(u.heartbeat, p, md, "pull_heartbeat", fallback.heartbeat)
  {
  }

  /** Accepted settings name a stream exactly when there are JetStream options, and every
      option is the one md gives, or its default. */
  lemma SettingsRead(p: Parsers, md: Settings, subject: string, group: string, maxDeliver: int, fallback: Pull)
    requires ParseJetStream(p, md, subject, group, maxDeliver, fallback).Ok?
    ensures var r := ParseJetStream(p, md, subject, group, maxDeliver, fallback).value;
      && (r.Some? <==> "stream" in md && md["stream"] != "")
      && (r.Some? ==>
            var s := r.value;
            && s.stream == md["stream"] && s.group == group
            && (s.create <==> !Says(md, "create_consumer", "false")) && (s.create || group != "")
            && (s.ack == AckExplicit <==> Says(md, "ack_policy", "explicit"))
            && (s.ack == AckNone <==> Says(md, "ack_policy", "none"))
            && DurationFrom(s.nakDelay, p, md, "nak_delay", 0)
            && ConsumerConfig(p, md, subject, group, s.create, s.ack, maxDeliver) == Ok(s.config)
            && ReadPull(p, md, fallback) == Ok(s.pull))
  {
  }

  // ---------- Which settings are refused ----------

  /** A check of a setting: the key it is blamed on, and whether it fails. */
  datatype Check = Check(key: string, bad: bool)

  predicate Positive(v: Option<int>) { v.Some? && v.value > 0 }

  predicate BadDuration(p: Parsers, md: Settings, key: string) { key in md && !Positive(p.duration(md[key])) }

  predicate BadInt(p: Parsers, md: Settings, key: string) { key in md && !Positive(p.atoi(md[key])) }

  predicate BadBackoff(p: Parsers, md: Settings) {
    "backoff" in md
    && exists part <- Split(md["backoff"], ',') :: !Positive(p.duration(TrimSpace(part, p.isSpace)))
  }

  /** The deliveries of a consumer that acks and is created end within its backoff list. */
  predicate TooLong(p: Parsers, md: Settings, create: bool, none: bool, maxDeliver: int) {
    var entries := if "backoff" in md then |Split(md["backoff"], ',')| else 0;
    var limit := if "max_deliver" in md then p.atoi(md["max_deliver"]) else Some(maxDeliver);
    create && !none && limit.Some? && entries >= limit.value
  }

  function PolicyChecks(p: Parsers, md: Settings, group: string): seq<Check> {
    [ Check("create_consumer",
            "create_consumer" in md && !Says(md, "create_consumer", "true")
            && !(Says(md, "create_consumer", "false") && group != "")),
      Check("ack_policy",
            "ack_policy" in md && !Says(md, "ack_policy", "double") && !Says(md, "ack_policy", "explicit")
            && !Says(md, "ack_policy", "none")),
      Check("nak_delay", BadDuration(p, md, "nak_delay"))]
  }

  function ConfigChecks(p: Parsers, md: Settings, create: bool, none: bool, maxDeliver: int): seq<Check> {
    [ Check("deliver_policy",
            "deliver_policy" in md && !Says(md, "deliver_policy", "all") && !Says(md, "deliver_policy", "new")),
      Check("consumer_inactive_threshold", BadDuration(p, md, "consumer_inactive_threshold")),
      Check("ack_wait", BadDuration(p, md, "ack_wait")), Check("max_deliver", BadInt(p, md, "max_deliver")),
      Check("max_ack_pending", BadInt(p, md, "max_ack_pending")), Check("backoff", BadBackoff(p, md)),
      Check("max_deliver", TooLong(p, md, create, none, maxDeliver))]
  }

  function PullChecks(p: Parsers, md: Settings): seq<Check> {
    [ Check("pull_max_messages", BadInt(p, md, "pull_max_messages")),
      Check("pull_max_bytes", BadInt(p, md, "pull_max_bytes")),
      Check("pull_threshold_messages", BadInt(p, md, "pull_threshold_messages")),
      Check("pull_expiry", BadDuration(p, md, "pull_expiry")),
      Check("pull_heartbeat", BadDuration(p, md, "pull_heartbeat"))]
  }

  /** Check i is the first that fails. */
  predicate FirstBad(cs: seq<Check>, i: nat) {
    i < |cs| && cs[i].bad && forall j :: 0 <= j < i ==> !cs[j].bad
  }

  /** The error is none when every check passes, and otherwise the key of the first that
      fails. */
  ghost predicate Obeys(err: Option<string>, cs: seq<Check>) {
    match err
    case None => forall i :: 0 <= i < |cs| ==> !cs[i].bad
    case Some(key) => exists i: nat :: FirstBad(cs, i) && cs[i].key == key
  }

  function ErrorOf<T>(r: Checked<T>): Option<string> { if r.Err? then Some(r.error) else None }

  /** The error of one reading after another. */
  function Or(e: Option<string>, f: Option<string>): Option<string> { if e.Some? then e else f }

  lemma ObeysBoth(e: Option<string>, cs: seq<Check>, f: Option<string>, ds: seq<Check>)
    requires Obeys(e, cs) && (e.None? ==> Obeys(f, ds))
    ensures Obeys(Or(e, f), cs + ds)
  {
    if e.Some? {
      var i: nat :| FirstBad(cs, i) && cs[i].key == e.value;
      assert FirstBad(cs + ds, i);
    } else if f.Some? {
      var i: nat :| FirstBad(ds, i) && ds[i].key == f.value;
      forall j | 0 <= j < |cs| + i ensures !(cs + ds)[j].bad {
        assert (cs + ds)[j] == if j < |cs| then cs[j] else ds[j - |cs|];
      }
      assert FirstBad(cs + ds, |cs| + i);
    }
  }

  /** One more check at the end. */
  lemma ObeysMore(e: Option<string>, cs: seq<Check>, f: Option<string>, c: Check)
    requires Obeys(e, cs) && (e.None? ==> f == if c.bad then Some(c.key) else None)
    ensures Obeys(Or(e, f), cs + [c])
  {
    assert c.bad ==> FirstBad([c], 0);
    ObeysBoth(e, cs, if c.bad then Some(c.key) else None, [c]);
  }

  lemma {:induction false} EntriesBad(p: Parsers, parts: seq<string>)
    ensures Entries(p, parts).None? <==> exists part <- parts :: !Positive(p.duration(TrimSpace(part, p.isSpace)))
  {
    if parts != [] {
      var n := |parts| - 1;
      EntriesBad(p, parts[..n]);
      assert parts == parts[..n] + [parts[n]];
    }
  }

  lemma BackoffObeys(p: Parsers, md: Settings)
    ensures ErrorOf(Backoff(p, md)) == if BadBackoff(p, md) then Some("backoff") else None
  {
    if BACKOFF in md {
      EntriesBad(p, Split(md[BACKOFF], ','));
    }
  }

  lemma PolicyObeys(p: Parsers, md: Settings, group: string)
    ensures Obeys(Or(Or(ErrorOf(CreateSetting(md, group)), ErrorOf(AckPolicySetting(md))),
                     ErrorOf(DurationSetting(p, md, NAK_DELAY, 0))), PolicyChecks(p, md, group))
  {
    var cs := PolicyChecks(p, md, group);
    var e, f := ErrorOf(CreateSetting(md, group)), ErrorOf(AckPolicySetting(md));
    ObeysMore(None, [], e, cs[0]);
    ObeysMore(e, [] + [cs[0]], f, cs[1]);
    ObeysMore(Or(e, f), [] + [cs[0]] + [cs[1]], ErrorOf(DurationSetting(p, md, NAK_DELAY, 0)), cs[2]);
    assert cs == [] + [cs[0]] + [cs[1]] + [cs[2]];
  }

  lemma AckObeys(p: Parsers, md: Settings, maxDeliver: int, cs: seq<Check>)
    requires cs == [Check("ack_wait", BadDuration(p, md, "ack_wait")),
                    Check("max_deliver", BadInt(p, md, "max_deliver")),
                    Check("max_ack_pending", BadInt(p, md, "max_ack_pending")), Check("backoff", BadBackoff(p, md))]
    ensures Obeys(ErrorOf(AckSettings(p, md, maxDeliver)), cs)
  {
    BackoffObeys(p, md);
    var e := ErrorOf(DurationSetting(p, md, ACK_WAIT, 0));
    var f := Or(e, ErrorOf(PositiveIntSetting(p, md, MAX_DELIVER, maxDeliver)));
    var g := Or(f, ErrorOf(PositiveIntSetting(p, md, MAX_ACK_PENDING, 0)));
    ObeysMore(None, [], e, cs[0]);
    ObeysMore(e, [] + [cs[0]], ErrorOf(PositiveIntSetting(p, md, MAX_DELIVER, maxDeliver)), cs[1]);
    ObeysMore(f, [] + [cs[0]] + [cs[1]], ErrorOf(PositiveIntSetting(p, md, MAX_ACK_PENDING, 0)), cs[2]);
    ObeysMore(g, [] + [cs[0]] + [cs[1]] + [cs[2]], ErrorOf(Backoff(p, md)), cs[3]);
    assert cs == [] + [cs[0]] + [cs[1]] + [cs[2]] + [cs[3]];
  }

  lemma LengthObeys(p: Parsers, md: Settings, create: bool, ack: AckPolicy, maxDeliver: int)
    requires AckSettings(p, md, maxDeliver).Ok?
    ensures var a := AckSettings(p, md, maxDeliver).value;
      TooLong(p, md, create, ack == AckNone, maxDeliver) <==> create && ack != AckNone && |a.backoff| >= a.maxDeliver
  {
    BackoffReads(p, md);
  }

  lemma ConfigObeys(p: Parsers, md: Settings, subject: string, group: string, create: bool, ack: AckPolicy,
                    maxDeliver: int)
    ensures Obeys(ErrorOf(ConsumerConfig(p, md, subject, group, create, ack, maxDeliver)),
                  ConfigChecks(p, md, create, ack == AckNone, maxDeliver))
  {
    var cs := ConfigChecks(p, md, create, ack == AckNone, maxDeliver);
    var e := ErrorOf(DeliverPolicySetting(md));
    var d := ErrorOf(DurationSetting(p, md, INACTIVE_THRESHOLD, DefaultInactive(group, ack)));
    var a := ErrorOf(AckSettings(p, md, maxDeliver));
    ObeysMore(None, [], e, cs[0]);
    ObeysMore(e, [] + [cs[0]], d, cs[1]);
    AckObeys(p, md, maxDeliver, cs[2..6]);
    ObeysBoth(Or(e, d), [] + [cs[0]] + [cs[1]], a, cs[2..6]);
    if a.None? {
      LengthObeys(p, md, create, ack, maxDeliver);
    }
    ObeysMore(Or(Or(e, d), a), [] + [cs[0]] + [cs[1]] + cs[2..6],
              ErrorOf(ConsumerConfig(p, md, subject, group, create, ack, maxDeliver)), cs[6]);
    assert cs == [] + [cs[0]] + [cs[1]] + cs[2..6] + [cs[6]];
  }

  lemma PullObeys(p: Parsers, md: Settings, fallback: Pull)
    ensures Obeys(ErrorOf(ReadPull(p, md, fallback)), PullChecks(p, md))
  {
    var cs := PullChecks(p, md);
    var e := ErrorOf(PositiveIntSetting(p, md, PULL_MAX_MESSAGES, fallback.maxMessages));
    var f := ErrorOf(PositiveIntSetting(p, md, PULL_MAX_BYTES, fallback.maxBytes));
    var g := ErrorOf(PositiveIntSetting(p, md, PULL_THRESHOLD_MESSAGES, fallback.threshold));
    var h := ErrorOf(DurationSetting(p, md, PULL_EXPIRY, fallback.expiry));
    var k := ErrorOf(DurationSetting(p, md, PULL_HEARTBEAT, fallback.heartbeat));
    ObeysMore(None, [], e, cs[0]);
    ObeysMore(e, [] + [cs[0]], f, cs[1]);
    ObeysMore(Or(e, f), [] + [cs[0]] + [cs[1]], g, cs[2]);
    ObeysMore(Or(Or(e, f), g), [] + [cs[0]] + [cs[1]] + [cs[2]], h, cs[3]);
    ObeysMore(Or(Or(Or(e, f), g), h), [] + [cs[0]] + [cs[1]] + [cs[2]] + [cs[3]], k, cs[4]);
    assert cs == [] + [cs[0]] + [cs[1]] + [cs[2]] + [cs[3]] + [cs[4]];
  }

  /** Every check of a subscriber's settings, in the order in which the code makes
      them. */
  function Checks(p: Parsers, md: Settings, group: string, maxDeliver: int): seq<Check> {
    PolicyChecks(p, md, group)
    + ConfigChecks(p, md, !Says(md, "create_consumer", "false"), Says(md, "ack_policy", "none"), maxDeliver)
    + PullChecks(p, md)
  }

  /** Settings that name no stream are not looked at. Others are refused if and only if a
      check fails, with the key of the first that does. */
  lemma SettingsRefused(p: Parsers, md: Settings, subject: string, group: string, maxDeliver: int, fallback: Pull)
    ensures var r := ParseJetStream(p, md, subject, group, maxDeliver, fallback);
      if "stream" !in md || md["stream"] == "" then r == Ok(None)
      else Obeys(ErrorOf(r), Checks(p, md, group, maxDeliver))
  {
    var create, ack, d := CreateSetting(md, group), AckPolicySetting(md), DurationSetting(p, md, NAK_DELAY, 0);
    PolicyObeys(p, md, group);
    var e := Or(Or(ErrorOf(create), ErrorOf(ack)), ErrorOf(d));
    var none, made := Says(md, "ack_policy", "none"), !Says(md, "create_consumer", "false");
    var c := ConsumerConfig(p, md, subject, group, made, if ack.Ok? then ack.value else AckNone, maxDeliver);
    if e.None? {
      ConfigObeys(p, md, subject, group, made, ack.value, maxDeliver);
      ObeysBoth(e, PolicyChecks(p, md, group), ErrorOf(c), ConfigChecks(p, md, made, none, maxDeliver));
    } else {
      ObeysBoth(e, PolicyChecks(p, md, group), None, ConfigChecks(p, md, made, none, maxDeliver));
    }
    PullObeys(p, md, fallback);
    ObeysBoth(Or(e, ErrorOf(c)), PolicyChecks(p, md, group) + ConfigChecks(p, md, made, none, maxDeliver),
              ErrorOf(ReadPull(p, md, fallback)), PullChecks(p, md));
  }

  // ---------- From the settings to the deadline ----------

  /** Whatever the server reports for a consumer that is not ordered: a delivery's deadline
      is its own backoff entry after its arrival, the last entry past the list, or the
      ack wait when there is no list; and the last delivery is the limit's, with none for
      -1. An ordered consumer never acks. */
  lemma ServerGoverns(s: JsSettings, server: Config, arrival: int, delivered: nat)
    requires 1 <= delivered <= TWO63 && -1 <= server.maxDeliver <= MAX_INT64
    ensures var c := OpenConsumer(s, server);
      if s.group == "" && s.ack == AckNone then !c.acks
      else
        && (c.acks <==> s.ack != AckNone && server.acks)
        && Deadline(c, arrival, delivered) == arrival +
             (if server.backoff == [] then server.ackWait
              else if delivered <= |server.backoff| then server.backoff[delivered - 1]
              else server.backoff[|server.backoff| - 1])
        && (LastDelivery(c, delivered) <==> 0 <= server.maxDeliver <= delivered)
  {
  }

  /** What the server keeps of the settings it was sent. A wait of zero leaves it the
      choice, and with a backoff list it chooses too. */
  predicate Keeps(sent: Config, server: Config) {
    server.acks == sent.acks && server.maxDeliver == sent.maxDeliver && server.backoff == sent.backoff
    && (sent.ackWait > 0 && sent.backoff == [] ==> server.ackWait == sent.ackWait)
  }

  /** From a subscriber's settings to a delivery's deadline, for every consumer that acks and
      is created: entry k of the backoff list is the time delivery k+1 gets, and that
      delivery is not the last; later deliveries get the last entry. Without a list it is
      the ack wait, or what the server chose. */
  lemma EveryEntryGoverns(p: Parsers, md: Settings, subject: string, group: string, maxDeliver: int,
                          fallback: Pull, server: Config, arrival: int, delivered: nat)
    requires 0 < maxDeliver < TWO63 && 1 <= delivered <= TWO63
    requires var r := ParseJetStream(p, md, subject, group, maxDeliver, fallback);
      r.Ok? && r.value.Some? && Keeps(r.value.value.config, server) && server.maxDeliver < TWO63
    requires !Says(md, "create_consumer", "false") && !Says(md, "ack_policy", "none")
    ensures var c := OpenConsumer(ParseJetStream(p, md, subject, group, maxDeliver, fallback).value.value, server);
      var wait := Deadline(c, arrival, delivered) - arrival;
      && c.acks
      && (if "backoff" in md then
            var parts := Split(md["backoff"], ',');
            && PartGives(wait, p, parts[if delivered <= |parts| then delivered - 1 else |parts| - 1])
            && (delivered <= |parts| ==> !LastDelivery(c, delivered))
          else if "ack_wait" in md then p.duration(md["ack_wait"]) == Some(wait) && wait > 0
          else wait == server.ackWait)
  {
    var s := ParseJetStream(p, md, subject, group, maxDeliver, fallback).value.value;
    SettingsRead(p, md, subject, group, maxDeliver, fallback);
    ConfigReads(p, md, subject, group, s.create, s.ack, maxDeliver);
    ConfigSound(p, md, subject, group, s.create, s.ack, maxDeliver);
    ServerGoverns(s, server, arrival, delivered);
  }

  // ---------- Merging ----------

  /** mergeSettings: a value in over wins. */
  method MergeSettings(target: Settings, over: Settings) returns (md: Settings)
    ensures md == target + over
    ensures forall k :: k in over ==> k in md && md[k] == over[k]
    ensures forall k :: k in target && k !in over ==> k in md && md[k] == target[k]
  {
    md := map[];
    var rest := target.Keys;
    while rest != {}
      invariant rest <= target.Keys
      invariant md == map k | k in target && k !in rest :: target[k]
    {
      var k :| k in rest;
      md := md[k := target[k]];
      rest := rest - {k};
    }
    assert md == target;
    rest := over.Keys;
    while rest != {}
      invariant rest <= over.Keys
      invariant md == target + map k | k in over && k !in rest :: over[k]
    {
      var k :| k in rest;
      md := md[k := over[k]];
      rest := rest - {k};
    }
    assert over == map k | k in over && k !in rest :: over[k];
  }
}
