/** One request from the client's call to the handler and back: the timeout it
    carries (nats/client.go, nats/runtime_serve.go) and the reply or failure it
    returns. Durations are int64 nanoseconds. */
module Requests {
  import opened Headers
  import opened Ints
  import opened Wrappers

  const MS := 1_000_000

  // ---------- Decimal integers ----------

  function Digit(d: nat): char
    requires d < 10
  {
    "0123456789"[d]
  }

  function Digits(n: nat): (s: string)
    ensures s != ""
  {
    if n < 10 then [Digit(n)] else Digits(n / 10) + [Digit(n % 10)]
  }

  /** strconv.FormatInt in base 10. */
  function FormatInt(n: int): string {
    if n < 0 then "-" + Digits(-n) else Digits(n)
  }

  function DigitValue(c: char): Option<nat> {
    if '0' <= c <= '9' then Some(c as nat - '0' as nat) else None
  }

  function ParseDigits(s: string): Option<nat> {
    if s == "" then Some(0)
    else
      var high, low := ParseDigits(s[..|s| - 1]), DigitValue(s[|s| - 1]);
      if high.Some? && low.Some? then Some(10 * high.value + low.value) else None
  }

  /** strconv.ParseInt in base 10: an optional sign, then digits, in int64 range. */
  function ParseInt(s: string): Option<int> {
    if s == "" then None
    else
      var signed := s[0] == '-' || s[0] == '+';
      var digits := if signed then s[1..] else s;
      if digits == "" || ParseDigits(digits).None? then None
      else
        var n: int := ParseDigits(digits).value;
        var v := if s[0] == '-' then -n else n;
        if MIN_INT64 <= v <= MAX_INT64 then Some(v) else None
  }

  lemma {:induction false} DigitsParse(n: nat)
    ensures ParseDigits(Digits(n)) == Some(n) && DigitValue(Digits(n)[0]).Some?
  {
    var s := Digits(n);
    if n >= 10 {
      DigitsParse(n / 10);
      assert s[..|s| - 1] == Digits(n / 10);
    } else {
      assert s[..0] == "";
    }
  }

  /** Every int64 survives printing and parsing. */
  lemma IntRoundTrip(n: int)
    requires MIN_INT64 <= n <= MAX_INT64
    ensures ParseInt(FormatInt(n)) == Some(n)
  {
    DigitsParse(if n < 0 then -n else n);
    if n < 0 {
      assert FormatInt(n)[1..] == Digits(-n);
    }
  }

  /** n without its last k decimal digits. */
  function Without(n: nat, k: nat): nat { if k == 0 then n else Without(n / 10, k - 1) }

  lemma DigitChar(d: nat)
    requires d < 10
    ensures Digit(d) as int == '0' as int + d
  {
  }

  /** What is printed is decimal: each position holds its own digit of the number. */
  lemma {:induction false} DigitAt(n: nat, k: nat)
    requires k < |Digits(n)|
    ensures Digits(n)[|Digits(n)| - 1 - k] as int == '0' as int + Without(n, k) % 10
  {
    if k > 0 {
      DigitAt(n / 10, k - 1);
    } else {
      DigitChar(n % 10);
    }
  }

  /** No digit too many: only zero starts with a zero. */
  lemma {:induction false} NoLeadingZero(n: nat)
    ensures n > 0 ==> Digits(n)[0] != '0'
  {
    if n >= 10 {
      NoLeadingZero(n / 10);
    }
  }

  predicate AllDigits(s: string) { forall i :: 0 <= i < |s| ==> '0' <= s[i] <= '9' }

  lemma {:induction false} ParseDigitsExact(s: string)
    ensures ParseDigits(s).Some? <==> AllDigits(s)
  {
    if s != "" {
      ParseDigitsExact(s[..|s| - 1]);
    }
  }

  /** Read from the left, leading zeros do not count. */
  lemma {:induction false} LeadingZero(s: string)
    ensures ParseDigits("0" + s) == ParseDigits(s)
  {
    if s == "" {
      assert ("0" + s)[..0] == "";
    } else {
      assert ("0" + s)[..|s|] == "0" + s[..|s| - 1];
      LeadingZero(s[..|s| - 1]);
    }
  }

  /** strconv.ParseInt takes exactly an optional sign and decimal digits whose number is an
      int64; a plus sign changes nothing and a minus sign negates. */
  lemma ParseIntExact(s: string)
    requires s != "" && AllDigits(s)
    ensures ParseDigits(s).Some?
    ensures var n: int := ParseDigits(s).value;
      && ParseInt(s) == (if n <= MAX_INT64 then Some(n) else None)
      && ParseInt("+" + s) == ParseInt(s)
      && ParseInt("-" + s) == (if -n >= MIN_INT64 then Some(-n) else None)
  {
    ParseDigitsExact(s);
    assert ("+" + s)[1..] == s && ("-" + s)[1..] == s;
  }

  lemma ParseIntRefuses(s: string)
    requires ParseInt(s).Some?
    ensures s != "" && (AllDigits(s) || (s[0] in "+-" && |s| > 1 && AllDigits(s[1..])))
  {
    var signed := s[0] == '-' || s[0] == '+';
    ParseDigitsExact(if signed then s[1..] else s);
  }

  // ---------- The timeout ----------

  /** boundContext's wait: the shorter of timeout and what is left of ctx's deadline. */
  method BoundWait(timeout: int, left: Option<int>) returns (wait: int)
    requires 0 < timeout <= MAX_INT64
    ensures left.None? ==> wait == timeout
    ensures left.Some? ==>
      (left.value <= 0 ==> wait == 0) && (0 < left.value < timeout ==> wait == left.value)
      && (left.value >= timeout ==> wait == timeout)
  {
    wait := timeout;
    if left.Some? {
      var rest := if left.value < 0 then 0 else left.value;
      wait := if rest < wait then rest else wait;
    }
  }

  /** The request's header: whatever the caller's metadata says of it, the timeout key
      is the wait in whole milliseconds. */
  method RequestHeader(md: Metadata, wait: int) returns (h: Header)
    requires 0 <= wait <= MAX_INT64
    ensures h == Outgoing(md)[TIMEOUT := [FormatInt(wait / MS)]]
    ensures "Mesh-Timeout" in h && h["Mesh-Timeout"] == [FormatInt(wait / 1_000_000)]
    ensures forall k :: k !in ["Mesh-Timeout", "Nats-Msg-Id"] ==>
      (k in h <==> k in md) && (k in md ==> h[k] == [md[k]])
  {
    var out := OutgoingHeader(md);
    h := if out.None? then map[] else out.value;
    assert md == map[] ==> Outgoing(md) == map[];
    h := h[TIMEOUT := [FormatInt(wait / MS)]];
  }

  /** What serve adds to the arrival time for the handler's deadline; None when the
      request carries no usable timeout. The multiplication is int64. */
  function Allowance(md: Metadata): Option<int> {
    if TIMEOUT !in md then None
    else
      match ParseInt(md[TIMEOUT])
      case None => None
      case Some(ms) => if ms >= 0 then Some(Wrap(ms * MS)) else None
  }

  /** The part of serve that gives an endpoint handler its deadline: the metadata it
      sees, and the deadline of its context. The formatter is a parameter. */
  method HandlerDeadline(h: Option<Header>, arrival: int, format: int -> string)
    returns (md: Metadata, deadline: Option<int>)
    ensures deadline == match Allowance(Incoming(h)) case None => None case Some(a) => Some(arrival + a)
    ensures md == if deadline.Some? then Incoming(h)[DEADLINE := format(deadline.value)] else Incoming(h)
    ensures var text := First(h, "Mesh-Timeout");
      var ms := if text.Some? then ParseInt(text.value) else None;
      && (ms.None? || ms.value < 0 ==> deadline.None? && Get(md, "Mesh-Deadline") == First(h, "Mesh-Deadline"))
      && (ms.Some? && ms.value >= 0 ==> deadline.Some? && Get(md, "Mesh-Deadline") == Some(format(deadline.value)))
      && (ms.Some? && 0 <= ms.value <= 9223372036854 ==> deadline == Some(arrival + ms.value * 1_000_000))
    ensures forall k :: k !in ["Mesh-Deadline", "Mesh-Message-Id"] ==> Get(md, k) == First(h, k)
  {
    md := IncomingMetadata(h);
    deadline := None;
    if TIMEOUT in md {
      var ms := ParseInt(md[TIMEOUT]);
      if ms.Some? && ms.value >= 0 {
        deadline := Some(arrival + Wrap(ms.value * MS));
        md := md[DEADLINE := format(deadline.value)];
      }
    }
  }

  /** Whatever metadata the caller passes, the timeout Request writes reaches the
      handler exactly: its allowance is the whole milliseconds of the wait, at most
      the wait, short of it by less than one millisecond, and never overflows. */
  lemma TimeoutTransfer(md: Metadata, wait: int, h: Header)
    requires 0 <= wait <= MAX_INT64 && h == Outgoing(md)[TIMEOUT := [FormatInt(wait / MS)]]
    ensures Allowance(Incoming(Some(h))) == Some(wait / MS * MS)
    ensures wait - MS < wait / MS * MS <= wait
  {
    IntRoundTrip(wait / MS);
    var got := Incoming(Some(h));
    assert TIMEOUT != MESSAGE_ID by {
      assert |TIMEOUT| != |MESSAGE_ID|;
    }
    assert got[TIMEOUT] == FormatInt(wait / MS);
  }

  /** From Request to the handler, as a whole: the deadline is the arrival plus the whole
      milliseconds of the client's wait, whatever the metadata, which arrives with it. */
  method SendRequest(md: Metadata, timeout: int, left: Option<int>, arrival: int, format: int -> string)
    returns (wait: int, seen: Metadata, deadline: int)
    requires 0 < timeout <= MAX_INT64
    ensures 0 <= wait <= timeout && (left.Some? && left.value >= 0 ==> wait <= left.value)
    ensures wait - 1_000_000 < deadline - arrival <= wait
    ensures Get(seen, "Mesh-Deadline") == Some(format(deadline))
    ensures forall k :: k !in ["Mesh-Deadline", "Mesh-Timeout", "Mesh-Message-Id", "Nats-Msg-Id"] ==>
      Get(seen, k) == Get(md, k)
  {
    wait := BoundWait(timeout, left);
    var h := RequestHeader(md, wait);
    IntRoundTrip(wait / MS);
    var d;
    seen, d := HandlerDeadline(Some(h), arrival, format);
    deadline := d.value;
  }

  /** For any text of a timeout, whoever wrote it, the allowance is the number it stands
      for if and only if that has at most 9223372036854 milliseconds and is not
      negative; a negative or unreadable timeout gives none. */
  lemma AllowanceExact(md: Metadata)
    requires TIMEOUT in md
    ensures match ParseInt(md[TIMEOUT])
      case None => Allowance(md) == None
      case Some(ms) =>
        (Allowance(md) == Some(ms * 1_000_000) <==> 0 <= ms <= 9223372036854) && (Allowance(md) == None <==> ms < 0)
  {
  }

  /** One millisecond more, and the handler's deadline lies in the past. */
  lemma AllowanceOverflows(ms: nat)
    requires ms == MAX_INT64 / MS + 1
    ensures Allowance(map[TIMEOUT := FormatInt(ms)]) == Some(-9223372036854551616)
  {
    IntRoundTrip(ms);
  }

  // ---------- The reply ----------

  /** How an endpoint handler ends. A panic's value is already printed. */
  datatype Handled = Replied(md: Metadata, payload: string) | Failed(text: string) | Panicked(value: string)

  /** A reply as sent. */
  datatype Reply = Reply(header: Option<Header>, data: string)

  /** What Request returns: the reply's metadata (nil when None) and payload, or a
      HandlerError. */
  datatype Answer = Answer(md: Option<Metadata>, payload: string) | HandlerError(text: string)

  /** The text of the error callEndpoint returns, if any. */
  function FailureText(r: Handled): Option<string> {
    match r
    case Replied(_, _) => None
    case Failed(text) => Some(text)
    case Panicked(value) => Some("panic: " + value)
  }

  /** serve's reply to a handler that ended in r. */
  method BuildReply(r: Handled) returns (reply: Reply)
    ensures r.Replied? ==>
      reply == Reply(if r.md == map[] then None else Some(HeaderOf(r.md)), r.payload)
    ensures !r.Replied? ==> reply == Reply(Some(map[HANDLER_ERROR := [FailureText(r).value]]), "")
    ensures r.Failed? ==> reply.header == Some(map["Mesh-Handler-Error" := [r.text]])
    ensures r.Panicked? ==> reply.header == Some(map["Mesh-Handler-Error" := ["panic: " + r.value]])
  {
    match r
    case Replied(md, payload) =>
      var h := ToHeader(md);
      reply := Reply(h, payload);
    case Failed(text) =>
      reply := Reply(Some(map[HANDLER_ERROR := [text]]), "");
    case Panicked(value) =>
      reply := Reply(Some(map[HANDLER_ERROR := ["panic: " + value]]), "");
  }

  /** How Request reads a reply. */
  method ReadReply(reply: Reply) returns (a: Answer)
    ensures a.HandlerError? <==> reply.header.Some? && HANDLER_ERROR in reply.header.value
    ensures a.HandlerError? ==>
      var text := reply.header.value[HANDLER_ERROR]; a.text == if text == [] then "" else text[0]
    ensures a.Answer? ==> a.payload == reply.data
    ensures a.Answer? ==>
      a.md == if reply.header.None? || reply.header.value == map[] then None else Some(MetadataOf(reply.header.value))
  {
    if reply.header.Some? && HANDLER_ERROR in reply.header.value {
      var text := reply.header.value[HANDLER_ERROR];
      return HandlerError(if |text| > 0 then text[0] else "");
    }
    var md := FromHeader(reply.header);
    return Answer(md, reply.data);
  }

  /** The caller gets a HandlerError if and only if the handler failed or panicked, or
      replied with the error key among its own metadata; its text is the failure's,
      exactly. Otherwise it gets the handler's payload and metadata unchanged. */
  method Exchange(r: Handled) returns (a: Answer)
    ensures a.HandlerError? <==> !r.Replied? || HANDLER_ERROR in r.md
    ensures r.Failed? ==> a.text == r.text
    ensures r.Panicked? ==> a.text == "panic: " + r.value
    ensures r.Replied? && HANDLER_ERROR !in r.md ==>
      a.payload == r.payload && (if a.md.None? then r.md == map[] else a.md.value == r.md)
    ensures r.Replied? && HANDLER_ERROR in r.md ==> a.text == r.md[HANDLER_ERROR]
  {
    var reply := BuildReply(r);
    a := ReadReply(reply);
    if r.Replied? {
      MetadataRoundTrip(r.md);
    }
  }
}
