/** Message metadata and NATS headers (nats/header.go). A nil header or a nil map is
    None. */
module Headers {
  import opened Wrappers

  type Metadata = map<string, string>
  type Header = map<string, seq<string>>

  const MESSAGE_ID := "Mesh-Message-Id"
  const MSG_ID := "Nats-Msg-Id"
  const TIMEOUT := "Mesh-Timeout"
  const DEADLINE := "Mesh-Deadline"
  const HANDLER_ERROR := "Mesh-Handler-Error"

  /** One value per key. */
  function HeaderOf(md: Metadata): Header {
    map k | k in md :: [md[k]]
  }

  /** The first value of each key that has one. */
  function MetadataOf(h: Header): Metadata {
    map k | k in h && h[k] != [] :: h[k][0]
  }

  /** toHeader: every entry becomes a one-element list; no entries, no header. */
  method ToHeader(md: Metadata) returns (h: Option<Header>)
    ensures h == if md == map[] then None else Some(HeaderOf(md))
    ensures h.None? <==> md == map[]
    ensures h.Some? ==> h.value.Keys == md.Keys && forall k <- md :: h.value[k] == [md[k]]
  {
    if |md| == 0 {
      return None;
    }
    var out: Header := map[];
    var rest := md.Keys;
    while rest != {}
      invariant rest <= md.Keys
      invariant out == map k | k in md && k !in rest :: [md[k]]
    {
      var k :| k in rest;
      out := out[k := [md[k]]];
      rest := rest - {k};
    }
    assert out == HeaderOf(md);
    return Some(out);
  }

  /** fromHeader: lists lose all but their head, and empty ones their key. */
  method FromHeader(h: Option<Header>) returns (md: Option<Metadata>)
    ensures md == if h.None? || h.value == map[] then None else Some(MetadataOf(h.value))
    ensures md.None? <==> h.None? || h.value == map[]
    ensures md.Some? ==> forall k :: k in md.value <==> k in h.value && |h.value[k]| > 0
    ensures md.Some? ==> forall k <- md.value :: md.value[k] == h.value[k][0]
  {
    if h.None? || |h.value| == 0 {
      return None;
    }
    var hv := h.value;
    var out: Metadata := map[];
    var rest := hv.Keys;
    while rest != {}
      invariant rest <= hv.Keys
      invariant out == map k | k in hv && k !in rest && hv[k] != [] :: hv[k][0]
    {
      var k :| k in rest;
      if |hv[k]| > 0 {
        out := out[k := hv[k][0]];
      }
      rest := rest - {k};
    }
    assert out == MetadataOf(hv);
    return Some(out);
  }

  /** What outgoingHeader makes of the metadata. */
  function Outgoing(md: Metadata): Header {
    if MESSAGE_ID in md then HeaderOf(md)[MSG_ID := [md[MESSAGE_ID]]] else HeaderOf(md)
  }

  /** outgoingHeader: the header of a message being sent; the mesh ID wins. */
  method OutgoingHeader(md: Metadata) returns (h: Option<Header>)
    ensures h.None? <==> md == map[]
    ensures h.Some? ==> h.value == Outgoing(md)
    ensures h.Some? ==> forall k :: k in h.value <==> k in md || (k == "Nats-Msg-Id" && "Mesh-Message-Id" in md)
    ensures h.Some? ==> forall k <- h.value ::
      h.value[k] == [md[if k == "Nats-Msg-Id" && "Mesh-Message-Id" in md then "Mesh-Message-Id" else k]]
  {
    h := ToHeader(md);
    if MESSAGE_ID in md {
      h := Some(h.value[MSG_ID := [md[MESSAGE_ID]]]);
    }
  }

  /** What incomingMetadata makes of the header. */
  function Incoming(h: Option<Header>): Metadata {
    var md := if h.None? then map[] else MetadataOf(h.value);
    if MSG_ID in md then md[MESSAGE_ID := md[MSG_ID]] else md
  }

  /** The first value a header has under the key, if any. */
  function First(h: Option<Header>, key: string): Option<string> {
    if h.Some? && key in h.value && |h.value[key]| > 0 then Some(h.value[key][0]) else None
  }

  function Get(md: Metadata, key: string): Option<string> {
    if key in md then Some(md[key]) else None
  }

  /** incomingMetadata: the metadata handed to a handler, never nil. Every key has its first
      value, except that an ID under Nats-Msg-Id takes the place of one under the mesh
      key. */
  method IncomingMetadata(h: Option<Header>) returns (md: Metadata)
    ensures md == Incoming(h)
    ensures Get(md, "Mesh-Message-Id") ==
      if First(h, "Nats-Msg-Id").Some? then First(h, "Nats-Msg-Id") else First(h, "Mesh-Message-Id")
    ensures forall k :: k != "Mesh-Message-Id" ==> Get(md, k) == First(h, k)
  {
    var from := FromHeader(h);
    md := if from.None? then map[] else from.value;
    if MSG_ID in md {
      md := md[MESSAGE_ID := md[MSG_ID]];
    }
    assert h.Some? && h.value == map[] ==> MetadataOf(h.value) == map[];
  }

  /** The two ID keys as one field, the mesh key winning when both are present. */
  function Unified(md: Metadata): Metadata {
    if MESSAGE_ID in md then md[MSG_ID := md[MESSAGE_ID]]
    else if MSG_ID in md then md[MESSAGE_ID := md[MSG_ID]]
    else md
  }

  lemma MetadataRoundTrip(md: Metadata)
    ensures MetadataOf(HeaderOf(md)) == md
  {
  }

  /** What the handler gets is what the sender gave, the ID keys unified: nothing is
      lost, added or changed under any other key, and the sender's mesh ID wins. */
  lemma SendReceive(md: Metadata)
    ensures Incoming(if md == map[] then None else Some(Outgoing(md))) == Unified(md)
    ensures MESSAGE_ID in md ==> Unified(md) == md[MSG_ID := md[MESSAGE_ID]]
    ensures MESSAGE_ID !in md && MSG_ID in md ==> Unified(md) == md[MESSAGE_ID := md[MSG_ID]]
    ensures MESSAGE_ID !in md && MSG_ID !in md ==> Unified(md) == md
  {
    MetadataRoundTrip(md);
    if MESSAGE_ID in md {
      assert MetadataOf(Outgoing(md)) == md[MSG_ID := md[MESSAGE_ID]];
    }
  }

  /** Forwarding a received message's metadata changes nothing more: both keys then
      carry the same ID. */
  lemma UnifiedIdempotent(md: Metadata)
    ensures Unified(Unified(md)) == Unified(md)
    ensures MESSAGE_ID in md || MSG_ID in md ==>
      MESSAGE_ID in Unified(md) && MSG_ID in Unified(md) && Unified(md)[MESSAGE_ID] == Unified(md)[MSG_ID]
    ensures forall k :: k != MESSAGE_ID && k != MSG_ID ==>
      (k in Unified(md) <==> k in md) && (k in md ==> Unified(md)[k] == md[k])
  {
    assert MESSAGE_ID != MSG_ID by {
      assert MESSAGE_ID[0] != MSG_ID[0];
    }
  }
}
