/** The message envelope exchanged over the broker (core/messaging/messages)
    and its JSON form. */
module Messages {
  import opened Wrappers
  import opened Values

  /** `Metadata`. The publish date is kept as its RFC 3339 text. */
  datatype Metadata = Metadata(
    publisherName: string,
    messageName: string,
    publishDate: string,
    traceparent: string,
    tracestate: string,
    spanId: string)

  /** `Message[any]`: metadata and a dynamically typed payload. */
  datatype Message = Message(metadata: Metadata, payload: Value)

  const EmptyMetadata: Metadata := Metadata("", "", "", "", "", "")

  /** The zero `Message[any]{}`. */
  const EmptyMessage: Message := Message(EmptyMetadata, VNull)

  /** The JSON object of the metadata, under the struct's json tags. */
  function EncodeMetadata(md: Metadata): Value
  {
    VMap(map[
      "publisherName" := VStr(md.publisherName),
      "messageName" := VStr(md.messageName),
      "publishDate" := VStr(md.publishDate),
      "traceparent" := VStr(md.traceparent),
      "tracestate" := VStr(md.tracestate),
      "spanId" := VStr(md.spanId)])
  }

  /** The JSON object of a message. */
  function EncodeMessage(m: Message): Value
  {
    VMap(map["metadata" := EncodeMetadata(m.metadata), "payload" := m.payload])
  }

  /** `json.Marshal(message)` succeeds exactly when the payload has a JSON form. */
  lemma MarshalNeedsPayload(m: Message)
    ensures Marshalable(EncodeMessage(m)) <==> Marshalable(m.payload)
  {
    var e := EncodeMessage(m).entries;
    var md := EncodeMetadata(m.metadata).entries;
    assert e["metadata"] == EncodeMetadata(m.metadata);
    assert e["payload"] == m.payload;
    assert Marshalable(EncodeMetadata(m.metadata)) by {
      forall k | k in md ensures Marshalable(md[k]) {
      }
    }
  }

  /** Decoding one string field of a JSON object into a Go string: an absent
      field or `null` leaves the zero value, a string is taken, anything else
      is a type error. */
  function DecodeStringField(obj: map<string, Value>, key: string): (r: Option<string>)
    ensures key !in obj ==> r == Some("")
    ensures key in obj && obj[key].VStr? ==> r == Some(obj[key].s)
  {
    if key !in obj then Some("")
    else match obj[key]
      case VNull => Some("")
      case VStr(s) => Some(s)
      case _ => None
  }

  /** `json.Unmarshal` of the metadata object. */
  function DecodeMetadata(v: Value): Option<Metadata>
  {
    match v
    case VNull => Some(EmptyMetadata)
    case VMap(obj) =>
      var pub := DecodeStringField(obj, "publisherName");
      var name := DecodeStringField(obj, "messageName");
      var date := DecodeStringField(obj, "publishDate");
      var tp := DecodeStringField(obj, "traceparent");
      var ts := DecodeStringField(obj, "tracestate");
      var sid := DecodeStringField(obj, "spanId");
      if pub.Some? && name.Some? && date.Some? && tp.Some? && ts.Some? && sid.Some? then
        Some(Metadata(pub.value, name.value, date.value, tp.value, ts.value, sid.value))
      else None
    case _ => None
  }

  /** `json.Unmarshal(body, &message)` into a zero `Message[any]`: `null`
      leaves the zero message, an object fills the fields it has, and
      anything else is an error (`None`). */
  function DecodeMessage(body: Value): Option<Message>
  {
    match body
    case VNull => Some(EmptyMessage)
    case VMap(obj) =>
      var md := if "metadata" in obj then DecodeMetadata(obj["metadata"]) else Some(EmptyMetadata);
      var payload := if "payload" in obj then obj["payload"] else VNull;
      if md.Some? then Some(Message(md.value, payload)) else None
    case _ => None
  }

  /** Decoding gives back every encoded metadata object. */
  lemma DecodeEncodeMetadata(md: Metadata)
    ensures DecodeMetadata(EncodeMetadata(md)) == Some(md)
  {
    var obj := EncodeMetadata(md).entries;
    assert DecodeStringField(obj, "publisherName") == Some(md.publisherName);
    assert DecodeStringField(obj, "messageName") == Some(md.messageName);
    assert DecodeStringField(obj, "publishDate") == Some(md.publishDate);
    assert DecodeStringField(obj, "traceparent") == Some(md.traceparent);
    assert DecodeStringField(obj, "tracestate") == Some(md.tracestate);
    assert DecodeStringField(obj, "spanId") == Some(md.spanId);
  }

  /** Decoding gives back every encoded message. */
  lemma DecodeEncode(m: Message)
    ensures DecodeMessage(EncodeMessage(m)) == Some(m)
  {
    var obj := EncodeMessage(m).entries;
    assert obj["metadata"] == EncodeMetadata(m.metadata);
    assert obj["payload"] == m.payload;
    DecodeEncodeMetadata(m.metadata);
  }

  /** Only objects and `null` decode; a body of any other kind is refused. */
  lemma DecodeRefusesNonObjects(body: Value)
    requires !body.VMap? && !body.VNull?
    ensures DecodeMessage(body).None?
  {
  }

  /** A metadata field of the wrong kind makes the whole body undecodable. */
  lemma DecodeRefusesMistypedName(obj: map<string, Value>, md: map<string, Value>)
    requires "metadata" in obj && obj["metadata"] == VMap(md)
    requires "messageName" in md && md["messageName"] == VInt(1)
    ensures DecodeMessage(VMap(obj)).None?
  {
  }
}
