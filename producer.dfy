/** The message producer (messaging/rabbitmq/producer.go): it picks one
    connection, wraps each payload in an envelope that carries the current
    trace, and publishes it on a short-lived channel. */
module Producers {
  import opened Wrappers
  import opened Values
  import opened Messages
  import opened TraceIds
  import opened HandlerRegistry
  import opened Broker
  import opened Topology
  import opened Deliveries
  import Channels

  /** The span of the publishing context: whether it is valid, and its
      8-byte id. */
  datatype SpanContext = SpanContext(valid: bool, spanId: seq<Byte>)

  datatype Producer = Producer(connection: Connection)

  const NoValidConnection: string := "no valid connection found for producer"

  /** The error of `json.Marshal` on a value it cannot encode. */
  const MarshalError: string := "json: unsupported type"

  function ChannelFailed(cause: string): string
  {
    "failed to create channel: " + cause
  }

  /** `NewRabbitMQProducer`: an empty connection map is an error; otherwise
      the first non-nil connection met while walking the map is used, and
      when every entry is nil that is an error too. */
  method NewRabbitMQProducer(connections: map<string, Option<Connection>>) returns (r: Result<Producer, string>)
    ensures connections == map[] ==> r == Failure(Channels.NoConnections)
    ensures connections != map[] ==>
      (r.Success? <==> exists k | k in connections :: connections[k].Some?)
    ensures connections != map[] && r.Failure? ==> r.error == NoValidConnection
    ensures r.Success? ==> exists k | k in connections :: connections[k] == Some(r.value.connection)
  {
    if |connections| == 0 {
      return Failure(Channels.NoConnections);
    }
    var chosen: Option<Connection> := None;
    ghost var chosenKey: string := "";
    var remaining := connections.Keys;
    while remaining != {} && chosen.None?
      invariant remaining <= connections.Keys
      invariant chosen.None? ==> forall k | k in connections && k !in remaining :: connections[k].None?
      invariant chosen.Some? ==> chosenKey in connections && connections[chosenKey] == chosen
      decreases remaining
    {
      var name :| name in remaining;
      var conn := connections[name];
      if conn.Some? {
        chosen := conn;
        chosenKey := name;
      }
      remaining := remaining - {name};
    }
    if chosen.None? {
      return Failure(NoValidConnection);
    }
    return Success(Producer(chosen.value));
  }

  /** The envelope `Publish` builds, before the trace is added. */
  function Envelope(serviceName: string, messageName: string, publishDate: string, payload: Value): Message
  {
    Message(Metadata(serviceName, messageName, publishDate, "", "", ""), payload)
  }

  function CarrierValue(carrier: map<string, string>, key: string): (r: string)
    ensures key !in carrier ==> r == ""
  {
    if key in carrier then carrier[key] else ""
  }

  /** `enrichMessageWithTrace`: with a valid span, the traceparent and
      tracestate the propagator injects into the carrier (empty when
      absent) and the span's id as hex; with none, nothing changes. */
  function Enrich(m: Message, span: SpanContext, carrier: map<string, string>): (r: Message)
    ensures !span.valid ==> r == m
    ensures r.payload == m.payload
    ensures r.metadata.publisherName == m.metadata.publisherName
    ensures r.metadata.messageName == m.metadata.messageName
    ensures r.metadata.publishDate == m.metadata.publishDate
    ensures span.valid ==> r.metadata.traceparent == CarrierValue(carrier, "traceparent")
    ensures span.valid ==> r.metadata.tracestate == CarrierValue(carrier, "tracestate")
    ensures span.valid && |span.spanId| == 8 ==> ParseSpanId(r.metadata.spanId) == span.spanId
  {
    if !span.valid then m
    else
      SpanIdRoundTripWhenValid(span.spanId);
      Message(
        Metadata(
          m.metadata.publisherName,
          m.metadata.messageName,
          m.metadata.publishDate,
          CarrierValue(carrier, "traceparent"),
          CarrierValue(carrier, "tracestate"),
          EncodeHex(span.spanId)),
        m.payload)
  }

  lemma SpanIdRoundTripWhenValid(spanId: seq<Byte>)
    ensures |spanId| == 8 ==> ParseSpanId(EncodeHex(spanId)) == spanId
  {
    if |spanId| == 8 {
      SpanIdRoundTrip(spanId);
    }
  }

  /** The message `Publish` sends. */
  function Outgoing(serviceName: string, messageName: string, publishDate: string, payload: Value, span: SpanContext, carrier: map<string, string>): Message
  {
    Enrich(Envelope(serviceName, messageName, publishDate, payload), span, carrier)
  }

  /** The publish call: to the exchange named after the service, with the
      message name as routing key, neither mandatory nor immediate, as
      JSON. */
  function PublishFor(ch: ChannelRef, serviceName: string, messageName: string, body: Value): Call
  {
    Call.Publish(ch, serviceName, messageName, false, false, "application/json", body)
  }

  /** `Publish`. A payload JSON cannot encode fails before any channel is
      opened; a refused channel is returned wrapped and nothing is
      published; otherwise the encoded envelope is published and the
      channel closed, and the publish error, if any, is returned. */
  method Publish(p: Producer, serviceName: string, messageName: string, payload: Value, publishDate: string,
                 span: SpanContext, carrier: map<string, string>, b: Broker)
    returns (err: Option<string>, calls: seq<Call>)
    ensures !Marshalable(payload) ==> err == Some(MarshalError) && calls == []
    ensures Marshalable(payload) && !Accepts(b, OpenChannel(p.connection.key)) ==>
      err == Some(ChannelFailed(b.refused[OpenChannel(p.connection.key)])) && calls == [OpenChannel(p.connection.key)]
    ensures Marshalable(payload) && Accepts(b, OpenChannel(p.connection.key)) ==>
      && |calls| == 3
      && calls[0] == OpenChannel(p.connection.key)
      && calls[1] == PublishFor(Fresh(p.connection.key), serviceName, messageName,
                                EncodeMessage(Outgoing(serviceName, messageName, publishDate, payload, span, carrier)))
      && calls[2] == CloseChannel(Fresh(p.connection.key))
      && (err.None? <==> Accepts(b, calls[1]))
      && (err.Some? ==> err.value == b.refused[calls[1]])
  {
    var message := Envelope(serviceName, messageName, publishDate, payload);
    message := Enrich(message, span, carrier);
    var body := EncodeMessage(message);
    MarshalNeedsPayload(message);
    if !Marshalable(body) {
      return Some(MarshalError), [];
    }
    var open := OpenChannel(p.connection.key);
    if open in b.refused {
      return Some(ChannelFailed(b.refused[open])), [open];
    }
    var publish := Call.Publish(Fresh(p.connection.key), serviceName, messageName, false, false, "application/json", body);
    calls := [open, publish, CloseChannel(Fresh(p.connection.key))];
    if publish in b.refused {
      err := Some(b.refused[publish]);
    } else {
      err := None;
    }
  }

  /** End to end: a published body, delivered to a consumer of a queue,
      reaches the handler registered for the message name on that queue,
      with the publisher's name and date, and the span it runs in links to
      the publishing span and to the trace-id of a well-formed
      traceparent. */
  lemma PublishedBodyIsRouted(serviceName: string, messageName: string, publishDate: string, payload: Value,
                              span: SpanContext, carrier: map<string, string>, queueName: string, registered: seq<Handler>,
                              version: string, traceId: seq<Byte>, parentId: seq<Byte>, flags: string)
    requires span.valid && |span.spanId| == 8
    requires '-' !in version && |traceId| == 16
    requires "traceparent" in carrier && carrier["traceparent"] == FormatTraceparent(version, traceId, parentId, flags)
    requires Key(queueName, messageName) in Registry(registered)
    ensures var m := Outgoing(serviceName, messageName, publishDate, payload, span, carrier);
      var r := Deliver(queueName, Registry(registered), Delivery(Some(EncodeMessage(m))));
      && r.Invoked?
      && r.invocation.handler == Registry(registered)[Key(queueName, messageName)]
      && r.invocation.metadata.publisherName == serviceName
      && r.invocation.metadata.publishDate == publishDate
      && r.invocation.source == payload
      && r.invocation.linkSpanId == span.spanId
      && r.invocation.linkTraceId == traceId
  {
    var m := Outgoing(serviceName, messageName, publishDate, payload, span, carrier);
    var d := Delivery(Some(EncodeMessage(m)));
    DecodeEncode(m);
    assert Decode(d) == Some(m);
    assert m.metadata.messageName == messageName;
    assert Routable(queueName, Registry(registered), d);
    InvocationShape(queueName, Registry(registered), d);
    ParseTraceIdOfTraceparent(version, traceId, parentId, flags);
  }

  /** Without a valid span, the envelope carries no trace and the consumer
      links its span to the zero trace-id. */
  lemma UntracedPublishLinksNothing(serviceName: string, messageName: string, publishDate: string, payload: Value,
                                    span: SpanContext, carrier: map<string, string>)
    requires !span.valid
    ensures var m := Outgoing(serviceName, messageName, publishDate, payload, span, carrier);
      m.metadata.traceparent == "" && m.metadata.tracestate == "" && m.metadata.spanId == ""
      && ParseTraceId(m.metadata.traceparent) == Zeros(16)
  {
    ParseTraceIdOfEmpty();
  }
}
