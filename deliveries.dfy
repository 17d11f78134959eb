/** What a consumer does with one delivery (the per-delivery body of
    `QueueConsumer.Start` in messaging/rabbitmq/consumer.go, repeated in the
    legacy consumer of messaging/consumer/rabbitmq.go): decode the envelope,
    look its handler up by queue and message name, and call the handler
    once, in a span linked to the publisher's. */
module Deliveries {
  import opened Wrappers
  import opened Values
  import opened Messages
  import opened HandlerRegistry
  import opened TraceIds

  /** A delivery's body: its JSON value, or `None` when the bytes are not
      JSON at all. */
  datatype Delivery = Delivery(body: Option<Value>)

  /** One `Handle` call: the handler, the message it receives, and the span
      it runs in. The payload handed over is the handler's message type
      decoded from the delivered payload (`typeName`, `source`); a decoding
      error is ignored, so the call happens regardless. */
  datatype Invocation = Invocation(
    handler: Handler,
    metadata: Metadata,
    typeName: string,
    source: Value,
    spanName: string,
    linkTraceId: seq<Byte>,
    linkSpanId: seq<Byte>,
    carrier: map<string, string>)

  datatype DeliveryOutcome = DroppedUndecodable | DroppedNoHandler | Invoked(invocation: Invocation)

  /** `json.Unmarshal(d.Body, &message)`. */
  function Decode(d: Delivery): Option<Message>
  {
    if d.body.None? then None else DecodeMessage(d.body.value)
  }

  /** The delivery decodes and a handler is registered under its key. */
  predicate Routable(queueName: string, handlers: map<string, Handler>, d: Delivery)
  {
    Decode(d).Some? && Key(queueName, Decode(d).value.metadata.messageName) in handlers
  }

  /** The handling of one delivery by a consumer of queue `queueName`. */
  function Deliver(queueName: string, handlers: map<string, Handler>, d: Delivery): (r: DeliveryOutcome)
    ensures Decode(d).None? <==> r == DroppedUndecodable
    ensures r.Invoked? <==> Routable(queueName, handlers, d)
  {
    var m := Decode(d);
    if m.None? then DroppedUndecodable
    else
      var md := m.value.metadata;
      var key := Key(queueName, md.messageName);
      if key !in handlers then DroppedNoHandler
      else
        var handler := handlers[key];
        Invoked(Invocation(
          handler,
          md,
          handler.messageType,
          m.value.payload,
          "processing: " + md.messageName,
          ParseTraceId(md.traceparent),
          ParseSpanId(md.spanId),
          map["traceparent" := md.traceparent, "tracestate" := md.tracestate]))
  }

  /** The handler called is the one registered under
      `"<queue>-<message name>"`; it receives the delivered metadata
      unchanged and the payload decoded into its own message type; the span
      is named after the message and linked to the trace of the
      traceparent and the publisher's span id. */
  lemma InvocationShape(queueName: string, handlers: map<string, Handler>, d: Delivery)
    requires Routable(queueName, handlers, d)
    ensures var m := Decode(d).value;
      var inv := Deliver(queueName, handlers, d).invocation;
      && inv.handler == handlers[queueName + "-" + m.metadata.messageName]
      && inv.metadata == m.metadata
      && inv.typeName == inv.handler.messageType
      && inv.source == m.payload
      && inv.spanName == "processing: " + m.metadata.messageName
      && inv.linkTraceId == ParseTraceId(m.metadata.traceparent)
      && inv.linkSpanId == ParseSpanId(m.metadata.spanId)
      && inv.carrier["traceparent"] == m.metadata.traceparent
      && inv.carrier["tracestate"] == m.metadata.tracestate
  {
  }

  /** A message published by `EncodeMessage` reaches the handler registered
      for its name on this queue, exactly when one is registered: the lookup
      key has the registry's shape. */
  lemma PublishedMessageRouting(queueName: string, registered: seq<Handler>, m: Message)
    ensures var d := Delivery(Some(EncodeMessage(m)));
      Deliver(queueName, Registry(registered), d).Invoked? <==> exists i | 0 <= i < |registered| :: HandlerKey(registered[i]) == Key(queueName, m.metadata.messageName)
  {
    DecodeEncode(m);
    RegistryKeys(registered);
  }

  /** The invocations of a batch, in delivery order. */
  function Invocations(queueName: string, handlers: map<string, Handler>, ds: seq<Delivery>): seq<Invocation>
  {
    if |ds| == 0 then []
    else
      var init := Invocations(queueName, handlers, ds[..|ds| - 1]);
      var r := Deliver(queueName, handlers, ds[|ds| - 1]);
      if r.Invoked? then init + [r.invocation] else init
  }

  /** The number of deliveries that decode and have a registered handler. */
  function CountRoutable(queueName: string, handlers: map<string, Handler>, ds: seq<Delivery>): nat
  {
    if |ds| == 0 then 0
    else (if Routable(queueName, handlers, ds[0]) then 1 else 0) + CountRoutable(queueName, handlers, ds[1..])
  }

  lemma {:induction false} CountRoutableAppend(queueName: string, handlers: map<string, Handler>, ds: seq<Delivery>, d: Delivery)
    ensures CountRoutable(queueName, handlers, ds + [d]) ==
      CountRoutable(queueName, handlers, ds) + (if Routable(queueName, handlers, d) then 1 else 0)
  {
    if |ds| > 0 {
      assert (ds + [d])[1..] == ds[1..] + [d];
      CountRoutableAppend(queueName, handlers, ds[1..], d);
    } else {
      assert (ds + [d])[1..] == [];
    }
  }

  /** Over a batch, `Handle` is called once per routable delivery, and
      never otherwise. */
  lemma {:induction false} InvocationsCount(queueName: string, handlers: map<string, Handler>, ds: seq<Delivery>)
    ensures |Invocations(queueName, handlers, ds)| == CountRoutable(queueName, handlers, ds)
  {
    if |ds| > 0 {
      var init := ds[..|ds| - 1];
      InvocationsCount(queueName, handlers, init);
      assert ds == init + [ds[|ds| - 1]];
      CountRoutableAppend(queueName, handlers, init, ds[|ds| - 1]);
    }
  }

  /** A batch of deliveries handled one after the other. The consumers
      handle each delivery in its own goroutine; this is the sequential
      account of the same batch. */
  method HandleBatch(queueName: string, handlers: map<string, Handler>, ds: seq<Delivery>) returns (invocations: seq<Invocation>)
    ensures invocations == Invocations(queueName, handlers, ds)
    ensures |invocations| == CountRoutable(queueName, handlers, ds)
  {
    invocations := [];
    var i := 0;
    while i < |ds|
      invariant 0 <= i <= |ds|
      invariant invocations == Invocations(queueName, handlers, ds[..i])
    {
      assert ds[..i + 1][..i] == ds[..i];
      var r := Deliver(queueName, handlers, ds[i]);
      if r.Invoked? {
        invocations := invocations + [r.invocation];
      }
      i := i + 1;
    }
    assert ds[..i] == ds;
    InvocationsCount(queueName, handlers, ds);
  }

  /** Messages named A, B, A on queue "orders" with only A's handler
      registered: two `Handle` calls. */
  lemma TwoOfThreeHandled(h: Handler, a: Message, b: Message)
    requires h.queueName == "orders" && h.messageName == "A"
    requires a.metadata.messageName == "A" && b.metadata.messageName == "B"
    ensures var ds := [Delivery(Some(EncodeMessage(a))), Delivery(Some(EncodeMessage(b))), Delivery(Some(EncodeMessage(a)))];
      CountRoutable("orders", Registry([h]), ds) == 2
  {
    DecodeEncode(a);
    DecodeEncode(b);
    var one := [h];
    assert one[..0] == [];
    assert Registry(one) == map[Key("orders", "A") := h];
    assert Key("orders", "B") != Key("orders", "A") by {
      assert Key("orders", "B")[7] == 'B';
    }
    var ds := [Delivery(Some(EncodeMessage(a))), Delivery(Some(EncodeMessage(b))), Delivery(Some(EncodeMessage(a)))];
    var handlers := Registry(one);
    assert Routable("orders", handlers, ds[0]) && Routable("orders", handlers, ds[2]);
    assert !Routable("orders", handlers, ds[1]);
    assert ds[1..][1..] == [ds[2]];
    assert ds[1..][1..][1..] == [];
    assert CountRoutable("orders", handlers, [ds[2]]) == 1;
    assert CountRoutable("orders", handlers, ds[1..]) == 1;
  }
}
