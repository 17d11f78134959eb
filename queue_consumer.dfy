/** A consumer of one configured queue (messaging/rabbitmq/consumer.go):
    starting it registers a consumer on the queue's channel; each delivery
    is then handled as `Deliveries.Deliver` says. */
module QueueConsumers {
  import opened Wrappers
  import opened Broker
  import opened Topology
  import opened ConsumerConfigs
  import opened HandlerRegistry
  import opened Deliveries

  /** A `QueueConsumer`. Its channel and queue may be nil. */
  datatype QueueConsumer = QueueConsumer(
    config: ConsumerConfig,
    channel: Option<Channel>,
    queue: Option<Queue>,
    handlers: map<string, Handler>)

  const ChannelNotSet: string := "channel is not set, check your configuration"
  const QueueNotSet: string := "queue is not set, check your configuration"

  /** The error `Start` returns for a refused `Consume`. */
  function ConsumeFailed(cause: string): string
  {
    "error starting RabbitMQ consumer (" + cause + ")"
  }

  /** The `Consume` call `Start` issues: on the queue's server-side name,
      with the tag and flags of the consumer's configuration. */
  function ConsumeFor(c: QueueConsumer): Call
    requires c.channel.Some? && c.queue.Some?
  {
    Consume(Configured(c.channel.value.name), c.queue.value.declaredName,
      c.config.consumerTag, c.config.autoAck, c.config.exclusive, c.config.noLocal, c.config.noWait)
  }

  /** `Start`: a missing channel, then a missing queue, is an error before
      anything is consumed; a channel whose AMQP channel is nil panics; a
      refused `Consume` is returned wrapped; otherwise the consumer runs. */
  method Start(c: QueueConsumer, b: Broker) returns (r: Outcome<()>, consume: Option<Call>)
    ensures c.channel.None? ==> r == Err(ChannelNotSet) && consume == None
    ensures c.channel.Some? && c.queue.None? ==> r == Err(QueueNotSet) && consume == None
    ensures c.channel.Some? && c.queue.Some? && !c.channel.value.open ==> r == Panic(NilChannel) && consume == None
    ensures c.channel.Some? && c.queue.Some? && c.channel.value.open ==>
      && consume == Some(ConsumeFor(c))
      && consume.value.consumerTag == c.config.consumerTag
      && consume.value.autoAck == c.config.autoAck
      && (r.Ok? <==> Accepts(b, consume.value))
      && (!r.Ok? ==> r == Err(ConsumeFailed(b.refused[consume.value])))
  {
    if c.channel.None? {
      return Err(ChannelNotSet), None;
    }
    if c.queue.None? {
      return Err(QueueNotSet), None;
    }
    if !c.channel.value.open {
      return Panic(NilChannel), None;
    }
    var call := Consume(Configured(c.channel.value.name), c.queue.value.declaredName,
      c.config.consumerTag, c.config.autoAck, c.config.exclusive, c.config.noLocal, c.config.noWait);
    if call in b.refused {
      return Err(ConsumeFailed(b.refused[call])), Some(call);
    }
    return Ok(()), Some(call);
  }

  /** Handling one delivery of a started consumer: by the name its queue is
      configured under, against the consumer's handler map. */
  function HandleDelivery(c: QueueConsumer, d: Delivery): (r: DeliveryOutcome)
    requires c.queue.Some?
    ensures r.Invoked? <==> Routable(c.queue.value.config.name, c.handlers, d)
    ensures r.Invoked? ==> r.invocation.handler == c.handlers[Key(c.queue.value.config.name, Decode(d).value.metadata.messageName)]
  {
    Deliver(c.queue.value.config.name, c.handlers, d)
  }

  /** `Stop` does nothing and returns no error. */
  method Stop(c: QueueConsumer) returns (err: Option<string>)
    ensures err.None?
  {
    return None;
  }
}
