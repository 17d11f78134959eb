/** The older single-queue consumer (messaging/consumer/rabbitmq.go): it
    starts on the channel and queue named "default" unless told otherwise,
    and consumes with fixed settings. */
module LegacyConsumer {
  import opened Wrappers
  import opened Broker
  import opened Topology
  import opened HandlerRegistry
  import opened Deliveries
  import opened QueueConsumers

  /** A `RabbitMQQueueConsumer`. */
  class RabbitMQQueueConsumer {
    var channel: Option<Channel>
    var queue: Option<Queue>
    const channels: map<string, Channel>
    const queues: map<string, Queue>
    const handlers: map<string, Handler>

    /** `NewRabbitMQConsumer`: the channel and the queue are the ones
        named "default", or nil. */
    constructor (channels: map<string, Channel>, queues: map<string, Queue>, handlers: map<string, Handler>)
      ensures this.channels == channels && this.queues == queues && this.handlers == handlers
      ensures channel == if "default" in channels then Some(channels["default"]) else None
      ensures queue == if "default" in queues then Some(queues["default"]) else None
    {
      this.channels := channels;
      this.queues := queues;
      this.handlers := handlers;
      var c := PickDefault(channels);
      var q := PickDefault(queues);
      channel := c;
      queue := q;
    }

    /** The `Consume` call of `Start`: an empty tag, auto-ack on, and
        exclusive, no-local and no-wait off. */
    function ConsumeCall(): Call
      reads this
      requires channel.Some? && queue.Some?
    {
      Consume(Configured(channel.value.name), queue.value.declaredName, "", true, false, false, false)
    }

    /** `Start`: the nil-channel error, then the nil-queue error; a nil AMQP
        channel panics; a refused `Consume` is returned wrapped. */
    method Start(b: Broker) returns (r: Outcome<()>, consume: Option<Call>)
      ensures channel.None? ==> r == Err(ChannelNotSet) && consume == None
      ensures channel.Some? && queue.None? ==> r == Err(QueueNotSet) && consume == None
      ensures channel.Some? && queue.Some? && !channel.value.open ==> r == Panic(NilChannel) && consume == None
      ensures channel.Some? && queue.Some? && channel.value.open ==>
        && consume == Some(ConsumeCall())
        && consume.value.consumerTag == "" && consume.value.autoAck
        && !consume.value.exclusive && !consume.value.noLocal && !consume.value.noWait
        && (r.Ok? <==> Accepts(b, consume.value))
        && (!r.Ok? ==> r == Err(ConsumeFailed(b.refused[consume.value])))
    {
      if channel.None? {
        return Err(ChannelNotSet), None;
      }
      if queue.None? {
        return Err(QueueNotSet), None;
      }
      if !channel.value.open {
        return Panic(NilChannel), None;
      }
      var call := Consume(Configured(channel.value.name), queue.value.declaredName, "", true, false, false, false);
      if call in b.refused {
        return Err(ConsumeFailed(b.refused[call])), Some(call);
      }
      return Ok(()), Some(call);
    }

    /** One delivery of a started consumer, routed as the newer consumer
        routes it. */
    function HandleDelivery(d: Delivery): (r: DeliveryOutcome)
      reads this
      requires queue.Some?
      ensures r.Invoked? <==> Routable(queue.value.config.name, handlers, d)
      ensures Decode(d).None? ==> r == DroppedUndecodable
    {
      Deliver(queue.value.config.name, handlers, d)
    }

    /** `Stop` returns no error and changes nothing. */
    method Stop() returns (err: Option<string>)
      ensures err.None?
    {
      return None;
    }

    /** `SetChannel`: the named channel, or nil when there is none. */
    method SetChannel(name: string)
      modifies this`channel
      ensures channel == if name in channels then Some(channels[name]) else None
      ensures queue == old(queue)
    {
      if name in channels {
        channel := Some(channels[name]);
      } else {
        channel := None;
      }
    }

    /** `SetQueue`: the named queue, or nil when there is none. */
    method SetQueue(name: string)
      modifies this`queue
      ensures queue == if name in queues then Some(queues[name]) else None
      ensures channel == old(channel)
    {
      if name in queues {
        queue := Some(queues[name]);
      } else {
        queue := None;
      }
    }
  }

  /** Pointing the consumer at a missing channel makes `Start` fail with
      the nil-channel error before anything is consumed. */
  method SetMissingChannelThenStart(c: RabbitMQQueueConsumer, name: string, b: Broker) returns (r: Outcome<()>, consume: Option<Call>)
    requires name !in c.channels
    modifies c
    ensures r == Err(ChannelNotSet) && consume == None
  {
    c.SetChannel(name);
    r, consume := c.Start(b);
  }
}
