/** The older producer (messaging/producer/rabbitmq.go): it publishes on one
    configured channel, "default" unless told otherwise, and sends the
    payload as it is, without an envelope. */
module LegacyProducer {
  import opened Wrappers
  import opened Values
  import opened Broker
  import opened Topology
  import opened Producers

  /** A `RabbitMQProducer`. */
  class RabbitMQProducer {
    var channel: Option<Channel>
    const channels: map<string, Channel>

    /** `NewRabbitMQProducer`: the channel named "default", or nil. */
    constructor (channels: map<string, Channel>)
      ensures this.channels == channels
      ensures channel == if "default" in channels then Some(channels["default"]) else None
    {
      this.channels := channels;
      var c := PickDefault(channels);
      channel := c;
    }

    /** `Publish`: a message JSON cannot encode is an error and nothing is
        published; a nil channel, or one whose AMQP channel is nil, panics;
        otherwise the message itself is published to the exchange named
        after the service with the message name as routing key, and the
        publish error is returned. */
    method Publish(serviceName: string, messageName: string, message: Value, b: Broker) returns (r: Outcome<()>, calls: seq<Call>)
      ensures !Marshalable(message) ==> r == Err(MarshalError) && calls == []
      ensures Marshalable(message) && (channel.None? || !channel.value.open) ==> r == Panic(NilChannel) && calls == []
      ensures Marshalable(message) && channel.Some? && channel.value.open ==>
        && calls == [PublishFor(Configured(channel.value.name), serviceName, messageName, message)]
        && (r.Ok? <==> Accepts(b, calls[0]))
        && (!r.Ok? ==> r == Err(b.refused[calls[0]]))
    {
      if !Marshalable(message) {
        return Err(MarshalError), [];
      }
      if channel.None? || !channel.value.open {
        return Panic(NilChannel), [];
      }
      var publish := Call.Publish(Configured(channel.value.name), serviceName, messageName, false, false, "application/json", message);
      if publish in b.refused {
        return Err(b.refused[publish]), [publish];
      }
      return Ok(()), [publish];
    }

    /** `SetChannel`: the named channel, or nil when there is none. */
    method SetChannel(name: string)
      modifies this`channel
      ensures channel == if name in channels then Some(channels[name]) else None
    {
      if name in channels {
        channel := Some(channels[name]);
      } else {
        channel := None;
      }
    }
  }
}
