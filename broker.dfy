/** The broker as the library sees it through the AMQP client: the calls it
    issues, and a broker that answers each call. The client library itself
    is not modelled; a broker is given by the calls it refuses and the
    error message each refusal carries. */
module Broker {
  import opened Values
  import opened ConnectionConfigs

  /** The channel a call goes through: a channel of the configured topology,
      by its name, or the short-lived channel the producer opens on a
      connection, by the connection's key. */
  datatype ChannelRef = Configured(name: string) | Fresh(connection: string)

  datatype Call =
    | Dial(url: string)
    | OpenChannel(connection: string)
    | DeclareQueue(channel: ChannelRef, name: string, durable: bool, autoDelete: bool, exclusive: bool, noWait: bool)
    | DeclareExchange(channel: ChannelRef, name: string, kind: string, durable: bool, autoDelete: bool, internal: bool, noWait: bool)
    | Bind(channel: ChannelRef, queue: string, routingKey: string, exchange: string, noWait: bool)
    | Consume(channel: ChannelRef, queue: string, consumerTag: string, autoAck: bool, exclusive: bool, noLocal: bool, noWait: bool)
    | Publish(channel: ChannelRef, exchange: string, routingKey: string, mandatory: bool, immediate: bool, contentType: string, body: Value)
    | CloseChannel(channel: ChannelRef)

  /** A broker: every call succeeds except the refused ones, which fail
      with the given error message. */
  datatype Broker = Broker(refused: map<Call, string>)

  predicate Accepts(b: Broker, c: Call)
  {
    c !in b.refused
  }

  /** The URL `Connection.connect` dials: `"amqp://%s:%s@%s:%s/"`. */
  function Url(c: ConnectionConfig): string
  {
    "amqp://" + c.user + ":" + c.pass + "@" + c.host + ":" + c.port + "/"
  }

  /** The panic of a method call on a nil AMQP channel. */
  const NilChannel: string := "nil pointer dereference"
}

/** The broker objects the library builds from configuration
    (messaging/rabbitmq/connection.go, channel.go, queue.go, exchange.go and
    their config records). */
module Topology {
  import opened Wrappers
  import opened ConnectionConfigs

  /** A dialled connection, known by the key it is configured under. */
  datatype Connection = Connection(key: string, config: ConnectionConfig)

  /** A `Channel` on a connection; `open` is false when `connect` could not
      open the underlying AMQP channel, which is then nil. */
  datatype Channel = Channel(name: string, connection: Connection, open: bool)

  datatype QueueConfig = QueueConfig(name: string, channel: Channel, durable: bool, autoDelete: bool, exclusive: bool, noWait: bool)

  /** A declared queue: the name the broker declared it under, its channel
      and its configuration. */
  datatype Queue = Queue(declaredName: string, channel: Channel, config: QueueConfig)

  datatype ExchangeConfig = ExchangeConfig(name: string, kind: string, channel: Channel, durable: bool, autoDelete: bool, internal: bool, noWait: bool)

  datatype Exchange = Exchange(channel: Channel, config: ExchangeConfig)

  /** The entry under "default", found by walking the map's keys in
      whatever order the map yields them and stopping at that name. */
  method PickDefault<T>(m: map<string, T>) returns (r: Option<T>)
    ensures r == if "default" in m then Some(m["default"]) else None
  {
    r := None;
    if |m| > 0 {
      var remaining := m.Keys;
      while remaining != {}
        invariant remaining <= m.Keys
        invariant "default" in m ==> "default" in remaining
        invariant r == None
        decreases remaining
      {
        var name :| name in remaining;
        if name == "default" {
          r := Some(m[name]);
          break;
        }
        remaining := remaining - {name};
      }
    }
  }
}
