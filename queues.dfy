/** Declaring the configured queues on their channels
    (messaging/rabbitmq/queues.go, with `NewQueue` from queue.go). */
module Queues {
  import opened Wrappers
  import opened Values
  import opened Broker
  import opened Topology

  const Section: string := "datasources.rabbitmq.queues"

  /** The entry names its channel with a string. */
  predicate NamesChannel(v: Value)
  {
    HasString(v, "channel")
  }

  /** The entry's channel exists: the queue is declared. */
  predicate Declared(channels: map<string, Channel>, v: Value)
  {
    NamesChannel(v) && StringField(v, "channel") in channels
  }

  /** The four flags the queue configuration takes from the entry are
      booleans. */
  predicate HasFlags(v: Value)
  {
    HasBool(v, "durable") && HasBool(v, "auto-delete") && HasBool(v, "exclusive") && HasBool(v, "no-wait")
  }

  function ConfigFor(channels: map<string, Channel>, name: string, v: Value): QueueConfig
    requires Declared(channels, v) && HasFlags(v)
  {
    QueueConfig(name, channels[StringField(v, "channel")],
      BoolField(v, "durable"), BoolField(v, "auto-delete"), BoolField(v, "exclusive"), BoolField(v, "no-wait"))
  }

  /** `QueueDeclare` as `NewQueue` issues it. */
  function DeclareFor(c: QueueConfig): Call
  {
    DeclareQueue(Configured(c.channel.name), c.name, c.durable, c.autoDelete, c.exclusive, c.noWait)
  }

  /** The entry makes the loop panic: its channel name is not a string;
      or its channel exists and a flag is not a boolean, the channel is not
      open, or the broker refuses the declare. */
  predicate Panics(channels: map<string, Channel>, b: Broker, name: string, v: Value)
  {
    || !NamesChannel(v)
    || (Declared(channels, v)
        && (!HasFlags(v)
            || !channels[StringField(v, "channel")].open
            || !Accepts(b, DeclareFor(ConfigFor(channels, name, v)))))
  }

  /** The queue stored for an entry that declares. */
  function QueueFor(channels: map<string, Channel>, name: string, v: Value): Queue
    requires Declared(channels, v) && HasFlags(v)
  {
    var c := ConfigFor(channels, name, v);
    Queue(name, c.channel, c)
  }

  /** `NewQueue` together with its call site in `RabbitMQQueues`: one
      iteration's declare of a queue whose channel exists. Go's `NewQueue`
      returns the refusal as an error and the loop panics with it; the model
      returns that panic directly, so it never yields `Err`. */
  method NewQueue(b: Broker, c: QueueConfig) returns (r: Outcome<Queue>, declare: Option<Call>)
    ensures !r.Err?
    ensures !c.channel.open ==> r == Panic(NilChannel) && declare == None
    ensures c.channel.open ==> declare == Some(DeclareFor(c))
    ensures r.Ok? <==> c.channel.open && Accepts(b, DeclareFor(c))
    ensures r.Ok? ==> r.value == Queue(c.name, c.channel, c)
  {
    if !c.channel.open {
      return Panic(NilChannel), None;
    }
    var call := DeclareFor(c);
    if call in b.refused {
      return Panic(b.refused[call]), Some(call);
    }
    return Ok(Queue(c.name, c.channel, c)), Some(call);
  }

  /** Every call is a queue declare on a configured channel. */
  predicate QueueDeclares(ds: seq<Call>)
  {
    forall i | 0 <= i < |ds| :: ds[i].DeclareQueue? && ds[i].channel.Configured?
  }

  lemma QueueDeclaresSnoc(ds: seq<Call>, d: Call)
    requires QueueDeclares(ds) && d.DeclareQueue? && d.channel.Configured?
    ensures QueueDeclares(ds + [d])
  {
    forall i | 0 <= i < |ds + [d]| ensures (ds + [d])[i].DeclareQueue? && (ds + [d])[i].channel.Configured? {
      if i < |ds| {
        assert (ds + [d])[i] == ds[i];
      }
    }
  }

  /** `RabbitMQQueues`: with no channels, nothing; otherwise each entry
      whose channel exists is declared and stored under its key, the other
      entries are skipped, and any failure panics. */
  method RabbitMQQueues(conf: Config, channels: map<string, Channel>, b: Broker) returns (r: Outcome<map<string, Queue>>, declares: seq<Call>)
    ensures channels == map[] ==> r == Ok(map[]) && declares == []
    ensures !r.Err?
    ensures var section := GetStringMap(conf, Section);
      r.Ok? <==> channels == map[] || forall k | k in section :: !Panics(channels, b, k, section[k])
    ensures var section := GetStringMap(conf, Section);
      channels != map[] && r.Ok? ==> forall k | k in section && Declared(channels, section[k]) :: k in r.value
    ensures var section := GetStringMap(conf, Section);
      r.Ok? ==> forall k | k in r.value ::
        k in section && Declared(channels, section[k]) && HasFlags(section[k]) && r.value[k] == QueueFor(channels, k, section[k])
    ensures r.Ok? ==> |declares| == |r.value.Keys|
    ensures QueueDeclares(declares)
  {
    if channels == map[] {
      return Ok(map[]), [];
    }
    var section := GetStringMap(conf, Section);
    var remaining := section.Keys;
    var queues: map<string, Queue> := map[];
    declares := [];
    while remaining != {}
      invariant remaining <= section.Keys
      invariant forall k | k in section && k !in remaining :: !Panics(channels, b, k, section[k])
      invariant forall k | k in section && k !in remaining && Declared(channels, section[k]) :: k in queues
      invariant forall k | k in queues ::
        k in section && k !in remaining && Declared(channels, section[k]) && HasFlags(section[k]) && queues[k] == QueueFor(channels, k, section[k])
      invariant |declares| == |queues.Keys|
      invariant QueueDeclares(declares)
      decreases remaining
    {
      var k :| k in remaining;
      var v := section[k];
      if !NamesChannel(v) {
        assert Panics(channels, b, k, section[k]);
        return Panic(InterfaceConversion), declares;
      }
      var channelName := StringField(v, "channel");
      if channelName in channels {
        if !HasFlags(v) {
          assert Panics(channels, b, k, section[k]);
          return Panic(InterfaceConversion), declares;
        }
        var config := ConfigFor(channels, k, v);
        var queue, declare := NewQueue(b, config);
        if declare.Some? {
          QueueDeclaresSnoc(declares, declare.value);
          declares := declares + [declare.value];
        }
        if !queue.Ok? {
          assert Panics(channels, b, k, section[k]);
          return Panic(queue.reason), declares;
        }
        assert k !in queues;
        queues := queues[k := queue.value];
      }
      remaining := remaining - {k};
    }
    return Ok(queues), declares;
  }
}
