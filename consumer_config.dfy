/** The settings of one configured consumer
    (messaging/rabbitmq/consumer_config.go, keys in properties.go). */
module ConsumerConfigs {
  import opened Wrappers
  import opened Values

  datatype ConsumerConfig = ConsumerConfig(
    consumerTag: string,
    channel: string,
    queue: string,
    autoAck: bool,
    exclusive: bool,
    noLocal: bool,
    noWait: bool,
    requeue: bool,
    prefetchCount: int)

  /** The entry's value under `key`, or `default` when the key is absent. */
  function Lookup(entry: map<string, Value>, key: string, default: Value): Value
  {
    if key in entry then entry[key] else default
  }

  /** `NewConsumerConfig`: the entry must be an object; "queue" and then
      "channel" must be present; "consumer-tag" defaults to "", "auto-ack" to
      true and "exclusive", "no-local", "no-wait" to false; every value must
      have its field's type. Each violation is a panic: the function never
      returns an error. */
  function NewConsumerConfig(v: Value): (r: Outcome<ConsumerConfig>)
    ensures !r.Err?
    ensures r.Ok? ==> !r.value.requeue && r.value.prefetchCount == 0
  {
    if !v.VMap? then Panic(InterfaceConversion)
    else
      var entry := v.entries;
      var tag := Lookup(entry, "consumer-tag", VStr(""));
      if "queue" !in entry then Panic("queue name is required")
      else if "channel" !in entry then Panic("channel name is required")
      else
        var autoAck := Lookup(entry, "auto-ack", VBool(true));
        var exclusive := Lookup(entry, "exclusive", VBool(false));
        var noLocal := Lookup(entry, "no-local", VBool(false));
        var noWait := Lookup(entry, "no-wait", VBool(false));
        if !tag.VStr? || !entry["channel"].VStr? || !entry["queue"].VStr?
           || !autoAck.VBool? || !exclusive.VBool? || !noLocal.VBool? || !noWait.VBool?
        then Panic(InterfaceConversion)
        else Ok(ConsumerConfig(tag.s, entry["channel"].s, entry["queue"].s,
                               autoAck.b, exclusive.b, noLocal.b, noWait.b, false, 0))
  }

  /** An entry that is well-formed: an object with string "queue" and
      "channel", and the optional keys of their types when present. */
  predicate WellFormed(v: Value)
  {
    && v.VMap?
    && HasString(v, "queue") && HasString(v, "channel")
    && (Field(v, "consumer-tag").Some? ==> HasString(v, "consumer-tag"))
    && (Field(v, "auto-ack").Some? ==> HasBool(v, "auto-ack"))
    && (Field(v, "exclusive").Some? ==> HasBool(v, "exclusive"))
    && (Field(v, "no-local").Some? ==> HasBool(v, "no-local"))
    && (Field(v, "no-wait").Some? ==> HasBool(v, "no-wait"))
  }

  /** The reader succeeds exactly on well-formed entries. */
  lemma BuiltIffWellFormed(v: Value)
    ensures NewConsumerConfig(v).Ok? <==> WellFormed(v)
  {
  }

  /** A well-formed entry's values are copied, and an absent optional key
      takes its default. */
  lemma CopiesAndDefaults(v: Value)
    requires WellFormed(v)
    ensures var c := NewConsumerConfig(v).value;
      && c.queue == StringField(v, "queue") && c.channel == StringField(v, "channel")
      && c.consumerTag == (if HasString(v, "consumer-tag") then StringField(v, "consumer-tag") else "")
      && c.autoAck == (if HasBool(v, "auto-ack") then BoolField(v, "auto-ack") else true)
      && c.exclusive == (HasBool(v, "exclusive") && BoolField(v, "exclusive"))
      && c.noLocal == (HasBool(v, "no-local") && BoolField(v, "no-local"))
      && c.noWait == (HasBool(v, "no-wait") && BoolField(v, "no-wait"))
  {
  }

  /** A missing queue panics first, then a missing channel. */
  lemma RequiredKeys(entry: map<string, Value>)
    ensures "queue" !in entry ==> NewConsumerConfig(VMap(entry)) == Panic("queue name is required")
    ensures "queue" in entry && "channel" !in entry ==> NewConsumerConfig(VMap(entry)) == Panic("channel name is required")
  {
  }

  /** The smallest entry: only queue and channel, with every default. */
  lemma MinimalEntry(queue: string, channel: string)
    ensures NewConsumerConfig(VMap(map["queue" := VStr(queue), "channel" := VStr(channel)]))
      == Ok(ConsumerConfig("", channel, queue, true, false, false, false, false, 0))
  {
    var e := map["queue" := VStr(queue), "channel" := VStr(channel)];
    assert "consumer-tag" !in e && "auto-ack" !in e && "exclusive" !in e;
    assert "no-local" !in e && "no-wait" !in e;
  }
}
