/** Building the configured consumers (messaging/rabbitmq/consumers.go). */
module ConsumerList {
  import opened Wrappers
  import opened Values
  import opened Topology
  import opened ConsumerConfigs
  import opened HandlerRegistry
  import opened QueueConsumers

  const Section: string := "rabbitmq.consumers"

  /** A configuration whose channel and queue both exist. */
  predicate Survives(channels: map<string, Channel>, queues: map<string, Queue>, c: ConsumerConfig)
  {
    c.channel in channels && c.queue in queues
  }

  function ConsumerFor(channels: map<string, Channel>, queues: map<string, Queue>, handlers: map<string, Handler>, c: ConsumerConfig): QueueConsumer
    requires Survives(channels, queues, c)
  {
    QueueConsumer(c, Some(channels[c.channel]), Some(queues[c.queue]), handlers)
  }

  /** The consumers built from the entries, in list order; the first entry
      whose settings panic ends the build with that panic. */
  function Built(channels: map<string, Channel>, queues: map<string, Queue>, handlers: map<string, Handler>, entries: seq<Value>): Outcome<seq<QueueConsumer>>
  {
    if |entries| == 0 then Ok([])
    else
      var init := Built(channels, queues, handlers, entries[..|entries| - 1]);
      if !init.Ok? then init
      else match NewConsumerConfig(entries[|entries| - 1])
        case Panic(reason) => Panic(reason)
        case Err(_) => init
        case Ok(c) =>
          if Survives(channels, queues, c) then Ok(init.value + [ConsumerFor(channels, queues, handlers, c)])
          else init
  }

  /** `Consumers`: one consumer per entry whose channel and whose queue
      exist, in list order, sharing the handler map; the others are
      skipped. It never returns an error; a malformed entry panics. */
  method Consumers(conf: Config, channels: map<string, Channel>, queues: map<string, Queue>, handlers: map<string, Handler>)
    returns (r: Outcome<seq<QueueConsumer>>)
    ensures r == Built(channels, queues, handlers, GetSlice(conf, Section))
    ensures !r.Err?
  {
    var entries := GetSlice(conf, Section);
    var runnables: seq<QueueConsumer> := [];
    var i := 0;
    while i < |entries|
      invariant 0 <= i <= |entries|
      invariant Built(channels, queues, handlers, entries[..i]) == Ok(runnables)
    {
      assert entries[..i + 1][..i] == entries[..i];
      var cfg := NewConsumerConfig(entries[i]);
      if cfg.Panic? {
        PanicPersists(channels, queues, handlers, entries, i + 1);
        return Panic(cfg.reason);
      }
      if cfg.Ok? {
        var c := cfg.value;
        if c.channel in channels {
          var channel := channels[c.channel];
          if c.queue in queues {
            var queue := queues[c.queue];
            runnables := runnables + [QueueConsumer(c, Some(channel), Some(queue), handlers)];
          }
        }
      }
      i := i + 1;
    }
    assert entries[..i] == entries;
    return Ok(runnables);
  }

  /** A panic of a prefix is the panic of the whole list. */
  lemma {:induction false} PanicPersists(channels: map<string, Channel>, queues: map<string, Queue>, handlers: map<string, Handler>, entries: seq<Value>, n: nat)
    requires n <= |entries|
    requires Built(channels, queues, handlers, entries[..n]).Panic?
    ensures Built(channels, queues, handlers, entries) == Built(channels, queues, handlers, entries[..n])
    decreases |entries| - n
  {
    if n < |entries| {
      assert entries[..n + 1][..n] == entries[..n];
      PanicPersists(channels, queues, handlers, entries, n + 1);
    } else {
      assert entries[..n] == entries;
    }
  }

  /** The configurations of the entries that survive, from the front; a
      reference definition for the consumers built. */
  function Survivors(channels: map<string, Channel>, queues: map<string, Queue>, entries: seq<Value>): seq<ConsumerConfig>
  {
    if |entries| == 0 then []
    else
      var c := NewConsumerConfig(entries[0]);
      (if c.Ok? && Survives(channels, queues, c.value) then [c.value] else [])
        + Survivors(channels, queues, entries[1..])
  }

  lemma {:induction false} SurvivorsAppend(channels: map<string, Channel>, queues: map<string, Queue>, entries: seq<Value>, v: Value)
    ensures var c := NewConsumerConfig(v);
      Survivors(channels, queues, entries + [v]) ==
        Survivors(channels, queues, entries) + (if c.Ok? && Survives(channels, queues, c.value) then [c.value] else [])
  {
    if |entries| > 0 {
      assert (entries + [v])[1..] == entries[1..] + [v];
      SurvivorsAppend(channels, queues, entries[1..], v);
    } else {
      assert (entries + [v])[1..] == [];
    }
  }

  /** The build succeeds exactly when no entry's settings panic; then it
      yields, in order, one consumer per surviving entry, built from that
      entry's configuration, its channel, its queue and the shared
      handlers, so there are at most as many consumers as entries. */
  lemma {:induction false} BuiltAreSurvivors(channels: map<string, Channel>, queues: map<string, Queue>, handlers: map<string, Handler>, entries: seq<Value>)
    ensures Built(channels, queues, handlers, entries).Ok? <==> forall i | 0 <= i < |entries| :: NewConsumerConfig(entries[i]).Ok?
    ensures var r := Built(channels, queues, handlers, entries);
      var s := Survivors(channels, queues, entries);
      r.Ok? ==>
        && |r.value| == |s| <= |entries|
        && forall i | 0 <= i < |s| ::
          Survives(channels, queues, s[i]) && r.value[i] == ConsumerFor(channels, queues, handlers, s[i])
  {
    if |entries| > 0 {
      var init := entries[..|entries| - 1];
      var v := entries[|entries| - 1];
      BuiltAreSurvivors(channels, queues, handlers, init);
      assert entries == init + [v];
      SurvivorsAppend(channels, queues, init, v);
      assert forall i | 0 <= i < |init| :: entries[i] == init[i];
    }
  }

  /** An entry whose channel or queue is missing adds no consumer. */
  lemma MissingDependencySkips(channels: map<string, Channel>, queues: map<string, Queue>, handlers: map<string, Handler>, entries: seq<Value>, v: Value)
    requires NewConsumerConfig(v).Ok? && !Survives(channels, queues, NewConsumerConfig(v).value)
    ensures Built(channels, queues, handlers, entries + [v]) == Built(channels, queues, handlers, entries)
  {
    assert (entries + [v])[..|entries|] == entries;
  }
}
