/** Binding the configured queues to their exchanges
    (messaging/rabbitmq/bindings.go).

    The loops are specified in two parts: `Plan` is the sequence of steps
    the configuration asks for, in list order (a bind, or a panic of a
    type assertion or of a nil channel), and `Execute` runs such a sequence
    against a broker, stopping at the first panic or the first refused
    bind. */
module Bindings {
  import opened Wrappers
  import opened Values
  import opened Broker
  import opened Topology

  const Section: string := "datasources.rabbitmq.bindings"

  datatype Step = BindStep(call: Call) | PanicStep(reason: string)

  datatype Run = Run(outcome: Outcome<()>, calls: seq<Call>)

  /** The entry's routing keys, when they are a list. */
  function RoutingKeys(v: Value): Option<seq<Value>>
  {
    var f := Field(v, "routing-keys");
    if f.Some? && f.value.VList? then Some(f.value.items) else None
  }

  /** The bind of one routing key: through the queue's channel, of the
      queue's configured name to the exchange's configured name, with the
      entry's no-wait. */
  function BindFor(q: Queue, e: Exchange, key: string, noWait: bool): Call
  {
    Bind(Configured(q.channel.name), q.config.name, key, e.config.name, noWait)
  }

  /** The step for one routing key. */
  function KeyStep(q: Queue, e: Exchange, v: Value, key: Value): Step
  {
    if !key.VStr? || !HasBool(v, "no-wait") then PanicStep(InterfaceConversion)
    else if !q.channel.open then PanicStep(NilChannel)
    else BindStep(BindFor(q, e, key.s, BoolField(v, "no-wait")))
  }

  /** The steps for a list of routing keys, in order. */
  function KeySteps(q: Queue, e: Exchange, v: Value, keys: seq<Value>): (steps: seq<Step>)
    ensures |steps| == |keys|
  {
    if |keys| == 0 then []
    else KeySteps(q, e, v, keys[..|keys| - 1]) + [KeyStep(q, e, v, keys[|keys| - 1])]
  }

  /** The steps for one binding entry: both names must be strings; a
      missing exchange, then a missing queue, skips the entry; the routing
      keys must be a list. */
  function EntrySteps(queues: map<string, Queue>, exchanges: map<string, Exchange>, v: Value): seq<Step>
  {
    if !HasString(v, "exchange") || !HasString(v, "queue") then [PanicStep(InterfaceConversion)]
    else if StringField(v, "exchange") !in exchanges then []
    else if StringField(v, "queue") !in queues then []
    else if RoutingKeys(v).None? then [PanicStep(InterfaceConversion)]
    else KeySteps(queues[StringField(v, "queue")], exchanges[StringField(v, "exchange")], v, RoutingKeys(v).value)
  }

  /** The steps of each entry, entry by entry. */
  function EntryPlans(queues: map<string, Queue>, exchanges: map<string, Exchange>, entries: seq<Value>): (parts: seq<seq<Step>>)
    ensures |parts| == |entries|
    ensures forall i | 0 <= i < |entries| :: parts[i] == EntrySteps(queues, exchanges, entries[i])
  {
    seq(|entries|, i requires 0 <= i < |entries| => EntrySteps(queues, exchanges, entries[i]))
  }

  /** The parts one after the other. */
  function Concat(parts: seq<seq<Step>>): seq<Step>
  {
    if |parts| == 0 then []
    else Concat(parts[..|parts| - 1]) + parts[|parts| - 1]
  }

  /** The steps for the entries, in list order. */
  function Plan(queues: map<string, Queue>, exchanges: map<string, Exchange>, entries: seq<Value>): seq<Step>
  {
    Concat(EntryPlans(queues, exchanges, entries))
  }

  /** Running steps against a broker: binds are issued in order until one is
      refused, which ends the run with its error, or a panic step is
      reached. */
  function Execute(steps: seq<Step>, b: Broker): Run
  {
    if |steps| == 0 then Run(Ok(()), [])
    else match steps[0]
      case PanicStep(reason) => Run(Panic(reason), [])
      case BindStep(c) =>
        if c in b.refused then Run(Err(b.refused[c]), [c])
        else
          var rest := Execute(steps[1..], b);
          Run(rest.outcome, [c] + rest.calls)
  }

  /** The calls of the bind steps, in order. */
  function BindsOf(steps: seq<Step>): seq<Call>
  {
    if |steps| == 0 then []
    else (if steps[0].BindStep? then [steps[0].call] else []) + BindsOf(steps[1..])
  }

  // Splitting plans and runs

  lemma {:induction false} ExecuteAppend(p: seq<Step>, s: seq<Step>, b: Broker)
    ensures Execute(p + s, b) ==
      if Execute(p, b).outcome.Ok? then Run(Execute(s, b).outcome, Execute(p, b).calls + Execute(s, b).calls)
      else Execute(p, b)
  {
    if |p| > 0 {
      assert (p + s)[0] == p[0];
      assert (p + s)[1..] == p[1..] + s;
      ExecuteAppend(p[1..], s, b);
    } else {
      assert p + s == s;
    }
  }

  lemma {:induction false} KeyStepsAppend(q: Queue, e: Exchange, v: Value, a: seq<Value>, c: seq<Value>)
    ensures KeySteps(q, e, v, a + c) == KeySteps(q, e, v, a) + KeySteps(q, e, v, c)
    decreases |c|
  {
    if |c| == 0 {
      assert a + c == a;
    } else {
      var c0 := c[..|c| - 1];
      var last := c[|c| - 1];
      assert (a + c)[..|a + c| - 1] == a + c0;
      assert (a + c)[|a + c| - 1] == last;
      KeyStepsAppend(q, e, v, a, c0);
      assert KeySteps(q, e, v, a + c) == KeySteps(q, e, v, a + c0) + [KeyStep(q, e, v, last)];
      assert KeySteps(q, e, v, c) == KeySteps(q, e, v, c0) + [KeyStep(q, e, v, last)];
    }
  }

  lemma {:induction false} ConcatAppend(a: seq<seq<Step>>, c: seq<seq<Step>>)
    ensures Concat(a + c) == Concat(a) + Concat(c)
    decreases |c|
  {
    if |c| == 0 {
      assert a + c == a;
    } else {
      var c0 := c[..|c| - 1];
      var last := c[|c| - 1];
      assert (a + c)[..|a + c| - 1] == a + c0;
      assert (a + c)[|a + c| - 1] == last;
      ConcatAppend(a, c0);
    }
  }

  lemma PlanAppend(queues: map<string, Queue>, exchanges: map<string, Exchange>, a: seq<Value>, c: seq<Value>)
    ensures Plan(queues, exchanges, a + c) == Plan(queues, exchanges, a) + Plan(queues, exchanges, c)
  {
    var pa := EntryPlans(queues, exchanges, a);
    var pc := EntryPlans(queues, exchanges, c);
    var pac := EntryPlans(queues, exchanges, a + c);
    forall i | 0 <= i < |pac| ensures pac[i] == (pa + pc)[i] {
      if i < |a| {
        assert (a + c)[i] == a[i];
      } else {
        assert (a + c)[i] == c[i - |a|];
      }
    }
    assert pac == pa + pc;
    ConcatAppend(pa, pc);
  }

  /** The plan of a single entry is its steps. */
  lemma PlanSingle(queues: map<string, Queue>, exchanges: map<string, Exchange>, v: Value)
    ensures Plan(queues, exchanges, [v]) == EntrySteps(queues, exchanges, v)
  {
    var parts := EntryPlans(queues, exchanges, [v]);
    assert [v][0] == v;
    assert parts[0] == EntrySteps(queues, exchanges, v);
    assert parts[..0] == [];
    assert Concat(parts) == Concat(parts[..0]) + parts[0];
  }

  /** Once a run stops, later steps are never reached. */
  lemma StopsEarly(p: seq<Step>, s: seq<Step>, b: Broker)
    requires !Execute(p, b).outcome.Ok?
    ensures Execute(p + s, b) == Execute(p, b)
  {
    ExecuteAppend(p, s, b);
  }

  /** The steps of a key list around its key `j`. */
  lemma KeyStepsSplit(q: Queue, e: Exchange, v: Value, keys: seq<Value>, j: nat)
    requires j < |keys|
    ensures KeySteps(q, e, v, keys[..j + 1]) == KeySteps(q, e, v, keys[..j]) + [KeyStep(q, e, v, keys[j])]
    ensures KeySteps(q, e, v, keys) == KeySteps(q, e, v, keys[..j + 1]) + KeySteps(q, e, v, keys[j + 1..])
  {
    assert keys[..j + 1][..j] == keys[..j];
    assert keys == keys[..j + 1] + keys[j + 1..];
    KeyStepsAppend(q, e, v, keys[..j + 1], keys[j + 1..]);
  }

  /** One more key of a run that is going well: a panic step ends the run
      with no further call, a refused bind ends it with that bind as the
      last call, and an accepted bind extends the run. */
  lemma KeyRunStep(q: Queue, e: Exchange, v: Value, keys: seq<Value>, j: nat, b: Broker, calls: seq<Call>)
    requires j < |keys|
    requires Execute(KeySteps(q, e, v, keys[..j]), b) == Run(Ok(()), calls)
    ensures var st := KeyStep(q, e, v, keys[j]);
      && (st.PanicStep? ==> Execute(KeySteps(q, e, v, keys), b) == Run(Panic(st.reason), calls))
      && (st.BindStep? && st.call in b.refused ==>
            Execute(KeySteps(q, e, v, keys), b) == Run(Err(b.refused[st.call]), calls + [st.call]))
      && (st.BindStep? && st.call !in b.refused ==>
            Execute(KeySteps(q, e, v, keys[..j + 1]), b) == Run(Ok(()), calls + [st.call]))
  {
    var st := KeyStep(q, e, v, keys[j]);
    var done := KeySteps(q, e, v, keys[..j]);
    KeyStepsSplit(q, e, v, keys, j);
    ExecuteAppend(done, [st], b);
    assert [st][1..] == [];
    if !Execute(done + [st], b).outcome.Ok? {
      StopsEarly(done + [st], KeySteps(q, e, v, keys[j + 1..]), b);
    }
  }

  /** The inner loop: each routing key of an entry bound in order, through
      the queue's channel; the first panic or refused bind ends it. */
  method BindKeys(queue: Queue, exchange: Exchange, v: Value, routingKeys: seq<Value>, b: Broker)
    returns (r: Outcome<()>, calls: seq<Call>)
    ensures Run(r, calls) == Execute(KeySteps(queue, exchange, v, routingKeys), b)
  {
    calls := [];
    var j := 0;
    while j < |routingKeys|
      invariant 0 <= j <= |routingKeys|
      invariant Execute(KeySteps(queue, exchange, v, routingKeys[..j]), b) == Run(Ok(()), calls)
    {
      var key := routingKeys[j];
      KeyRunStep(queue, exchange, v, routingKeys, j, b, calls);
      if !key.VStr? || !HasBool(v, "no-wait") {
        return Panic(InterfaceConversion), calls;
      }
      if !queue.channel.open {
        return Panic(NilChannel), calls;
      }
      var bind := Bind(Configured(queue.channel.name), queue.config.name, key.s, exchange.config.name, BoolField(v, "no-wait"));
      calls := calls + [bind];
      if bind in b.refused {
        return Err(b.refused[bind]), calls;
      }
      j := j + 1;
    }
    assert routingKeys[..j] == routingKeys;
    return Ok(()), calls;
  }

  /** One binding entry: the name assertions, the skips of a missing
      exchange or queue, the routing-key list assertion, then its keys. */
  method BindEntry(queues: map<string, Queue>, exchanges: map<string, Exchange>, v: Value, b: Broker)
    returns (r: Outcome<()>, calls: seq<Call>)
    ensures Run(r, calls) == Execute(EntrySteps(queues, exchanges, v), b)
  {
    if !HasString(v, "exchange") || !HasString(v, "queue") {
      return Panic(InterfaceConversion), [];
    }
    var exchangeName := StringField(v, "exchange");
    var queueName := StringField(v, "queue");
    if exchangeName !in exchanges || queueName !in queues {
      return Ok(()), [];
    }
    var keys := RoutingKeys(v);
    if keys.None? {
      return Panic(InterfaceConversion), [];
    }
    r, calls := BindKeys(queues[queueName], exchanges[exchangeName], v, keys.value, b);
  }

  /** The plan around entry `i`. */
  lemma PlanSplit(queues: map<string, Queue>, exchanges: map<string, Exchange>, entries: seq<Value>, i: nat)
    requires i < |entries|
    ensures Plan(queues, exchanges, entries[..i + 1]) ==
      Plan(queues, exchanges, entries[..i]) + EntrySteps(queues, exchanges, entries[i])
    ensures Plan(queues, exchanges, entries) ==
      Plan(queues, exchanges, entries[..i + 1]) + Plan(queues, exchanges, entries[i + 1..])
  {
    assert entries[..i + 1] == entries[..i] + [entries[i]];
    PlanAppend(queues, exchanges, entries[..i], [entries[i]]);
    PlanSingle(queues, exchanges, entries[i]);
    assert entries == entries[..i + 1] + entries[i + 1..];
    PlanAppend(queues, exchanges, entries[..i + 1], entries[i + 1..]);
  }

  /** A run that reached an entry in good order continues with the
      entry's own run; if that one stops, the whole run stops there. */
  lemma RunThroughEntry(done: seq<Step>, here: seq<Step>, rest: seq<Step>, b: Broker,
                        calls: seq<Call>, outcome: Outcome<()>, entryCalls: seq<Call>)
    requires Execute(done, b) == Run(Ok(()), calls)
    requires Run(outcome, entryCalls) == Execute(here, b)
    ensures Execute(done + here, b) == Run(outcome, calls + entryCalls)
    ensures !outcome.Ok? ==> Execute(done + here + rest, b) == Run(outcome, calls + entryCalls)
    ensures outcome.Ok? ==> outcome == Ok(())
  {
    ExecuteAppend(done, here, b);
    if !outcome.Ok? {
      StopsEarly(done + here, rest, b);
    } else {
      var unit: () := outcome.value;
      assert unit == ();
    }
  }

  /** `RabbitMQBindings`: with no queues or no exchanges, nothing; otherwise
      the entries in list order and, within an entry, its routing keys in
      order, each bound once; the first refused bind is returned at once. */
  method RabbitMQBindings(conf: Config, queues: map<string, Queue>, exchanges: map<string, Exchange>, b: Broker)
    returns (r: Outcome<()>, calls: seq<Call>)
    ensures queues == map[] || exchanges == map[] ==> r == Ok(()) && calls == []
    ensures queues != map[] && exchanges != map[] ==>
      Run(r, calls) == Execute(Plan(queues, exchanges, GetSlice(conf, Section)), b)
  {
    if queues == map[] || exchanges == map[] {
      return Ok(()), [];
    }
    var entries := GetSlice(conf, Section);
    calls := [];
    var i := 0;
    while i < |entries|
      invariant 0 <= i <= |entries|
      invariant Execute(Plan(queues, exchanges, entries[..i]), b) == Run(Ok(()), calls)
    {
      PlanSplit(queues, exchanges, entries, i);
      var outcome, entryCalls := BindEntry(queues, exchanges, entries[i], b);
      RunThroughEntry(Plan(queues, exchanges, entries[..i]), EntrySteps(queues, exchanges, entries[i]),
        Plan(queues, exchanges, entries[i + 1..]), b, calls, outcome, entryCalls);
      calls := calls + entryCalls;
      if !outcome.Ok? {
        return outcome, calls;
      }
      i := i + 1;
    }
    assert entries[..i] == entries;
    return Ok(()), calls;
  }

  // Properties of a run

  /** A run ends well exactly when every step is a bind the broker accepts,
      and then every bind was issued, in order. */
  lemma {:induction false} ExecuteOkIff(steps: seq<Step>, b: Broker)
    ensures Execute(steps, b).outcome.Ok? <==> forall i | 0 <= i < |steps| :: steps[i].BindStep? && Accepts(b, steps[i].call)
    ensures Execute(steps, b).outcome.Ok? ==> Execute(steps, b).calls == BindsOf(steps)
  {
    if |steps| > 0 {
      ExecuteOkIff(steps[1..], b);
      assert forall i | 1 <= i < |steps| :: steps[i] == steps[1..][i - 1];
    }
  }

  /** A refused bind is returned as the error, it is the last call issued,
      and every earlier step was an accepted bind: nothing after it runs. */
  lemma {:induction false} ExecuteErrIsFirstRefusal(steps: seq<Step>, b: Broker)
    requires Execute(steps, b).outcome.Err?
    ensures exists j | 0 <= j < |steps| ::
      && steps[j].BindStep? && !Accepts(b, steps[j].call)
      && Execute(steps, b).outcome.message == b.refused[steps[j].call]
      && (forall i | 0 <= i < j :: steps[i].BindStep? && Accepts(b, steps[i].call))
      && Execute(steps, b).calls == BindsOf(steps[..j + 1])
  {
    if steps[0].BindStep? && steps[0].call in b.refused {
      assert steps[..1] == [steps[0]];
      assert BindsOf(steps[..1]) == [steps[0].call] + BindsOf(steps[..1][1..]);
    } else {
      var tail := steps[1..];
      ExecuteErrIsFirstRefusal(tail, b);
      var j :| 0 <= j < |tail|
        && tail[j].BindStep? && !Accepts(b, tail[j].call)
        && Execute(tail, b).outcome.message == b.refused[tail[j].call]
        && (forall i | 0 <= i < j :: tail[i].BindStep? && Accepts(b, tail[i].call))
        && Execute(tail, b).calls == BindsOf(tail[..j + 1]);
      assert steps[0].BindStep? && steps[0].call !in b.refused;
      assert Execute(steps, b) == Run(Execute(tail, b).outcome, [steps[0].call] + Execute(tail, b).calls);
      var pre := steps[..j + 2];
      assert pre[0] == steps[0] && pre[1..] == tail[..j + 1];
      assert BindsOf(pre) == [steps[0].call] + BindsOf(tail[..j + 1]);
      assert steps[j + 1] == tail[j];
      forall i | 0 <= i < j + 1 ensures steps[i].BindStep? && Accepts(b, steps[i].call) {
        if i > 0 {
          assert steps[i] == tail[i - 1];
        }
      }
    }
  }

  /** An entry whose names are strings, whose exchange and queue exist,
      whose routing keys are strings and whose channel is open binds each
      key once, in order, through the queue's channel. */
  lemma {:induction false} EntryBindsEachKey(queues: map<string, Queue>, exchanges: map<string, Exchange>, v: Value)
    requires HasString(v, "exchange") && HasString(v, "queue") && HasBool(v, "no-wait")
    requires StringField(v, "exchange") in exchanges && StringField(v, "queue") in queues
    requires RoutingKeys(v).Some? && forall i | 0 <= i < |RoutingKeys(v).value| :: RoutingKeys(v).value[i].VStr?
    requires queues[StringField(v, "queue")].channel.open
    ensures var q := queues[StringField(v, "queue")];
      var e := exchanges[StringField(v, "exchange")];
      var keys := RoutingKeys(v).value;
      var steps := EntrySteps(queues, exchanges, v);
      |steps| == |keys| &&
      forall i | 0 <= i < |keys| :: steps[i] == BindStep(Bind(Configured(q.channel.name), q.config.name, keys[i].s, e.config.name, BoolField(v, "no-wait")))
  {
    var q := queues[StringField(v, "queue")];
    var e := exchanges[StringField(v, "exchange")];
    var keys := RoutingKeys(v).value;
    KeyStepsEach(q, e, v, keys);
  }

  lemma {:induction false} KeyStepsEach(q: Queue, e: Exchange, v: Value, keys: seq<Value>)
    ensures forall i | 0 <= i < |keys| :: KeySteps(q, e, v, keys)[i] == KeyStep(q, e, v, keys[i])
  {
    if |keys| > 0 {
      var init := keys[..|keys| - 1];
      KeyStepsEach(q, e, v, init);
    }
  }

  /** A missing exchange or a missing queue skips the entry: it adds no
      step, whatever its routing keys. */
  lemma MissingTargetSkips(queues: map<string, Queue>, exchanges: map<string, Exchange>, v: Value)
    requires HasString(v, "exchange") && HasString(v, "queue")
    requires StringField(v, "exchange") !in exchanges || StringField(v, "queue") !in queues
    ensures EntrySteps(queues, exchanges, v) == []
  {
  }

  /** Two keys on one entry, the first refused: one bind is issued and its
      error returned; the second key is never bound. */
  lemma FirstRefusalStops(q: Queue, e: Exchange, v: Value, k1: string, k2: string, msg: string)
    requires HasBool(v, "no-wait") && q.channel.open
    ensures var first := BindFor(q, e, k1, BoolField(v, "no-wait"));
      var b := Broker(map[first := msg]);
      Execute(KeySteps(q, e, v, [VStr(k1), VStr(k2)]), b) == Run(Err(msg), [first])
  {
    var steps := KeySteps(q, e, v, [VStr(k1), VStr(k2)]);
    KeyStepsEach(q, e, v, [VStr(k1), VStr(k2)]);
    assert steps[0] == BindStep(BindFor(q, e, k1, BoolField(v, "no-wait")));
  }
}
