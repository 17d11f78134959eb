/** Declaring the configured exchanges on their channels
    (messaging/rabbitmq/exchanges.go, with `NewExchange` from exchange.go). */
module Exchanges {
  import opened Wrappers
  import opened Values
  import opened Broker
  import opened Topology

  const Section: string := "datasources.rabbitmq.exchanges"

  /** The entry names its channel with a string. */
  predicate NamesChannel(v: Value)
  {
    HasString(v, "channel")
  }

  /** The entry's channel exists: the exchange is declared. */
  predicate Declared(channels: map<string, Channel>, v: Value)
  {
    NamesChannel(v) && StringField(v, "channel") in channels
  }

  /** The kind is a string and the four flags the exchange configuration
      takes from the entry are booleans. */
  predicate HasFlags(v: Value)
  {
    HasString(v, "type")
    && HasBool(v, "durable") && HasBool(v, "auto-delete") && HasBool(v, "exclusive") && HasBool(v, "no-wait")
  }

  /** The exchange configuration: `Type` from "type" and `Internal` from
      "exclusive". */
  function ConfigFor(channels: map<string, Channel>, name: string, v: Value): ExchangeConfig
    requires Declared(channels, v) && HasFlags(v)
  {
    ExchangeConfig(name, StringField(v, "type"), channels[StringField(v, "channel")],
      BoolField(v, "durable"), BoolField(v, "auto-delete"), BoolField(v, "exclusive"), BoolField(v, "no-wait"))
  }

  /** `ExchangeDeclare` as `NewExchange` issues it. */
  function DeclareFor(c: ExchangeConfig): Call
  {
    DeclareExchange(Configured(c.channel.name), c.name, c.kind, c.durable, c.autoDelete, c.internal, c.noWait)
  }

  /** The entry makes the loop panic: its channel name is not a string;
      or its channel exists and a flag is not a boolean, the channel is not
      open, or the broker refuses the declare. */
  predicate Panics(channels: map<string, Channel>, b: Broker, name: string, v: Value)
  {
    || !NamesChannel(v)
    || (Declared(channels, v)
        && (!HasFlags(v)
            || !channels[StringField(v, "channel")].open
            || !Accepts(b, DeclareFor(ConfigFor(channels, name, v)))))
  }

  /** The exchange stored for an entry that declares. */
  function ExchangeFor(channels: map<string, Channel>, name: string, v: Value): Exchange
    requires Declared(channels, v) && HasFlags(v)
  {
    var c := ConfigFor(channels, name, v);
    Exchange(c.channel, c)
  }

  /** `NewExchange` together with its call site in `RabbitMQExchanges`: one
      iteration's declare of an exchange whose channel exists. Go's
      `NewExchange` returns the refusal as an error and the loop panics with
      it; the model returns that panic directly, so it never yields `Err`. */
  method NewExchange(b: Broker, c: ExchangeConfig) returns (r: Outcome<Exchange>, declare: Option<Call>)
    ensures !r.Err?
    ensures !c.channel.open ==> r == Panic(NilChannel) && declare == None
    ensures c.channel.open ==> declare == Some(DeclareFor(c))
    ensures r.Ok? <==> c.channel.open && Accepts(b, DeclareFor(c))
    ensures r.Ok? ==> r.value == Exchange(c.channel, c)
  {
    if !c.channel.open {
      return Panic(NilChannel), None;
    }
    var call := DeclareFor(c);
    if call in b.refused {
      return Panic(b.refused[call]), Some(call);
    }
    return Ok(Exchange(c.channel, c)), Some(call);
  }

  /** Every call is a exchange declare on a configured channel. */
  predicate ExchangeDeclares(ds: seq<Call>)
  {
    forall i | 0 <= i < |ds| :: ds[i].DeclareExchange? && ds[i].channel.Configured?
  }

  lemma ExchangeDeclaresSnoc(ds: seq<Call>, d: Call)
    requires ExchangeDeclares(ds) && d.DeclareExchange? && d.channel.Configured?
    ensures ExchangeDeclares(ds + [d])
  {
    forall i | 0 <= i < |ds + [d]| ensures (ds + [d])[i].DeclareExchange? && (ds + [d])[i].channel.Configured? {
      if i < |ds| {
        assert (ds + [d])[i] == ds[i];
      }
    }
  }

  /** `RabbitMQExchanges`: with no channels, nothing; otherwise each entry
      whose channel exists is declared and stored under its key, the other
      entries are skipped, and any failure panics. */
  method RabbitMQExchanges(conf: Config, channels: map<string, Channel>, b: Broker) returns (r: Outcome<map<string, Exchange>>, declares: seq<Call>)
    ensures channels == map[] ==> r == Ok(map[]) && declares == []
    ensures !r.Err?
    ensures var section := GetStringMap(conf, Section);
      r.Ok? <==> channels == map[] || forall k | k in section :: !Panics(channels, b, k, section[k])
    ensures var section := GetStringMap(conf, Section);
      channels != map[] && r.Ok? ==> forall k | k in section && Declared(channels, section[k]) :: k in r.value
    ensures var section := GetStringMap(conf, Section);
      r.Ok? ==> forall k | k in r.value ::
        k in section && Declared(channels, section[k]) && HasFlags(section[k]) && r.value[k] == ExchangeFor(channels, k, section[k])
    ensures r.Ok? ==> |declares| == |r.value.Keys|
    ensures ExchangeDeclares(declares)
  {
    if channels == map[] {
      return Ok(map[]), [];
    }
    var section := GetStringMap(conf, Section);
    var remaining := section.Keys;
    var exchanges: map<string, Exchange> := map[];
    declares := [];
    while remaining != {}
      invariant remaining <= section.Keys
      invariant forall k | k in section && k !in remaining :: !Panics(channels, b, k, section[k])
      invariant forall k | k in section && k !in remaining && Declared(channels, section[k]) :: k in exchanges
      invariant forall k | k in exchanges ::
        k in section && k !in remaining && Declared(channels, section[k]) && HasFlags(section[k]) && exchanges[k] == ExchangeFor(channels, k, section[k])
      invariant |declares| == |exchanges.Keys|
      invariant ExchangeDeclares(declares)
      decreases remaining
    {
      var k :| k in remaining;
      var v := section[k];
      if !NamesChannel(v) {
        assert Panics(channels, b, k, section[k]);
        return Panic(InterfaceConversion), declares;
      }
      var channelName := StringField(v, "channel");
      if channelName in channels {
        if !HasFlags(v) {
          assert Panics(channels, b, k, section[k]);
          return Panic(InterfaceConversion), declares;
        }
        var config := ConfigFor(channels, k, v);
        var exchange, declare := NewExchange(b, config);
        if declare.Some? {
          ExchangeDeclaresSnoc(declares, declare.value);
          declares := declares + [declare.value];
        }
        if !exchange.Ok? {
          assert Panics(channels, b, k, section[k]);
          return Panic(exchange.reason), declares;
        }
        assert k !in exchanges;
        exchanges := exchanges[k := exchange.value];
      }
      remaining := remaining - {k};
    }
    return Ok(exchanges), declares;
  }
}
