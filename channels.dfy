/** Building the configured channels on the connections
    (messaging/rabbitmq/channels.go, with `connect` from channel.go). */
module Channels {
  import opened Wrappers
  import opened Values
  import opened Broker
  import opened Topology

  const Section: string := "rabbitmq.channels"

  const NoConnections: string := "no connections found. please check the connection configuration in your configuration"

  /** The entry names its connection with a string, so the type
      assertions on it succeed. */
  predicate WellFormed(v: Value)
  {
    HasString(v, "connection")
  }

  /** The entry's connection exists: the channel is created. */
  predicate Created(connections: map<string, Connection>, v: Value)
  {
    WellFormed(v) && StringField(v, "connection") in connections
  }

  /** The channel created for the entry `name`: named after its key, on the
      looked-up connection, and open exactly when the broker lets
      `connect` open the AMQP channel. */
  function ChannelFor(connections: map<string, Connection>, b: Broker, name: string, v: Value): Channel
    requires Created(connections, v)
  {
    var cn := StringField(v, "connection");
    Channel(name, connections[cn], Accepts(b, OpenChannel(cn)))
  }

  /** `Channels`: refuses an empty connection map; otherwise every entry
      whose connection exists yields a channel under its key, one
      `connect` each, and the other entries are skipped. A failed
      `connect` still keeps the channel, not open. An entry without a
      string "connection" panics. */
  method Channels(conf: Config, connections: map<string, Connection>, b: Broker) returns (r: Outcome<map<string, Channel>>, opens: seq<Call>)
    ensures connections == map[] ==> r == Err(NoConnections) && opens == []
    ensures var section := GetStringMap(conf, Section);
      r.Ok? <==> connections != map[] && forall k | k in section :: WellFormed(section[k])
    ensures var section := GetStringMap(conf, Section);
      r.Panic? <==> connections != map[] && exists k | k in section :: !WellFormed(section[k])
    ensures var section := GetStringMap(conf, Section);
      r.Ok? ==> forall k | k in section && Created(connections, section[k]) :: k in r.value
    ensures var section := GetStringMap(conf, Section);
      r.Ok? ==> forall k | k in r.value :: k in section && Created(connections, section[k]) && r.value[k] == ChannelFor(connections, b, k, section[k])
    ensures r.Ok? ==> |opens| == |r.value.Keys|
    ensures forall i | 0 <= i < |opens| :: opens[i].OpenChannel? && opens[i].connection in connections
  {
    if connections == map[] {
      return Err(NoConnections), [];
    }
    var section := GetStringMap(conf, Section);
    var remaining := section.Keys;
    var channels: map<string, Channel> := map[];
    opens := [];
    while remaining != {}
      invariant remaining <= section.Keys
      invariant forall k | k in section.Keys - remaining :: WellFormed(section[k])
      invariant forall k | k in section && k !in remaining && Created(connections, section[k]) :: k in channels
      invariant forall k | k in channels :: k in section && k !in remaining && Created(connections, section[k]) && channels[k] == ChannelFor(connections, b, k, section[k])
      invariant |opens| == |channels.Keys|
      invariant forall i | 0 <= i < |opens| :: opens[i].OpenChannel? && opens[i].connection in connections
      decreases remaining
    {
      var k :| k in remaining;
      var v := section[k];
      if !WellFormed(v) {
        assert k in section && !WellFormed(section[k]);
        return Panic(InterfaceConversion), opens;
      }
      var connectionName := StringField(v, "connection");
      if connectionName in connections {
        var open := OpenChannel(connectionName);
        opens := opens + [open];
        assert k !in channels;
        channels := channels[k := Channel(k, connections[connectionName], Accepts(b, open))];
      }
      remaining := remaining - {k};
    }
    return Ok(channels), opens;
  }
}
