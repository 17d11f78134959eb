/** Building every configured broker connection
    (messaging/rabbitmq/connections.go). */
module Connections {
  import opened Wrappers
  import opened Values
  import opened ConnectionConfigs
  import opened Broker
  import opened Topology

  const Section: string := "datasources.rabbitmq.connections"

  /** The connection configured under `k` can be built: its settings read
      and the broker accepts the dial. */
  predicate Connectable(conf: Config, b: Broker, k: string)
  {
    NewConnectionConfig(conf, k).Success? && Accepts(b, Dial(Url(NewConnectionConfig(conf, k).value)))
  }

  /** The dial that building the connection under `k` issues. */
  function DialFor(conf: Config, k: string): Option<Call>
  {
    var c := NewConnectionConfig(conf, k);
    if c.Success? then Some(Dial(Url(c.value))) else None
  }

  /** `d` is the dial of some configured key. */
  predicate DialOfSomeKey(conf: Config, keys: set<string>, d: Call)
  {
    exists k | k in keys :: DialFor(conf, k) == Some(d)
  }

  /** Every dial is the dial of one of the keys. */
  predicate DialsOfKeys(conf: Config, keys: set<string>, dials: seq<Call>)
  {
    forall i | 0 <= i < |dials| :: DialOfSomeKey(conf, keys, dials[i])
  }

  lemma DialsOfKeysSnoc(conf: Config, keys: set<string>, dials: seq<Call>, k: string, d: Call)
    requires DialsOfKeys(conf, keys, dials) && k in keys && DialFor(conf, k) == Some(d)
    ensures DialsOfKeys(conf, keys, dials + [d])
  {
    forall i | 0 <= i < |dials + [d]| ensures DialOfSomeKey(conf, keys, (dials + [d])[i]) {
      if i < |dials| {
        assert (dials + [d])[i] == dials[i];
      }
    }
  }

  /** The error returned for a key that cannot be built. */
  function FailureFor(conf: Config, b: Broker, k: string): string
    requires !Connectable(conf, b, k)
  {
    var c := NewConnectionConfig(conf, k);
    if c.Failure? then c.error else b.refused[Dial(Url(c.value))]
  }

  /** The connection built for `k` when it is connectable. */
  function ConnectionFor(conf: Config, k: string): Connection
    requires NewConnectionConfig(conf, k).Success?
  {
    Connection(k, NewConnectionConfig(conf, k).value)
  }

  /** One iteration: read the settings under `k`, then dial. */
  method Connect(conf: Config, b: Broker, k: string) returns (r: Result<Connection, string>, dial: Option<Call>)
    ensures r.Success? <==> Connectable(conf, b, k)
    ensures r.Success? ==> r.value == ConnectionFor(conf, k)
    ensures r.Failure? ==> r.error == FailureFor(conf, b, k)
    ensures dial == DialFor(conf, k)
  {
    var config := NewConnectionConfig(conf, k);
    if config.Failure? {
      return Failure(config.error), None;
    }
    dial := Some(Dial(Url(config.value)));
    if dial.value in b.refused {
      return Failure(b.refused[dial.value]), dial;
    }
    return Success(Connection(k, config.value)), dial;
  }

  /** `RabbitMQConnections`: one connection per configured key, in map
      order; the first key whose settings do not read or whose dial is
      refused ends the loop with that error and no map. Also returns the
      dials issued. */
  method RabbitMQConnections(conf: Config, b: Broker) returns (r: Result<map<string, Connection>, string>, dials: seq<Call>)
    ensures var keys := GetStringMap(conf, Section).Keys;
      r.Success? <==> forall k | k in keys :: Connectable(conf, b, k)
    ensures var keys := GetStringMap(conf, Section).Keys;
      r.Success? ==> r.value.Keys == keys && |dials| == |keys|
    ensures r.Success? ==> forall k | k in r.value :: Connectable(conf, b, k) && r.value[k] == ConnectionFor(conf, k)
    ensures var keys := GetStringMap(conf, Section).Keys;
      r.Failure? ==> exists k | k in keys :: !Connectable(conf, b, k) && r.error == FailureFor(conf, b, k)
    ensures |dials| <= |GetStringMap(conf, Section).Keys|
    ensures DialsOfKeys(conf, GetStringMap(conf, Section).Keys, dials)
  {
    var section := GetStringMap(conf, Section);
    var remaining := section.Keys;
    var connections: map<string, Connection> := map[];
    dials := [];
    while remaining != {}
      invariant remaining <= section.Keys
      invariant forall k | k in connections ::
        k in section.Keys && k !in remaining && Connectable(conf, b, k) && connections[k] == ConnectionFor(conf, k)
      invariant forall k | k in section.Keys && k !in remaining :: k in connections
      invariant |dials| + |remaining| == |section.Keys|
      invariant DialsOfKeys(conf, section.Keys, dials)
      decreases remaining
    {
      var k :| k in remaining;
      var res, dial := Connect(conf, b, k);
      if dial.Some? {
        DialsOfKeysSnoc(conf, section.Keys, dials, k, dial.value);
        dials := dials + [dial.value];
      }
      if res.Failure? {
        assert k in section.Keys && !Connectable(conf, b, k) && res.error == FailureFor(conf, b, k);
        return Failure(res.error), dials;
      }
      connections := connections[k := res.value];
      remaining := remaining - {k};
    }
    assert connections.Keys == section.Keys;
    return Success(connections), dials;
  }
}
