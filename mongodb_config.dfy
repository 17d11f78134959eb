/** The settings of one MongoDB data source (persistance/mongodb/config.go). */
module MongoConfig {
  import opened Wrappers
  import opened Values
  import opened ConnectionConfigs

  /** The settings; `timeout` and `maxConnectionIdleTime` are
      `time.Duration`s, in nanoseconds. */
  datatype MongoConfig = MongoConfig(
    host: string,
    authDb: string,
    user: string,
    pass: string,
    name: string,
    replicaSetName: string,
    timeout: int,
    minPoolSize: int,
    maxPoolSize: int,
    maxConnectionIdleTime: int)

  /** `"%s.%s"`: a property of the data source under `prefix`. */
  function Key(prefix: string, property: string): string
  {
    prefix + "." + property
  }

  /** The settings read from fixed keys, whatever the prefix. */
  const TimeoutKey: string := "datasources.mongo.default.timeout"
  const UsernameKey: string := "datasources.mongo.default.username"
  const PasswordKey: string := "datasources.mongo.default.password"
  const IdleTimeKey: string := "datasources.mongo.default.max-conn-idle-time"
  const MaxPoolKey: string := "datasources.mongo.default.max-pool-size"
  const MinPoolKey: string := "datasources.mongo.default.min-pool-size"

  const NanosPerSecond: int := 1_000_000_000

  /** `time.Duration(n) * time.Second` for an `int` read from the
      configuration: the product wraps around at 64 bits. */
  function Seconds(n: int): (r: int)
    ensures IsInt64(r)
  {
    Wrap64(Wrap64(n) * NanosPerSecond)
  }

  /** `uint64(n)` of an `int` read from the configuration. */
  function PoolSize(n: int): (r: int)
    ensures 0 <= r < TwoTo64
  {
    ToUint64(Wrap64(n))
  }

  /** `NewConfig`: the host, then the name, must be set, or the error names
      the missing key; the replica set and the auth database are optional;
      the credentials, the timeouts and the pool sizes are read from the
      keys of the "default" data source, with no default values. */
  function NewConfig(cfg: Config, prefix: string): (r: Result<MongoConfig, string>)
    ensures GetString(cfg, Key(prefix, "host")) == "" ==> r == Failure(MissingProperty(Key(prefix, "host")))
    ensures GetString(cfg, Key(prefix, "host")) != "" && GetString(cfg, Key(prefix, "name")) == "" ==>
      r == Failure(MissingProperty(Key(prefix, "name")))
    ensures r.Success? <==> GetString(cfg, Key(prefix, "host")) != "" && GetString(cfg, Key(prefix, "name")) != ""
    ensures r.Success? ==>
      && r.value.host == GetString(cfg, Key(prefix, "host"))
      && r.value.name == GetString(cfg, Key(prefix, "name"))
      && r.value.replicaSetName == GetString(cfg, Key(prefix, "replica_set"))
      && r.value.authDb == GetString(cfg, Key(prefix, "auth_db"))
      && r.value.user == GetString(cfg, UsernameKey)
      && r.value.pass == GetString(cfg, PasswordKey)
      && r.value.timeout == Seconds(GetInt(cfg, TimeoutKey))
      && r.value.maxConnectionIdleTime == Seconds(GetInt(cfg, IdleTimeKey))
      && r.value.maxPoolSize == PoolSize(GetInt(cfg, MaxPoolKey))
      && r.value.minPoolSize == PoolSize(GetInt(cfg, MinPoolKey))
  {
    var host := GetString(cfg, Key(prefix, "host"));
    if host == "" then Failure(MissingProperty(Key(prefix, "host")))
    else
      var name := GetString(cfg, Key(prefix, "name"));
      if name == "" then Failure(MissingProperty(Key(prefix, "name")))
      else
        Success(MongoConfig(
          host,
          GetString(cfg, Key(prefix, "auth_db")),
          GetString(cfg, UsernameKey),
          GetString(cfg, PasswordKey),
          name,
          GetString(cfg, Key(prefix, "replica_set")),
          Seconds(GetInt(cfg, TimeoutKey)),
          PoolSize(GetInt(cfg, MinPoolKey)),
          PoolSize(GetInt(cfg, MaxPoolKey)),
          Seconds(GetInt(cfg, IdleTimeKey))))
  }

  /** Two data sources read from one configuration share their credentials,
      timeouts and pool sizes: the prefix only chooses the host, the name,
      the replica set and the auth database. */
  lemma SharedSettingsIgnorePrefix(cfg: Config, prefix1: string, prefix2: string)
    requires NewConfig(cfg, prefix1).Success? && NewConfig(cfg, prefix2).Success?
    ensures var a := NewConfig(cfg, prefix1).value;
      var b := NewConfig(cfg, prefix2).value;
      && a.user == b.user && a.pass == b.pass
      && a.timeout == b.timeout && a.maxConnectionIdleTime == b.maxConnectionIdleTime
      && a.minPoolSize == b.minPoolSize && a.maxPoolSize == b.maxPoolSize
  {
  }

  /** A number of seconds whose nanoseconds fit in 64 bits converts
      exactly. */
  lemma SecondsExact(n: int)
    requires IsInt64(n * NanosPerSecond)
    ensures Seconds(n) == n * NanosPerSecond
  {
    assert IsInt64(n);
  }

  /** A negative pool size becomes a huge unsigned one. */
  lemma NegativePoolSizeWraps(n: int)
    requires IsInt64(n) && n < 0
    ensures PoolSize(n) == n + TwoTo64
    ensures PoolSize(n) > MaxInt64
  {
  }
}
