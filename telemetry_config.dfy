/** The older telemetry server settings (instrumentation/telemetry_config.go),
    as written and as evidently intended. */
module TelemetryConfig {
  import opened Values

  datatype TelemetryServerConfig = TelemetryServerConfig(port: int, readTimeout: int, writeTimeout: int, gracefulStopTimeoutSeconds: int)

  const PortKey: string := "server.telemetry.port"
  const ReadTimeoutKey: string := "server.telemetry.read_timeout"
  const WriteTimeoutKey: string := "server.telemetry.write_timeout"
  const GracefulKey: string := "server.telemetry.graceful_stop_timeout_seconds"

  /** `NewTelemetryServerConfig` as written: the port falls back to 9092;
      the read and write defaults are guarded by the already defaulted
      port, so they never apply; the graceful stop is read again from the
      write-timeout key, and falls back to 10 when that is 0. */
  function NewTelemetryServerConfig(cfg: Config): (r: TelemetryServerConfig)
    ensures r.port != 0
    ensures r.port == (if GetInt(cfg, PortKey) == 0 then 9092 else GetInt(cfg, PortKey))
    ensures r.readTimeout == GetInt(cfg, ReadTimeoutKey)
    ensures r.writeTimeout == GetInt(cfg, WriteTimeoutKey)
    ensures r.gracefulStopTimeoutSeconds == 10 <==> GetInt(cfg, WriteTimeoutKey) == 0 || GetInt(cfg, WriteTimeoutKey) == 10
    ensures GetInt(cfg, WriteTimeoutKey) != 0 ==> r.gracefulStopTimeoutSeconds == r.writeTimeout
  {
    var property := PortKey;
    var port := GetInt(cfg, property);
    var port := if port == 0 then 9092 else port;
    var property := ReadTimeoutKey;
    var readTimeout := GetInt(cfg, property);
    var readTimeout := if port == 0 then 10 else readTimeout;
    var property := WriteTimeoutKey;
    var writeTimeout := GetInt(cfg, property);
    var writeTimeout := if port == 0 then 20 else writeTimeout;
    var graceful := GetInt(cfg, property);
    var graceful := if graceful == 0 then 10 else graceful;
    TelemetryServerConfig(port, readTimeout, writeTimeout, graceful)
  }

  /** With nothing configured the timeouts stay 0 where 10 and 20 were
      meant. */
  lemma ZeroTimeoutsStayZero()
    ensures NewTelemetryServerConfig(map[]) == TelemetryServerConfig(9092, 0, 0, 10)
  {
  }

  /** A configured graceful stop of 30 is ignored: the write timeout of 5
      is used instead. */
  lemma GracefulReadsWriteTimeout()
    ensures NewTelemetryServerConfig(map[GracefulKey := VInt(30), WriteTimeoutKey := VInt(5)]).gracefulStopTimeoutSeconds == 5
  {
  }

  /** The evidently intended reader: every setting read from its own key,
      each falling back to its own default. This is the reading the newer
      core/instrumentation/prometheus/server_config.go does, under this
      file's key names. */
  function NewTelemetryServerConfigIntended(cfg: Config): (r: TelemetryServerConfig)
    ensures r.port != 0 && r.readTimeout != 0 && r.writeTimeout != 0 && r.gracefulStopTimeoutSeconds != 0
    ensures r.port == (if GetInt(cfg, PortKey) == 0 then 9092 else GetInt(cfg, PortKey))
    ensures r.readTimeout == (if GetInt(cfg, ReadTimeoutKey) == 0 then 10 else GetInt(cfg, ReadTimeoutKey))
    ensures r.writeTimeout == (if GetInt(cfg, WriteTimeoutKey) == 0 then 20 else GetInt(cfg, WriteTimeoutKey))
    ensures r.gracefulStopTimeoutSeconds == (if GetInt(cfg, GracefulKey) == 0 then 10 else GetInt(cfg, GracefulKey))
  {
    TelemetryServerConfig(
      OrDefault(GetInt(cfg, PortKey), 9092),
      OrDefault(GetInt(cfg, ReadTimeoutKey), 10),
      OrDefault(GetInt(cfg, WriteTimeoutKey), 20),
      OrDefault(GetInt(cfg, GracefulKey), 10))
  }

  function Written(c: TelemetryServerConfig): Config
  {
    map[PortKey := VInt(c.port), ReadTimeoutKey := VInt(c.readTimeout),
        WriteTimeoutKey := VInt(c.writeTimeout), GracefulKey := VInt(c.gracefulStopTimeoutSeconds)]
  }

  /** The intended reader is settled: writing its settings back and
      reading them again changes nothing. The reader as written is not: a
      graceful stop of 30 with a write timeout of 5 reads back as 5. */
  lemma IntendedIsFixedPoint(cfg: Config)
    ensures NewTelemetryServerConfigIntended(Written(NewTelemetryServerConfigIntended(cfg))) == NewTelemetryServerConfigIntended(cfg)
    ensures var c := TelemetryServerConfig(9092, 10, 5, 30);
      NewTelemetryServerConfig(Written(c)) != c
  {
    var c := TelemetryServerConfig(9092, 10, 5, 30);
    assert NewTelemetryServerConfig(Written(c)).gracefulStopTimeoutSeconds == 5;
  }
}
