/** The telemetry (metrics) server settings
    (core/instrumentation/prometheus/server_config.go). */
module PrometheusConfig {
  import opened Values

  datatype TelemetryServerConfig = TelemetryServerConfig(port: int, readTimeout: int, writeTimeout: int, gracefulStopTimeoutSeconds: int)

  const PortKey: string := "server.telemetry.port"
  const ReadTimeoutKey: string := "server.telemetry.read_timeout"
  const WriteTimeoutKey: string := "server.telemetry.write_timeout"
  const GracefulKey: string := "server.telemetry.gracefulStopTimeoutSeconds"

  /** `NewTelemetryServerConfig`: port 9092, read timeout 10, write timeout
      20 and graceful stop 10 when unset or 0; other values are kept. */
  function NewTelemetryServerConfig(cfg: Config): (r: TelemetryServerConfig)
    ensures r.port != 0 && r.readTimeout != 0 && r.writeTimeout != 0 && r.gracefulStopTimeoutSeconds != 0
    ensures r.port == (if GetInt(cfg, PortKey) == 0 then 9092 else GetInt(cfg, PortKey))
    ensures r.readTimeout == (if GetInt(cfg, ReadTimeoutKey) == 0 then 10 else GetInt(cfg, ReadTimeoutKey))
    ensures r.writeTimeout == (if GetInt(cfg, WriteTimeoutKey) == 0 then 20 else GetInt(cfg, WriteTimeoutKey))
    ensures r.gracefulStopTimeoutSeconds == (if GetInt(cfg, GracefulKey) == 0 then 10 else GetInt(cfg, GracefulKey))
  {
    TelemetryServerConfig(
      OrDefault(GetInt(cfg, PortKey), 9092),
      OrDefault(GetInt(cfg, ReadTimeoutKey), 10),
      OrDefault(GetInt(cfg, WriteTimeoutKey), 20),
      OrDefault(GetInt(cfg, GracefulKey), 10))
  }

  function Written(c: TelemetryServerConfig): Config
  {
    map[PortKey := VInt(c.port), ReadTimeoutKey := VInt(c.readTimeout),
        WriteTimeoutKey := VInt(c.writeTimeout), GracefulKey := VInt(c.gracefulStopTimeoutSeconds)]
  }

  /** Writing the resolved settings back and reading them again changes
      nothing. */
  lemma ResolvedIsFixedPoint(cfg: Config)
    ensures NewTelemetryServerConfig(Written(NewTelemetryServerConfig(cfg))) == NewTelemetryServerConfig(cfg)
  {
  }
}
