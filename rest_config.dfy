/** The REST server settings (protocol/rest/config.go). */
module RestConfig {
  import opened Values

  datatype ServerConfig = ServerConfig(port: int, readTimeout: int, writeTimeout: int, gracefulStopTimeoutSeconds: int)

  const PortKey: string := "server.http.port"
  const ReadTimeoutKey: string := "server.http.read_timeout"
  const WriteTimeoutKey: string := "server.http.write_timeout"
  const GracefulKey: string := "server.http.gracefulStopTimeoutSeconds"

  /** `NewConfig`: port 9090, read timeout 10, write timeout 20 and graceful
      stop 10 when unset or 0; other values are kept. */
  function NewConfig(cfg: Config): (r: ServerConfig)
    ensures r.port != 0 && r.readTimeout != 0 && r.writeTimeout != 0 && r.gracefulStopTimeoutSeconds != 0
    ensures r.port == (if GetInt(cfg, PortKey) == 0 then 9090 else GetInt(cfg, PortKey))
    ensures r.readTimeout == (if GetInt(cfg, ReadTimeoutKey) == 0 then 10 else GetInt(cfg, ReadTimeoutKey))
    ensures r.writeTimeout == (if GetInt(cfg, WriteTimeoutKey) == 0 then 20 else GetInt(cfg, WriteTimeoutKey))
    ensures r.gracefulStopTimeoutSeconds == (if GetInt(cfg, GracefulKey) == 0 then 10 else GetInt(cfg, GracefulKey))
  {
    ServerConfig(
      OrDefault(GetInt(cfg, PortKey), 9090),
      OrDefault(GetInt(cfg, ReadTimeoutKey), 10),
      OrDefault(GetInt(cfg, WriteTimeoutKey), 20),
      OrDefault(GetInt(cfg, GracefulKey), 10))
  }

  function Written(c: ServerConfig): Config
  {
    map[PortKey := VInt(c.port), ReadTimeoutKey := VInt(c.readTimeout),
        WriteTimeoutKey := VInt(c.writeTimeout), GracefulKey := VInt(c.gracefulStopTimeoutSeconds)]
  }

  /** Writing the resolved settings back and reading them again changes
      nothing. */
  lemma ResolvedIsFixedPoint(cfg: Config)
    ensures NewConfig(Written(NewConfig(cfg))) == NewConfig(cfg)
  {
  }
}
