/** The plain HTTP server settings (transport/http/config.go), as written
    and as evidently intended. */
module HttpConfig {
  import opened Values

  datatype ServerConfig = ServerConfig(port: int, readTimeout: int, writeTimeout: int)

  const PortKey: string := "server.port"
  const ReadTimeoutKey: string := "server.read_timeout"
  const WriteTimeoutKey: string := "server.write_timeout"

  /** `NewServerConfig` as written: the port falls back to 9090; the read
      and write defaults are guarded by the already defaulted port, so the
      configured timeouts are taken as they are, 0 included. */
  function NewServerConfig(cfg: Config): (r: ServerConfig)
    ensures r.port != 0
    ensures r.port == (if GetInt(cfg, PortKey) == 0 then 9090 else GetInt(cfg, PortKey))
    ensures r.readTimeout == GetInt(cfg, ReadTimeoutKey)
    ensures r.writeTimeout == GetInt(cfg, WriteTimeoutKey)
  {
    var port := GetInt(cfg, PortKey);
    var port := if port == 0 then 9090 else port;
    var readTimeout := GetInt(cfg, ReadTimeoutKey);
    var readTimeout := if port == 0 then 10 else readTimeout;
    var writeTimeout := GetInt(cfg, WriteTimeoutKey);
    var writeTimeout := if port == 0 then 20 else writeTimeout;
    ServerConfig(port, readTimeout, writeTimeout)
  }

  /** With nothing configured both timeouts are 0 where 10 and 20 were
      meant. */
  lemma ZeroTimeoutsStayZero()
    ensures NewServerConfig(map[]) == ServerConfig(9090, 0, 0)
  {
  }

  /** The evidently intended reader: each timeout falls back to its own
      default. */
  function NewServerConfigIntended(cfg: Config): (r: ServerConfig)
    ensures r.port != 0 && r.readTimeout != 0 && r.writeTimeout != 0
    ensures r.port == (if GetInt(cfg, PortKey) == 0 then 9090 else GetInt(cfg, PortKey))
    ensures r.readTimeout == (if GetInt(cfg, ReadTimeoutKey) == 0 then 10 else GetInt(cfg, ReadTimeoutKey))
    ensures r.writeTimeout == (if GetInt(cfg, WriteTimeoutKey) == 0 then 20 else GetInt(cfg, WriteTimeoutKey))
  {
    ServerConfig(
      OrDefault(GetInt(cfg, PortKey), 9090),
      OrDefault(GetInt(cfg, ReadTimeoutKey), 10),
      OrDefault(GetInt(cfg, WriteTimeoutKey), 20))
  }

  /** The two readers agree exactly when both timeouts are configured. */
  lemma IntendedAgreesWhenConfigured(cfg: Config)
    ensures NewServerConfigIntended(cfg) == NewServerConfig(cfg) <==> GetInt(cfg, ReadTimeoutKey) != 0 && GetInt(cfg, WriteTimeoutKey) != 0
  {
  }
}
