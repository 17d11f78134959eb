/** The gRPC server settings (transport/grpc/config.go). */
module GrpcConfig {
  import opened Values

  datatype KeepAlive = KeepAlive(
    minTimeSeconds: int,
    permitWithoutStream: bool,
    maxConnectionIdleSeconds: int,
    maxConnectionAgeSeconds: int,
    maxConnectionAgeGraceSeconds: int,
    timeSeconds: int,
    timeoutSeconds: int)

  datatype ServerConfig = ServerConfig(port: int, gracefulStopTimeoutSeconds: int, keepAlive: KeepAlive)

  const PortKey: string := "server.grpc.port"
  const GracefulKey: string := "server.grpc.gracefulStopTimeoutSeconds"
  const MinTimeKey: string := "server.grpc.keepalive.minTimeSeconds"
  const PermitKey: string := "server.grpc.keepalive.permitWithoutStream"
  const MaxIdleKey: string := "server.grpc.keepalive.maxConnectionIdleSeconds"
  const MaxAgeKey: string := "server.grpc.keepalive.maxConnectionAgeSeconds"
  const MaxAgeGraceKey: string := "server.grpc.keepalive.maxConnectionAgeGraceSeconds"
  const TimeKey: string := "server.grpc.keepalive.timeSeconds"
  const TimeoutKey: string := "server.grpc.keepalive.timeoutSeconds"

  /** `NewServerConfig`. Port, graceful stop, keep-alive min time, time and
      timeout fall back to 50051, 10, 300, 7200 and 20 when unset or 0; the
      permit flag is the configured boolean; the three connection limits are
      the configured values, 0 (no limit) when unset: their declared
      defaults 15, 30 and 5 are never used. */
  function NewServerConfig(cfg: Config): (r: ServerConfig)
    ensures r.port != 0 && r.gracefulStopTimeoutSeconds != 0
    ensures r.keepAlive.minTimeSeconds != 0 && r.keepAlive.timeSeconds != 0 && r.keepAlive.timeoutSeconds != 0
    ensures r.port == (if GetInt(cfg, PortKey) == 0 then 50051 else GetInt(cfg, PortKey))
    ensures r.gracefulStopTimeoutSeconds == (if GetInt(cfg, GracefulKey) == 0 then 10 else GetInt(cfg, GracefulKey))
    ensures r.keepAlive.minTimeSeconds == (if GetInt(cfg, MinTimeKey) == 0 then 300 else GetInt(cfg, MinTimeKey))
    ensures r.keepAlive.timeSeconds == (if GetInt(cfg, TimeKey) == 0 then 7200 else GetInt(cfg, TimeKey))
    ensures r.keepAlive.timeoutSeconds == (if GetInt(cfg, TimeoutKey) == 0 then 20 else GetInt(cfg, TimeoutKey))
    ensures r.keepAlive.permitWithoutStream == GetBool(cfg, PermitKey)
    ensures r.keepAlive.maxConnectionIdleSeconds == GetInt(cfg, MaxIdleKey)
    ensures r.keepAlive.maxConnectionAgeSeconds == GetInt(cfg, MaxAgeKey)
    ensures r.keepAlive.maxConnectionAgeGraceSeconds == GetInt(cfg, MaxAgeGraceKey)
  {
    var port := OrDefault(GetInt(cfg, PortKey), 50051);
    var graceful := OrDefault(GetInt(cfg, GracefulKey), 10);
    var minTime := OrDefault(GetInt(cfg, MinTimeKey), 300);
    var permit := GetBool(cfg, PermitKey);
    var maxIdle := GetInt(cfg, MaxIdleKey);
    var maxAge := GetInt(cfg, MaxAgeKey);
    var maxAgeGrace := GetInt(cfg, MaxAgeGraceKey);
    var time := OrDefault(GetInt(cfg, TimeKey), 7200);
    var timeout := OrDefault(GetInt(cfg, TimeoutKey), 20);
    var keepAlive := KeepAlive(minTime, permit, 0, 0, 0, time, timeout);
    var keepAlive := if maxIdle != 0 then keepAlive.(maxConnectionIdleSeconds := maxIdle) else keepAlive;
    var keepAlive := if maxAge != 0 then keepAlive.(maxConnectionAgeSeconds := maxAge) else keepAlive;
    var keepAlive := if maxAgeGrace != 0 then keepAlive.(maxConnectionAgeGraceSeconds := maxAgeGrace) else keepAlive;
    ServerConfig(port, graceful, keepAlive)
  }

  /** Resolution is settled: a configuration holding the resolved settings
      under their keys resolves to the same settings. */
  lemma ResolvedIsFixedPoint(cfg: Config, again: Config)
    requires var r := NewServerConfig(cfg);
      && GetInt(again, PortKey) == r.port
      && GetInt(again, GracefulKey) == r.gracefulStopTimeoutSeconds
      && GetInt(again, MinTimeKey) == r.keepAlive.minTimeSeconds
      && GetBool(again, PermitKey) == r.keepAlive.permitWithoutStream
      && GetInt(again, MaxIdleKey) == r.keepAlive.maxConnectionIdleSeconds
      && GetInt(again, MaxAgeKey) == r.keepAlive.maxConnectionAgeSeconds
      && GetInt(again, MaxAgeGraceKey) == r.keepAlive.maxConnectionAgeGraceSeconds
      && GetInt(again, TimeKey) == r.keepAlive.timeSeconds
      && GetInt(again, TimeoutKey) == r.keepAlive.timeoutSeconds
    ensures NewServerConfig(again) == NewServerConfig(cfg)
  {
  }

  /** An empty configuration gives the documented defaults, with unlimited
      connection idle time and age. */
  lemma EmptyConfigDefaults()
    ensures NewServerConfig(map[]) == ServerConfig(50051, 10, KeepAlive(300, false, 0, 0, 0, 7200, 20))
  {
  }
}
