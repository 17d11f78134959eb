/** The settings of one named MySQL data source (persistance/mysql/config.go). */
module MysqlConfig {
  import opened Wrappers
  import opened Values

  datatype MysqlConfig = MysqlConfig(
    name: string,
    database: string,
    host: string,
    port: int,
    user: string,
    pass: string,
    timeout: int,
    maxIdleConnections: int,
    maxOpenConnections: int,
    maxConnectionLifetime: int,
    maxConnectionIdleTime: int)

  /** `"datasources.mysql.%s.%s"`. */
  function Key(name: string, property: string): string
  {
    "datasources.mysql." + name + "." + property
  }

  /** `NewConfig`: host "localhost", port 3306, timeout 30, 10 idle and 100
      open connections, a lifetime of 3600 and an idle time of 300 when
      unset or empty; database, username and password are copied with no
      default; the name is the argument. It never fails. */
  function NewConfig(cfg: Config, name: string): (r: Result<MysqlConfig, string>)
    ensures r.Success?
    ensures r.value.name == name
    ensures r.value.host != "" && r.value.port != 0 && r.value.timeout != 0
    ensures r.value.maxIdleConnections != 0 && r.value.maxOpenConnections != 0
    ensures r.value.maxConnectionLifetime != 0 && r.value.maxConnectionIdleTime != 0
    ensures r.value.database == GetString(cfg, Key(name, "database"))
    ensures r.value.user == GetString(cfg, Key(name, "username"))
    ensures r.value.pass == GetString(cfg, Key(name, "password"))
    ensures r.value.host == (if GetString(cfg, Key(name, "host")) == "" then "localhost" else GetString(cfg, Key(name, "host")))
    ensures r.value.port == (if GetInt(cfg, Key(name, "port")) == 0 then 3306 else GetInt(cfg, Key(name, "port")))
    ensures r.value.timeout == (if GetInt(cfg, Key(name, "timeout")) == 0 then 30 else GetInt(cfg, Key(name, "timeout")))
    ensures r.value.maxIdleConnections ==
      (if GetInt(cfg, Key(name, "maxIdleConnections")) == 0 then 10 else GetInt(cfg, Key(name, "maxIdleConnections")))
    ensures r.value.maxOpenConnections ==
      (if GetInt(cfg, Key(name, "maxOpenConnections")) == 0 then 100 else GetInt(cfg, Key(name, "maxOpenConnections")))
    ensures r.value.maxConnectionLifetime ==
      (if GetInt(cfg, Key(name, "maxConnectionLifetime")) == 0 then 3600 else GetInt(cfg, Key(name, "maxConnectionLifetime")))
    ensures r.value.maxConnectionIdleTime ==
      (if GetInt(cfg, Key(name, "maxConnectionIdletime")) == 0 then 300 else GetInt(cfg, Key(name, "maxConnectionIdletime")))
  {
    var host := GetString(cfg, Key(name, "host"));
    Success(MysqlConfig(
      name,
      GetString(cfg, Key(name, "database")),
      if host == "" then "localhost" else host,
      OrDefault(GetInt(cfg, Key(name, "port")), 3306),
      GetString(cfg, Key(name, "username")),
      GetString(cfg, Key(name, "password")),
      OrDefault(GetInt(cfg, Key(name, "timeout")), 30),
      OrDefault(GetInt(cfg, Key(name, "maxIdleConnections")), 10),
      OrDefault(GetInt(cfg, Key(name, "maxOpenConnections")), 100),
      OrDefault(GetInt(cfg, Key(name, "maxConnectionLifetime")), 3600),
      OrDefault(GetInt(cfg, Key(name, "maxConnectionIdletime")), 300)))
  }

  /** A data source whose every setting is configured is read exactly as
      configured. */
  lemma ConfiguredValuesKept(cfg: Config, name: string)
    requires GetString(cfg, Key(name, "host")) != "" && GetInt(cfg, Key(name, "port")) != 0
    requires GetInt(cfg, Key(name, "timeout")) != 0
    requires GetInt(cfg, Key(name, "maxIdleConnections")) != 0 && GetInt(cfg, Key(name, "maxOpenConnections")) != 0
    requires GetInt(cfg, Key(name, "maxConnectionLifetime")) != 0 && GetInt(cfg, Key(name, "maxConnectionIdletime")) != 0
    ensures NewConfig(cfg, name).value == MysqlConfig(
      name,
      GetString(cfg, Key(name, "database")),
      GetString(cfg, Key(name, "host")),
      GetInt(cfg, Key(name, "port")),
      GetString(cfg, Key(name, "username")),
      GetString(cfg, Key(name, "password")),
      GetInt(cfg, Key(name, "timeout")),
      GetInt(cfg, Key(name, "maxIdleConnections")),
      GetInt(cfg, Key(name, "maxOpenConnections")),
      GetInt(cfg, Key(name, "maxConnectionLifetime")),
      GetInt(cfg, Key(name, "maxConnectionIdletime")))
  {
  }

  /** An empty configuration gives the defaults and empty credentials. */
  lemma EmptyConfigDefaults(name: string)
    ensures NewConfig(map[], name) == Success(MysqlConfig(name, "", "localhost", 3306, "", "", 30, 10, 100, 3600, 300))
  {
  }
}
