/** Connection settings for one named broker connection
    (messaging/rabbitmq/connection_config.go). */
module ConnectionConfigs {
  import opened Wrappers
  import opened Values

  datatype ConnectionConfig = ConnectionConfig(name: string, port: string, host: string, user: string, pass: string)

  /** `"datasources.rabbitmq.connections.%s.%s"`. */
  function PropertyKey(name: string, property: string): string
  {
    "datasources.rabbitmq.connections." + name + "." + property
  }

  /** `config.NewMissingPropertyError`: `"missing property: '%s'"`. */
  function MissingProperty(key: string): string
  {
    "missing property: '" + key + "'"
  }

  /** `NewConnectionConfig` as written. Host and port fall back to
      "localhost" and "5672"; username and password are required, and both
      failures name the username key, because the key variable is not
      updated before the password check. */
  function NewConnectionConfig(cfg: Config, name: string): (r: Result<ConnectionConfig, string>)
    ensures r.Success? <==> GetString(cfg, PropertyKey(name, "username")) != "" && GetString(cfg, PropertyKey(name, "password")) != ""
    ensures r.Failure? ==> r.error == MissingProperty(PropertyKey(name, "username"))
  {
    var property := PropertyKey(name, "host");
    var host := GetString(cfg, property);
    var host := if host == "" then "localhost" else host;
    var port := GetString(cfg, PropertyKey(name, "port"));
    var port := if port == "" then "5672" else port;
    var property := PropertyKey(name, "username");
    var username := GetString(cfg, property);
    if username == "" then Failure(MissingProperty(property))
    else
      var password := GetString(cfg, PropertyKey(name, "password"));
      if password == "" then Failure(MissingProperty(property))
      else Success(ConnectionConfig("", port, host, username, password))
  }

  /** On success the resolved values are stored, `Name` is left empty, and
      an empty host or port takes its default. */
  lemma ResolvedValues(cfg: Config, name: string)
    requires NewConnectionConfig(cfg, name).Success?
    ensures var c := NewConnectionConfig(cfg, name).value;
      && c.name == ""
      && c.user == GetString(cfg, PropertyKey(name, "username"))
      && c.pass == GetString(cfg, PropertyKey(name, "password"))
      && (GetString(cfg, PropertyKey(name, "host")) == "" ==> c.host == "localhost")
      && (GetString(cfg, PropertyKey(name, "host")) != "" ==> c.host == GetString(cfg, PropertyKey(name, "host")))
      && (GetString(cfg, PropertyKey(name, "port")) == "" ==> c.port == "5672")
      && (GetString(cfg, PropertyKey(name, "port")) != "" ==> c.port == GetString(cfg, PropertyKey(name, "port")))
  {
  }

  /** A missing password is reported under the username key: the message
      never names the password key. */
  lemma MissingPasswordNamesUsername(cfg: Config, name: string)
    requires GetString(cfg, PropertyKey(name, "username")) != ""
    requires GetString(cfg, PropertyKey(name, "password")) == ""
    ensures NewConnectionConfig(cfg, name) == Failure(MissingProperty(PropertyKey(name, "username")))
    ensures NewConnectionConfig(cfg, name) != Failure(MissingProperty(PropertyKey(name, "password")))
  {
    assert PropertyKey(name, "username")[|PropertyKey(name, "username")| - 1] == 'e';
    assert PropertyKey(name, "password")[|PropertyKey(name, "password")| - 1] == 'd';
    assert MissingProperty(PropertyKey(name, "username"))[|MissingProperty(PropertyKey(name, "username"))| - 2] == 'e';
    assert MissingProperty(PropertyKey(name, "password"))[|MissingProperty(PropertyKey(name, "password"))| - 2] == 'd';
  }

  /** The evidently intended reader: the password failure names the
      password key. */
  function NewConnectionConfigNamingPassword(cfg: Config, name: string): (r: Result<ConnectionConfig, string>)
    ensures r.Success? <==> GetString(cfg, PropertyKey(name, "username")) != "" && GetString(cfg, PropertyKey(name, "password")) != ""
  {
    var host := GetString(cfg, PropertyKey(name, "host"));
    var port := GetString(cfg, PropertyKey(name, "port"));
    var username := GetString(cfg, PropertyKey(name, "username"));
    var password := GetString(cfg, PropertyKey(name, "password"));
    if username == "" then Failure(MissingProperty(PropertyKey(name, "username")))
    else if password == "" then Failure(MissingProperty(PropertyKey(name, "password")))
    else Success(ConnectionConfig("", if port == "" then "5672" else port, if host == "" then "localhost" else host, username, password))
  }

  /** With the intended reader every failure names the property that is
      missing, and it agrees with the written one whenever it succeeds. */
  lemma NamingPasswordReportsMissingKey(cfg: Config, name: string)
    ensures GetString(cfg, PropertyKey(name, "username")) == "" ==>
      NewConnectionConfigNamingPassword(cfg, name) == Failure(MissingProperty(PropertyKey(name, "username")))
    ensures GetString(cfg, PropertyKey(name, "username")) != "" && GetString(cfg, PropertyKey(name, "password")) == "" ==>
      NewConnectionConfigNamingPassword(cfg, name) == Failure(MissingProperty(PropertyKey(name, "password")))
    ensures NewConnectionConfigNamingPassword(cfg, name).Success? ==>
      NewConnectionConfigNamingPassword(cfg, name) == NewConnectionConfig(cfg, name)
  {
  }
}
