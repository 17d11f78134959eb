/** The deployment environment (core/config/environment.go) and the base
    application settings that depend on it (core/config/app_config.go). */
module Environment {
  import opened Wrappers
  import opened Values

  const EnvDev: string := "dev"
  const EnvTest: string := "test"
  const EnvStaging: string := "staging"
  const EnvProd: string := "prod"

  /** The supported environments, in the order the error message lists
      them. */
  const EnvList: seq<string> := [EnvDev, EnvTest, EnvStaging, EnvProd]

  /** The error for an unsupported environment; `%s` of a string array
      prints `[dev test staging prod]`. */
  const Unsupported: string := "environment is not supported. supported environments: [dev test staging prod]"

  /** `validateEnvironment`: a search of the list by exact string
      equality. */
  method ValidateEnvironment(env: string) returns (err: Option<string>)
    ensures err.None? <==> env in EnvList
    ensures err.Some? ==> err.value == Unsupported
  {
    var i := 0;
    while i < |EnvList|
      invariant 0 <= i <= |EnvList|
      invariant env !in EnvList[..i]
    {
      if env == EnvList[i] {
        return None;
      }
      i := i + 1;
    }
    assert EnvList[..i] == EnvList;
    return Some(Unsupported);
  }

  /** `osutil.GetEnv`: the variable's value when it is set, even to the
      empty string, and the fallback otherwise. */
  function GetEnv(vars: map<string, string>, key: string, fallback: string): (r: string)
    ensures key in vars ==> r == vars[key]
    ensures key !in vars ==> r == fallback
  {
    if key in vars then vars[key] else fallback
  }

  /** `DetermineEnvironment`: DEPLOY_TYPE, "dev" when unset. An unsupported
      value ends the process; the model returns the validation error
      instead. */
  method DetermineEnvironment(vars: map<string, string>) returns (r: Result<string, string>)
    ensures "DEPLOY_TYPE" !in vars ==> r == Success(EnvDev)
    ensures "DEPLOY_TYPE" in vars ==>
      (vars["DEPLOY_TYPE"] in EnvList ==> r == Success(vars["DEPLOY_TYPE"]))
      && (vars["DEPLOY_TYPE"] !in EnvList ==> r == Failure(Unsupported))
  {
    var env := GetEnv(vars, "DEPLOY_TYPE", EnvDev);
    var err := ValidateEnvironment(env);
    if err.Some? {
      return Failure(err.value);
    }
    return Success(env);
  }

  /** Matching is case-sensitive, and an environment variable set to the
      empty string is not replaced by the fallback and is rejected. */
  lemma ValidationIsExact()
    ensures "Dev" !in EnvList && "PROD" !in EnvList && "" !in EnvList
    ensures GetEnv(map["DEPLOY_TYPE" := ""], "DEPLOY_TYPE", EnvDev) == ""
  {
  }

  /** The base settings: the environment name and the debug flag. */
  datatype Base = Base(environment: string, debug: bool)

  /** `NewBaseConfig`: the environment from "env", debug from "debug". */
  function NewBaseConfig(cfg: Config): (r: Base)
    ensures r.environment == GetString(cfg, "env")
    ensures r.debug <==> "debug" in cfg && cfg["debug"] == VBool(true)
  {
    Base(GetString(cfg, "env"), GetBool(cfg, "debug"))
  }

  /** `IsVerbose`: in development, or when debugging. */
  predicate IsVerbose(b: Base)
  {
    b.environment == EnvDev || b.debug
  }

  /** Verbosity as read from the configuration: verbose exactly when "env"
      is "dev" or "debug" is true; so a production configuration with
      debug on is verbose and any other environment with debug off is
      not. */
  lemma VerboseFromConfig(cfg: Config)
    ensures IsVerbose(NewBaseConfig(cfg)) <==>
      ("env" in cfg && cfg["env"] == VStr(EnvDev)) || ("debug" in cfg && cfg["debug"] == VBool(true))
  {
  }

  /** A configuration without an environment is verbose only when
      debugging: the base settings do not fall back to "dev" as
      `DetermineEnvironment` does. */
  lemma NoEnvironmentKey(cfg: Config)
    requires "env" !in cfg
    ensures NewBaseConfig(cfg).environment == ""
    ensures IsVerbose(NewBaseConfig(cfg)) <==> NewBaseConfig(cfg).debug
  {
  }
}
