/**
 * Required environment variables. The process environment is the map `env`; a variable
 * that is not set is absent from it.
 */
module ConfigUtils {
  import opened Common

  type Env = map<string, string>

  datatype ConfigError =
    | MissingRequiredEnvVariable(name: string)
    | InvalidEnvironment(env: Option<string>)

  /** `process.env[name]`: the variable's value, or nothing when it is not set. */
  function Lookup(env: Env, name: string): (r: Option<string>)
    ensures r.Some? <==> name in env
    ensures r.Some? ==> r.value == env[name]
  {
    if name in env then Some(env[name]) else None
  }

  /** Whether the process runs under the test runner. */
  predicate IsTestRun(env: Env) {
    Lookup(env, "NODE_ENV") == Some("test")
  }

  /**
   * `getRequiredEnvVariable`: outside the test runner, a variable that is unset or empty is
   * an error; otherwise its value, set or not, is returned as it is.
   */
  function GetRequiredEnvVariable(env: Env, name: string): (r: Result<Option<string>, ConfigError>)
    ensures r.Err? <==> !IsTestRun(env) && (name !in env || env[name] == "")
    ensures r.Err? ==> r.error == MissingRequiredEnvVariable(name)
    ensures r.Ok? ==> r.value == Lookup(env, name)
  {
    var value := Lookup(env, name);
    if !IsTestRun(env) && (value.None? || value.value == "") then Err(MissingRequiredEnvVariable(name))
    else Ok(value)
  }

  /**
   * `getRequiredProdEnvVariable`: required as above when `ENV` is `prod`; in any other
   * environment the raw value, set or not.
   */
  function GetRequiredProdEnvVariable(env: Env, name: string): (r: Result<Option<string>, ConfigError>)
    ensures Lookup(env, "ENV") == Some("prod") ==> r == GetRequiredEnvVariable(env, name)
    ensures Lookup(env, "ENV") != Some("prod") ==> r == Ok(Lookup(env, name))
  {
    if Lookup(env, "ENV") == Some("prod") then GetRequiredEnvVariable(env, name) else Ok(Lookup(env, name))
  }

  /** Under the test runner a required variable never fails, even when it is not set. */
  lemma TestRunNeverFails(env: Env, name: string)
    requires IsTestRun(env)
    ensures GetRequiredEnvVariable(env, name) == Ok(Lookup(env, name))
    ensures GetRequiredProdEnvVariable(env, name) == Ok(Lookup(env, name))
  {
  }

  /** A variable with a non-empty value is always returned, in every environment. */
  lemma SetVariableIsReturned(env: Env, name: string)
    requires name in env && env[name] != ""
    ensures GetRequiredEnvVariable(env, name) == Ok(Some(env[name]))
    ensures GetRequiredProdEnvVariable(env, name) == Ok(Some(env[name]))
  {
  }

  /** A prod-only requirement fails only in prod, and then exactly when the plain requirement fails. */
  lemma ProdRequirementFailsOnlyInProd(env: Env, name: string)
    ensures GetRequiredProdEnvVariable(env, name).Err?
            <==> Lookup(env, "ENV") == Some("prod") && GetRequiredEnvVariable(env, name).Err?
  {
  }

  /** The environments the configuration accepts. */
  const ValidEnvironments: set<string> := {"local", "staging", "prod"}

  /** The configuration's check: outside the test runner `ENV` must name a valid environment. */
  function ValidateEnvironment(env: Env): (r: Result<Option<string>, ConfigError>)
    ensures r.Err? <==> !IsTestRun(env) && (Lookup(env, "ENV").None? || env["ENV"] !in ValidEnvironments)
    ensures r.Err? ==> r.error == InvalidEnvironment(Lookup(env, "ENV"))
    ensures r.Ok? ==> r.value == Lookup(env, "ENV")
  {
    var e := Lookup(env, "ENV");
    if !IsTestRun(env) && (e.None? || e.value !in ValidEnvironments) then Err(InvalidEnvironment(e))
    else Ok(e)
  }
}
