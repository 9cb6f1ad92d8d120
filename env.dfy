/** The process environment as the tool reads it through `os.getenv`. */
module Env {
  import opened Common

  /** The environment variables the tool consults. */
  datatype Var =
    | GithubToken
    | OpenAiApiKey
    | GoogleApiKey
    | AnthropicApiKey
    | GrokApiKey
    | CloudRunUrl
    | CloudRunToken

  type Environment = map<Var, string>

  /**
   * `os.getenv(v)`: the value when the variable exists, else `None`. The rest
   * of the model reads variables through `IsSet`; `IsSetIffGetenvTruthy` is
   * the link between that test and `os.getenv`.
   */
  function Getenv(env: Environment, v: Var): (r: Option<string>)
    ensures r.Some? <==> v in env
    ensures r.Some? ==> r.value == env[v]
  {
    if v in env then Some(env[v]) else None
  }

  /** `os.getenv(v)` is truthy: the variable exists and is not the empty string. */
  predicate IsSet(env: Environment, v: Var) {
    v in env && env[v] != ""
  }

  /** A variable is set exactly when `os.getenv` returns a value other than the empty string. */
  lemma {:induction false} IsSetIffGetenvTruthy(env: Environment, v: Var)
    ensures IsSet(env, v) <==> Getenv(env, v).Some? && Getenv(env, v).value != ""
  {
  }
}
