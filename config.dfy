/**
 * Startup configuration as both programs read it: `mustEnv` reads one
 * environment variable and stops the process when it is empty or unset.
 * The process environment is a map; `os.Getenv` yields "" for an unset key.
 */
module Config {
  import opened Wrappers

  type Env = map<string, string>

  /** The one process-fatal runtime outcome: a required variable is missing. */
  datatype Fatal = MissingEnv(key: string)

  /** `os.Getenv`: the value, or "" when the key is unset. */
  function Getenv(env: Env, key: string): string
  {
    if key in env then env[key] else ""
  }

  /** `mustEnv`: the value when it is non-empty, otherwise the fatal stop naming the key. */
  function MustEnv(env: Env, key: string): (r: Result<string, Fatal>)
    ensures r.Ok? <==> key in env && env[key] != ""
    ensures r.Ok? ==> r.value == env[key] && r.value != ""
    ensures r.Err? ==> r.error == MissingEnv(key)
  {
    var v := Getenv(env, key);
    if v == "" then Err(MissingEnv(key)) else Ok(v)
  }

  /**
   * A run of `mustEnv` calls in program order. The first missing key stops the
   * process (`log.Fatalf` does not return), so later keys are never read.
   */
  function MustEnvAll(env: Env, keys: seq<string>): (r: Result<seq<string>, Fatal>)
    ensures r.Ok? <==> forall i :: 0 <= i < |keys| ==> Getenv(env, keys[i]) != ""
    ensures r.Ok? ==> |r.value| == |keys|
    ensures r.Ok? ==> forall i :: 0 <= i < |keys| ==> r.value[i] == Getenv(env, keys[i])
    ensures r.Err? ==> exists i :: && 0 <= i < |keys|
                                   && r.error == MissingEnv(keys[i])
                                   && Getenv(env, keys[i]) == ""
                                   && forall j :: 0 <= j < i ==> Getenv(env, keys[j]) != ""
    decreases |keys|
  {
    if keys == [] then Ok([])
    else
      match MustEnv(env, keys[0])
      case Err(e) => Err(e)
      case Ok(v) =>
        match MustEnvAll(env, keys[1..])
        case Err(e) => assert forall j :: 0 <= j < |keys| - 1 ==> keys[1..][j] == keys[j + 1]; Err(e)
        case Ok(vs) => Ok([v] + vs)
  }
}
