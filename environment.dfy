/** The process environment, given as a value instead of being read with `os.getenv`. */
module Environment {
  import opened Wrappers

  type Env = map<string, string>

  /** `os.getenv(name)`. */
  function Getenv(env: Env, name: string): Option<string>
  {
    if name in env then Some(env[name]) else None
  }

  /** `os.getenv(name, default)`: the default is used only when the variable is unset, not when it is empty. */
  function GetenvOr(env: Env, name: string, default: string): string
  {
    if name in env then env[name] else default
  }

  /** Python truthiness of an optional string: set and non-empty. */
  predicate IsSet(value: Option<string>)
  {
    value.Some? && value.value != ""
  }

  /** `MAUTIC_URL`, `MAUTIC_USER` and `MAUTIC_PASSWORD` are all set and non-empty. */
  predicate HasCredentials(env: Env)
  {
    IsSet(Getenv(env, "MAUTIC_URL")) && IsSet(Getenv(env, "MAUTIC_USER")) && IsSet(Getenv(env, "MAUTIC_PASSWORD"))
  }
}
