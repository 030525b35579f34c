/** Failure-carrying wrappers shared by every module: Python's `None` and
    raised exceptions become values. */
module Base {

  /** An optional value: `None` stands for Python's `None` or a missing key. */
  datatype Option<+T> = None | Some(value: T) {
    function GetOr(default: T): T {
      match this
      case Some(v) => v
      case None => default
    }
  }

  /** The outcome of a call that either returns `value` or raises with `msg`. */
  datatype Result<+T> = Ok(value: T) | Err(msg: string) {
    predicate IsFailure() {
      Err?
    }

    function PropagateFailure<U>(): Result<U>
      requires Err?
    {
      Err(msg)
    }

    function Extract(): T
      requires Ok?
    {
      value
    }
  }

  /** Process environment variables, as read by `os.getenv` / `process.env`. */
  type Env = map<string, string>

  /** `os.getenv(name)`: a variable that is set to "" reads back as "". */
  function GetEnv(env: Env, name: string): Option<string> {
    if name in env then Some(env[name]) else None
  }

  /** `os.getenv(name, default)`. */
  function GetEnvOr(env: Env, name: string, default: string): string {
    GetEnv(env, name).GetOr(default)
  }

  /** Python truthiness of an optional string: set and non-empty. */
  predicate Truthy(v: Option<string>) {
    v.Some? && v.value != ""
  }

  /** `a or b` for optional strings. */
  function OrElse(a: Option<string>, b: string): string {
    if Truthy(a) then a.value else b
  }
}
