/** The run-time values the TypeScript code inspects, what it throws, what the
    SDKs it calls return, and the process environment it reads. */
module Runtime {
  import opened Wrappers

  /** A JavaScript value as seen through `typeof`, `Array.isArray` and `in`. */
  datatype JsValue =
    | Undefined
    | Null
    | Bool(b: bool)
    | Number(n: real)
    | Str(s: string)
    | Arr(items: seq<JsValue>)
    | Obj(fields: map<string, JsValue>)

  /** What a `throw` carries: a ZodError (its flattened issues, as the failing
      field paths), any other Error (its message), or a value that is not an Error. */
  datatype Thrown = ZodError(issues: seq<string>) | Error(message: string) | NonError

  /** The outcome of an awaited SDK or driver call: a value, or a rejection. */
  datatype Sdk<+T> = Returned(value: T) | Raised(thrown: Thrown)

  /** `process.env` / `ConfigService`: a variable is either unset or set to a string. */
  type Env = map<string, string>

  /** Reading one variable; an unset variable is `undefined`, distinct from `""`. */
  function Get(env: Env, key: string): (r: Option<string>)
    ensures r.Some? <==> key in env
    ensures r.Some? ==> r.value == env[key]
  {
    if key in env then Some(env[key]) else None
  }
}
