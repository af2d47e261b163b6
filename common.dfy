/** Failure values shared by every module: the Python exceptions the core raises or lets escape. */
module Common {

  datatype Option<+T> = None | Some(value: T)

  /** The Python exception classes that occur in the core. */
  datatype ExcKind =
    | RuntimeError
    | ValueError
    | KeyError
    | TypeError
    | AttributeError
    | FileNotFoundError
    | ConnectionError

  /** An exception: its class and `str(e)`. */
  datatype Exc = Exc(kind: ExcKind, msg: string)

  /** A computation that either returns a value or raises. */
  datatype Result<+T> = Ok(value: T) | Err(exc: Exc)

  /** `d.get(key)` on a dict with string keys, as an option. */
  function At<V>(d: map<string, V>, key: string): (r: Option<V>)
    ensures r.Some? <==> key in d
    ensures r.Some? ==> r.value == d[key]
  {
    if key in d then Some(d[key]) else None
  }

  /** `str(KeyError(key))` quotes the key. */
  function KeyErr(key: string): Exc {
    Exc(KeyError, "'" + key + "'")
  }

  function Runtime(msg: string): Exc {
    Exc(RuntimeError, msg)
  }

  predicate StartsWith(s: string, prefix: string) {
    |prefix| <= |s| && s[..|prefix|] == prefix
  }
}
