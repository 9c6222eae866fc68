/** Option, Result and Outcome types, and the two Python exceptions the
    interpreter can raise on malformed input or unresolved references. */
module Wrappers {

  datatype Option<+T> = None | Some(value: T)

  /** A failed dictionary lookup (`KeyError`, the key may be Python's `None`)
      or an XPath result list indexed at 0 while empty (`IndexError`). */
  datatype Failure =
    | KeyError(key: Option<string>)
    | IndexError(path: string)

  datatype Result<+T> = Ok(value: T) | Err(error: Failure)

  /** The outcome of a statement that returns nothing but may raise. */
  datatype Outcome = Pass | Fail(error: Failure)

  /** A dictionary lookup `d[k]` where `k` may be `None`. */
  function Lookup<V>(d: map<string, V>, k: Option<string>): (r: Result<V>)
    ensures r.Ok? <==> k.Some? && k.value in d
    ensures r.Ok? ==> r.value == d[k.value]
    ensures r.Err? ==> r.error == KeyError(k)
  {
    if k.Some? && k.value in d then Ok(d[k.value]) else Err(KeyError(k))
  }
}
