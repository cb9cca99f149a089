/** Optional values, results, and the two Python exception kinds the core raises. */
module Wrappers {

  datatype Option<+T> = None | Some(value: T)

  /** A Python exception, identified by its class and its first argument. */
  datatype Error =
    | ValueError(message: string)   // a configuration value outside a closed set
    | KeyError(arg: string)         // a missing dictionary key, or a failed enum lookup

  datatype Result<+T> = Ok(value: T) | Err(error: Error)

  /** `value` when present, otherwise `default`: Python's `dict.get(key, default)`. */
  function GetOr<T>(o: Option<T>, default: T): (r: T)
    ensures o.Some? ==> r == o.value
    ensures o.None? ==> r == default
  {
    match o
    case Some(v) => v
    case None => default
  }

  /** Python's `dict.get(key, default)` on a map. */
  function MapGet<K, V>(m: map<K, V>, k: K, default: V): (r: V)
    ensures k in m ==> r == m[k]
    ensures k !in m ==> r == default
  {
    if k in m then m[k] else default
  }
}
