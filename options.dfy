/** An optional value: TypeScript's `T | undefined` (and `T | null`) in this model. */
module Options {

  datatype Option<+T> = None | Some(value: T)

  /** The value if present, otherwise `default` (the `?? default` and `|| default` of the page). */
  function GetOr<T>(o: Option<T>, default: T): (r: T)
    ensures o.Some? ==> r == o.value
    ensures o.None? ==> r == default
  {
    match o
    case Some(v) => v
    case None => default
  }

  /** `a` when it is defined, otherwise `b`: the later of two writes to one key wins when it happens. */
  function FirstDefined<T>(a: Option<T>, b: Option<T>): (r: Option<T>)
    ensures r.Some? <==> a.Some? || b.Some?
    ensures a.Some? ==> r == a
    ensures a.None? ==> r == b
  {
    if a.Some? then a else b
  }
}
