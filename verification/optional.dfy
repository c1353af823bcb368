/** Lookups that may miss: an unknown upgrade key, or a stats field that
    no upgrade in the store writes. */
module Optional {

  datatype Option<T> = None | Some(value: T)

  /** The found value, falling back to `fallback` on a miss. */
  function Otherwise<T>(o: Option<T>, fallback: T): (r: T)
    ensures o.Some? ==> r == o.value
    ensures o.None? ==> r == fallback
  {
    if o.Some? then o.value else fallback
  }
}
