/** An optional value: a style attribute the theme may lack, or paints not yet configured. */
module Optional {

  datatype Maybe<T> = Absent | Present(value: T)

  /** The value when present, else `fallback`. */
  function ValueOr<T>(a: Maybe<T>, fallback: T): (v: T)
    ensures a.Present? ==> v == a.value
    ensures a.Absent? ==> v == fallback
  {
    if a.Present? then a.value else fallback
  }
}
