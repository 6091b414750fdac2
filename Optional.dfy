/** A value that may be absent (`undefined`, `null` or an omitted option). */
module Optional {
  datatype Option<T> = None | Some(value: T)
  {
    /** The value, or `default` when absent: `x ?? default`, and also the
        spread of a partial object over a default one. */
    function GetOr(default: T): (r: T)
      ensures Some? ==> r == value
      ensures None? ==> r == default
    {
      if Some? then value else default
    }
  }
}
