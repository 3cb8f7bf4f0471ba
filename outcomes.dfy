/** Python's `None`-or-value and raise-or-return, as datatypes. */
module Outcomes {

  /** An `Optional[...]` value: `None` or a value. */
  datatype Option<+T> = None | Some(value: T)
  {
    /** `d.get(k, default)`-style fallback. */
    function GetOr(default: T): T
    {
      match this
      case Some(v) => v
      case None => default
    }
  }

  /** A call that either returns a value or raises an exception. */
  datatype Result<+T, +E> = Ok(value: T) | Err(error: E)
}
