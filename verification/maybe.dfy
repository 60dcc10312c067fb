/** Nullable values and fallible results, standing in for Python's `None`
    and for exceptions that the modelled code catches or lets escape. */
module Maybe {

  /** A nullable column or an optional value. */
  datatype Option<+T> = None | Some(value: T) {

    /** The value, or `default` when there is none. */
    function GetOr(default: T): T {
      match this
      case Some(v) => v
      case None => default
    }
  }

  /** A value, or the text of the exception raised instead of it. */
  datatype Result<+T> = Ok(value: T) | Err(error: string)
}
