/** The optional value used wherever the app reads a possibly-missing
    field (`undefined`) or a possibly-missing storage entry. */
module Options {

  datatype Option<+T> = None | Some(value: T) {

    /** `x || fallback` style defaulting on a missing value. */
    function GetOr(default: T): T {
      match this
      case Some(v) => v
      case None => default
    }
  }
}
