/** The optional value used wherever the source produces `null`/`undefined`
    or a value that may be absent. */
module Wrappers {

  datatype Option<+T> = None | Some(value: T)
  {
    function GetOr(default: T): T
    {
      match this
      case Some(v) => v
      case None => default
    }
  }
}
