/** The optional value used wherever the firmware may hold a NULL. */
module Wrappers {
  datatype Option<+T> = None | Some(value: T)
  {
    /** The value held, or `default` for None. */
    function UnwrapOr(default: T): T {
      if Some? then value else default
    }
  }
}
