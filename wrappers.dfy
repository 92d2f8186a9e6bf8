/** Optional values: JavaScript's `undefined`/`null` next to a present value. */
module Wrappers {

  datatype Option<+T> = None | Some(value: T)
  {
    /** The value if present, `default` otherwise. */
    function GetOr(default: T): T
    {
      if Some? then value else default
    }
  }
}
