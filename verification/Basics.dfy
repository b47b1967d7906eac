/** Optional values, and sequences taken apart at their end. */
module Basics {
  datatype Option<T> = None | Some(value: T)

  function Init<T>(q: seq<T>): seq<T>
    requires q != []
  {
    q[..|q| - 1]
  }

  function Last<T>(q: seq<T>): T
    requires q != []
  {
    q[|q| - 1]
  }
}
