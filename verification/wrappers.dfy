/** Optional values, standing in for Python's `None`. */
module Wrappers {

  datatype Option<+T> = None | Some(value: T) {

    /** The value if there is one, else `fallback`: the second argument of
        Python's `dict.get(key, fallback)` and of `getattr(obj, name, fallback)`. */
    function Otherwise(fallback: T): T {
      if Some? then value else fallback
    }
  }
}
