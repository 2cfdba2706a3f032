/** Option and Result, used for JavaScript's `undefined` and Python's `None`
    and for the exceptions the Python converters raise. */
module Wrappers {

  datatype Option<+T> = None | Some(value: T)

  datatype Result<+T, +E> = Ok(value: T) | Err(error: E)

  /** JavaScript's `option || fallback` for a numeric option: `undefined`
      and `0` both give the fallback. */
  function OrDefault(o: Option<int>, fallback: int): (r: int)
    ensures (o.None? || o.value == 0) ==> r == fallback
    ensures (o.Some? && o.value != 0) ==> r == o.value
  {
    if o.Some? && o.value != 0 then o.value else fallback
  }
}
