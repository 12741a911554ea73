/** Small definitions shared by every page of the model. */
module Common {

  /** A value that may be missing (JavaScript `undefined`). */
  datatype Option<+T> = None | Some(value: T)

  /** `x || 0` on a number that may be missing: a missing number and 0 both give 0. */
  function Or0(x: Option<int>): int
  {
    if x.Some? then x.value else 0
  }
}
