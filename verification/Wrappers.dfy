/** Small definitions the other modules share. */
module Wrappers {
  datatype Option<+T> = None | Some(value: T)

  /** The indicator of a condition, for counting. */
  ghost function Unit(b: bool): nat { if b then 1 else 0 }
}
