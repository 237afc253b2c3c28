/** Types shared by every module. */
module Basics {

  datatype Option<+T> = None | Some(value: T)

  datatype Result<+T> = Ok(value: T) | Err

  newtype byte = x: int | 0 <= x < 256

  type Bytes = seq<byte>

  /**
   A double, as a count of units of 2^-1074. Every finite double is a whole number of them, so two doubles are equal
   exactly if their counts are.
   */
  type Double = int

  /** The last element of a history. */
  function Last<T>(s: seq<T>): T
    requires s != []
  {
    s[|s| - 1]
  }

  predicate HasSuffix(s: string, suffix: string) {
    |suffix| <= |s| && s[|s| - |suffix|..] == suffix
  }
}
