/** What several modules share. */
module Basics {
  datatype Option<+T> = None | Some(value: T)

  /** s without its i-th element. */
  function Without<T>(s: seq<T>, i: nat): seq<T>
    requires i < |s|
  {
    s[..i] + s[i + 1..]
  }
}
