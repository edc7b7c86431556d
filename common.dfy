/** Small value types shared by the registries. */
module Common {

  /** A value that may be absent: Python's `None` on the one side, a value on the other. */
  datatype Option<+T> = None | Some(value: T)

  function Max(a: int, b: int): int
  {
    if a < b then b else a
  }

  /** Python's `s.startswith(prefix)`. */
  predicate StartsWith(s: string, prefix: string)
  {
    |prefix| <= |s| && s[..|prefix|] == prefix
  }
}
