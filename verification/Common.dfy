/** What several parts of the model share. */
module Common {

  datatype Option<+T> = None | Some(value: T)

  /** The Python operator `in` on strings. */
  predicate Contains(text: string, part: string) {
    exists i | 0 <= i <= |text| - |part| :: text[i..][..|part|] == part
  }
}
