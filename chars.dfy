/** Character classes shared by the client's form checks and its chart labels. */
module Chars {
  /** An ASCII decimal digit: JavaScript's `\d` without the `u` flag, and what `toString` prints. */
  predicate IsDigit(c: char)
  {
    '0' <= c <= '9'
  }
}
