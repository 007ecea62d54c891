/** The few PHP value semantics the core depends on. */
module Php {
  /**
   * `empty($s)` and `!$s` for a string: true for the empty string and
   * for the string "0", false for every other string.
   */
  predicate IsEmptyString(s: string) {
    s == "" || s == "0"
  }
}
