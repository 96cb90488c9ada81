/** String helpers shared by the text and image modules. */
module Strings {

  /** `s.startsWith(p)`: `p` is the first `|p|` characters of `s`. */
  predicate IsPrefix(p: string, s: string) {
    |p| <= |s| && p == s[..|p|]
  }
}
