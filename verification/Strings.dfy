/**
  Operations of the string libraries that several parts of the program use.
 */
module Strings {
  /** tolower, MakeLower */
  function LowerChar(c: char): char {
    if 'A' <= c <= 'Z' then (c as int + 32) as char else c
  }

  /** Find(start) == 0 */
  predicate StartsWith(s: string, start: string) {
    |start| <= |s| && s[..|start|] == start
  }

  /** Characters are the same ignoring case if they are the same or a capital letter and its small one. */
  lemma SameIgnoringCase(c: char, d: char)
    ensures LowerChar(c) == LowerChar(d) <==>
      || c == d
      || ('A' <= c <= 'Z' && d as int == c as int + 32)
      || ('A' <= d <= 'Z' && c as int == d as int + 32)
  {
  }
}
