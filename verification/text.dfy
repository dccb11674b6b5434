/**
 * The Python string methods the server relies on, restricted to ASCII:
 * `lower`, `upper`, `title`, `startswith`, `endswith`, `removeprefix`,
 * substring `in`, and the icon slug `s.lower().replace(" ", "-")`.
 */
module Text {

  predicate IsUpperChar(c: char) { 'A' <= c <= 'Z' }

  predicate IsLowerChar(c: char) { 'a' <= c <= 'z' }

  /** A cased character, the kind `str.title` treats as part of a word. */
  predicate IsLetter(c: char) { IsUpperChar(c) || IsLowerChar(c) }

  function LowerChar(c: char): char {
    if IsUpperChar(c) then (c as int + 32) as char else c
  }

  function UpperChar(c: char): char {
    if IsLowerChar(c) then (c as int - 32) as char else c
  }

  function Lower(s: string): string {
    seq(|s|, i requires 0 <= i < |s| => LowerChar(s[i]))
  }

  function Upper(s: string): string {
    seq(|s|, i requires 0 <= i < |s| => UpperChar(s[i]))
  }

  /**
   * `str.title`: a letter that follows a letter is lower-cased, any other
   * letter is upper-cased; everything else is kept.
   */
  function Title(s: string): string {
    seq(|s|, i requires 0 <= i < |s| =>
      if !IsLetter(s[i]) then s[i]
      else if i > 0 && IsLetter(s[i - 1]) then LowerChar(s[i])
      else UpperChar(s[i]))
  }

  /** `s.replace(a, b)` for one-character `a` and `b`. */
  function ReplaceChar(s: string, a: char, b: char): string {
    seq(|s|, i requires 0 <= i < |s| => if s[i] == a then b else s[i])
  }

  /** `s.lower().replace(" ", "-")`, the icon name derived from a label. */
  function Slug(s: string): string {
    ReplaceChar(Lower(s), ' ', '-')
  }

  /** What every slug looks like: no upper-case letter and no space. */
  predicate IsSlug(s: string) {
    forall i :: 0 <= i < |s| ==> !IsUpperChar(s[i]) && s[i] != ' '
  }

  predicate StartsWith(s: string, prefix: string) {
    |prefix| <= |s| && s[..|prefix|] == prefix
  }

  predicate EndsWith(s: string, suffix: string) {
    |suffix| <= |s| && s[|s| - |suffix|..] == suffix
  }

  /** `s.removeprefix(prefix)`: drops one occurrence at the start, if any. */
  function RemovePrefix(s: string, prefix: string): (r: string)
    ensures StartsWith(s, prefix) ==> prefix + r == s
    ensures !StartsWith(s, prefix) ==> r == s
  {
    if StartsWith(s, prefix) then s[|prefix|..] else s
  }

  /** `sub in s` */
  predicate Contains(s: string, sub: string) {
    StartsWith(s, sub) || (|s| > 0 && Contains(s[1..], sub))
  }

  lemma LowerIdempotent(s: string)
    ensures Lower(Lower(s)) == Lower(s)
  {
  }

  /** Every slug is a slug of itself, and contains no capital nor space. */
  lemma SlugIdempotent(s: string)
    ensures IsSlug(Slug(s))
    ensures Slug(Slug(s)) == Slug(s)
  {
  }

  /** `removeprefix` undoes prepending the prefix. */
  lemma RemovePrefixOfPrepend(prefix: string, s: string)
    ensures RemovePrefix(prefix + s, prefix) == s
  {
    assert (prefix + s)[..|prefix|] == prefix;
  }
}
