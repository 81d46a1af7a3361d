/** Character and substring helpers shared by the evaluator: the ASCII
    character classes, ASCII lowercasing, and the substring searches that
    stand in for the regular expressions of the analyzer. */
module Text {

  predicate IsLowerLetter(c: char) { 'a' <= c <= 'z' }

  predicate IsUpperLetter(c: char) { 'A' <= c <= 'Z' }

  predicate IsDigit(c: char) { '0' <= c <= '9' }

  /** True when some character of `s` is one of `chars` (Python's
      `any(c in chars for c in s)`). */
  predicate ContainsAny(s: string, chars: string)
  {
    exists i | 0 <= i < |s| :: s[i] in chars
  }

  /** ASCII lowercasing of one character; every other character is kept. */
  function LowerChar(c: char): (r: char)
    ensures IsUpperLetter(c) ==> IsLowerLetter(r) && r as int == c as int + 32
    ensures !IsUpperLetter(c) ==> r == c
  {
    if IsUpperLetter(c) then (c as int + 32) as char else c
  }

  function Lower(s: string): (r: string)
    ensures |r| == |s|
    ensures forall i | 0 <= i < |s| :: r[i] == LowerChar(s[i])
  {
    seq(|s|, i requires 0 <= i < |s| => LowerChar(s[i]))
  }

  /** `w` occurs in `s` starting at index `i`. */
  predicate OccursAt(s: string, w: string, i: int)
  {
    0 <= i && i + |w| <= |s| && s[i..i + |w|] == w
  }

  /** Python's `w in s` for strings: `w` is a substring of `s`. */
  predicate Contains(s: string, w: string)
  {
    exists i | 0 <= i <= |s| - |w| :: OccursAt(s, w, i)
  }

  /** `re.search` with an alternation of literals: one of `ws` is a substring of `s`. */
  predicate ContainsOneOf(s: string, ws: seq<string>)
  {
    exists k | 0 <= k < |ws| :: Contains(s, ws[k])
  }
}
