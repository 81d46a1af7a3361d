/** The weak-pattern checks of `analyze_password_patterns`. Each regular
    expression of the analyzer is written as a predicate over the password,
    and each is related to an independent description of what it detects. */
module PatternDetector {
  import opened Text

  datatype Pattern = Repeated | SequentialNumbers | SequentialLetters | KeyboardRow

  /** The position of a pattern in the analyzer's report. */
  function Rank(p: Pattern): nat
  {
    match p
    case Repeated => 0
    case SequentialNumbers => 1
    case SequentialLetters => 2
    case KeyboardRow => 3
  }

  /** The label the analyzer reports for a pattern. */
  function Message(p: Pattern): string
  {
    match p
    case Repeated => "Contains repeated characters"
    case SequentialNumbers => "Contains sequential numbers"
    case SequentialLetters => "Contains sequential letters"
    case KeyboardRow => "Contains keyboard patterns"
  }

  const DIGIT_RUNS := ["0123", "1234", "2345", "3456", "4567", "5678", "6789", "7890"]
  const LETTER_RUNS := ["abcd", "bcde", "cdef", "defg", "efgh", "fghi", "ghij", "hijk",
                        "ijkl", "jklm", "klmn", "lmno", "mnop", "nopq", "opqr", "pqrs",
                        "qrst", "rstu", "stuv", "tuvw", "uvwx", "vwxy", "wxyz"]
  const KEYBOARD_ROWS := ["qwerty", "asdfgh", "zxcvbn"]

  /** `(.)\1{2,}` matching at `i` with total length `n`: a character other
      than a newline followed by at least two more copies of itself. */
  predicate RepeatRunAt(s: string, i: int, n: int)
  {
    0 <= i && 3 <= n && i + n <= |s| && s[i] != '\n'
    && forall j | i <= j < i + n :: s[j] == s[i]
  }

  predicate HasRepeated(s: string)
  {
    exists i, n | 0 <= i < |s| && 3 <= n <= |s| - i :: RepeatRunAt(s, i, n)
  }

  predicate HasSequentialNumbers(s: string)
  {
    ContainsOneOf(s, DIGIT_RUNS)
  }

  /** Checked on the lowercased password. */
  predicate HasSequentialLetters(s: string)
  {
    ContainsOneOf(Lower(s), LETTER_RUNS)
  }

  /** Checked on the lowercased password. */
  predicate HasKeyboardPattern(s: string)
  {
    ContainsOneOf(Lower(s), KEYBOARD_ROWS)
  }

  predicate Fires(p: Pattern, s: string)
  {
    match p
    case Repeated => HasRepeated(s)
    case SequentialNumbers => HasSequentialNumbers(s)
    case SequentialLetters => HasSequentialLetters(s)
    case KeyboardRow => HasKeyboardPattern(s)
  }

  /** The patterns found in `s`: each one whose check fires, once, in the
      fixed order repeated, numbers, letters, keyboard. */
  function Detected(s: string): (r: seq<Pattern>)
    ensures forall p :: p in r <==> Fires(p, s)
    ensures forall i, j | 0 <= i < j < |r| :: Rank(r[i]) < Rank(r[j])
  {
    (if HasRepeated(s) then [Repeated] else [])
    + (if HasSequentialNumbers(s) then [SequentialNumbers] else [])
    + (if HasSequentialLetters(s) then [SequentialLetters] else [])
    + (if HasKeyboardPattern(s) then [KeyboardRow] else [])
  }

  function Messages(ps: seq<Pattern>): (r: seq<string>)
    ensures |r| == |ps|
    ensures forall i | 0 <= i < |ps| :: r[i] == Message(ps[i])
  {
    seq(|ps|, i requires 0 <= i < |ps| => Message(ps[i]))
  }

  /** `analyze_password_patterns`: one append per check that fires. */
  method AnalyzePasswordPatterns(password: string) returns (patterns: seq<string>)
    ensures patterns == Messages(Detected(password))
  {
    patterns := [];
    if HasRepeated(password) {
      patterns := patterns + ["Contains repeated characters"];
    }
    if HasSequentialNumbers(password) {
      patterns := patterns + ["Contains sequential numbers"];
    }
    if HasSequentialLetters(password) {
      patterns := patterns + ["Contains sequential letters"];
    }
    var lowered := Lower(password);
    if ContainsOneOf(lowered, KEYBOARD_ROWS) {
      patterns := patterns + ["Contains keyboard patterns"];
    }
  }

  // ----- Independent descriptions of the checks -----

  /** Three equal characters in a row, the first not a newline. */
  predicate TripleAt(s: string, i: int)
  {
    0 <= i && i + 3 <= |s| && s[i] != '\n' && s[i + 1] == s[i] && s[i + 2] == s[i]
  }

  /** The `{2,}` quantifier adds nothing over exactly two repeats: a run of
      three or more exists exactly when three in a row do. */
  lemma RepeatedIffTriple(s: string)
    ensures HasRepeated(s) <==> exists i | 0 <= i < |s| :: TripleAt(s, i)
  {
    if HasRepeated(s) {
      var i, n :| 0 <= i < |s| && 3 <= n <= |s| - i && RepeatRunAt(s, i, n);
      assert s[i + 1] == s[i] && s[i + 2] == s[i];
      assert TripleAt(s, i);
    }
    if exists i | 0 <= i < |s| :: TripleAt(s, i) {
      var i :| 0 <= i < |s| && TripleAt(s, i);
      assert RepeatRunAt(s, i, 3);
    }
  }

  /** Four digits counting up by one from `s[i]`, or the wrap-around 7890. */
  predicate DigitRunAt(s: string, i: int)
  {
    0 <= i && i + 4 <= |s|
    && (('0' <= s[i] <= '6'
         && s[i + 1] as int == s[i] as int + 1
         && s[i + 2] as int == s[i] as int + 2
         && s[i + 3] as int == s[i] as int + 3)
        || s[i..i + 4] == "7890")
  }

  /** Four letters counting up by one from `t[i]`, within a..z. */
  predicate LetterRunAt(t: string, i: int)
  {
    0 <= i && i + 4 <= |t|
    && 'a' <= t[i] <= 'w'
    && t[i + 1] as int == t[i] as int + 1
    && t[i + 2] as int == t[i] as int + 2
    && t[i + 3] as int == t[i] as int + 3
  }

  lemma DigitRunShape(k: int)
    requires 0 <= k < 7
    ensures |DIGIT_RUNS[k]| == 4
    ensures forall j | 0 <= j < 4 :: DIGIT_RUNS[k][j] as int == '0' as int + k + j
  {
  }

  lemma LetterRunShape(k: int)
    requires 0 <= k < 23
    ensures |LETTER_RUNS[k]| == 4
    ensures forall j | 0 <= j < 4 :: LETTER_RUNS[k][j] as int == 'a' as int + k + j
  {
  }

  /** The alternation of eight literals finds exactly the ascending runs of
      four digits and the wrap-around 7890. */
  lemma SequentialNumbersIff(s: string)
    ensures HasSequentialNumbers(s) <==> exists i | 0 <= i < |s| :: DigitRunAt(s, i)
  {
    if HasSequentialNumbers(s) {
      var k :| 0 <= k < |DIGIT_RUNS| && Contains(s, DIGIT_RUNS[k]);
      var i :| 0 <= i <= |s| - |DIGIT_RUNS[k]| && OccursAt(s, DIGIT_RUNS[k], i);
      if k < 7 {
        DigitRunShape(k);
        var w := s[i..i + 4];
        assert s[i] == w[0] && s[i + 1] == w[1] && s[i + 2] == w[2] && s[i + 3] == w[3];
      }
      assert DigitRunAt(s, i);
    }
    if exists i | 0 <= i < |s| :: DigitRunAt(s, i) {
      var i :| 0 <= i < |s| && DigitRunAt(s, i);
      var k := if '0' <= s[i] <= '6' then s[i] as int - '0' as int else 7;
      if k < 7 && s[i + 1] as int == s[i] as int + 1
         && s[i + 2] as int == s[i] as int + 2 && s[i + 3] as int == s[i] as int + 3 {
        DigitRunShape(k);
        assert s[i..i + 4] == DIGIT_RUNS[k];
      } else {
        assert s[i..i + 4] == "7890";
        k := 7;
      }
      assert OccursAt(s, DIGIT_RUNS[k], i);
    }
  }

  lemma LetterRunsFound(t: string)
    requires ContainsOneOf(t, LETTER_RUNS)
    ensures exists i | 0 <= i < |t| :: LetterRunAt(t, i)
  {
    var k :| 0 <= k < |LETTER_RUNS| && Contains(t, LETTER_RUNS[k]);
    var i :| 0 <= i <= |t| - |LETTER_RUNS[k]| && OccursAt(t, LETTER_RUNS[k], i);
    LetterRunShape(k);
    var w := t[i..i + 4];
    assert t[i] == w[0] && t[i + 1] == w[1] && t[i + 2] == w[2] && t[i + 3] == w[3];
    assert LetterRunAt(t, i);
  }

  lemma LetterRunsMatched(t: string, i: int)
    requires LetterRunAt(t, i)
    ensures ContainsOneOf(t, LETTER_RUNS)
  {
    var k := t[i] as int - 'a' as int;
    LetterRunShape(k);
    assert t[i..i + 4] == LETTER_RUNS[k];
    assert OccursAt(t, LETTER_RUNS[k], i);
  }

  /** The alternation of 23 literals finds exactly the ascending runs of four
      letters in the lowercased password. */
  lemma SequentialLettersIff(s: string)
    ensures HasSequentialLetters(s) <==> exists i | 0 <= i < |s| :: LetterRunAt(Lower(s), i)
  {
    var t := Lower(s);
    if HasSequentialLetters(s) {
      LetterRunsFound(t);
    }
    if exists i | 0 <= i < |s| :: LetterRunAt(t, i) {
      var i :| 0 <= i < |s| && LetterRunAt(t, i);
      LetterRunsMatched(t, i);
    }
  }

  // ----- What each check implies about the password -----

  lemma RepeatedNeedsThree(s: string)
    requires HasRepeated(s)
    ensures |s| >= 3
  {
  }

  /** A run of digits needs four characters, at least one of them a digit. */
  lemma SequentialNumbersNeedDigit(s: string)
    requires HasSequentialNumbers(s)
    ensures |s| >= 4
    ensures exists i | 0 <= i < |s| :: IsDigit(s[i])
  {
    SequentialNumbersIff(s);
    var i :| 0 <= i < |s| && DigitRunAt(s, i);
    if !('0' <= s[i] <= '6') {
      assert s[i] == s[i..i + 4][0] == '7';
    }
    assert IsDigit(s[i]);
  }

  /** A run of letters needs four characters, at least one of them an ASCII
      letter of either case. */
  lemma SequentialLettersNeedLetter(s: string)
    requires HasSequentialLetters(s)
    ensures |s| >= 4
    ensures exists i | 0 <= i < |s| :: IsLowerLetter(s[i]) || IsUpperLetter(s[i])
  {
    SequentialLettersIff(s);
    var i :| 0 <= i < |s| && LetterRunAt(Lower(s), i);
    assert Lower(s)[i] == LowerChar(s[i]);
    assert IsLowerLetter(s[i]) || IsUpperLetter(s[i]);
  }

  /** One example of each check firing. */
  lemma DetectionExamples()
    ensures Repeated in Detected("aaa")
    ensures SequentialNumbers in Detected("1234")
    ensures SequentialLetters in Detected("abcd")
    ensures KeyboardRow in Detected("qwerty123")
  {
    assert RepeatRunAt("aaa", 0, 3);
    assert OccursAt("1234", DIGIT_RUNS[1], 0);
    assert Lower("abcd") == "abcd";
    assert OccursAt(Lower("abcd"), LETTER_RUNS[0], 0);
    assert Lower("qwerty123")[..6] == "qwerty";
    assert OccursAt(Lower("qwerty123"), KEYBOARD_ROWS[0], 0);
  }
}
