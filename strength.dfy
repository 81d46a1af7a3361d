/** `calculate_password_strength`: four integer components summed into a raw
    total, the 0-4 displayed score and the warning derived from it, the
    ordered suggestions, and the keyspace behind the crack-time estimate. */
module StrengthScorer {
  import opened Text
  import opened EntropyEstimator
  import opened PatternDetector

  /** The 20 characters of the class `[!@#$%^&*(),.?":{}|<>]`. */
  const SPECIAL := "!@#$%^&*(),.?\":{}|<>"

  const WARNINGS := ["This password is very weak", "This password is weak",
                     "This password is moderate", "This password is strong",
                     "This password is very strong"]

  // ----- The four character-class flags of the variety check -----

  predicate HasLower(s: string) { exists i | 0 <= i < |s| :: IsLowerLetter(s[i]) }

  predicate HasUpper(s: string) { exists i | 0 <= i < |s| :: IsUpperLetter(s[i]) }

  predicate HasDigit(s: string) { exists i | 0 <= i < |s| :: IsDigit(s[i]) }

  predicate HasSpecial(s: string) { ContainsAny(s, SPECIAL) }

  function Flag(b: bool): nat { if b then 1 else 0 }

  function Min(a: int, b: int): int { if a <= b then a else b }

  // ----- The components -----

  /** `min(4, len // 3)`: one point per three characters, full marks from 12. */
  function LengthScore(s: string): (r: int)
    ensures 0 <= r <= 4
    ensures r == 4 <==> |s| >= 12
    ensures r < 4 ==> 3 * r <= |s| < 3 * r + 3
  {
    Min(4, |s| / 3)
  }

  /** One point per character class present. */
  function VarietyScore(s: string): (r: int)
    ensures 0 <= r <= 4
    ensures r == 0 <==> !HasLower(s) && !HasUpper(s) && !HasDigit(s) && !HasSpecial(s)
    ensures r == 4 <==> HasLower(s) && HasUpper(s) && HasDigit(s) && HasSpecial(s)
  {
    Flag(HasLower(s)) + Flag(HasUpper(s)) + Flag(HasDigit(s)) + Flag(HasSpecial(s))
  }

  /** The patterns that cost a point: every detected one but the keyboard row. */
  function Penalised(ps: seq<Pattern>): (r: seq<Pattern>)
    ensures |r| <= |ps|
    ensures forall p :: p in r <==> p in ps && p != KeyboardRow
    ensures forall i | 0 <= i < |r| :: r[i] != KeyboardRow
  {
    if ps == [] then []
    else (if ps[0] != KeyboardRow then [ps[0]] else []) + Penalised(ps[1..])
  }

  lemma {:induction false} PenalisedAppend(a: seq<Pattern>, b: seq<Pattern>)
    ensures Penalised(a + b) == Penalised(a) + Penalised(b)
  {
    if a == [] {
      assert a + b == b;
    } else {
      assert (a + b)[1..] == a[1..] + b;
      PenalisedAppend(a[1..], b);
    }
  }

  /** A list without the keyboard row is its own penalised part. */
  lemma {:induction false} PenalisedKeeps(ps: seq<Pattern>)
    requires KeyboardRow !in ps
    ensures Penalised(ps) == ps
  {
    if ps != [] {
      assert ps == [ps[0]] + ps[1..];
      PenalisedKeeps(ps[1..]);
    }
  }

  /** Of the detected patterns, the penalised ones are the first three checks. */
  lemma PenalisedDetected(s: string)
    ensures Penalised(Detected(s)) ==
              (if HasRepeated(s) then [Repeated] else [])
              + (if HasSequentialNumbers(s) then [SequentialNumbers] else [])
              + (if HasSequentialLetters(s) then [SequentialLetters] else [])
  {
    var abc := (if HasRepeated(s) then [Repeated] else [])
               + (if HasSequentialNumbers(s) then [SequentialNumbers] else [])
               + (if HasSequentialLetters(s) then [SequentialLetters] else []);
    var d := if HasKeyboardPattern(s) then [KeyboardRow] else [];
    assert Detected(s) == abc + d;
    PenalisedAppend(abc, d);
    PenalisedKeeps(abc);
    assert Penalised(d) == [] by {
      if d != [] {
        assert d[1..] == [];
      }
    }
  }

  /** Starts at 2 and loses a point per penalised pattern, with no clamp at 0. */
  function PatternScore(s: string): (r: int)
    ensures -1 <= r <= 2
    ensures r == 2 - |Penalised(Detected(s))|
  {
    PenalisedDetected(s);
    2 - Flag(HasRepeated(s)) - Flag(HasSequentialNumbers(s)) - Flag(HasSequentialLetters(s))
  }

  /** `min(2, int(entropy / 50))`; the entropy is a whole number, so the float
      division truncates to the integer quotient. */
  function EntropyScore(s: string): (r: int)
    ensures 0 <= r <= 2
    ensures r == 0 <==> Entropy(s) < 50
    ensures r == 2 <==> Entropy(s) >= 100
    ensures r >= 1 ==> |s| >= 8
    ensures r == 2 ==> |s| >= 15
  {
    EntropyRange(s);
    Min(2, Entropy(s) / 50)
  }

  function RawTotal(s: string): int
  {
    LengthScore(s) + VarietyScore(s) + PatternScore(s) + EntropyScore(s)
  }

  /** `min(4, raw // 2)`: the raw total halved (rounding down) and capped at 4. */
  function DisplayedScore(raw: int): (r: int)
    ensures r <= 4
    ensures raw >= 0 ==> r >= 0
    ensures r == 4 <==> raw >= 8
    ensures r < 4 ==> 2 * r <= raw < 2 * r + 2
  {
    Min(4, raw / 2)
  }

  /** The warning chosen by the thresholds 2, 4, 6 and 8 on the raw total.
      These are the halving buckets of the displayed score, so for every
      raw total that is not negative the warning is the one at that score. */
  function Warning(raw: int): (w: string)
    ensures w in WARNINGS
    ensures w == WARNINGS[0] <==> raw < 2
    ensures w == WARNINGS[4] <==> raw >= 8
    ensures raw >= 0 ==> w == WARNINGS[DisplayedScore(raw)]
  {
    if raw < 2 then "This password is very weak"
    else if raw < 4 then "This password is weak"
    else if raw < 6 then "This password is moderate"
    else if raw < 8 then "This password is strong"
    else "This password is very strong"
  }

  /** The suggestion for a penalised pattern. */
  function Advice(p: Pattern): string
    requires p != KeyboardRow
  {
    match p
    case Repeated => "Avoid repeated characters"
    case SequentialNumbers => "Avoid sequential numbers"
    case SequentialLetters => "Avoid sequential letters"
  }

  function AdviceList(ps: seq<Pattern>): (r: seq<string>)
    requires forall i | 0 <= i < |ps| :: ps[i] != KeyboardRow
    ensures |r| == |ps|
    ensures forall i | 0 <= i < |ps| :: r[i] == Advice(ps[i])
  {
    seq(|ps|, i requires 0 <= i < |ps| => Advice(ps[i]))
  }

  /** The suggestions, appended by the three penalising checks in turn. */
  function Suggestions(s: string): (r: seq<string>)
    ensures |r| <= 3
    ensures |r| == 2 - PatternScore(s)
  {
    (if HasRepeated(s) then ["Avoid repeated characters"] else [])
    + (if HasSequentialNumbers(s) then ["Avoid sequential numbers"] else [])
    + (if HasSequentialLetters(s) then ["Avoid sequential letters"] else [])
  }

  /** Alphabet size of the crack-time estimate: 26, 26, 10 and 32 per class,
      and 1 when no class is present. */
  function PossibleChars(s: string): (r: nat)
    ensures 1 <= r <= 94
    ensures r == 1 <==> VarietyScore(s) == 0
  {
    var n := 26 * Flag(HasLower(s)) + 26 * Flag(HasUpper(s))
             + 10 * Flag(HasDigit(s)) + 32 * Flag(HasSpecial(s));
    if n == 0 then 1 else n
  }

  /** Python's `**` on non-negative integers. */
  function Pow(b: nat, e: nat): (r: nat)
    ensures b >= 1 ==> r >= 1
    ensures b >= 1 && e >= 1 ==> r >= b
    ensures b == 1 ==> r == 1
  {
    if e == 0 then 1 else b * Pow(b, e - 1)
  }

  /** `possible_chars ** len(password)`: the number of candidate passwords. */
  function Keyspace(s: string): (r: nat)
    ensures r >= 1
    ensures r == 1 <==> |s| == 0 || VarietyScore(s) == 0
  {
    Pow(PossibleChars(s), |s|)
  }

  datatype Feedback = Feedback(warning: string, suggestions: seq<string>)

  /** What the scorer returns, without the formatted crack-time strings. */
  datatype Strength = Strength(score: int, feedback: Feedback, combinations: nat)

  // ----- The entropy sets against the variety flags -----

  lemma LowercaseString(c: char)
    ensures c in LOWERCASE <==> IsLowerLetter(c)
  {
    assert forall k | 0 <= k < 26 :: LOWERCASE[k] as int == 'a' as int + k;
    if IsLowerLetter(c) {
      assert LOWERCASE[c as int - 'a' as int] == c;
    }
  }

  lemma UppercaseString(c: char)
    ensures c in UPPERCASE <==> IsUpperLetter(c)
  {
    assert forall k | 0 <= k < 26 :: UPPERCASE[k] as int == 'A' as int + k;
    if IsUpperLetter(c) {
      assert UPPERCASE[c as int - 'A' as int] == c;
    }
  }

  lemma NumbersString(c: char)
    ensures c in NUMBERS <==> IsDigit(c)
  {
    assert forall k | 0 <= k < 10 :: NUMBERS[k] as int == '0' as int + k;
    if IsDigit(c) {
      assert NUMBERS[c as int - '0' as int] == c;
    }
  }

  /** The entropy's letter and digit sets are the variety check's classes. */
  lemma EntropySetsMatchFlags(s: string)
    ensures ContainsAny(s, LOWERCASE) == HasLower(s)
    ensures ContainsAny(s, UPPERCASE) == HasUpper(s)
    ensures ContainsAny(s, NUMBERS) == HasDigit(s)
  {
    forall i | 0 <= i < |s|
      ensures s[i] in LOWERCASE <==> IsLowerLetter(s[i])
      ensures s[i] in UPPERCASE <==> IsUpperLetter(s[i])
      ensures s[i] in NUMBERS <==> IsDigit(s[i])
    {
      LowercaseString(s[i]);
      UppercaseString(s[i]);
      NumbersString(s[i]);
    }
  }

  /** The entropy's 26 symbols and the 20 special characters are different
      sets: `"` is only special, `_` is only an entropy symbol. */
  lemma SymbolSetsDiffer()
    ensures '"' in SPECIAL && '"' !in SYMBOLS
    ensures '_' in SYMBOLS && '_' !in SPECIAL
  {
  }

  /** So `"` alone is a special character that adds no entropy ... */
  lemma QuoteIsSpecialWithoutEntropy()
    ensures HasSpecial("\"") && Entropy("\"") == 0
  {
    var q := "\"";
    LowercaseString(q[0]);
    UppercaseString(q[0]);
    NumbersString(q[0]);
    SymbolSetsDiffer();
    PoolZero(q);
  }

  /** ... while `_` alone, which is not special, adds 5 bits of entropy. */
  lemma UnderscoreAddsEntropy()
    ensures Entropy("_") == 5
  {
    var u := "_";
    assert u[0] in SYMBOLS;
    LowercaseString(u[0]);
    UppercaseString(u[0]);
    NumbersString(u[0]);
    assert Pool(u) == 26 by {
      PoolSum(u);
    }
    assert BitLength(26) == 5 by {
      assert BitLength(1) == 1;
      assert BitLength(3) == 2;
      assert BitLength(6) == 3;
      assert BitLength(13) == 4;
    }
  }

  /** Letters of both cases and a digit make a pool of at least 62, so at
      least 6 bits per character. */
  lemma MixedCaseAndDigitEntropy(s: string)
    requires HasLower(s) && HasUpper(s) && HasDigit(s)
    ensures Entropy(s) >= 6 * |s|
  {
    EntropySetsMatchFlags(s);
    PoolSum(s);
    var p := Pool(s);
    assert 62 <= p <= 88;
    assert Pow2(5) == 32 && Pow2(6) == 64 && Pow2(7) == 128;
    if p < 64 {
      BitLengthUnique(p, 6);
    } else {
      BitLengthUnique(p, 7);
    }
  }

  // ----- Properties of the assessment -----

  /** Every password scores a raw total of at least 2: a pattern that costs a
      point also brings length, and (for the sequences) a character class. */
  lemma RawTotalAtLeastTwo(s: string)
    ensures RawTotal(s) >= 2
  {
    var rep, num, let := HasRepeated(s), HasSequentialNumbers(s), HasSequentialLetters(s);
    if rep {
      RepeatedNeedsThree(s);
    }
    if num {
      SequentialNumbersNeedDigit(s);
      assert HasDigit(s);
    }
    if let {
      SequentialLettersNeedLetter(s);
      assert HasLower(s) || HasUpper(s);
    }
    assert rep || num || let ==> LengthScore(s) >= 1;
    assert num && let ==> VarietyScore(s) >= 2;
  }

  /** The displayed score is 1 to 4 and the "very weak" warning never occurs. */
  lemma ScoreRange(s: string)
    ensures 1 <= DisplayedScore(RawTotal(s)) <= 4
    ensures Warning(RawTotal(s)) != WARNINGS[0]
  {
    RawTotalAtLeastTwo(s);
  }

  /** For every password the warning is the one at the displayed score, so
      the two scales never disagree. The thresholds are the halving buckets
      for any raw total that is not negative; the raw total never is. */
  lemma WarningMatchesScore(s: string)
    ensures Warning(RawTotal(s)) == WARNINGS[DisplayedScore(RawTotal(s))]
  {
    RawTotalAtLeastTwo(s);
  }

  /** The suggestions are the advice for the penalised detected patterns, in
      the order the analyzer reports them. */
  lemma SuggestionsMatchPatterns(s: string)
    ensures Suggestions(s) == AdviceList(Penalised(Detected(s)))
    ensures Suggestions(s) != [] <==> exists p | p in Detected(s) :: p != KeyboardRow
  {
    PenalisedDetected(s);
    var ps := Penalised(Detected(s));
    assert Suggestions(s) == AdviceList(ps);
    if ps != [] {
      assert ps[0] in Detected(s);
    }
  }

  /** The empty password: no pattern, no entropy, raw total 2, score 1. */
  lemma EmptyPassword()
    ensures Detected("") == [] && Suggestions("") == []
    ensures Entropy("") == 0 && Keyspace("") == 1
    ensures RawTotal("") == 2 && DisplayedScore(RawTotal("")) == 1
    ensures Warning(RawTotal("")) == "This password is weak"
  {
    assert !HasSequentialNumbers("") && !HasSequentialLetters("") && !HasKeyboardPattern("");
    assert Detected("") == [];
  }

  /** Appending a character never lowers the variety component, and raises
      it when the character brings a class the password lacked. */
  lemma VarietyMonotone(s: string, c: char)
    ensures VarietyScore(s + [c]) >= VarietyScore(s)
    ensures IsLowerLetter(c) && !HasLower(s) ==> VarietyScore(s + [c]) > VarietyScore(s)
    ensures IsUpperLetter(c) && !HasUpper(s) ==> VarietyScore(s + [c]) > VarietyScore(s)
    ensures IsDigit(c) && !HasDigit(s) ==> VarietyScore(s + [c]) > VarietyScore(s)
    ensures c in SPECIAL && !HasSpecial(s) ==> VarietyScore(s + [c]) > VarietyScore(s)
  {
    var t := s + [c];
    assert t[|s|] == c;
    assert forall i | 0 <= i < |s| :: t[i] == s[i];
    assert HasLower(s) ==> HasLower(t);
    assert HasUpper(s) ==> HasUpper(t);
    assert HasDigit(s) ==> HasDigit(t);
    assert HasSpecial(s) ==> HasSpecial(t);
  }

  // ----- The imperative scorer -----

  /** The pattern deduction: start at 2, and for each penalising check that
      fires take a point off and append its suggestion. */
  method DeductPatterns(password: string) returns (patternScore: int, suggestions: seq<string>)
    ensures patternScore == PatternScore(password) && suggestions == Suggestions(password)
    ensures patternScore == 2 - |suggestions|
  {
    patternScore := 2;
    suggestions := [];
    if HasRepeated(password) {
      patternScore := patternScore - 1;
      suggestions := suggestions + ["Avoid repeated characters"];
    }
    if HasSequentialNumbers(password) {
      patternScore := patternScore - 1;
      suggestions := suggestions + ["Avoid sequential numbers"];
    }
    if HasSequentialLetters(password) {
      patternScore := patternScore - 1;
      suggestions := suggestions + ["Avoid sequential letters"];
    }
  }

  /** The alphabet of the crack-time estimate, from the variety flags. */
  method CountPossibleChars(password: string, hasLower: bool, hasUpper: bool,
                            hasDigit: bool, hasSpecial: bool) returns (possibleChars: nat)
    requires hasLower == HasLower(password) && hasUpper == HasUpper(password)
    requires hasDigit == HasDigit(password) && hasSpecial == HasSpecial(password)
    ensures possibleChars == PossibleChars(password)
  {
    possibleChars := 0;
    if hasLower { possibleChars := possibleChars + 26; }
    if hasUpper { possibleChars := possibleChars + 26; }
    if hasDigit { possibleChars := possibleChars + 10; }
    if hasSpecial { possibleChars := possibleChars + 32; }
    if possibleChars == 0 {
      possibleChars := 1;
    }
  }

  /** The warning, by thresholds on the raw total. */
  method ChooseWarning(score: int) returns (warning: string)
    ensures warning == Warning(score)
  {
    if score < 2 {
      warning := "This password is very weak";
    } else if score < 4 {
      warning := "This password is weak";
    } else if score < 6 {
      warning := "This password is moderate";
    } else if score < 8 {
      warning := "This password is strong";
    } else {
      warning := "This password is very strong";
    }
  }

  /** `calculate_password_strength`, accumulating the score step by step. */
  method CalculatePasswordStrength(password: string) returns (result: Strength)
    ensures result.score == DisplayedScore(RawTotal(password))
    ensures result.feedback == Feedback(Warning(RawTotal(password)), Suggestions(password))
    ensures result.combinations == Keyspace(password)
    ensures 1 <= result.score <= 4 && result.feedback.warning != WARNINGS[0]
  {
    var score := 0;

    var lengthScore := Min(4, |password| / 3);
    score := score + lengthScore;

    var hasLower := HasLower(password);
    var hasUpper := HasUpper(password);
    var hasDigit := HasDigit(password);
    var hasSpecial := HasSpecial(password);
    var varietyScore := Flag(hasLower) + Flag(hasUpper) + Flag(hasDigit) + Flag(hasSpecial);
    score := score + varietyScore;

    var patternScore, suggestions := DeductPatterns(password);
    score := score + patternScore;

    var entropy := CalculateEntropy(password);
    var entropyScore := Min(2, entropy / 50);
    score := score + entropyScore;
    assert score == RawTotal(password);

    var possibleChars := CountPossibleChars(password, hasLower, hasUpper, hasDigit, hasSpecial);
    var combinations := Pow(possibleChars, |password|);

    var warning := ChooseWarning(score);

    ScoreRange(password);
    result := Strength(Min(4, score / 2), Feedback(warning, suggestions), combinations);
  }
}
