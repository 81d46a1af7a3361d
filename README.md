# Password strength evaluator: a Dafny model

This project models the evaluation engine of the Password Strength Analyzer
(`password-strength-checker.py`). The engine takes a password and computes five things:

- a quantised "entropy": the length times the bit length of a character-pool size;
- up to four weak-pattern labels;
- a raw total built from four integer components, with the 0-4 displayed score and
  the warning derived from it;
- the ordered improvement suggestions;
- the integer keyspace behind the crack-time estimate.

It also models the colour of the strength bar and the five named requirements shown
on the page.

Files and modules:

- `text.dfy` (`Text`): the ASCII character classes, ASCII lowercasing, and substring
  search. These replace the regular expressions.
- `entropy.dfy` (`EntropyEstimator`): `calculate_entropy`. It has a
  specification function and a method with the source's loop over the four
  character sets.
- `patterns.dfy` (`PatternDetector`): `analyze_password_patterns`. Each regex is a
  predicate. The repeated, digit and letter predicates are each proved equal to an
  independent description: three equal characters in a row; four digits counting
  up by one, or the wrap-around 7890; four letters counting up by one. The
  keyboard-row predicate is the three literals themselves.
- `strength.dfy` (`StrengthScorer`): `calculate_password_strength`. Each
  component is a function with its bounds. The imperative scorer accumulates the
  score with `+=` and appends suggestions, and is proved equal to those functions.
  It also holds the lemmas about the assessment as a whole.
- `presentation.dfy` (`Presentation`): `get_strength_color` and the
  requirements map. In the source the map is built inline in `main`; here it is
  its own function.

Facts worth knowing, all proved:

- The raw total is always at least 2. So the displayed score is 1..4, the bar is
  never red, and "This password is very weak" is never produced.
- The pattern component is not clamped and reaches -1 when all three penalised
  checks fire.
- The warning thresholds (2, 4, 6, 8) apply to the raw total. They are exactly the
  halving buckets of the displayed score, so for every raw total that is not negative
  the warning is the one at the displayed score: "weak" at 1 up to "very strong" at 4.
- The entropy symbol set (26 characters) and the "special" class (20 characters)
  are different sets. `"` is special but adds no entropy. `_` adds entropy but is
  not special. The crack-time alphabet counts 32 for specials.
- A password that meets all five requirements always scores 4.
- The empty password gets raw total 2, score 1 and "This password is weak".

## Model

| member | source | states |
|---|---|---|
| EntropyEstimator.BitLength | password-strength-checker.py:49 | `bit_length`: 0 exactly for 0; otherwise 2^(r-1) <= n < 2^r |
| EntropyEstimator.BitLengthUnique | password-strength-checker.py:49 | the bit length is the unique k with 2^(k-1) <= n < 2^k |
| EntropyEstimator.PoolSum | password-strength-checker.py:37-47 | the pool adds 26, 26, 10 and 26 for each of lowercase, uppercase, digits and the 26 symbols that the password touches |
| EntropyEstimator.PoolZero | password-strength-checker.py:44-47 | the pool is 0 exactly when no character is in any of the four sets |
| EntropyEstimator.PoolBits | password-strength-checker.py:44-49 | a non-empty pool has a bit length between 4 and 7 |
| EntropyEstimator.EntropyRange | password-strength-checker.py:35-49 | entropy is 0 iff no character is in any set; otherwise it is a multiple of the length between 4·len and 7·len |
| EntropyEstimator.CalculateEntropy | password-strength-checker.py:35-49 | the loop over the four sets, accumulating the pool, returns len · bit_length(pool) (0 for an empty pool) |
| PatternDetector.Detected | password-strength-checker.py:51-72 | a pattern is reported iff its check fires, each at most once, in the order repeated, numbers, letters, keyboard |
| PatternDetector.AnalyzePasswordPatterns | password-strength-checker.py:51-72 | the appends produce exactly the labels of the detected patterns, in order |
| PatternDetector.RepeatedIffTriple | password-strength-checker.py:56 | `(.)\1{2,}` matches iff some non-newline character occurs three times in a row |
| PatternDetector.DigitRunShape | password-strength-checker.py:60 | the first seven digit literals are four digits counting up by one from 0..6 |
| PatternDetector.SequentialNumbersIff | password-strength-checker.py:60 | the digit alternation matches iff four ascending consecutive digits or 7890 occur |
| PatternDetector.LetterRunShape | password-strength-checker.py:64 | the 23 letter literals are four letters counting up by one from a..w |
| PatternDetector.LetterRunsFound | password-strength-checker.py:64 | a match of the letter alternation is an ascending run of four letters |
| PatternDetector.LetterRunsMatched | password-strength-checker.py:64 | every ascending run of four letters matches the letter alternation |
| PatternDetector.SequentialLettersIff | password-strength-checker.py:64 | the letter alternation matches iff the lowercased password has four ascending consecutive letters |
| PatternDetector.RepeatedNeedsThree | password-strength-checker.py:56 | a repeated run needs at least three characters |
| PatternDetector.SequentialNumbersNeedDigit | password-strength-checker.py:60 | a digit run needs four characters and a digit |
| PatternDetector.SequentialLettersNeedLetter | password-strength-checker.py:64 | a letter run needs four characters and an ASCII letter of either case |
| PatternDetector.DetectionExamples | password-strength-checker.py:56-70 | "aaa" is repeated, "1234" numbers, "abcd" letters, "qwerty123" keyboard |
| StrengthScorer.LengthScore | password-strength-checker.py:91 | length component in 0..4; it is 4 iff len >= 12, otherwise it is len // 3 |
| StrengthScorer.VarietyScore | password-strength-checker.py:95-100 | variety component in 0..4; 0 iff no class is present, 4 iff all four are |
| StrengthScorer.PenalisedDetected | password-strength-checker.py:103-116 | the penalised detected patterns are the firing checks among repeated, numbers and letters, in that order |
| StrengthScorer.PatternScore | password-strength-checker.py:103-117 | pattern component in -1..2, equal to 2 minus the number of penalised detected patterns; the keyboard row costs nothing |
| StrengthScorer.EntropyScore | password-strength-checker.py:119-122 | entropy component in 0..2; 0 iff entropy < 50, 2 iff entropy >= 100; needs 8 (1 point) or 15 (2 points) characters |
| StrengthScorer.DisplayedScore | password-strength-checker.py:155 | at most 4; 4 iff raw >= 8; otherwise the raw total halved, rounding down |
| StrengthScorer.Warning | password-strength-checker.py:143-152 | one of the five warnings; "very weak" iff raw < 2, "very strong" iff raw >= 8; for every raw total >= 0 it is the warning at the displayed score, so the thresholds 4 and 6 are the halving buckets too |
| StrengthScorer.Suggestions | password-strength-checker.py:105-115 | at most three suggestions, as many as the pattern component lost |
| StrengthScorer.PossibleChars | password-strength-checker.py:125-132 | the crack-time alphabet is in 1..94; it is 1 iff no class is present |
| StrengthScorer.Pow | password-strength-checker.py:134 | a power of a base >= 1 is >= 1, at least the base for a positive exponent, and 1 for base 1 |
| StrengthScorer.Keyspace | password-strength-checker.py:134 | the keyspace is >= 1; it is 1 iff the password is empty or has no class |
| StrengthScorer.LowercaseString | password-strength-checker.py:38 | the entropy's lowercase string holds exactly a..z |
| StrengthScorer.UppercaseString | password-strength-checker.py:39 | the entropy's uppercase string holds exactly A..Z |
| StrengthScorer.NumbersString | password-strength-checker.py:40 | the entropy's number string holds exactly 0..9 |
| StrengthScorer.EntropySetsMatchFlags | password-strength-checker.py:37-47 | the entropy's letter and digit sets are the classes of the variety check at lines 95-97 |
| StrengthScorer.SymbolSetsDiffer | password-strength-checker.py:41 | the 26 entropy symbols and the 20 special characters of line 98 differ: `"` is only special, `_` only an entropy symbol |
| StrengthScorer.QuoteIsSpecialWithoutEntropy | password-strength-checker.py:98 | `"` alone counts as a special character yet has entropy 0 |
| StrengthScorer.UnderscoreAddsEntropy | password-strength-checker.py:41 | `_` alone has entropy 5 |
| StrengthScorer.MixedCaseAndDigitEntropy | password-strength-checker.py:44-49 | letters of both cases plus a digit give at least 6 bits per character |
| StrengthScorer.RawTotalAtLeastTwo | password-strength-checker.py:87-122 | every password's raw total is at least 2 |
| StrengthScorer.ScoreRange | password-strength-checker.py:143-155 | the displayed score is 1..4 and the warning is never "very weak" |
| StrengthScorer.WarningMatchesScore | password-strength-checker.py:143-155 | the warning chosen on the raw total is the one at the displayed score |
| StrengthScorer.SuggestionsMatchPatterns | password-strength-checker.py:105-115 | the suggestions are the advice for the penalised detected patterns, in report order; non-empty iff a pattern other than the keyboard row is detected |
| StrengthScorer.EmptyPassword | password-strength-checker.py:85-158 | empty password: no pattern, no suggestion, entropy 0, keyspace 1, raw total 2, score 1, "This password is weak" |
| StrengthScorer.VarietyMonotone | password-strength-checker.py:95-100 | appending a character never lowers the variety component, and raises it when it adds a missing class |
| StrengthScorer.DeductPatterns | password-strength-checker.py:103-116 | the decrements and appends give the pattern component and the suggestions, with component = 2 - number of suggestions |
| StrengthScorer.CountPossibleChars | password-strength-checker.py:125-132 | the per-flag additions, with 0 replaced by 1, give the crack-time alphabet |
| StrengthScorer.ChooseWarning | password-strength-checker.py:143-152 | the if-chain picks the warning for the raw total |
| StrengthScorer.CalculatePasswordStrength | password-strength-checker.py:85-158 | the step-by-step scorer returns the halved, capped raw total; the warning for the raw total; the suggestions; and the keyspace. Its score is 1..4 and its warning never "very weak" |
| Presentation.StrengthColor | password-strength-checker.py:74-83 | total: the fixed colour for 0..4, "red" for every other integer; red iff the score is not 1..4 |
| Presentation.BarNeverRed | password-strength-checker.py:185 | the bar colour of any password's score is never red |
| Presentation.Requirements | password-strength-checker.py:227-233 | five requirements in display order; Length iff len >= 12, which is iff the length component is 4; the other four are the variety flags |
| Presentation.RequirementsCountVariety | password-strength-checker.py:227-233 | the number of class requirements met is the variety component |
| Presentation.AllRequirementsMet | password-strength-checker.py:227-233 | meeting all five requirements gives raw total >= 8, score 4 and "very strong", whatever patterns occur |
| Presentation.EmptyPasswordMeetsNothing | password-strength-checker.py:227-233 | the lifted requirements function marks none of the five as met for the empty password (the page itself shows requirements only for a non-empty password) |
| Presentation.EmptyPasswordBar | password-strength-checker.py:74-83 | `get_strength_color` of the empty password's score (1) is orange; the page draws no bar for an empty password |

## Left out

- The Streamlit page is presentation, not evaluation logic. This covers page configuration, CSS, title, text input, columns, markdown, the progress-bar width and the sidebar (lines 8-33 and 160-252).
- The spinner and `time.sleep(0.5)` (lines 171-172) are timing and I/O.
- The crack-time strings (lines 135-140) are floating point and are not modelled: division by 1e10, the comparison with 1e8, `int(...)` truncation and f-string formatting. Only the exact integer keyspace `possible_chars ** len` is. In Python, `combinations / (1e10)` at line 135 raises `OverflowError` once the keyspace exceeds the largest float (about 2^1024). That happens from 157 characters using all four classes, from 218 lowercase-only characters, and from 309 digit-only characters. There the whole `calculate_password_strength` call raises and returns no score, warning or suggestions. `CalculatePasswordStrength` still returns a result for such passwords.
- Entropy is displayed with two decimals (line 199); this float formatting is not modelled.
- EntropyScore: `int(entropy / 50)` is float division. The model uses integer division. The two agree for every entropy below 100, and both are capped to 2 above that. Only an entropy too large for a float would differ: there Python raises `OverflowError`.
- Lowercasing is ASCII only: A-Z map to a-z and every other character is unchanged. Full Unicode `str.lower()` is not modelled. For example, the Kelvin sign lowercases to `k`, and some characters lowercase to two characters, which shifts positions.
- The regular expressions are modelled by explicit predicates with the same matching sets. The `re` engine itself is not modelled.
- `calculate_password_strength` is one function in the source. In the model, three of its blocks are separate methods: pattern deduction, crack-time alphabet and warning choice. The main method calls them in the source's order.
