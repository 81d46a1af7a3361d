/** The two small maps the page uses beside the score: the colour of the
    strength bar and the five named requirements. */
module Presentation {
  import opened EntropyEstimator
  import opened StrengthScorer

  const COLOURS := ["red", "orange", "yellow", "lightgreen", "green"]

  /** `get_strength_color`: a dictionary lookup with "red" as the default. */
  function StrengthColor(score: int): (c: string)
    ensures c in COLOURS
    ensures 0 <= score < |COLOURS| ==> c == COLOURS[score]
    ensures c == "red" <==> score != 1 && score != 2 && score != 3 && score != 4
  {
    var colours := map[0 := "red", 1 := "orange", 2 := "yellow", 3 := "lightgreen", 4 := "green"];
    if score in colours then colours[score] else "red"
  }

  /** The bar is never red: every password scores at least 1. */
  lemma BarNeverRed(s: string)
    ensures StrengthColor(DisplayedScore(RawTotal(s))) != "red"
  {
    ScoreRange(s);
  }

  datatype Requirement = Requirement(name: string, met: bool)

  const REQUIREMENT_NAMES := ["Length", "Uppercase", "Lowercase", "Numbers", "Special Characters"]

  function NamesOf(rs: seq<Requirement>): (r: seq<string>)
    ensures |r| == |rs|
  {
    seq(|rs|, i requires 0 <= i < |rs| => rs[i].name)
  }

  function MetCount(rs: seq<Requirement>): (n: nat)
    ensures n <= |rs|
  {
    if rs == [] then 0 else (if rs[0].met then 1 else 0) + MetCount(rs[1..])
  }

  /** The requirements map, in display order. The length requirement is the
      one the length component gives full marks for, and the four class
      requirements are the flags of the variety component. */
  function Requirements(s: string): (r: seq<Requirement>)
    ensures NamesOf(r) == REQUIREMENT_NAMES
    ensures r[0].met <==> |s| >= 12
    ensures r[0].met <==> LengthScore(s) == 4
    ensures r[1].met == HasUpper(s) && r[2].met == HasLower(s)
    ensures r[3].met == HasDigit(s) && r[4].met == HasSpecial(s)
  {
    [ Requirement("Length", |s| >= 12),
      Requirement("Uppercase", HasUpper(s)),
      Requirement("Lowercase", HasLower(s)),
      Requirement("Numbers", HasDigit(s)),
      Requirement("Special Characters", HasSpecial(s)) ]
  }

  /** The number of class requirements met is the variety component. */
  lemma RequirementsCountVariety(s: string)
    ensures MetCount(Requirements(s)[1..]) == VarietyScore(s)
    ensures MetCount(Requirements(s)) == Flag(|s| >= 12) + VarietyScore(s)
  {
    var r := Requirements(s);
    var r1, r2, r3, r4 := r[1..], r[2..], r[3..], r[4..];
    assert r1[1..] == r2 && r2[1..] == r3 && r3[1..] == r4 && r4[1..] == [];
    assert MetCount(r4) == Flag(HasSpecial(s));
    assert MetCount(r3) == Flag(HasDigit(s)) + MetCount(r4);
    assert MetCount(r2) == Flag(HasLower(s)) + MetCount(r3);
    assert MetCount(r1) == Flag(HasUpper(s)) + MetCount(r2);
  }

  /** A password meeting all five requirements always scores 4 and is called
      "very strong": twelve characters with letters of both cases and a digit
      draw from a pool of at least 62, so the entropy component makes up for
      the worst pattern deduction. */
  lemma AllRequirementsMet(s: string)
    requires forall i | 0 <= i < 5 :: Requirements(s)[i].met
    ensures RawTotal(s) >= 8
    ensures DisplayedScore(RawTotal(s)) == 4
    ensures Warning(RawTotal(s)) == "This password is very strong"
  {
    var r := Requirements(s);
    assert r[0].met && r[1].met && r[2].met && r[3].met && r[4].met;
    MixedCaseAndDigitEntropy(s);
    assert Entropy(s) >= 12 * 6;
  }

  /** The requirements function, applied to the empty password, marks none
      as met ... */
  lemma EmptyPasswordMeetsNothing()
    ensures MetCount(Requirements("")) == 0
  {
    RequirementsCountVariety("");
  }

  /** ... and the colour of its score (1) is orange. The page itself draws
      no bar and no requirements for an empty password: it shows them only
      once something has been typed. */
  lemma EmptyPasswordBar()
    ensures StrengthColor(DisplayedScore(RawTotal(""))) == "orange"
  {
    EmptyPassword();
  }
}
