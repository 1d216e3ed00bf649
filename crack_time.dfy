/** The crack-time text selector: sentinels for an empty or unrecognised
    password, qualitative phrases chosen by score, and the brute-force
    estimate only for the top score. */
module CrackTime {
  import opened Charset

  /** A piece of text without a line break. */
  type Line = s: string | '\n' !in s

  // The longer phrases are written as concatenations of short pieces;
  // each piece is a literal the verifier can inspect character by character.
  const NoPasswordText: Line := "n/a (no password yet)"
  const NoValidCharsText: Line := "n/a (no valid characters)"
  const ShortText: Line := "likely seconds to a few " + "minutes with common attack tools"
  const MediumText: Line := "maybe minutes to hours, " + "but still easy if it's " + "a real word / pattern"
  const LongText: Line := "hours at best; weak " + "patterns or leaked lists " + "can make it much faster"
  const ScoreThreeText: Line :=
    "roughly hours to days " + "in pure brute\U{2011}force, " + "less if based on real " + "words or patterns"
  const ScoreFourText: Line :=
    "days to months in " + "brute\U{2011}force math; " + "decent against casual " + "attackers"
  const AstronomicalText: Line :=
    "astronomically long " + "with pure brute\U{2011}force " + "(theoretical math only)"

  /** Formats the finite brute-force estimate for a password of the given
      length and charset size (`pretty_time(10 ** seconds_log10)`). */
  type PrettyTime = (nat, nat) -> string

  function Pow(b: nat, e: nat): nat
  {
    if e == 0 then 1 else b * Pow(b, e - 1)
  }

  /** The guard `len * log10(charset) - log10(2e9) > 300` read in exact
      arithmetic: the search space exceeds 2 * 10^309 guesses. */
  predicate EstimateOverflows(length: nat, charset: nat)
  {
    Pow(charset, length) > 2 * Pow(10, 309)
  }

  /** The length bucket used for scores of at most 2. */
  function LengthBucketText(length: nat): (text: string)
    ensures text == ShortText <==> length < 8
    ensures text == MediumText <==> 8 <= length < 12
    ensures text == LongText <==> 12 <= length
  {
    FixedTextsDistinct();
    if length < 8 then ShortText
    else if length < 12 then MediumText
    else LongText
  }

  /** `rough_crack_time(pwd, score)`. */
  function RoughCrackTime(pwd: string, score: int, prettyTime: PrettyTime): (text: string)
  {
    if pwd == [] then NoPasswordText
    else
      var charset := CharsetSize(pwd);
      if charset == 0 then NoValidCharsText
      else if score <= 2 then LengthBucketText(|pwd|)
      else if score == 3 then ScoreThreeText
      else if score == 4 then ScoreFourText
      else if EstimateOverflows(|pwd|, charset) then AstronomicalText
      else prettyTime(|pwd|, charset)
  }

  /** What the formatter can produce: one line, never one of the sentinel
      or qualitative phrases above (every `pretty_time` result is a number
      with a unit, "less than a second" or "astronomically long (math flex
      only)"). */
  ghost predicate WellFormedPrettyTime(prettyTime: PrettyTime)
  {
    forall length: nat, charset: nat ::
      '\n' !in prettyTime(length, charset) && prettyTime(length, charset) !in FixedTexts()
  }

  /** Every fixed text the selector can return. */
  function FixedTexts(): set<string>
  {
    {NoPasswordText, NoValidCharsText, ShortText, MediumText, LongText,
     ScoreThreeText, ScoreFourText, AstronomicalText}
  }

  /** The fixed texts tell apart by their first character, except the two
      sentinels, which differ in length. */
  lemma FixedTextsDistinct()
    ensures |NoPasswordText| == 21 && |NoValidCharsText| == 25
    ensures NoPasswordText[0] == 'n' && NoValidCharsText[0] == 'n'
    ensures ShortText[0] == 'l' && MediumText[0] == 'm' && LongText[0] == 'h'
    ensures ScoreThreeText[0] == 'r' && ScoreFourText[0] == 'd' && AstronomicalText[0] == 'a'
  {
  }

  /** The empty-password sentinel comes first: it is returned whatever the
      score and the formatter, and for nothing else. */
  lemma EmptySentinel(pwd: string, score: int, prettyTime: PrettyTime)
    requires WellFormedPrettyTime(prettyTime)
    ensures RoughCrackTime(pwd, score, prettyTime) == NoPasswordText <==> pwd == []
  {
  }

  /** The no-valid-characters sentinel comes next: a nonempty password
      with no recognised character gets it whatever the score, and no
      other password does. */
  lemma NoValidCharsSentinel(pwd: string, score: int, prettyTime: PrettyTime)
    requires WellFormedPrettyTime(prettyTime)
    ensures RoughCrackTime(pwd, score, prettyTime) == NoValidCharsText
        <==> pwd != [] && forall i :: 0 <= i < |pwd| ==> !Classified(pwd[i])
  {
  }

  /** For scores up to 2 the text depends on the length alone: two
      recognised passwords in the same length bucket get the same text,
      whatever their scores, charsets and formatters. */
  lemma LowScoreDependsOnLengthOnly(p1: string, p2: string, s1: int, s2: int, f1: PrettyTime, f2: PrettyTime)
    requires p1 != [] && p2 != [] && CharsetSize(p1) != 0 && CharsetSize(p2) != 0
    requires s1 <= 2 && s2 <= 2
    ensures RoughCrackTime(p1, s1, f1) == RoughCrackTime(p2, s2, f2)
        <==> LengthBucketText(|p1|) == LengthBucketText(|p2|)
    ensures RoughCrackTime(p1, s1, f1) in {ShortText, MediumText, LongText}
  {
  }

  /** Scores 3 and 4 give their fixed phrases, independent of the length,
      the charset and the formatter, and the two phrases differ. */
  lemma MidScoreFixed(p1: string, p2: string, s: int, f1: PrettyTime, f2: PrettyTime)
    requires p1 != [] && p2 != [] && CharsetSize(p1) != 0 && CharsetSize(p2) != 0
    requires s == 3 || s == 4
    ensures RoughCrackTime(p1, s, f1) == RoughCrackTime(p2, s, f2)
    ensures RoughCrackTime(p1, s, f1) == (if s == 3 then ScoreThreeText else ScoreFourText)
    ensures ScoreThreeText != ScoreFourText
  {
  }

  /** Only the top score consults the estimate, and there the text depends
      on nothing but the length and the charset size. */
  lemma TopScoreUsesEstimate(p1: string, p2: string, s1: int, s2: int, f: PrettyTime)
    requires p1 != [] && CharsetSize(p1) != 0 && s1 >= 5 && s2 >= 5
    requires |p1| == |p2| && CharsetSize(p1) == CharsetSize(p2)
    ensures RoughCrackTime(p1, s1, f) == RoughCrackTime(p2, s2, f)
    ensures RoughCrackTime(p1, s1, f) == AstronomicalText || RoughCrackTime(p1, s1, f) == f(|p1|, CharsetSize(p1))
  {
    var charset := CharsetSize(p1);
    assert p2 != [] && CharsetSize(p2) == charset;
    var text := if EstimateOverflows(|p1|, charset) then AstronomicalText else f(|p1|, charset);
    assert RoughCrackTime(p1, s1, f) == text;
    assert RoughCrackTime(p2, s2, f) == text;
  }

  /** Every text the selector returns is a single line. */
  lemma CrackTimeSingleLine(pwd: string, score: int, prettyTime: PrettyTime)
    requires WellFormedPrettyTime(prettyTime)
    ensures '\n' !in RoughCrackTime(pwd, score, prettyTime)
  {
  }

  lemma {:induction false} PowPositive(b: nat, e: nat)
    requires b >= 1
    ensures Pow(b, e) >= 1
  {
    if e > 0 {
      PowPositive(b, e - 1);
    }
  }

  lemma {:induction false} PowMonotoneBase(a: nat, b: nat, e: nat)
    requires a <= b
    ensures Pow(a, e) <= Pow(b, e)
  {
    if e > 0 {
      PowMonotoneBase(a, b, e - 1);
      MulMonotone(a, Pow(a, e - 1), b, Pow(b, e - 1));
    }
  }

  lemma MulMonotone(a: nat, x: nat, b: nat, y: nat)
    requires a <= b && x <= y
    ensures a * x <= b * y
  {
  }

  lemma {:induction false} PowMonotoneExp(b: nat, d: nat, e: nat)
    requires b >= 1 && d <= e
    ensures Pow(b, d) <= Pow(b, e)
  {
    if d < e {
      PowMonotoneExp(b, d, e - 1);
      PowPositive(b, e - 1);
      assert Pow(b, e) == b * Pow(b, e - 1) >= Pow(b, e - 1);
    }
  }

  lemma {:induction false} PowSquare(e: nat)
    ensures Pow(100, e) == Pow(10, 2 * e)
  {
    if e > 0 {
      PowSquare(e - 1);
      assert 2 * e == (2 * (e - 1) + 1) + 1;
      assert Pow(10, 2 * e) == 10 * (10 * Pow(10, 2 * (e - 1)));
    }
  }

  /** With at most 94 symbols no password shorter than 155 characters
      reaches the overflow guard (94^154 <= 10^308). */
  lemma NoOverflowBelow155(length: nat, charset: nat)
    requires charset <= 94 && length <= 154
    ensures !EstimateOverflows(length, charset)
  {
    PowMonotoneBase(charset, 100, length);
    PowSquare(length);
    PowMonotoneExp(10, 2 * length, 309);
    PowPositive(10, 309);
  }

  /** Once the estimate overflows, every longer password over the same
      charset overflows too. */
  lemma OverflowMonotone(length: nat, longer: nat, charset: nat)
    requires length <= longer && charset >= 1
    requires EstimateOverflows(length, charset)
    ensures EstimateOverflows(longer, charset)
  {
    PowMonotoneExp(charset, length, longer);
  }
}
