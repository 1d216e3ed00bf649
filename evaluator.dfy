/** The strength evaluator: five checks counted into a score, a tier with
    its fixed label, colour and verdict, and a checklist that ends with the
    crack-time text. */
module Evaluator {
  import opened Charset
  import opened CrackTime
  import opened TextLines

  /** The result record handed to the display. */
  datatype Evaluation = Evaluation(
    score: nat,
    labelText: string,
    color: string,
    verdict: string,
    details: string,
    length: nat)

  /** The five qualitative tiers, each with its fixed label, colour and
      verdict. */
  datatype Tier = Idle | Weak | OkayIsh | StrongIsh | Peak
  {
    function Label(): string
    {
      match this
      case Idle => "Idle"
      case Weak => "Weak"
      case OkayIsh => "Okay\U{2011}ish"
      case StrongIsh => "Strong\U{2011}ish"
      case Peak => "Peak"
    }

    function Color(): string
    {
      match this
      case Idle => "#808080"
      case Weak => "#ff4d4f"
      case OkayIsh => "#ffa940"
      case StrongIsh => "#fadb14"
      case Peak => "#52c41a"
    }

    function Verdict(): string
    {
      match this
      case Idle => "Type something bruh \U{1F440} (no ghosting the input)."
      case Weak => "Full L password \U{1F635}\U{200D}\U{1F4AB}\nEzz to crack, attackers farming you for XP."
      case OkayIsh => "Low\U{2011}key mid \U{1F636}\nNot trash, but still not main\U{2011}character energy."
      case StrongIsh => "Valid password ngl \U{1F4AF}\nAlmost dank, add a bit more spice."
      case Peak => "DANK W password \U{1F510}\U{1F525}\nBrute\U{2011}force scripts just rage quit."
    }
  }

  /** The five checks, in the order they are listed: length at least 8,
      a lowercase letter, an uppercase letter, a digit, a punctuation
      symbol. */
  function Checks(pwd: string): (checks: seq<bool>)
    ensures |checks| == 5
  {
    [|pwd| >= 8, Has(pwd, Lower), Has(pwd, Upper), Has(pwd, Digit), Has(pwd, Punct)]
  }

  function Bit(b: bool): nat
  {
    if b then 1 else 0
  }

  /** `sum` over booleans: how many of them hold. */
  function CountTrue(bs: seq<bool>): (n: nat)
    ensures n <= |bs|
    ensures n == 0 <==> forall i :: 0 <= i < |bs| ==> !bs[i]
    ensures n == |bs| <==> forall i :: 0 <= i < |bs| ==> bs[i]
  {
    if bs == [] then 0 else Bit(bs[0]) + CountTrue(bs[1..])
  }

  /** The score: the number of checks that pass. */
  function Score(pwd: string): (score: nat)
    ensures score <= 5
    ensures score == Bit(|pwd| >= 8) + Bit(Has(pwd, Lower)) + Bit(Has(pwd, Upper))
                     + Bit(Has(pwd, Digit)) + Bit(Has(pwd, Punct))
  {
    var checks := Checks(pwd);
    assert CountTrue(checks[4..]) == Bit(checks[4]);
    assert CountTrue(checks[3..]) == Bit(checks[3]) + CountTrue(checks[4..]);
    assert CountTrue(checks[2..]) == Bit(checks[2]) + CountTrue(checks[3..]);
    assert CountTrue(checks[1..]) == Bit(checks[1]) + CountTrue(checks[2..]);
    CountTrue(checks)
  }

  /** The tier: emptiness first, then the score. */
  function TierOf(pwd: string, score: nat): Tier
  {
    if |pwd| == 0 then Idle
    else if score <= 2 then Weak
    else if score == 3 then OkayIsh
    else if score == 4 then StrongIsh
    else Peak
  }

  const PassMark: Line := "\U{2705}"
  const FailMark: Line := "\U{274C}"

  function Mark(ok: bool): Line
  {
    if ok then PassMark else FailMark
  }

  const CrackTimePrefix: Line := "It would take, in a pure " + "brute\U{2011}force math world : "

  /** A check line: the check's name, its mark and a remark. */
  function CheckLine(name: Line, ok: bool, remark: Line): Line
  {
    name + Mark(ok) + remark
  }

  const LengthName: Line := "Length \U{2265} 8: "
  const LengthRemark: Line := " (no baby " + "passwords'NOOB')"
  const LowerName: Line := "Lowercase letter: "
  const UpperName: Line := "Uppercase letter: "
  const UpperRemark: Line := " (CAPS = " + "extra drip)"
  const DigitName: Line := "Number: "
  const DigitRemark: Line := " (digits = " + "extra armor)"
  const PunctName: Line := "Special char " + "(!@#$ etc.): "
  const PunctRemark: Line := " (symbols = " + "true sigma move)"

  /** One line per check, in order, each showing whether it passed. */
  function CheckLines(pwd: string): (lines: seq<Line>)
    ensures |lines| == 5
  {
    var checks := Checks(pwd);
    [ CheckLine(LengthName, checks[0], LengthRemark),
      CheckLine(LowerName, checks[1], ""),
      CheckLine(UpperName, checks[2], UpperRemark),
      CheckLine(DigitName, checks[3], DigitRemark),
      CheckLine(PunctName, checks[4], PunctRemark) ]
  }

  /** The checklist: the check lines, an empty line, then the crack-time
      line. */
  function DetailLines(pwd: string, crackText: string): seq<string>
  {
    CheckLines(pwd) + ["", CrackTimePrefix + crackText]
  }

  /** `evaluate_password`. */
  function Evaluate(pwd: string, prettyTime: PrettyTime): (r: Evaluation)
  {
    var score := Score(pwd);
    var crackText := RoughCrackTime(pwd, score, prettyTime);
    var tier := TierOf(pwd, score);
    Evaluation(score, tier.Label(), tier.Color(), tier.Verdict(),
               Join(DetailLines(pwd, crackText)), |pwd|)
  }

  /** The score counts the passing checks, lies in 0..5, and the reported
      length is the password's. */
  lemma EvaluateScore(pwd: string, prettyTime: PrettyTime)
    ensures Evaluate(pwd, prettyTime).score == CountTrue(Checks(pwd)) <= 5
    ensures Evaluate(pwd, prettyTime).score == 5 <==> forall i :: 0 <= i < 5 ==> Checks(pwd)[i]
    ensures Evaluate(pwd, prettyTime).score == 0 <==> forall i :: 0 <= i < 5 ==> !Checks(pwd)[i]
    ensures Evaluate(pwd, prettyTime).length == |pwd|
  {
  }

  /** Tier labels are pairwise distinct, so the label names the tier. */
  lemma LabelDeterminesTier(t1: Tier, t2: Tier)
    requires t1.Label() == t2.Label()
    ensures t1 == t2
  {
  }

  /** The label of the tier chosen for a password names exactly one of the
      conditions: empty, or nonempty with score at most 2, 3, 4 or 5. */
  lemma TierLabelIff(pwd: string, score: nat, name: string)
    requires score <= 5 && name == TierOf(pwd, score).Label()
    ensures name == Idle.Label() <==> pwd == []
    ensures name == Weak.Label() <==> pwd != [] && score <= 2
    ensures name == OkayIsh.Label() <==> pwd != [] && score == 3
    ensures name == StrongIsh.Label() <==> pwd != [] && score == 4
    ensures name == Peak.Label() <==> pwd != [] && score == 5
  {
  }

  /** Exactly one tier applies: label, colour and verdict all come from
      the tier chosen by emptiness and then score. Which condition each
      label stands for is `TierLabelIff`. */
  lemma EvaluateTier(pwd: string, prettyTime: PrettyTime)
    ensures var r := Evaluate(pwd, prettyTime);
      exists t: Tier :: r.labelText == t.Label() && r.color == t.Color() && r.verdict == t.Verdict()
    ensures var r := Evaluate(pwd, prettyTime);
      r.labelText == TierOf(pwd, r.score).Label() && r.score <= 5
  {
  }

  /** The details text holds exactly seven lines: the five checks in order,
      each showing whether it passed, an empty line, and the crack-time
      line ending with the selector's text. */
  lemma EvaluateDetails(pwd: string, prettyTime: PrettyTime)
    requires WellFormedPrettyTime(prettyTime)
    ensures var lines := Split(Evaluate(pwd, prettyTime).details);
      && |lines| == 7
      && lines == DetailLines(pwd, RoughCrackTime(pwd, Score(pwd), prettyTime))
      && lines[5] == ""
      && lines[6] == CrackTimePrefix + RoughCrackTime(pwd, Score(pwd), prettyTime)
  {
    var crackText := RoughCrackTime(pwd, Score(pwd), prettyTime);
    CrackTimeSingleLine(pwd, Score(pwd), prettyTime);
    var lines := DetailLines(pwd, crackText);
    assert forall i :: 0 <= i < |lines| ==> '\n' !in lines[i];
    SplitJoin(lines);
  }

  /** A check line shows the outcome of its check. */
  lemma CheckLineShowsOutcome(name: Line, a: bool, b: bool, remark: Line)
    ensures CheckLine(name, a, remark) == CheckLine(name, b, remark) <==> a == b
  {
    if CheckLine(name, a, remark) == CheckLine(name, b, remark) {
      assert CheckLine(name, a, remark)[|name|] == Mark(a)[0];
      assert CheckLine(name, b, remark)[|name|] == Mark(b)[0];
    }
  }

  /** The checklist shows every check's outcome and nothing else: two
      passwords get the same i-th line exactly when the i-th check agrees. */
  lemma CheckLinesShowOutcomes(p1: string, p2: string, i: nat)
    requires i < 5
    ensures CheckLines(p1)[i] == CheckLines(p2)[i] <==> Checks(p1)[i] == Checks(p2)[i]
  {
    var names := [LengthName, LowerName, UpperName, DigitName, PunctName];
    var remarks := [LengthRemark, "", UpperRemark, DigitRemark, PunctRemark];
    assert CheckLines(p1)[i] == CheckLine(names[i], Checks(p1)[i], remarks[i]);
    assert CheckLines(p2)[i] == CheckLine(names[i], Checks(p2)[i], remarks[i]);
    CheckLineShowsOutcome(names[i], Checks(p1)[i], Checks(p2)[i], remarks[i]);
  }

  /** The evaluator and the estimator test the same classes: a full score
      means a password of at least 8 characters over the full 94-symbol
      charset, and conversely. */
  lemma ScoreFiveIffFullCharset(pwd: string)
    ensures Score(pwd) == 5 <==> |pwd| >= 8 && CharsetSize(pwd) == 94
  {
  }

  /** A nonempty password with no recognised character scores only for its
      length, so at most 1. */
  lemma UnrecognisedScoresAtMostOne(pwd: string)
    requires pwd != [] && CharsetSize(pwd) == 0
    ensures Score(pwd) == Bit(|pwd| >= 8) <= 1
  {
  }

  /** The empty password: score 0, the idle tier, length 0, and the
      no-password sentinel in the last line. */
  lemma EvaluateEmpty(prettyTime: PrettyTime)
    ensures var r := Evaluate([], prettyTime);
      && r.score == 0 && r.labelText == "Idle" && r.color == "#808080" && r.length == 0
      && |Split(r.details)| == 7 && Split(r.details)[6] == CrackTimePrefix + NoPasswordText
  {
    var lines := DetailLines([], NoPasswordText);
    assert forall i :: 0 <= i < |lines| ==> '\n' !in lines[i];
    SplitJoin(lines);
  }

  /** The tier and the crack-time line agree: the weak tier shows a length
      bucket or the no-valid-characters sentinel, the middle tiers their
      fixed phrases, and the top tier the brute-force estimate. */
  lemma TierMatchesCrackText(pwd: string, prettyTime: PrettyTime)
    ensures var r := Evaluate(pwd, prettyTime);
      var text := RoughCrackTime(pwd, r.score, prettyTime);
      && (r.labelText == Weak.Label() ==> text in {ShortText, MediumText, LongText, NoValidCharsText})
      && (r.labelText == OkayIsh.Label() ==> text == ScoreThreeText)
      && (r.labelText == StrongIsh.Label() ==> text == ScoreFourText)
      && (r.labelText == Peak.Label() ==>
            text == AstronomicalText || text == prettyTime(|pwd|, 94))
  {
    var r := Evaluate(pwd, prettyTime);
    EvaluateTier(pwd, prettyTime);
    TierLabelIff(pwd, r.score, r.labelText);
    if pwd != [] && CharsetSize(pwd) == 0 {
      UnrecognisedScoresAtMostOne(pwd);
    }
    if r.score == 5 {
      ScoreFiveIffFullCharset(pwd);
    }
  }
}
