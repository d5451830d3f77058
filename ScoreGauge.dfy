/**
 * The score gauge: a 0-100 score is classified into one of three bands, each
 * with a verdict text, a text class and an arc colour, and the gauge's
 * accessible label announces the rounded score (and the verdict when asked).
 * The score is a JavaScript number; only comparisons and rounding are applied
 * to it, so it is an exact `real` here.
 */
module ScoreGauge {

  import opened Outcomes
  import opened NumberText

  /** The three bands, from worst to best. */
  datatype Band = HighRisk | NeedsWork | LookingGood

  /** The verdict a band is shown with: its text and the class that colours it. */
  datatype Verdict = Verdict(text: string, className: string)

  const LowCut: real := 50.0
  const HighCut: real := 80.0

  /** Which scores belong to which band: [.., 50), [50, 80), [80, ..). */
  predicate InBand(score: real, b: Band) {
    match b
    case HighRisk => score < LowCut
    case NeedsWork => LowCut <= score < HighCut
    case LookingGood => HighCut <= score
  }

  /** Position of a band in the order worst-to-best. */
  function Rank(b: Band): (k: nat)
    ensures k < 3
  {
    match b
    case HighRisk => 0
    case NeedsWork => 1
    case LookingGood => 2
  }

  function BandVerdict(b: Band): Verdict {
    match b
    case HighRisk => Verdict("High Risk", "text-owl-danger")
    case NeedsWork => Verdict("Needs Work", "text-owl-warning")
    case LookingGood => Verdict("Looking Good", "text-owl-success")
  }

  function BandColor(b: Band): string {
    match b
    case HighRisk => "#DC2626"
    case NeedsWork => "#D97706"
    case LookingGood => "#059669"
  }

  /** The band a score falls in: it exists and it is the only one. */
  function BandOf(score: real): (b: Band)
    ensures InBand(score, b)
    ensures forall b' :: InBand(score, b') ==> b' == b
  {
    if score < LowCut then HighRisk
    else if score < HighCut then NeedsWork
    else LookingGood
  }

  /** `getVerdict`: the verdict is exactly the one of the band holding the score. */
  function GetVerdict(score: real): (v: Verdict)
    ensures forall b :: InBand(score, b) <==> v == BandVerdict(b)
  {
    if score < 50.0 then Verdict("High Risk", "text-owl-danger")
    else if score < 80.0 then Verdict("Needs Work", "text-owl-warning")
    else Verdict("Looking Good", "text-owl-success")
  }

  /** `getColor`: the arc colour is exactly the one of the band holding the score. */
  function GetColor(s: real): (c: string)
    ensures forall b :: InBand(s, b) <==> c == BandColor(b)
  {
    if s < 50.0 then "#DC2626"
    else if s < 80.0 then "#D97706"
    else "#059669"
  }

  /** The band edges: 50 already needs work, 80 already looks good. */
  lemma BoundaryScores()
    ensures GetVerdict(49.99) == Verdict("High Risk", "text-owl-danger")
    ensures GetVerdict(50.0) == Verdict("Needs Work", "text-owl-warning")
    ensures GetVerdict(79.99) == Verdict("Needs Work", "text-owl-warning")
    ensures GetVerdict(80.0) == Verdict("Looking Good", "text-owl-success")
    ensures GetColor(50.0) == "#D97706" && GetColor(80.0) == "#059669"
  {
    assert InBand(49.99, HighRisk) && InBand(79.99, NeedsWork);
  }

  /** Raising the score never moves the verdict to a worse band. */
  lemma VerdictMonotone(s1: real, s2: real)
    requires s1 <= s2
    ensures GetVerdict(s1) == BandVerdict(BandOf(s1))
    ensures GetVerdict(s2) == BandVerdict(BandOf(s2))
    ensures Rank(BandOf(s1)) <= Rank(BandOf(s2))
  {
  }

  /** Colour band and verdict band always agree: each determines the other. */
  lemma ColorAgreesWithVerdict(s1: real, s2: real)
    ensures GetVerdict(s1) == BandVerdict(BandOf(s1)) && GetColor(s1) == BandColor(BandOf(s1))
    ensures GetColor(s1) == GetColor(s2) <==> GetVerdict(s1) == GetVerdict(s2)
  {
    assert InBand(s1, BandOf(s1)) && InBand(s2, BandOf(s2));
  }

  /**
   * The separator between the score and the verdict in the accessible label,
   * as the component's file has it: the three characters U+00E2, U+20AC and
   * U+201D between spaces (the UTF-8 bytes of an em dash read as Windows-1252).
   */
  const VerdictSeparator: string := " \U{00E2}\U{20AC}\U{201D} "

  predicate EndsWith(s: string, suffix: string) {
    |suffix| <= |s| && s[|s| - |suffix|..] == suffix
  }

  /** A string ends with whatever was appended to it last. */
  lemma EndsWithAppended(a: string, b: string)
    ensures EndsWith(a + b, b)
  {
    assert (a + b)[|a|..] == b;
  }

  /** Putting something in front of a string keeps what it ends with. */
  lemma EndsWithPrepended(a: string, b: string, suffix: string)
    requires EndsWith(b, suffix)
    ensures EndsWith(a + b, suffix)
  {
    assert (a + b)[|a + b| - |suffix|..] == b[|b| - |suffix|..];
  }

  /** The three pieces of a concatenation can be sliced back out of it. */
  lemma SliceThree(a: string, b: string, c: string)
    ensures var s := a + b + c;
      && s[..|a|] == a && s[|a|..|a| + |b|] == b && s[|a| + |b|..] == c
  {
    var s := a + b + c;
    assert s[..|a|] == a;
    assert s[|a|..|a| + |b|] == b;
    assert s[|a| + |b|..] == c;
  }

  /**
   * The `aria-label` of the gauge's image: " out of 100" follows the number,
   * and then the separator and the verdict when `showVerdict` is set.
   */
  function AriaLabel(caption: string, score: real, showVerdict: bool): (text: string)
    ensures showVerdict ==> EndsWith(text, " out of 100" + VerdictSeparator + GetVerdict(score).text)
    ensures !showVerdict ==> EndsWith(text, " out of 100")
  {
    var prefix := caption + ": " + IntText(Round(score));
    var rest := if showVerdict then " out of 100" + VerdictSeparator + GetVerdict(score).text else " out of 100";
    EndsWithAppended(prefix, rest);
    prefix + rest
  }

  /**
   * The accessible label starts with the caption, announces the rounded score
   * in a form that reads back as that number, and mentions the verdict text
   * exactly when `showVerdict` is set.
   */
  lemma AriaLabelAnnounces(caption: string, score: real, showVerdict: bool)
    ensures var r := AriaLabel(caption, score, showVerdict);
      var n := IntText(Round(score));
      && |caption| + 2 + |n| <= |r|
      && r[..|caption| + 2] == caption + ": "
      && ParseInt(r[|caption| + 2..|caption| + 2 + |n|]) == Some(Round(score))
      && r[|caption| + 2 + |n|..] == (if showVerdict then " out of 100" + VerdictSeparator + GetVerdict(score).text else " out of 100")
      && (EndsWith(r, GetVerdict(score).text) <==> showVerdict)
  {
    var r := AriaLabel(caption, score, showVerdict);
    var c := caption + ": ";
    var n := IntText(Round(score));
    var v := GetVerdict(score).text;
    var rest := if showVerdict then " out of 100" + VerdictSeparator + v else " out of 100";
    assert r == c + n + rest;
    SliceThree(c, n, rest);
    IntTextRoundTrip(Round(score));
    if showVerdict {
      EndsWithAppended(" out of 100" + VerdictSeparator, v);
      EndsWithPrepended(c + n, rest, v);
    } else {
      // every verdict text ends in a letter, the label without one in the digit 0
      assert r[|r| - 1] == '0';
      assert v[|v| - 1] != '0';
    }
  }

  /** The gauge's inputs; `size` and `showVerdict` are optional. */
  datatype GaugeProps = GaugeProps(score: real, caption: string, size: Option<real>, showVerdict: Option<bool>)

  const DefaultSize: real := 160.0

  /** What the gauge shows, leaving out the arc geometry. */
  datatype GaugeView = GaugeView(
    size: real,
    ariaLabel: string,
    arcColor: string,
    scoreText: string,
    scoreColor: string,
    caption: string,
    verdictLine: Option<Verdict>)

  /**
   * The gauge as rendered: defaults filled in (size 160, no verdict), arc and
   * score text in the band's colour, and a verdict line only when asked for.
   */
  function Render(p: GaugeProps): (g: GaugeView)
    ensures g.size == (if p.size.Some? then p.size.value else DefaultSize)
    ensures g.verdictLine.Some? <==> p.showVerdict == Some(true)
    ensures g.verdictLine.Some? ==> g.verdictLine.value == BandVerdict(BandOf(p.score))
    ensures g.arcColor == BandColor(BandOf(p.score)) && g.scoreColor == g.arcColor
    ensures g.scoreText == IntText(Round(p.score)) && ParseInt(g.scoreText) == Some(Round(p.score))
    ensures g.caption == p.caption
    ensures g.ariaLabel == AriaLabel(p.caption, p.score, p.showVerdict == Some(true))
  {
    var size := if p.size.Some? then p.size.value else DefaultSize;
    var showVerdict := if p.showVerdict.Some? then p.showVerdict.value else false;
    var verdict := GetVerdict(p.score);
    IntTextRoundTrip(Round(p.score));
    assert InBand(p.score, BandOf(p.score));
    GaugeView(
      size,
      AriaLabel(p.caption, p.score, showVerdict),
      GetColor(p.score),
      IntText(Round(p.score)),
      GetColor(p.score),
      p.caption,
      if showVerdict then Some(verdict) else None)
  }
}
