/**
 * The result panel's decisions: the colour, background and icon bands of
 * a trust score, the headline, whether the warnings panel shows, and how
 * each method's score is shown as a percentage.
 */
module ResultPanel {
  import opened Types
  import opened Builtins
  import Analysis

  const Green := "text-green-600"
  const Yellow := "text-yellow-600"
  const Red := "text-red-600"

  /** `getTrustColor`: green from 80, yellow from 60, red below. */
  function TrustColor(score: real): (c: string)
    ensures c == Green <==> score >= 80.0
    ensures c == Yellow <==> 60.0 <= score < 80.0
    ensures c == Red <==> score < 60.0
  {
    if score >= 80.0 then Green
    else if score >= 60.0 then Yellow
    else Red
  }

  const GreenBg := "from-green-500 to-emerald-600"
  const YellowBg := "from-yellow-500 to-orange-600"
  const RedBg := "from-red-500 to-rose-600"

  /** `getTrustBg`. */
  function TrustBg(score: real): (b: string)
    ensures b == GreenBg <==> score >= 80.0
    ensures b == YellowBg <==> 60.0 <= score < 80.0
    ensures b == RedBg <==> score < 60.0
  {
    if score >= 80.0 then GreenBg
    else if score >= 60.0 then YellowBg
    else RedBg
  }

  datatype TrustIconKind = ShieldCheck | Shield | ShieldAlert

  /** `getTrustIcon`. */
  function TrustIcon(score: real): (i: TrustIconKind)
    ensures i == ShieldCheck <==> score >= 80.0
    ensures i == Shield <==> 60.0 <= score < 80.0
    ensures i == ShieldAlert <==> score < 60.0
  {
    if score >= 80.0 then ShieldCheck
    else if score >= 60.0 then Shield
    else ShieldAlert
  }

  /** Colour, background and icon always pick the same band. */
  lemma BandsAgree(score: real)
    ensures TrustColor(score) == Green <==> TrustBg(score) == GreenBg
    ensures TrustColor(score) == Green <==> TrustIcon(score) == ShieldCheck
    ensures TrustColor(score) == Yellow <==> TrustBg(score) == YellowBg
    ensures TrustColor(score) == Yellow <==> TrustIcon(score) == Shield
    ensures TrustColor(score) == Red <==> TrustBg(score) == RedBg
    ensures TrustColor(score) == Red <==> TrustIcon(score) == ShieldAlert
  {
  }

  /**
   * A trust score of exactly 60 is shown in the middle (yellow) band with
   * the plain shield, although the analysis calls it not authentic.
   */
  lemma SixtyIsYellowButSuspicious(media: MediaFile, ms: seq<DetectionMethod>, resultId: string)
    requires |ms| > 0
    requires Analysis.Aggregate(media, ms, resultId).trustScore == 60
    ensures var r := Analysis.Aggregate(media, ms, resultId);
      && !r.isAuthentic
      && |r.warnings| == 3
      && TrustColor(r.trustScore as real) == Yellow
      && TrustIcon(r.trustScore as real) == Shield
  {
  }

  const AuthenticHeadline := "Likely Authentic"
  const SuspiciousHeadline := "Potential Manipulation Detected"

  /** The headline under "Analysis Complete". */
  function Headline(r: AnalysisResult): (h: string)
    ensures h == AuthenticHeadline <==> r.isAuthentic
    ensures h == SuspiciousHeadline <==> !r.isAuthentic
  {
    if r.isAuthentic then AuthenticHeadline else SuspiciousHeadline
  }

  /** Whether the warnings panel is rendered. */
  function ShowsWarnings(r: AnalysisResult): bool
  {
    |r.warnings| > 0
  }

  /** For an analysis, the warnings panel shows exactly when the headline is the suspicious one. */
  lemma WarningsPanelMatchesHeadline(media: MediaFile, rds: Analysis.Readings, resultId: string)
    ensures var r := Analysis.Analyze(media, rds, resultId);
      ShowsWarnings(r) <==> Headline(r) == SuspiciousHeadline
  {
  }

  /** The percentage shown beside a method: `Math.round(method.score * 100)`. */
  function MethodPercent(m: DetectionMethod): (p: int)
    ensures 0.0 <= m.score <= 1.0 ==> 0 <= p <= 100
  {
    var p := Round(m.score * 100.0);
    assert 0.0 <= m.score <= 1.0 ==> 0 <= p <= 100 by {
      if 0.0 <= m.score <= 1.0 {
        RoundWithin(m.score * 100.0, 0, 100);
      }
    }
    p
  }

  /** The colour of that percentage, banded on the unrounded `method.score * 100`. */
  function MethodColor(m: DetectionMethod): string
  {
    TrustColor(m.score * 100.0)
  }

  /**
   * Banding the unrounded value can disagree with the rounded percentage
   * shown: a score of 0.795 reads "80%" but is coloured yellow.
   */
  lemma MethodBandUsesUnroundedScore(m: DetectionMethod)
    requires m.score == 0.795
    ensures MethodPercent(m) == 80 && MethodColor(m) == Yellow
  {
  }
}
