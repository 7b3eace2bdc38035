/**
 * The dashboard's figures over the list of recent analyses: the counts,
 * the average trust score, the authenticity rate, the first five entries
 * and the colour of each entry's score.
 */
module Dashboard {
  import opened Types
  import opened Builtins
  import ResultPanel
  import Analysis

  /** `recentAnalyses.filter(r => r.isAuthentic).length`. */
  function CountAuthentic(rs: seq<AnalysisResult>): nat
  {
    if rs == [] then 0
    else CountAuthentic(rs[..|rs| - 1]) + (if rs[|rs| - 1].isAuthentic then 1 else 0)
  }

  /** `recentAnalyses.filter(r => !r.isAuthentic).length`. */
  function CountSuspicious(rs: seq<AnalysisResult>): nat
  {
    if rs == [] then 0
    else CountSuspicious(rs[..|rs| - 1]) + (if !rs[|rs| - 1].isAuthentic then 1 else 0)
  }

  /** `recentAnalyses.reduce((sum, r) => sum + r.trustScore, 0)`. */
  function SumTrust(rs: seq<AnalysisResult>): int
  {
    if rs == [] then 0 else SumTrust(rs[..|rs| - 1]) + rs[|rs| - 1].trustScore
  }

  /** `(n || 1)`: the divisor the dashboard uses so that an empty list divides by one. */
  function NonZero(n: nat): (d: nat)
    ensures d >= 1
    ensures n > 0 ==> d == n
  {
    if n == 0 then 1 else n
  }

  datatype Stats = Stats(totalAnalyses: nat, authenticMedia: nat, suspiciousMedia: nat, avgTrustScore: int)

  /** The `stats` object. */
  function ComputeStats(rs: seq<AnalysisResult>): Stats
  {
    Stats(
      |rs|,
      CountAuthentic(rs),
      CountSuspicious(rs),
      Round(SumTrust(rs) as real / NonZero(|rs|) as real))
  }

  /** `authenticity_rate`. */
  function AuthenticityRate(s: Stats): int
  {
    Round(s.authenticMedia as real / NonZero(s.totalAnalyses) as real * 100.0)
  }

  /** Every analysis is counted exactly once, as authentic or as suspicious. */
  lemma {:induction false} CountsPartition(rs: seq<AnalysisResult>)
    ensures CountAuthentic(rs) + CountSuspicious(rs) == |rs|
  {
    if rs != [] {
      CountsPartition(rs[..|rs| - 1]);
    }
  }

  predicate TrustInRange(rs: seq<AnalysisResult>)
  {
    forall i :: 0 <= i < |rs| ==> 0 <= rs[i].trustScore <= 100
  }

  lemma {:induction false} SumTrustBounds(rs: seq<AnalysisResult>)
    requires TrustInRange(rs)
    ensures 0 <= SumTrust(rs) <= 100 * |rs|
  {
    if rs != [] {
      SumTrustBounds(rs[..|rs| - 1]);
    }
  }

  /**
   * The stats add up (authentic + suspicious = total) and the average trust
   * score stays in [0, 100] when every trust score does.
   */
  lemma StatsConsistent(rs: seq<AnalysisResult>)
    requires TrustInRange(rs)
    ensures var s := ComputeStats(rs);
      && s.authenticMedia + s.suspiciousMedia == s.totalAnalyses
      && 0 <= s.avgTrustScore <= 100
  {
    CountsPartition(rs);
    SumTrustBounds(rs);
    var n := NonZero(|rs|) as real;
    RatioWithin(SumTrust(rs) as real, n, 100.0);
    RoundWithin(SumTrust(rs) as real / n, 0, 100);
  }

  /** The authenticity rate is a percentage in [0, 100]. */
  lemma RateBounds(rs: seq<AnalysisResult>)
    ensures 0 <= AuthenticityRate(ComputeStats(rs)) <= 100
  {
    CountsPartition(rs);
    var s := ComputeStats(rs);
    var q := s.authenticMedia as real / NonZero(s.totalAnalyses) as real;
    RatioWithin(s.authenticMedia as real, NonZero(s.totalAnalyses) as real, 1.0);
    RoundWithin(q * 100.0, 0, 100);
  }

  /** Without analyses every figure is 0, thanks to the `|| 1` divisor. */
  lemma EmptyDashboard()
    ensures ComputeStats([]) == Stats(0, 0, 0, 0)
    ensures AuthenticityRate(ComputeStats([])) == 0
  {
  }

  /** When every listed analysis is authentic, the rate is 100. */
  lemma AllAuthenticRate(rs: seq<AnalysisResult>)
    requires |rs| > 0
    requires forall i :: 0 <= i < |rs| ==> rs[i].isAuthentic
    ensures AuthenticityRate(ComputeStats(rs)) == 100
  {
    CountsAllWhenAllAuthentic(rs);
    var n := |rs| as real;
    assert n / n == 1.0;
    RoundOfInt(100);
  }

  lemma {:induction false} CountsAllWhenAllAuthentic(rs: seq<AnalysisResult>)
    requires forall i :: 0 <= i < |rs| ==> rs[i].isAuthentic
    ensures CountAuthentic(rs) == |rs|
  {
    if rs != [] {
      CountsAllWhenAllAuthentic(rs[..|rs| - 1]);
    }
  }

  /** With the placeholder detectors every non-empty batch yields a 100% authenticity rate. */
  lemma PlaceholderBatchRate(files: seq<MediaFile>, rds: seq<Analysis.Readings>, ids: seq<string>)
    requires |files| > 0 && |rds| == |files| && |ids| == |files|
    requires forall i :: 0 <= i < |rds| ==> Analysis.PlaceholderReadings(files[i].kind, rds[i])
    ensures AuthenticityRate(ComputeStats(Analysis.AnalyzeAll(files, rds, ids))) == 100
  {
    var rs := Analysis.AnalyzeAll(files, rds, ids);
    forall i | 0 <= i < |rs| ensures rs[i].isAuthentic {
      Analysis.PlaceholderAlwaysAuthentic(files[i], rds[i], ids[i]);
    }
    AllAuthenticRate(rs);
  }

  /** `recentAnalyses.slice(0, 5)`: at most the first five, in their order. */
  function Recent(rs: seq<AnalysisResult>): (r: seq<AnalysisResult>)
    ensures |r| == if |rs| < 5 then |rs| else 5
    ensures r <= rs
  {
    if |rs| <= 5 then rs else rs[..5]
  }

  /** The colour of an entry's trust score in the recent list. */
  function ScoreColor(trustScore: int): string
  {
    if trustScore >= 80 then "text-green-600"
    else if trustScore >= 60 then "text-yellow-600"
    else "text-red-600"
  }

  /** The recent list bands a score exactly as the result panel does. */
  lemma ScoreColorMatchesResultPanel(trustScore: int)
    ensures ScoreColor(trustScore) == ResultPanel.TrustColor(trustScore as real)
    ensures ScoreColor(trustScore) == ResultPanel.Green <==> trustScore >= 80
    ensures ScoreColor(trustScore) == ResultPanel.Yellow <==> 60 <= trustScore < 80
    ensures ScoreColor(trustScore) == ResultPanel.Red <==> trustScore < 60
  {
  }
}
