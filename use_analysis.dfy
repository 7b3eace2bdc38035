/**
 * The analysis hook: which detection methods run for a media item, how
 * their scores are aggregated into a trust verdict, and how the
 * `isAnalyzing`/`progress` state moves while one item or a batch of items
 * is analysed.
 *
 * The placeholder detectors draw their scores and confidences at random;
 * here those draws are a `Readings` argument, and the result id (built from
 * the clock) is an opaque `resultId` argument.
 */
module Analysis {
  import opened Types
  import opened Builtins

  /** One detector's draw: its score and its confidence in that score. */
  datatype Reading = Reading(score: real, confidence: real)

  /** The draws of the four detectors; `spectral` is used for audio only. */
  datatype Readings = Readings(
    facial: Reading,
    temporal: Reading,
    compression: Reading,
    spectral: Reading)

  const FacialName := "Facial Landmark Analysis"
  const TemporalName := "Temporal Coherence"
  const CompressionName := "Compression Artifacts"
  const SpectralName := "Spectral Analysis"

  function FacialLandmark(rd: Reading): DetectionMethod
  {
    DetectionMethod(FacialName, Visual, rd.score, rd.confidence,
      "Analyzed facial geometry and landmark consistency")
  }

  function TemporalCoherence(rd: Reading): DetectionMethod
  {
    DetectionMethod(TemporalName, Temporal, rd.score, rd.confidence,
      "Examined frame-to-frame consistency and motion patterns")
  }

  function CompressionArtifacts(rd: Reading): DetectionMethod
  {
    DetectionMethod(CompressionName, MetadataCategory, rd.score, rd.confidence,
      "Detected compression patterns and digital fingerprints")
  }

  function SpectralAnalysis(rd: Reading): DetectionMethod
  {
    DetectionMethod(SpectralName, AudioCategory, rd.score, rd.confidence,
      "Analyzed frequency patterns and voice characteristics")
  }

  /** The three methods every media kind runs, in invocation order. */
  function BaseMethods(rds: Readings): seq<DetectionMethod>
  {
    [FacialLandmark(rds.facial), TemporalCoherence(rds.temporal), CompressionArtifacts(rds.compression)]
  }

  /** The methods run for a media kind: audio appends spectral analysis. */
  function MethodsFor(kind: MediaKind, rds: Readings): seq<DetectionMethod>
  {
    if kind == Audio then BaseMethods(rds) + [SpectralAnalysis(rds.spectral)]
    else BaseMethods(rds)
  }

  function Names(ms: seq<DetectionMethod>): seq<string>
  {
    seq(|ms|, i requires 0 <= i < |ms| => ms[i].name)
  }

  /**
   * Every kind runs the three base methods in fixed order; audio, and only
   * audio, gets spectral analysis as a fourth and last method.
   */
  lemma MethodSelection(kind: MediaKind, rds: Readings)
    ensures var ms := MethodsFor(kind, rds);
      && |ms| >= 3
      && Names(ms)[..3] == [FacialName, TemporalName, CompressionName]
      && (kind == Audio ==> Names(ms) == [FacialName, TemporalName, CompressionName, SpectralName])
      && (kind != Audio ==> Names(ms) == [FacialName, TemporalName, CompressionName])
  {
    var b := BaseMethods(rds);
    assert Names(b) == [FacialName, TemporalName, CompressionName];
    if kind == Audio {
      var ms := b + [SpectralAnalysis(rds.spectral)];
      assert Names(ms) == Names(b) + [SpectralName];
    }
  }

  // ---------------------------------------------------------------------
  // Aggregation

  /** The left fold `reduce((sum, m) => sum + m.score, 0)`. */
  function SumScores(ms: seq<DetectionMethod>): real
  {
    if ms == [] then 0.0 else SumScores(ms[..|ms| - 1]) + ms[|ms| - 1].score
  }

  function MeanScore(ms: seq<DetectionMethod>): real
    requires |ms| > 0
  {
    SumScores(ms) / |ms| as real
  }

  predicate ScoresInUnit(ms: seq<DetectionMethod>)
  {
    forall i :: 0 <= i < |ms| ==> 0.0 <= ms[i].score <= 1.0
  }

  /** The sum of the scores of the methods run for a kind, written out. */
  lemma SumOfMethods(kind: MediaKind, rds: Readings)
    ensures SumScores(MethodsFor(kind, rds)) ==
      rds.facial.score + rds.temporal.score + rds.compression.score
        + (if kind == Audio then rds.spectral.score else 0.0)
  {
    var base := BaseMethods(rds);
    assert base[..2][..1] == [base[0]] && [base[0]][..0] == [];
    assert SumScores([base[0]]) == base[0].score;
    assert base[..2] == [base[0], base[1]];
    assert SumScores(base[..2]) == base[0].score + base[1].score;
    assert SumScores(base) == base[0].score + base[1].score + base[2].score;
    if kind == Audio {
      var ms := MethodsFor(kind, rds);
      assert ms[..3] == base;
    }
  }

  lemma {:induction false} SumScoresBounds(ms: seq<DetectionMethod>)
    requires ScoresInUnit(ms)
    ensures 0.0 <= SumScores(ms) <= |ms| as real
  {
    if ms != [] {
      SumScoresBounds(ms[..|ms| - 1]);
    }
  }

  /** `Math.round(avgScore * 100)`. */
  function TrustScore(ms: seq<DetectionMethod>): int
    requires |ms| > 0
  {
    Round(MeanScore(ms) * 100.0)
  }

  /** With every score in [0, 1], the trust score lies in [0, 100]. */
  lemma TrustScoreBounds(ms: seq<DetectionMethod>)
    requires |ms| > 0 && ScoresInUnit(ms)
    ensures 0 <= TrustScore(ms) <= 100
  {
    SumScoresBounds(ms);
    RatioWithin(SumScores(ms), |ms| as real, 1.0);
    RoundWithin(MeanScore(ms) * 100.0, 0, 100);
  }

  /** The strict threshold: a trust score of 60 is not authentic, 61 is. */
  const AuthenticThreshold := 60

  const AuthenticExplanation := "Our AI analysis indicates this media appears to be authentic based on multiple detection methods including facial landmark consistency, temporal coherence, and metadata validation."
  const SuspiciousExplanation := "Our AI analysis has detected potential signs of manipulation. This could indicate the presence of deepfake technology or other digital alterations."
  const StandardWarnings := [
    "Potential AI-generated content detected",
    "Unusual compression patterns found",
    "Temporal inconsistencies identified"]

  /** The metadata block synthesised from the media kind and size. */
  function BuildMetadata(media: MediaFile): (m: MediaMetadata)
    ensures m.resolution.Some? <==> media.kind != Audio
    ensures m.resolution.Some? ==> m.resolution.value == Resolution(1920, 1080)
    ensures m.duration.Some? <==> media.kind != Image
    ensures m.duration.Some? ==> m.duration.value == 45
    ensures m.format == match media.kind
      case Image => "JPEG"
      case Video => "MP4"
      case Audio => "WAV"
    ensures m.fileSize == media.size
  {
    MediaMetadata(
      if media.kind != Audio then Some(Resolution(1920, 1080)) else None,
      if media.kind != Image then Some(45) else None,
      if media.kind == Image then "JPEG" else if media.kind == Video then "MP4" else "WAV",
      media.size)
  }

  /** Turns the outputs of the methods run on `media` into one result. */
  function Aggregate(media: MediaFile, ms: seq<DetectionMethod>, resultId: string): (r: AnalysisResult)
    requires |ms| > 0
    ensures r.id == resultId && r.mediaId == media.id && r.detectionMethods == ms
    ensures r.trustScore == TrustScore(ms)
    ensures r.isAuthentic <==> r.trustScore > AuthenticThreshold
    ensures r.confidence == r.trustScore
    ensures r.warnings == [] <==> r.isAuthentic
    ensures !r.isAuthentic ==> r.warnings == StandardWarnings
    ensures r.explanation == if r.isAuthentic then AuthenticExplanation else SuspiciousExplanation
    ensures r.metadata == BuildMetadata(media)
  {
    var avgScore := SumScores(ms) / |ms| as real;
    var trustScore := Round(avgScore * 100.0);
    var isAuthentic := trustScore > AuthenticThreshold;
    AnalysisResult(
      resultId,
      media.id,
      trustScore,
      isAuthentic,
      Round(avgScore * 100.0),
      ms,
      BuildMetadata(media),
      if isAuthentic then AuthenticExplanation else SuspiciousExplanation,
      if !isAuthentic then StandardWarnings else [])
  }

  /** The whole analysis of one item, given the detectors' draws. */
  function Analyze(media: MediaFile, rds: Readings, resultId: string): (r: AnalysisResult)
    ensures r.mediaId == media.id
    ensures r.detectionMethods == MethodsFor(media.kind, rds)
  {
    Aggregate(media, MethodsFor(media.kind, rds), resultId)
  }

  /** The analyses of a batch, one per item, in input order. */
  function AnalyzeAll(files: seq<MediaFile>, rds: seq<Readings>, ids: seq<string>): (rs: seq<AnalysisResult>)
    requires |rds| == |files| && |ids| == |files|
    ensures |rs| == |files|
    ensures forall i :: 0 <= i < |files| ==> rs[i].mediaId == files[i].id
  {
    seq(|files|, i requires 0 <= i < |files| => Analyze(files[i], rds[i], ids[i]))
  }

  /**
   * The draws an analysis of `kind` uses lie in [0, 1]. The spectral draw
   * is used only for audio, so for other kinds it may be anything.
   */
  predicate ReadingsInUnit(kind: MediaKind, rds: Readings)
  {
    && 0.0 <= rds.facial.score <= 1.0
    && 0.0 <= rds.temporal.score <= 1.0
    && 0.0 <= rds.compression.score <= 1.0
    && (kind == Audio ==> 0.0 <= rds.spectral.score <= 1.0)
  }

  /**
   * The verdict of any analysis: a trust score in [0, 100] when the draws
   * are in [0, 1], authentic exactly above 60, warnings exactly when not
   * authentic.
   */
  lemma AnalyzeVerdict(media: MediaFile, rds: Readings, resultId: string)
    requires ReadingsInUnit(media.kind, rds)
    ensures var r := Analyze(media, rds, resultId);
      && 0 <= r.trustScore <= 100
      && r.confidence == r.trustScore
      && (r.isAuthentic <==> r.trustScore > 60)
      && (r.warnings == [] <==> r.isAuthentic)
  {
    MethodsInUnit(media.kind, rds);
    TrustScoreBounds(MethodsFor(media.kind, rds));
  }

  lemma MethodsInUnit(kind: MediaKind, rds: Readings)
    requires ReadingsInUnit(kind, rds)
    ensures ScoresInUnit(MethodsFor(kind, rds))
  {
    var b := BaseMethods(rds);
    assert ScoresInUnit(b) by {
      assert b[0].score == rds.facial.score && b[1].score == rds.temporal.score;
      assert b[2].score == rds.compression.score;
    }
    if kind == Audio {
      var ms := b + [SpectralAnalysis(rds.spectral)];
      assert forall i :: 0 <= i < 3 ==> ms[i] == b[i];
    }
  }

  /**
   * The ranges the placeholder detectors draw from: `Math.random()` is in
   * [0, 1), so `Math.random() * w + lo` is in [lo, lo + w). The spectral
   * detector runs only for audio, so for other kinds its draw may be anything.
   */
  predicate PlaceholderReadings(kind: MediaKind, rds: Readings)
  {
    && 0.7 <= rds.facial.score < 1.0 && 0.8 <= rds.facial.confidence < 1.0
    && 0.6 <= rds.temporal.score < 1.0 && 0.75 <= rds.temporal.confidence < 0.95
    && 0.65 <= rds.compression.score < 0.95 && 0.7 <= rds.compression.confidence < 0.95
    && (kind == Audio ==> 0.7 <= rds.spectral.score < 1.0 && 0.8 <= rds.spectral.confidence < 1.0)
  }

  /**
   * With the placeholder ranges the mean score is at least 0.65 (0.6625 for
   * audio), so every placeholder analysis scores at least 65, is authentic
   * and carries no warnings.
   */
  lemma PlaceholderAlwaysAuthentic(media: MediaFile, rds: Readings, resultId: string)
    requires PlaceholderReadings(media.kind, rds)
    ensures var r := Analyze(media, rds, resultId);
      && 65 <= r.trustScore <= 100
      && r.isAuthentic
      && r.warnings == []
      && r.explanation == AuthenticExplanation
  {
    PlaceholderTrust(media.kind, rds);
  }

  /** The trust score part of the above, on the method set alone. */
  lemma PlaceholderTrust(kind: MediaKind, rds: Readings)
    requires PlaceholderReadings(kind, rds)
    ensures 65 <= TrustScore(MethodsFor(kind, rds)) <= 100
  {
    var ms := MethodsFor(kind, rds);
    var s := SumScores(ms);
    SumOfMethods(kind, rds);
    if kind == Audio {
      assert |ms| == 4 && MeanScore(ms) == s / 4.0;
      assert 2.65 <= s <= 4.0;
      RoundWithin(MeanScore(ms) * 100.0, 66, 100);
    } else {
      assert |ms| == 3 && MeanScore(ms) == s / 3.0;
      assert 1.95 <= s <= 3.0;
      RoundWithin(MeanScore(ms) * 100.0, 65, 100);
    }
  }


  /** Scores 0.9, 0.85 and 0.95 on a non-audio item: mean 0.9, trust 90, authentic. */
  lemma ExampleAuthentic(media: MediaFile, spectral: Reading, resultId: string)
    requires media.kind != Audio
    ensures var r := Analyze(media, Readings(Reading(0.9, 0.9), Reading(0.85, 0.8), Reading(0.95, 0.8), spectral), resultId);
      r.trustScore == 90 && r.isAuthentic && r.warnings == []
  {
    var ms := MethodsFor(media.kind, Readings(Reading(0.9, 0.9), Reading(0.85, 0.8), Reading(0.95, 0.8), spectral));
    SumOfMethods(media.kind, Readings(Reading(0.9, 0.9), Reading(0.85, 0.8), Reading(0.95, 0.8), spectral));
    assert SumScores(ms) == 2.7;
    RoundOfInt(90);
  }

  /** Scores 0.5, 0.4 and 0.55 on a non-audio item: mean 0.4833.., trust 48, suspicious. */
  lemma ExampleSuspicious(media: MediaFile, spectral: Reading, resultId: string)
    requires media.kind != Audio
    ensures var r := Analyze(media, Readings(Reading(0.5, 0.9), Reading(0.4, 0.8), Reading(0.55, 0.8), spectral), resultId);
      r.trustScore == 48 && !r.isAuthentic && r.warnings == StandardWarnings
  {
    var ms := MethodsFor(media.kind, Readings(Reading(0.5, 0.9), Reading(0.4, 0.8), Reading(0.55, 0.8), spectral));
    SumOfMethods(media.kind, Readings(Reading(0.5, 0.9), Reading(0.4, 0.8), Reading(0.55, 0.8), spectral));
    assert SumScores(ms) == 1.45;
  }

  // ---------------------------------------------------------------------
  // Progress state

  /** The checkpoints one analysis sets the progress to, in order. */
  const ProgressSteps: seq<int> := [10, 25, 45, 70, 85, 100]

  /** The hook's observable state after one write to it. */
  datatype Snapshot = Snapshot(isAnalyzing: bool, progress: int)

  function AnalyzingAt(steps: seq<int>): seq<Snapshot>
  {
    seq(|steps|, i requires 0 <= i < |steps| => Snapshot(true, steps[i]))
  }

  /** The writes of one analysis that starts with progress `p0`. */
  function MediaTrace(p0: int): seq<Snapshot>
  {
    [Snapshot(true, p0), Snapshot(true, 0)] + AnalyzingAt(ProgressSteps)
      + [Snapshot(false, 100), Snapshot(false, 0)]
  }

  lemma AnalyzingAtSnoc(steps: seq<int>, i: nat)
    requires i < |steps|
    ensures AnalyzingAt(steps[..i + 1]) == AnalyzingAt(steps[..i]) + [Snapshot(true, steps[i])]
  {
    assert steps[..i + 1] == steps[..i] + [steps[i]];
  }

  lemma MediaTraceSplit(h0: seq<Snapshot>, p0: int)
    ensures h0 + MediaTrace(p0)
      == h0 + [Snapshot(true, p0)] + [Snapshot(true, 0)] + AnalyzingAt(ProgressSteps)
        + [Snapshot(false, 100)] + [Snapshot(false, 0)]
  {
  }

  /**
   * One analysis raises the progress from 0 through the checkpoints 10, 25,
   * 45, 70, 85 and 100, strictly increasing, while analysing; it then
   * stops analysing and resets the progress to 0.
   */
  lemma MediaTraceCheckpoints(p0: int)
    ensures var t := MediaTrace(p0);
      && |t| == 10
      && t[0] == Snapshot(true, p0)
      && t[1] == Snapshot(true, 0)
      && (forall k :: 0 <= k < 8 ==> t[k].isAnalyzing)
      && (forall k :: 2 <= k < 8 ==> t[k].progress == ProgressSteps[k - 2])
      && (forall k, l :: 1 <= k < l < 8 ==> t[k].progress < t[l].progress)
      && t[8] == Snapshot(false, 100)
      && t[9] == Snapshot(false, 0)
  {
  }

  /** `Math.round(((i + 1) / n) * 100)`, the batch progress after item `i`. */
  function BatchProgress(i: nat, n: nat): int
    requires i < n
  {
    Round((i + 1) as real / n as real * 100.0)
  }

  lemma BatchProgressBounds(i: nat, n: nat)
    requires i < n
    ensures 0 <= BatchProgress(i, n) <= 100
  {
    RatioWithin((i + 1) as real, n as real, 1.0);
    RoundWithin((i + 1) as real / n as real * 100.0, 0, 100);
  }

  lemma BatchProgressMonotone(i: nat, j: nat, n: nat)
    requires i <= j < n
    ensures BatchProgress(i, n) <= BatchProgress(j, n)
  {
    var a := (i + 1) as real / n as real;
    var b := (j + 1) as real / n as real;
    assert a <= b;
    RoundMonotone(a * 100.0, b * 100.0);
  }

  lemma BatchProgressLast(n: nat)
    requires n > 0
    ensures BatchProgress(n - 1, n) == 100
  {
    assert n as real / n as real == 1.0;
    RoundOfInt(100);
  }

  /** The progress reading when item `j` of the batch starts. */
  function ProgressBefore(p0: int, j: nat, n: nat): int
    requires j < n
  {
    if j == 0 then p0 else BatchProgress(j - 1, n)
  }

  /** The writes of the first `k` items of a batch of `n`, starting at `p0`. */
  function BatchTrace(p0: int, n: nat, k: nat): seq<Snapshot>
    requires k <= n
  {
    if k == 0 then
      []
    else
      BatchTrace(p0, n, k - 1) + MediaTrace(ProgressBefore(p0, k - 1, n))
        + [Snapshot(false, BatchProgress(k - 1, n))]
  }

  /** Each item adds the eleven writes of its analysis and its batch step. */
  lemma {:induction false} BatchTraceLength(p0: int, n: nat, k: nat)
    requires k <= n
    ensures |BatchTrace(p0, n, k)| == 11 * k
  {
    if k > 0 {
      BatchTraceLength(p0, n, k - 1);
    }
  }

  /**
   * The write that ends item `j` of a batch: not analysing, progress at
   * `BatchProgress(j, n)`.
   */
  lemma {:induction false} BatchTraceItemEnd(p0: int, n: nat, k: nat, j: nat)
    requires j < k <= n
    ensures |BatchTrace(p0, n, k)| == 11 * k
    ensures BatchTrace(p0, n, k)[11 * j + 10] == Snapshot(false, BatchProgress(j, n))
  {
    BatchTraceLength(p0, n, k);
    BatchTraceLength(p0, n, k - 1);
    if j < k - 1 {
      BatchTraceItemEnd(p0, n, k - 1, j);
    }
  }

  lemma PrefixSnoc<T>(s: seq<T>, i: nat)
    requires i < |s|
    ensures s[..i + 1] == s[..i] + [s[i]]
  {
  }

  lemma BatchTraceSnoc(h0: seq<Snapshot>, p0: int, n: nat, i: nat)
    requires i < n
    ensures h0 + BatchTrace(p0, n, i + 1)
      == h0 + BatchTrace(p0, n, i) + MediaTrace(ProgressBefore(p0, i, n)) + [Snapshot(false, BatchProgress(i, n))]
  {
  }

  /**
   * The result-building part of `analyzeMedia`: the three base methods,
   * spectral analysis pushed for audio, then the aggregation.
   */
  method BuildResult(media: MediaFile, rds: Readings, resultId: string) returns (result: AnalysisResult)
    ensures result == Analyze(media, rds, resultId)
  {
    var detectionMethods := BaseMethods(rds);
    if media.kind == Audio {
      detectionMethods := detectionMethods + [SpectralAnalysis(rds.spectral)];
    }
    assert detectionMethods == MethodsFor(media.kind, rds);
    result := Aggregate(media, detectionMethods, resultId);
  }

  /** The state of `useAnalysis`: the `isAnalyzing` flag and the progress. */
  class AnalysisHook {
    var isAnalyzing: bool
    var progress: int
    /** Every state the hook has been put in, one entry per write. */
    ghost var history: seq<Snapshot>

    constructor ()
      ensures !isAnalyzing && progress == 0 && history == []
    {
      isAnalyzing := false;
      progress := 0;
      history := [];
    }

    /** `setIsAnalyzing`. */
    method SetIsAnalyzing(b: bool)
      modifies this
      ensures isAnalyzing == b && progress == old(progress)
      ensures history == old(history) + [Snapshot(b, progress)]
    {
      isAnalyzing := b;
      history := history + [Snapshot(isAnalyzing, progress)];
    }

    /** `setProgress`. */
    method SetProgress(p: int)
      modifies this
      ensures progress == p && isAnalyzing == old(isAnalyzing)
      ensures history == old(history) + [Snapshot(isAnalyzing, p)]
    {
      progress := p;
      history := history + [Snapshot(isAnalyzing, progress)];
    }

    /** The `for (const step of progressSteps)` loop of `analyzeMedia`. */
    method StepThroughCheckpoints()
      requires isAnalyzing
      modifies this
      ensures isAnalyzing && progress == 100
      ensures history == old(history) + AnalyzingAt(ProgressSteps)
    {
      var i := 0;
      while i < |ProgressSteps|
        invariant 0 <= i <= |ProgressSteps|
        invariant isAnalyzing
        invariant history == old(history) + AnalyzingAt(ProgressSteps[..i])
        invariant i > 0 ==> progress == ProgressSteps[i - 1]
      {
        SetProgress(ProgressSteps[i]);
        AnalyzingAtSnoc(ProgressSteps, i);
        i := i + 1;
      }
      assert ProgressSteps[..i] == ProgressSteps;
    }

    /** `analyzeMedia`: analyse one item, stepping the progress through the checkpoints. */
    method AnalyzeMedia(media: MediaFile, rds: Readings, resultId: string) returns (result: AnalysisResult)
      modifies this
      ensures result == Analyze(media, rds, resultId)
      ensures !isAnalyzing && progress == 0
      ensures history == old(history) + MediaTrace(old(progress))
    {
      ghost var h0, p0 := history, progress;
      SetIsAnalyzing(true);
      SetProgress(0);
      StepThroughCheckpoints();
      result := BuildResult(media, rds, resultId);
      SetIsAnalyzing(false);
      SetProgress(0);
      MediaTraceSplit(h0, p0);
    }

    /**
     * `analyzeBatch`: analyse the items one after another, collecting the
     * results in input order and setting the batch progress after each.
     */
    method AnalyzeBatch(files: seq<MediaFile>, rds: seq<Readings>, ids: seq<string>)
      returns (results: seq<AnalysisResult>)
      requires |rds| == |files| && |ids| == |files|
      modifies this
      ensures results == AnalyzeAll(files, rds, ids)
      ensures history == old(history) + BatchTrace(old(progress), |files|, |files|)
      ensures |files| == 0 ==> isAnalyzing == old(isAnalyzing) && progress == old(progress)
      ensures |files| > 0 ==> !isAnalyzing && progress == 100
    {
      results := [];
      var n := |files|;
      ghost var p0, h0 := progress, history;
      ghost var all := AnalyzeAll(files, rds, ids);
      for i := 0 to n
        invariant results == all[..i]
        invariant history == h0 + BatchTrace(p0, n, i)
        invariant i == 0 ==> isAnalyzing == old(isAnalyzing) && progress == p0
        invariant i > 0 ==> !isAnalyzing && progress == BatchProgress(i - 1, n)
      {
        BatchTraceSnoc(h0, p0, n, i);
        var result := AnalyzeMedia(files[i], rds[i], ids[i]);
        results := results + [result];
        PrefixSnoc(all, i);
        SetProgress(BatchProgress(i, n));
      }
      if n > 0 {
        BatchProgressLast(n);
      }
      assert all[..n] == all;
    }
  }
}
