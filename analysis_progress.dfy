/**
 * The progress panel: nothing while no analysis runs, otherwise the stage
 * the current progress falls in.
 */
module ProgressPanel {
  import opened Types
  import Analysis

  datatype Stage = Preprocessing | RunningAnalysis | Validating | Finalizing

  function StageText(s: Stage): string
  {
    match s
    case Preprocessing => "Preprocessing media..."
    case RunningAnalysis => "Running AI analysis..."
    case Validating => "Validating results..."
    case Finalizing => "Finalizing report..."
  }

  /** Each stage has its own text, so the text tells which stage is shown. */
  lemma StageTextDistinct(a: Stage, b: Stage)
    ensures StageText(a) == StageText(b) <==> a == b
  {
    if a != b {
      assert StageText(a)[0] != StageText(b)[0];
    }
  }

  /** The position of a stage in the order they are passed through. */
  function Rank(s: Stage): nat
  {
    match s
    case Preprocessing => 0
    case RunningAnalysis => 1
    case Validating => 2
    case Finalizing => 3
  }

  /** `getStage`: below 25, below 50, below 75, then finalizing. */
  function GetStage(progress: int): (s: Stage)
    ensures s == Preprocessing <==> progress < 25
    ensures s == RunningAnalysis <==> 25 <= progress < 50
    ensures s == Validating <==> 50 <= progress < 75
    ensures s == Finalizing <==> progress >= 75
  {
    if progress < 25 then Preprocessing
    else if progress < 50 then RunningAnalysis
    else if progress < 75 then Validating
    else Finalizing
  }

  /** What the panel renders: nothing (`None`) unless an analysis runs. */
  function Panel(progress: int, isAnalyzing: bool): (p: Option<Stage>)
    ensures p.None? <==> !isAnalyzing
    ensures p.Some? ==> p.value == GetStage(progress)
  {
    if !isAnalyzing then None else Some(GetStage(progress))
  }

  /** More progress never shows an earlier stage. */
  lemma StageMonotone(p: int, q: int)
    requires p <= q
    ensures Rank(GetStage(p)) <= Rank(GetStage(q))
  {
  }

  /** The stages of the six checkpoints one analysis passes through. */
  lemma CheckpointStages()
    ensures GetStage(Analysis.ProgressSteps[0]) == Preprocessing
    ensures GetStage(Analysis.ProgressSteps[1]) == RunningAnalysis
    ensures GetStage(Analysis.ProgressSteps[2]) == RunningAnalysis
    ensures GetStage(Analysis.ProgressSteps[3]) == Validating
    ensures GetStage(Analysis.ProgressSteps[4]) == Finalizing
    ensures GetStage(Analysis.ProgressSteps[5]) == Finalizing
  {
  }

  /**
   * From the reset to 0 on, until the end of one analysis, the panel is
   * shown and its stage only moves forward; once the analysis ends it is
   * hidden, both when it stops at 100 and after the reset to 0.
   */
  lemma StagesAdvanceDuringAnalysis(p0: int)
    ensures var t := Analysis.MediaTrace(p0);
      && (forall k :: 1 <= k < 8 ==> Panel(t[k].progress, t[k].isAnalyzing).Some?)
      && (forall k, l :: 1 <= k <= l < 8 ==>
            Rank(GetStage(t[k].progress)) <= Rank(GetStage(t[l].progress)))
      && Panel(t[8].progress, t[8].isAnalyzing).None?
      && Panel(t[9].progress, t[9].isAnalyzing).None?
  {
    var t := Analysis.MediaTrace(p0);
    Analysis.MediaTraceCheckpoints(p0);
    forall k, l | 1 <= k <= l < 8
      ensures Rank(GetStage(t[k].progress)) <= Rank(GetStage(t[l].progress))
    {
      StageMonotone(t[k].progress, t[l].progress);
    }
  }

  /**
   * The first write of an analysis turns the panel on before the progress
   * is reset, so it carries the previous progress: from 25 on, the second
   * write is at an earlier stage. React renders both writes together, so
   * this first stage is not displayed.
   */
  lemma StageStepsBackAtStart(p0: int)
    requires p0 >= 25
    ensures var t := Analysis.MediaTrace(p0);
      && Panel(t[0].progress, t[0].isAnalyzing) == Some(GetStage(p0))
      && Panel(t[1].progress, t[1].isAnalyzing) == Some(Preprocessing)
      && Rank(GetStage(t[1].progress)) < Rank(GetStage(t[0].progress))
  {
    Analysis.MediaTraceCheckpoints(p0);
  }

  /**
   * A batch leaves the progress at 100, so the first write of the next
   * analysis carries the finalizing stage and the second the preprocessing
   * stage. React renders the two writes together, so only preprocessing is
   * displayed.
   */
  lemma NextAnalysisAfterBatch(n: nat)
    requires n > 0
    ensures var t := Analysis.MediaTrace(Analysis.BatchProgress(n - 1, n));
      && Panel(t[0].progress, t[0].isAnalyzing) == Some(Finalizing)
      && Panel(t[1].progress, t[1].isAnalyzing) == Some(Preprocessing)
  {
    Analysis.BatchProgressLast(n);
    StageStepsBackAtStart(100);
  }
}
