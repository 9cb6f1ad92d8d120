/**
 * The analysis workflow (src/workflow.py): a fixed linear chain of the six
 * nodes, the initial state of a run, and the quality summary of a finished
 * run. The quality reviews never steer the chain: an edge is a pair of node
 * names, and nothing about the state decides which edge is taken.
 */
module Workflow {
  import opened Common
  import opened Tools
  import opened Agents

  datatype Stage =
    | FetcherStage
    | DataQualityReviewerStage
    | AnalyzerStage
    | AnalysisQualityReviewerStage
    | SynthesizerStage
    | FinalQualityReviewerStage

  /** Where an edge leads: a node, or the end of the graph. */
  datatype Target = To(stage: Stage) | End

  const EntryPoint: Stage := FetcherStage

  /** The order in which a run executes the nodes. */
  const Pipeline: seq<Stage> := [
    FetcherStage, DataQualityReviewerStage, AnalyzerStage,
    AnalysisQualityReviewerStage, SynthesizerStage, FinalQualityReviewerStage
  ]

  /** The node name a stage is registered under. */
  function StageName(stage: Stage): string {
    match stage
    case FetcherStage => "fetcher"
    case DataQualityReviewerStage => "data_quality_reviewer"
    case AnalyzerStage => "analyzer"
    case AnalysisQualityReviewerStage => "analysis_quality_reviewer"
    case SynthesizerStage => "synthesizer"
    case FinalQualityReviewerStage => "final_quality_reviewer"
  }

  /** The graph's edges, in the order they are added. */
  const Edges: seq<(Stage, Target)> := [
    (FetcherStage, To(DataQualityReviewerStage)),
    (DataQualityReviewerStage, To(AnalyzerStage)),
    (AnalyzerStage, To(AnalysisQualityReviewerStage)),
    (AnalysisQualityReviewerStage, To(SynthesizerStage)),
    (SynthesizerStage, To(FinalQualityReviewerStage)),
    (FinalQualityReviewerStage, End)
  ]

  /** The single unconditional edge leaving each node. */
  function Successor(stage: Stage): Target {
    match stage
    case FetcherStage => To(DataQualityReviewerStage)
    case DataQualityReviewerStage => To(AnalyzerStage)
    case AnalyzerStage => To(AnalysisQualityReviewerStage)
    case AnalysisQualityReviewerStage => To(SynthesizerStage)
    case SynthesizerStage => To(FinalQualityReviewerStage)
    case FinalQualityReviewerStage => End
  }

  /** The stages met by following edges from `stage` until the end, for at most `fuel` steps. */
  function Follow(stage: Stage, fuel: nat): seq<Stage>
    decreases fuel
  {
    if fuel == 0 then []
    else match Successor(stage)
      case To(next) => [stage] + Follow(next, fuel - 1)
      case End => [stage]
  }

  /**
   * The graph is a chain: from the entry point, the edges visit every node
   * of the pipeline once, in order, and then reach the end.
   */
  lemma {:induction false} GraphIsLinearChain()
    ensures Follow(EntryPoint, |Pipeline| + 1) == Pipeline
    ensures forall i | 0 <= i < |Pipeline| - 1 :: Successor(Pipeline[i]) == To(Pipeline[i + 1])
    ensures Successor(Pipeline[|Pipeline| - 1]) == End
  {
    assert Follow(FinalQualityReviewerStage, 2) == Pipeline[5..];
    assert Follow(SynthesizerStage, 3) == Pipeline[4..];
    assert Follow(AnalysisQualityReviewerStage, 4) == Pipeline[3..];
    assert Follow(AnalyzerStage, 5) == Pipeline[2..];
    assert Follow(DataQualityReviewerStage, 6) == Pipeline[1..];
  }

  /** The edge list adds exactly the successor edge of each node, in pipeline order. */
  lemma {:induction false} EdgesAreSuccessors()
    ensures |Edges| == |Pipeline|
    ensures forall i | 0 <= i < |Edges| :: Edges[i] == (Pipeline[i], Successor(Pipeline[i]))
  {
  }

  /** Every stage is in the pipeline exactly once, under a name no other stage has. */
  lemma {:induction false} PipelineCoversStages()
    ensures forall i, j | 0 <= i < j < |Pipeline| :: Pipeline[i] != Pipeline[j]
    ensures forall i, j | 0 <= i < j < |Pipeline| :: StageName(Pipeline[i]) != StageName(Pipeline[j])
    ensures forall s: Stage :: s in Pipeline
  {
    forall s: Stage ensures s in Pipeline {
      match s
      case FetcherStage => assert Pipeline[0] == s;
      case DataQualityReviewerStage => assert Pipeline[1] == s;
      case AnalyzerStage => assert Pipeline[2] == s;
      case AnalysisQualityReviewerStage => assert Pipeline[3] == s;
      case SynthesizerStage => assert Pipeline[4] == s;
      case FinalQualityReviewerStage => assert Pipeline[5] == s;
    }
  }

  // ---------- running the pipeline ----------

  /** The state after one node has run. */
  function ApplyStage(stage: Stage, s: StateDict, ext: Externals): StateDict {
    match stage
    case FetcherStage => FetcherStep(s, ext)
    case DataQualityReviewerStage => DataQualityStep(s, ext)
    case AnalyzerStage => AnalyzerStep(s, ext)
    case AnalysisQualityReviewerStage => AnalysisQualityStep(s, ext)
    case SynthesizerStage => SynthesizerStep(s, ext)
    case FinalQualityReviewerStage => FinalQualityStep(s, ext)
  }

  /** The state after the given stages have run, in order. */
  function RunStages(stages: seq<Stage>, s: StateDict, ext: Externals): StateDict {
    if stages == [] then s
    else ApplyStage(stages[|stages| - 1], RunStages(stages[..|stages| - 1], s, ext), ext)
  }

  /** The result of `run_analysis(username, repos)`. */
  function RunResult(username: string, repos: string, ext: Externals): StateDict {
    RunStages(Pipeline, InitialState(username, repos), ext)
  }

  /** Runs one node on the shared state. */
  method RunStage(stage: Stage, state: AgentState, ext: Externals)
    modifies state
    ensures state.Snapshot() == ApplyStage(stage, old(state.Snapshot()), ext)
  {
    match stage {
      case FetcherStage => FetcherNode(state, ext);
      case DataQualityReviewerStage => DataQualityReviewerNode(state, ext);
      case AnalyzerStage => AnalyzerNode(state, ext);
      case AnalysisQualityReviewerStage => AnalysisQualityReviewerNode(state, ext);
      case SynthesizerStage => SynthesizerNode(state, ext);
      case FinalQualityReviewerStage => FinalQualityReviewerNode(state, ext);
    }
  }

  /**
   * `run_analysis`: builds the initial state and runs every stage of the
   * chain once, in order, with no retry and no early exit; `trace` lists
   * the stages in the order they ran.
   */
  method RunAnalysis(username: string, repos: string, ext: Externals) returns (result: StateDict, trace: seq<Stage>)
    ensures trace == Pipeline
    ensures result == RunResult(username, repos, ext)
  {
    var state := new AgentState(username, repos);
    trace := [];
    for i := 0 to |Pipeline|
      invariant trace == Pipeline[..i]
      invariant state.Snapshot() == RunStages(Pipeline[..i], InitialState(username, repos), ext)
    {
      RunStage(Pipeline[i], state, ext);
      assert Pipeline[..i + 1][..i] == Pipeline[..i];
      trace := trace + [Pipeline[i]];
    }
    assert Pipeline[..|Pipeline|] == Pipeline;
    result := state.Snapshot();
  }

  /** One more stage run after the others. */
  lemma {:induction false} RunStagesSnoc(stages: seq<Stage>, k: nat, s: StateDict, ext: Externals)
    requires k < |stages|
    ensures RunStages(stages[..k + 1], s, ext) == ApplyStage(stages[k], RunStages(stages[..k], s, ext), ext)
  {
    assert stages[..k + 1][..k] == stages[..k];
  }

  /** The first two stages: fetch, data review. */
  lemma {:induction false} RunFirstTwo(s0: StateDict, ext: Externals)
    ensures RunStages(Pipeline[..2], s0, ext) == DataQualityStep(FetcherStep(s0, ext), ext)
  {
    assert Pipeline[..0] == [];
    RunStagesSnoc(Pipeline, 0, s0, ext);
    RunStagesSnoc(Pipeline, 1, s0, ext);
  }

  /** The middle two stages: analysis, analysis review. */
  lemma {:induction false} RunMiddleTwo(s0: StateDict, ext: Externals)
    ensures RunStages(Pipeline[..4], s0, ext) == AnalysisQualityStep(AnalyzerStep(RunStages(Pipeline[..2], s0, ext), ext), ext)
  {
    RunStagesSnoc(Pipeline, 2, s0, ext);
    RunStagesSnoc(Pipeline, 3, s0, ext);
  }

  /** The last two stages: synthesis, final review. */
  lemma {:induction false} RunLastTwo(s0: StateDict, ext: Externals)
    ensures RunStages(Pipeline, s0, ext) == FinalQualityStep(SynthesizerStep(RunStages(Pipeline[..4], s0, ext), ext), ext)
  {
    RunStagesSnoc(Pipeline, 4, s0, ext);
    RunStagesSnoc(Pipeline, 5, s0, ext);
    assert Pipeline[..6] == Pipeline;
  }

  /** A run is the six steps composed in pipeline order. */
  lemma {:induction false} RunIsComposition(username: string, repos: string, ext: Externals)
    ensures RunResult(username, repos, ext) ==
      FinalQualityStep(SynthesizerStep(AnalysisQualityStep(AnalyzerStep(DataQualityStep(
        FetcherStep(InitialState(username, repos), ext), ext), ext), ext), ext), ext)
  {
    RunFirstTwo(InitialState(username, repos), ext);
    RunMiddleTwo(InitialState(username, repos), ext);
    RunLastTwo(InitialState(username, repos), ext);
  }

  /**
   * What a finished run holds: the fetch result (or the fetch-failure
   * record), one analysis per record, and a review written by each of the
   * three reviewers, approved only when the reviewer's answer contains
   * "APPROVED" in some letter case.
   */
  lemma {:induction false} RunResultShape(username: string, repos: string, ext: Externals)
    ensures var r := RunResult(username, repos, ext);
      r.username == username && r.repos == repos &&
      (ext.toolFault.None? ==> r.reposData == FetchResult(ext.github, username, repos)) &&
      (ext.toolFault.Some? ==> r.reposData == [FetchFailedRecord(ext.toolFault.value)]) &&
      |r.analyses| == |r.reposData| &&
      r.dataQualityReview.Review? && r.analysisQualityReview.Review? && r.finalQualityReview.Review? &&
      (r.dataQualityReview.approved ==> IsApproved(r.dataQualityReview.text)) &&
      (r.analysisQualityReview.approved ==> IsApproved(r.analysisQualityReview.text)) &&
      (r.finalQualityReview.approved ==> IsApproved(r.finalQualityReview.text))
  {
    RunIsComposition(username, repos, ext);
  }

  // ---------- quality summary ----------

  /** The dict `get_quality_summary` returns. */
  datatype QualitySummary = QualitySummary(
    overallApproved: bool,
    repositoriesAnalyzed: nat,
    totalFilesProcessed: nat,
    dataQuality: Review,
    analysisQuality: Review,
    finalQuality: Review)

  /** `review.get("approved", False)`. */
  predicate ApprovedFlag(r: Review) {
    r.Review? && r.approved
  }

  /** `not r.get("error")`: no error key, or an empty error text. */
  predicate Succeeded(r: RepoRecord) {
    r.error.None? || r.error.value == ""
  }

  /** Number of records that carry no error; all of them exactly when none does. */
  function CountAnalyzed(rs: seq<RepoRecord>): (n: nat)
    ensures n <= |rs|
    ensures n == |rs| <==> forall i | 0 <= i < |rs| :: Succeeded(rs[i])
    ensures n == 0 <==> forall i | 0 <= i < |rs| :: !Succeeded(rs[i])
  {
    if rs == [] then 0
    else
      var rest := CountAnalyzed(rs[1..]);
      assert forall i | 1 <= i < |rs| :: rs[i] == rs[1..][i - 1];
      (if Succeeded(rs[0]) then 1 else 0) + rest
  }

  /** Counting the records of two lists is adding their counts; one record counts exactly when it has no error. */
  lemma {:induction false} CountAnalyzedAppend(a: seq<RepoRecord>, b: seq<RepoRecord>)
    ensures CountAnalyzed(a + b) == CountAnalyzed(a) + CountAnalyzed(b)
    ensures forall r: RepoRecord :: CountAnalyzed([r]) == if Succeeded(r) then 1 else 0
  {
    if a != [] {
      assert (a + b)[1..] == a[1..] + b;
      CountAnalyzedAppend(a[1..], b);
    } else {
      assert a + b == b;
    }
    forall r: RepoRecord ensures CountAnalyzed([r]) == if Succeeded(r) then 1 else 0 {
      assert [r][1..] == [];
    }
  }

  /** Sum of `total_files_processed` over all records, error records included. */
  function TotalFiles(rs: seq<RepoRecord>): (t: nat)
    ensures forall i | 0 <= i < |rs| :: rs[i].totalFilesProcessed <= t
  {
    if rs == [] then 0
    else
      var rest := TotalFiles(rs[1..]);
      assert forall i | 1 <= i < |rs| :: rs[i] == rs[1..][i - 1];
      rs[0].totalFilesProcessed + rest
  }

  /** The total of two lists is the sum of their totals; one record contributes its own count. */
  lemma {:induction false} TotalFilesAppend(a: seq<RepoRecord>, b: seq<RepoRecord>)
    ensures TotalFiles(a + b) == TotalFiles(a) + TotalFiles(b)
    ensures forall r: RepoRecord :: TotalFiles([r]) == r.totalFilesProcessed
  {
    if a != [] {
      assert (a + b)[1..] == a[1..] + b;
      TotalFilesAppend(a[1..], b);
    } else {
      assert a + b == b;
    }
    forall r: RepoRecord ensures TotalFiles([r]) == r.totalFilesProcessed {
      assert [r][1..] == [];
    }
  }

  /** With at most `bound` files counted per record, the total is at most `bound` times the records. */
  lemma {:induction false} TotalFilesBounded(rs: seq<RepoRecord>, bound: nat)
    requires forall i | 0 <= i < |rs| :: rs[i].totalFilesProcessed <= bound
    ensures TotalFiles(rs) <= bound * |rs|
  {
    if rs != [] {
      var rest := rs[1..];
      forall i | 0 <= i < |rest| ensures rest[i].totalFilesProcessed <= bound {
        assert rest[i] == rs[i + 1];
      }
      TotalFilesBounded(rest, bound);
      assert TotalFiles(rs) == rs[0].totalFilesProcessed + TotalFiles(rest);
      assert bound * |rs| == bound * |rest| + bound;
    }
  }

  /**
   * `get_quality_summary`: the number of error-free records, the files
   * counted over all records, approval only when all three reviews carry
   * `approved == true`, and the three reviews passed through unchanged.
   */
  function GetQualitySummary(result: StateDict): (q: QualitySummary)
    ensures q.overallApproved <==>
      ApprovedFlag(result.dataQualityReview) && ApprovedFlag(result.analysisQualityReview) &&
      ApprovedFlag(result.finalQualityReview)
    ensures q.repositoriesAnalyzed == CountAnalyzed(result.reposData) <= |result.reposData|
    ensures q.totalFilesProcessed == TotalFiles(result.reposData)
    ensures q.dataQuality == result.dataQualityReview
    ensures q.analysisQuality == result.analysisQualityReview
    ensures q.finalQuality == result.finalQualityReview
  {
    QualitySummary(
      ApprovedFlag(result.dataQualityReview) && ApprovedFlag(result.analysisQualityReview) &&
        ApprovedFlag(result.finalQualityReview),
      CountAnalyzed(result.reposData),
      TotalFiles(result.reposData),
      result.dataQualityReview,
      result.analysisQualityReview,
      result.finalQualityReview)
  }

  /** The summary of the untouched initial state: not approved, nothing analysed, no files. */
  lemma {:induction false} InitialSummary(username: string, repos: string)
    ensures GetQualitySummary(InitialState(username, repos)) ==
      QualitySummary(false, 0, 0, NoReview, NoReview, NoReview)
  {
  }

  /**
   * For the selector "all", a finished run reports at most ten repositories
   * analysed and at most 500 files processed.
   */
  lemma {:induction false} RunAllBounded(username: string, ext: Externals)
    ensures var q := GetQualitySummary(RunResult(username, "all", ext));
      q.repositoriesAnalyzed <= MaxRepos && q.totalFilesProcessed <= MaxRepos * MaxFiles
  {
    RunResultShape(username, "all", ext);
    var rs := RunResult(username, "all", ext).reposData;
    if ext.toolFault.None? {
      FetchBounded(ext.github, username, "all");
      FetchAllAtMostTen(ext.github, username);
    }
    assert forall i | 0 <= i < |rs| :: rs[i].totalFilesProcessed <= MaxFiles;
    TotalFilesBounded(rs, MaxFiles);
  }

  /**
   * A finished run is approved overall exactly when each of the three
   * reviews was approved, and then each reviewer's answer contains "APPROVED"
   * in some letter case.
   */
  lemma {:induction false} RunApprovalFromReviews(username: string, repos: string, ext: Externals)
    ensures var r := RunResult(username, repos, ext);
      r.dataQualityReview.Review? && r.analysisQualityReview.Review? && r.finalQualityReview.Review? &&
      (GetQualitySummary(r).overallApproved <==>
        r.dataQualityReview.approved && r.analysisQualityReview.approved && r.finalQualityReview.approved) &&
      (GetQualitySummary(r).overallApproved ==>
        IsApproved(r.dataQualityReview.text) && IsApproved(r.analysisQualityReview.text) &&
        IsApproved(r.finalQualityReview.text))
  {
    RunResultShape(username, repos, ext);
  }
}
