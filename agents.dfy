/**
 * The shared pipeline state and the six node functions (src/agents.py).
 *
 * Every node updates its own keys of the state in place. Each node is a
 * method framed to exactly the fields it writes, and proved equal to a pure
 * step function on the state's value (`StateDict`), which the workflow then
 * composes. LLM calls are the oracle `Externals.llm`, applied to the handle
 * the role is configured with and to the prompt's input.
 */
module Agents {
  import opened Common
  import opened Strings
  import opened Config
  import opened Tools

  /** A review dict: `{}` before its reviewer has run, else review/approved/reviewer. */
  datatype Review = NoReview | Review(text: string, approved: bool, reviewer: string)

  /** What `chain.run(...)` does: returns text, or raises. */
  datatype LlmReply = Replied(text: string) | Raised(reason: string)

  /** The value each prompt template is filled with. */
  datatype PromptInput =
    | ReposDataInput(reposData: seq<RepoRecord>)
    | RepoInput(repo: RepoRecord)
    | AnalysisInput(analysis: string)
    | AnalysesInput(analyses: string)
    | ReportInput(report: string)

  /**
   * Everything outside the tool's own code that a run depends on: GitHub,
   * an exception raised by invoking the fetch tool itself, the per-role LLM
   * table, the LLMs, whether the vector-store packages imported, and whether
   * building the vector store for a repository succeeds.
   */
  datatype Externals = Externals(
    github: GitHub,
    toolFault: Option<string>,
    config: map<Role, Handle>,
    llm: (Handle, PromptInput) -> LlmReply,
    vectorAvailable: bool,
    embedOk: RepoRecord -> bool)

  /** The state dict as a value: what `workflow.invoke` hands back. */
  datatype StateDict = StateDict(
    username: string,
    repos: string,
    reposData: seq<RepoRecord>,
    analyses: seq<string>,
    finalReport: string,
    dataQualityReview: Review,
    analysisQualityReview: Review,
    finalQualityReview: Review)

  /** The shared state the nodes update in place. */
  class AgentState {
    var username: string
    var repos: string
    var reposData: seq<RepoRecord>
    var analyses: seq<string>
    var finalReport: string
    var dataQualityReview: Review
    var analysisQualityReview: Review
    var finalQualityReview: Review

    /** The initial state `run_analysis` builds. */
    constructor (username: string, repos: string)
      ensures Snapshot() == InitialState(username, repos)
    {
      this.username := username;
      this.repos := repos;
      reposData := [];
      analyses := [];
      finalReport := "";
      dataQualityReview := NoReview;
      analysisQualityReview := NoReview;
      finalQualityReview := NoReview;
    }

    function Snapshot(): StateDict
      reads this
    {
      StateDict(username, repos, reposData, analyses, finalReport,
        dataQualityReview, analysisQualityReview, finalQualityReview)
    }
  }

  /** The given username and selector, nothing fetched, analysed or reviewed yet. */
  function InitialState(username: string, repos: string): (s: StateDict)
    ensures s.username == username && s.repos == repos
    ensures s.reposData == [] && s.analyses == [] && s.finalReport == ""
    ensures s.dataQualityReview == s.analysisQualityReview == s.finalQualityReview == NoReview
  {
    StateDict(username, repos, [], [], "", NoReview, NoReview, NoReview)
  }

  // ---------- approval and reviews ----------

  /** `"APPROVED" in review.upper()`. */
  predicate IsApproved(review: string) {
    Contains(Upper(review), "APPROVED")
  }

  /** Any text holding "approved" in lower case passes the test. */
  lemma {:induction false} LowerApprovedCounts(s: string, i: int)
    requires OccursAt(s, "approved", i)
    ensures IsApproved(s)
  {
    var u := Upper(s);
    var w := "approved";
    forall k | 0 <= k < 8 ensures u[i + k] == "APPROVED"[k] {
      assert s[i + k] == s[i..i + 8][k] == w[k];
    }
    assert u[i..i + 8] == "APPROVED";
    assert OccursAt(u, "APPROVED", i);
  }

  /** The test is a substring test on the upper-cased text, so a negative verdict passes too. */
  lemma {:induction false} NotApprovedCountsAsApproved()
    ensures IsApproved("not approved")
  {
    var s := "not approved";
    assert s[4..12] == "approved";
    LowerApprovedCounts(s, 4);
  }

  /** A review without the letter A in either case is never approved. */
  lemma {:induction false} WithoutLetterANotApproved(s: string)
    requires forall i | 0 <= i < |s| :: s[i] != 'a' && s[i] != 'A'
    ensures !IsApproved(s)
  {
    var u := Upper(s);
    forall i | 0 <= i <= |u| - 8 ensures !OccursAt(u, "APPROVED", i) {
      assert u[i..i + 8][0] == u[i] == UpperChar(s[i]);
    }
  }

  /** `s` holds `word` at index `i` when letter case is ignored (ASCII upper-casing). */
  predicate MatchesIgnoringCaseAt(s: string, word: string, i: int) {
    0 <= i <= |s| - |word| && forall k | 0 <= k < |word| :: UpperChar(s[i + k]) == word[k]
  }

  /**
   * A review is approved exactly when the word APPROVED appears in it at
   * some position, each letter in either case.
   */
  lemma {:induction false} ApprovedIffWordIgnoringCase(s: string)
    ensures IsApproved(s) <==> exists i :: MatchesIgnoringCaseAt(s, "APPROVED", i)
  {
    var u := Upper(s);
    var w := "APPROVED";
    forall i ensures OccursAt(u, w, i) <==> MatchesIgnoringCaseAt(s, w, i) {
      if 0 <= i <= |s| - |w| {
        if OccursAt(u, w, i) {
          forall k | 0 <= k < |w| ensures UpperChar(s[i + k]) == w[k] {
            assert u[i..i + |w|][k] == u[i + k];
          }
        }
        if MatchesIgnoringCaseAt(s, w, i) {
          assert u[i..i + |w|] == w;
        }
      }
    }
    if IsApproved(s) {
      var i :| 0 <= i <= |u| - |w| && OccursAt(u, w, i);
      assert MatchesIgnoringCaseAt(s, w, i);
    }
    if exists i :: MatchesIgnoringCaseAt(s, w, i) {
      var i :| MatchesIgnoringCaseAt(s, w, i);
      assert OccursAt(u, w, i);
    }
  }

  /**
   * The review dict a reviewer node writes: the LLM text and its approval,
   * or, when the call raises, an error text and `approved == false`; always
   * with the reviewer's fixed name.
   */
  function ReviewFrom(reply: LlmReply, reviewer: string, task: string): (r: Review)
    ensures r.Review? && r.reviewer == reviewer
    ensures r.approved <==> reply.Replied? && IsApproved(reply.text)
    ensures reply.Replied? ==> r.text == reply.text
    ensures reply.Raised? ==> r.text == "Error during " + task + ": " + reply.reason
  {
    match reply
    case Replied(text) => Review(text, IsApproved(text), reviewer)
    case Raised(reason) => Review("Error during " + task + ": " + reason, false, reviewer)
  }

  /** The key of a role in the agent LLM table. */
  function RoleKey(role: Role): string {
    match role
    case Fetcher => "fetcher"
    case DataReviewer => "data_reviewer"
    case Analyzer => "analyzer"
    case AnalysisReviewer => "analysis_reviewer"
    case Synthesizer => "synthesizer"
    case FinalReviewer => "final_reviewer"
  }

  /**
   * `LLMChain(llm=AGENT_LLM_CONFIG[role], ...).run(input)`: a role missing
   * from the table raises `KeyError`, whose text is the quoted key.
   */
  function Ask(ext: Externals, role: Role, input: PromptInput): (reply: LlmReply)
    ensures role !in ext.config ==> reply == Raised("'" + RoleKey(role) + "'")
    ensures role in ext.config ==> reply == ext.llm(ext.config[role], input)
  {
    if role in ext.config then ext.llm(ext.config[role], input)
    else Raised("'" + RoleKey(role) + "'")
  }

  // ---------- per-repository analysis ----------

  /** Paths whose content becomes a vector-store document: non-empty strings only. */
  function DocumentPaths(files: map<string, string>): (paths: set<string>)
    ensures paths <= files.Keys
    ensures forall p | p in paths :: files[p] != ""
    ensures forall p | p in files && files[p] != "" :: p in paths
  {
    set p | p in files && files[p] != ""
  }

  /** Never more documents than files. */
  lemma {:induction false} DocumentCountBounded(files: map<string, string>)
    ensures |DocumentPaths(files)| <= |files|
  {
    assert DocumentPaths(files) <= files.Keys;
    assert |files.Keys| == |files|;
    SubsetCard(DocumentPaths(files), files.Keys);
  }

  lemma {:induction false} SubsetCard<T>(a: set<T>, b: set<T>)
    requires a <= b
    ensures |a| <= |b|
    decreases b
  {
    if a != {} {
      var x :| x in a;
      SubsetCard(a - {x}, b - {x});
    }
  }

  /**
   * The vector-store note appended to an analysis: only when the packages
   * imported, the repository has files and at least one is non-empty; it
   * reports the document count, or that building the store failed.
   */
  function VectorInsight(repo: RepoRecord, ext: Externals): (note: string)
    ensures note != "" <==> ext.vectorAvailable && DocumentPaths(repo.files) != {}
    ensures note != "" && ext.embedOk(repo) ==>
      note == "\n\nVector Analysis: Processed " + NatToString(|DocumentPaths(repo.files)|) + " files for semantic analysis."
  {
    if ext.vectorAvailable && |repo.files| > 0 then
      var docs := DocumentPaths(repo.files);
      if docs != {} then
        if ext.embedOk(repo) then
          "\n\nVector Analysis: Processed " + NatToString(|docs|) + " files for semantic analysis."
        else "\n\nVector Analysis: Not available for this repository."
      else ""
    else
      assert repo.files == map[] ==> DocumentPaths(repo.files) == {};
      ""
  }

  /**
   * The Cloud Run note appended to an analysis. The node tests
   * `os.getenv(...)` without importing `os`, so the `NameError` is swallowed
   * by its own handler and the note is always empty.
   */
  const CloudInsight: string := ""

  /** `repo.get('name', 'unknown')`. */
  function NameOrUnknown(repo: RepoRecord): string {
    match repo.name
    case Some(n) => n
    case None => "unknown"
  }

  /** The one entry the analyzer appends for a repository. */
  function AnalysisOf(repo: RepoRecord, ext: Externals): (a: string)
    ensures Ask(ext, Analyzer, RepoInput(repo)).Replied? ==>
      a == Ask(ext, Analyzer, RepoInput(repo)).text + VectorInsight(repo, ext) + CloudInsight
    ensures Ask(ext, Analyzer, RepoInput(repo)).Raised? ==>
      a == "Error analyzing repository " + NameOrUnknown(repo) + ": " + Ask(ext, Analyzer, RepoInput(repo)).reason
  {
    match Ask(ext, Analyzer, RepoInput(repo))
    case Replied(analysis) => analysis + VectorInsight(repo, ext) + CloudInsight
    case Raised(reason) => "Error analyzing repository " + NameOrUnknown(repo) + ": " + reason
  }

  // ---------- node steps on the state's value ----------

  /** The record stored when invoking the fetch tool itself raises. */
  function FetchFailedRecord(reason: string): RepoRecord {
    RepoRecord(None, None, None, Some("Failed to fetch repository data: " + reason), map[], 0)
  }

  function FetcherStep(s: StateDict, ext: Externals): (t: StateDict)
    ensures t == s.(reposData := t.reposData)
    ensures ext.toolFault.None? ==> t.reposData == FetchResult(ext.github, s.username, s.repos)
    ensures ext.toolFault.Some? ==> t.reposData == [FetchFailedRecord(ext.toolFault.value)]
  {
    match ext.toolFault
    case None => s.(reposData := FetchResult(ext.github, s.username, s.repos))
    case Some(reason) => s.(reposData := [FetchFailedRecord(reason)])
  }

  function DataQualityStep(s: StateDict, ext: Externals): (t: StateDict)
    ensures t == s.(dataQualityReview := t.dataQualityReview)
    ensures t.dataQualityReview ==
      ReviewFrom(Ask(ext, DataReviewer, ReposDataInput(s.reposData)), "Data Quality Reviewer", "data quality review")
  {
    s.(dataQualityReview :=
      ReviewFrom(Ask(ext, DataReviewer, ReposDataInput(s.reposData)), "Data Quality Reviewer", "data quality review"))
  }

  function AnalyzerStep(s: StateDict, ext: Externals): (t: StateDict)
    ensures t == s.(analyses := t.analyses)
    ensures |t.analyses| == |s.reposData|
    ensures forall i | 0 <= i < |s.reposData| :: t.analyses[i] == AnalysisOf(s.reposData[i], ext)
  {
    s.(analyses := seq(|s.reposData|, i requires 0 <= i < |s.reposData| => AnalysisOf(s.reposData[i], ext)))
  }

  function AnalysisQualityStep(s: StateDict, ext: Externals): (t: StateDict)
    ensures t == s.(analysisQualityReview := t.analysisQualityReview)
    ensures t.analysisQualityReview ==
      ReviewFrom(Ask(ext, AnalysisReviewer, AnalysisInput(Join(s.analyses, " "))),
        "Analysis Quality Reviewer", "analysis quality review")
  {
    s.(analysisQualityReview :=
      ReviewFrom(Ask(ext, AnalysisReviewer, AnalysisInput(Join(s.analyses, " "))),
        "Analysis Quality Reviewer", "analysis quality review"))
  }

  /** The synthesized report: the LLM's text, or "Error during synthesis: ..." when it raises. */
  function Synthesis(s: StateDict, ext: Externals): (report: string)
    ensures Ask(ext, Synthesizer, AnalysesInput(Join(s.analyses, "\n\n"))).Raised? ==>
      report == "Error during synthesis: " + Ask(ext, Synthesizer, AnalysesInput(Join(s.analyses, "\n\n"))).reason
    ensures Ask(ext, Synthesizer, AnalysesInput(Join(s.analyses, "\n\n"))).Replied? ==>
      report == Ask(ext, Synthesizer, AnalysesInput(Join(s.analyses, "\n\n"))).text
  {
    match Ask(ext, Synthesizer, AnalysesInput(Join(s.analyses, "\n\n")))
    case Replied(text) => text
    case Raised(reason) => "Error during synthesis: " + reason
  }

  function SynthesizerStep(s: StateDict, ext: Externals): (t: StateDict)
    ensures t == s.(finalReport := t.finalReport)
    ensures t.finalReport == Synthesis(s, ext)
  {
    s.(finalReport := Synthesis(s, ext))
  }

  function FinalQualityStep(s: StateDict, ext: Externals): (t: StateDict)
    ensures t == s.(finalQualityReview := t.finalQualityReview)
    ensures t.finalQualityReview ==
      ReviewFrom(Ask(ext, FinalReviewer, ReportInput(s.finalReport)), "Final Quality Reviewer", "final quality review")
  {
    s.(finalQualityReview :=
      ReviewFrom(Ask(ext, FinalReviewer, ReportInput(s.finalReport)), "Final Quality Reviewer", "final quality review"))
  }

  // ---------- the node functions, updating the state in place ----------

  method FetcherNode(state: AgentState, ext: Externals)
    modifies state`reposData
    ensures state.Snapshot() == FetcherStep(old(state.Snapshot()), ext)
  {
    match ext.toolFault {
      case None =>
        var data := FetchGithubRepos(ext.github, state.username, state.repos);
        state.reposData := data;
      case Some(reason) =>
        state.reposData := [FetchFailedRecord(reason)];
    }
  }

  method DataQualityReviewerNode(state: AgentState, ext: Externals)
    modifies state`dataQualityReview
    ensures state.Snapshot() == DataQualityStep(old(state.Snapshot()), ext)
  {
    var reply := Ask(ext, DataReviewer, ReposDataInput(state.reposData));
    state.dataQualityReview := ReviewFrom(reply, "Data Quality Reviewer", "data quality review");
  }

  /** Appends one analysis per repository record, in order, then stores the list. */
  method AnalyzerNode(state: AgentState, ext: Externals)
    modifies state`analyses
    ensures state.Snapshot() == AnalyzerStep(old(state.Snapshot()), ext)
  {
    var analyses: seq<string> := [];
    var repos := state.reposData;
    for i := 0 to |repos|
      invariant |analyses| == i
      invariant forall k | 0 <= k < i :: analyses[k] == AnalysisOf(repos[k], ext)
    {
      analyses := analyses + [AnalysisOf(repos[i], ext)];
    }
    state.analyses := analyses;
  }

  method AnalysisQualityReviewerNode(state: AgentState, ext: Externals)
    modifies state`analysisQualityReview
    ensures state.Snapshot() == AnalysisQualityStep(old(state.Snapshot()), ext)
  {
    var allAnalyses := Join(state.analyses, " ");
    var reply := Ask(ext, AnalysisReviewer, AnalysisInput(allAnalyses));
    state.analysisQualityReview := ReviewFrom(reply, "Analysis Quality Reviewer", "analysis quality review");
  }

  method SynthesizerNode(state: AgentState, ext: Externals)
    modifies state`finalReport
    ensures state.Snapshot() == SynthesizerStep(old(state.Snapshot()), ext)
  {
    var reply := Ask(ext, Synthesizer, AnalysesInput(Join(state.analyses, "\n\n")));
    match reply {
      case Replied(text) => state.finalReport := text;
      case Raised(reason) => state.finalReport := "Error during synthesis: " + reason;
    }
  }

  method FinalQualityReviewerNode(state: AgentState, ext: Externals)
    modifies state`finalQualityReview
    ensures state.Snapshot() == FinalQualityStep(old(state.Snapshot()), ext)
  {
    var reply := Ask(ext, FinalReviewer, ReportInput(state.finalReport));
    state.finalQualityReview := ReviewFrom(reply, "Final Quality Reviewer", "final quality review");
  }
}
