/**
 * The command-line entry point (main.py): the environment check
 * `setup_environment`, and the guard checks of `main` that decide the exit
 * code, which report writer runs, and which quality issues are listed.
 * Argument parsing, console output and the banner are not modelled.
 */
module Cli {
  import opened Common
  import opened Strings
  import opened Env
  import opened Agents
  import opened Workflow
  import opened Report
  import opened Pdf

  // ---------- setup_environment ----------

  /** The variables that must be set. */
  const RequiredVars: seq<Var> := [GithubToken]

  /** The LLM provider keys, at least one of which must be set. */
  const LlmVars: seq<Var> := [OpenAiApiKey, GoogleApiKey, AnthropicApiKey, GrokApiKey]

  /** A valid environment: a GitHub token and at least one LLM provider key. */
  predicate EnvironmentValid(env: Environment) {
    IsSet(env, GithubToken) &&
    (IsSet(env, OpenAiApiKey) || IsSet(env, GoogleApiKey) || IsSet(env, AnthropicApiKey) || IsSet(env, GrokApiKey))
  }

  /** The warnings `setup_environment` prints. */
  datatype Notice =
    | DotenvMissing
    | MissingRequired(vars: seq<Var>)
    | NoLlmKey

  /** The variables of `vars` that are unset or empty, in order. */
  function Missing(env: Environment, vars: seq<Var>): seq<Var> {
    if vars == [] then []
    else Missing(env, vars[..|vars| - 1]) + (if IsSet(env, vars[|vars| - 1]) then [] else [vars[|vars| - 1]])
  }

  /** Nothing is missing exactly when every variable is set. */
  lemma {:induction false} MissingEmptyIffAllSet(env: Environment, vars: seq<Var>)
    ensures Missing(env, vars) == [] <==> forall i | 0 <= i < |vars| :: IsSet(env, vars[i])
  {
    if vars != [] {
      var prefix := vars[..|vars| - 1];
      MissingEmptyIffAllSet(env, prefix);
      assert forall i | 0 <= i < |prefix| :: prefix[i] == vars[i];
    }
  }

  /**
   * `setup_environment`: true exactly when the environment is valid. A
   * missing `.env` file only adds a warning; the missing required variables
   * are listed when there are any, and the LLM check is made only once they
   * are all present.
   */
  method SetupEnvironment(env: Environment, dotenvExists: bool) returns (ok: bool, notices: seq<Notice>)
    ensures ok <==> EnvironmentValid(env)
    ensures (DotenvMissing in notices) <==> !dotenvExists
    ensures !IsSet(env, GithubToken) ==> MissingRequired([GithubToken]) in notices && NoLlmKey !in notices
    ensures IsSet(env, GithubToken) ==> (NoLlmKey in notices <==> !ok) && forall m | m in notices :: !m.MissingRequired?
  {
    notices := [];
    if !dotenvExists {
      notices := notices + [DotenvMissing];
    }
    var missingVars: seq<Var> := [];
    for i := 0 to |RequiredVars|
      invariant missingVars == Missing(env, RequiredVars[..i])
    {
      if !IsSet(env, RequiredVars[i]) {
        missingVars := missingVars + [RequiredVars[i]];
      }
      assert RequiredVars[..i + 1][..i] == RequiredVars[..i];
    }
    assert RequiredVars[..1] == RequiredVars;
    assert missingVars == if IsSet(env, GithubToken) then [] else [GithubToken] by {
      assert RequiredVars[..0] == [];
    }
    if missingVars != [] {
      notices := notices + [MissingRequired(missingVars)];
      return false, notices;
    }
    MissingEmptyIffAllSet(env, RequiredVars);
    var hasLlm := exists i | 0 <= i < |LlmVars| :: IsSet(env, LlmVars[i]);
    assert IsSet(env, OpenAiApiKey) ==> IsSet(env, LlmVars[0]);
    assert IsSet(env, GoogleApiKey) ==> IsSet(env, LlmVars[1]);
    assert IsSet(env, AnthropicApiKey) ==> IsSet(env, LlmVars[2]);
    assert IsSet(env, GrokApiKey) ==> IsSet(env, LlmVars[3]);
    if !hasLlm {
      notices := notices + [NoLlmKey];
      return false, notices;
    }
    return true, notices;
  }

  // ---------- main ----------

  /** The parsed command line; `--repos` defaults to "all" and `--out` to "reports/repo_report.pdf". */
  datatype Args = Args(user: Option<string>, repos: string, out: string, enhanced: bool, quiet: bool,
                       validateOnly: bool)

  const DefaultRepos := "all"
  const DefaultOut := "reports/repo_report.pdf"

  /**
   * Where an exception escaping `main`'s work strikes: during the analysis or
   * while the report is written, or after the report is saved, while the
   * summary is printed.
   */
  datatype FaultPoint = BeforeReport | AfterReport

  /** An exception that escapes the analysis, the report writer or the summary. */
  datatype Failure = KeyboardInterrupt(at: FaultPoint) | Raised(message: string, at: FaultPoint)

  /** The report that was written. */
  datatype Rendered =
    | EnhancedPdf(path: string, story: seq<Flowable>)
    | PlainPdf(path: string, ops: seq<CanvasOp>)

  /** How `main` ends: its exit code, the report it wrote, and the quality issues it listed. */
  datatype Outcome = Outcome(exitCode: int, rendered: Option<Rendered>, issues: seq<string>)

  const DataIssue := "   \U{2022} Data Quality: Issues found during data fetching"
  const AnalysisIssue := "   \U{2022} Analysis Quality: Analysis depth or accuracy concerns"
  const FinalIssue := "   \U{2022} Final Quality: Report formatting or completeness issues"

  /**
   * One review's issue line: reading `['approved']` from an empty review
   * dict raises `KeyError`.
   */
  function ReviewIssue(r: Review, line: string): Result<seq<string>> {
    match r
    case NoReview => Err("'approved'")
    case Review(_, approved, _) => Ok(if approved then [] else [line])
  }

  /**
   * The issue lines `main` prints: none when the run is approved overall,
   * otherwise one per unapproved review, in the order data, analysis, final.
   */
  function IssueLines(q: QualitySummary): Result<seq<string>> {
    if q.overallApproved then Ok([])
    else
      match ReviewIssue(q.dataQuality, DataIssue)
      case Err(e) => Err(e)
      case Ok(a) =>
        match ReviewIssue(q.analysisQuality, AnalysisIssue)
        case Err(e) => Err(e)
        case Ok(b) =>
          match ReviewIssue(q.finalQuality, FinalIssue)
          case Err(e) => Err(e)
          case Ok(c) => Ok(a + b + c)
  }

  /** The guard checks before any work: exit code 1, 0, or carry on (`None`). */
  function GuardExit(args: Args, env: Environment): Option<int> {
    if !EnvironmentValid(env) then Some(1)
    else if args.validateOnly then Some(0)
    else if args.user.None? || args.user.value == "" then Some(1)
    else if Strip(args.user.value) == "" then Some(1)
    else if args.repos != "all" && Strip(args.repos) == "" then Some(1)
    else None
  }

  /** The report `main` writes for a finished run. */
  function RenderedFor(args: Args, result: StateDict, now: string, wrap: string -> seq<string>): Rendered
    requires args.user.Some?
  {
    if args.enhanced then EnhancedPdf(args.out, EnhancedStory(result, now))
    else PlainPdf(args.out, PdfOps(result.finalReport, args.user.value, GetQualitySummary(result), now, wrap))
  }

  /**
   * `main`: the guard checks, then the run and the report; an exception
   * from either (`fault` before the report) exits 1 without a report. After
   * the report is written, the issue lines are listed; a `KeyError` there,
   * or a `fault` after the report, exits 1 and leaves the report saved.
   */
  function MainOutcome(args: Args, env: Environment, ext: Externals, now: string, wrap: string -> seq<string>,
                       fault: Option<Failure>): Outcome
  {
    match GuardExit(args, env)
    case Some(code) => Outcome(code, None, [])
    case None =>
      if fault.Some? && fault.value.at == BeforeReport then Outcome(1, None, [])
      else
        var result := RunResult(args.user.value, args.repos, ext);
        var rendered := RenderedFor(args, result, now, wrap);
        if fault.Some? then Outcome(1, Some(rendered), [])
        else match IssueLines(GetQualitySummary(result))
        case Ok(lines) => Outcome(0, Some(rendered), lines)
        case Err(_) => Outcome(1, Some(rendered), [])
  }

  /**
   * `main` with the analysis and the report writer run as methods: the
   * outcome is the one `MainOutcome` specifies.
   */
  method RunCli(args: Args, env: Environment, dotenvExists: bool, ext: Externals, now: string,
                wrap: string -> seq<string>, fault: Option<Failure>)
    returns (outcome: Outcome)
    ensures outcome == MainOutcome(args, env, ext, now, wrap, fault)
  {
    var ok, _ := SetupEnvironment(env, dotenvExists);
    if !ok {
      return Outcome(1, None, []);
    }
    if args.validateOnly {
      return Outcome(0, None, []);
    }
    if args.user.None? || args.user.value == "" {
      return Outcome(1, None, []);
    }
    var user := args.user.value;
    if Strip(user) == "" {
      return Outcome(1, None, []);
    }
    if args.repos != "all" && Strip(args.repos) == "" {
      return Outcome(1, None, []);
    }
    if fault.Some? && fault.value.at == BeforeReport {
      return Outcome(1, None, []);
    }
    var result, _ := RunAnalysis(user, args.repos, ext);
    var rendered: Rendered;
    if args.enhanced {
      var path, story := GenerateEnhancedReport(result, args.out, now);
      rendered := EnhancedPdf(path, story);
    } else {
      var q := GetQualitySummary(result);
      var path, ops := BuildPdf(result.finalReport, user, q, args.out, now, wrap);
      rendered := PlainPdf(path, ops);
    }
    if fault.Some? {
      return Outcome(1, Some(rendered), []);
    }
    var q := GetQualitySummary(result);
    var issues := IssueLines(q);
    if issues.Err? {
      return Outcome(1, Some(rendered), []);
    }
    return Outcome(0, Some(rendered), issues.value);
  }

  // ---------- properties of main ----------

  /** A failed environment check exits 1 before anything else, whatever the arguments. */
  lemma {:induction false} EnvFailureExitsOne(args: Args, env: Environment, ext: Externals, now: string, wrap: string -> seq<string>,
                           fault: Option<Failure>)
    requires !EnvironmentValid(env)
    ensures MainOutcome(args, env, ext, now, wrap, fault) == Outcome(1, None, [])
  {
  }

  /** `--validate-only` exits 0 right after a successful environment check, before the user checks. */
  lemma {:induction false} ValidateOnlyExitsZero(args: Args, env: Environment, ext: Externals, now: string,
                              wrap: string -> seq<string>, fault: Option<Failure>)
    requires EnvironmentValid(env) && args.validateOnly
    ensures MainOutcome(args, env, ext, now, wrap, fault) == Outcome(0, None, [])
  {
  }

  /**
   * Past the environment checks, a missing or blank user, or a blank
   * repository list other than "all", exits 1 without running anything.
   */
  lemma {:induction false} BadArgumentsExitOne(args: Args, env: Environment, ext: Externals, now: string,
                            wrap: string -> seq<string>, fault: Option<Failure>)
    requires EnvironmentValid(env) && !args.validateOnly
    requires args.user.None? || IsBlank(args.user.value) || (args.repos != "all" && IsBlank(args.repos))
    ensures MainOutcome(args, env, ext, now, wrap, fault) == Outcome(1, None, [])
  {
    if args.user.Some? {
      StripEmptyIffBlank(args.user.value);
      StripEmptyIffBlank(args.repos);
    }
  }

  /**
   * An exception during the run or the report exits 1 and leaves no report;
   * one after the report is saved exits 1 and leaves the report the run
   * produced.
   */
  lemma {:induction false} FaultExitsOne(args: Args, env: Environment, ext: Externals, now: string, wrap: string -> seq<string>,
                      f: Failure)
    requires GuardExit(args, env).None?
    ensures var outcome := MainOutcome(args, env, ext, now, wrap, Some(f));
      outcome.exitCode == 1 && outcome.issues == [] &&
      (outcome.rendered.None? <==> f.at == BeforeReport) &&
      (f.at == AfterReport ==>
        outcome.rendered == Some(RenderedFor(args, RunResult(args.user.value, args.repos, ext), now, wrap)))
  {
  }

  /**
   * The issue lines name exactly the unapproved reviews, and there are none
   * when the run is approved overall; with all three reviews present no
   * `KeyError` arises.
   */
  lemma {:induction false} IssueLinesFaithful(q: QualitySummary)
    requires q.dataQuality.Review? && q.analysisQuality.Review? && q.finalQuality.Review?
    requires q.overallApproved <==> q.dataQuality.approved && q.analysisQuality.approved && q.finalQuality.approved
    ensures IssueLines(q).Ok?
    ensures q.overallApproved ==> IssueLines(q).value == []
    ensures !q.overallApproved ==> IssueLines(q).value != []
    ensures DataIssue in IssueLines(q).value <==> !q.dataQuality.approved
    ensures AnalysisIssue in IssueLines(q).value <==> !q.analysisQuality.approved
    ensures FinalIssue in IssueLines(q).value <==> !q.finalQuality.approved
  {
    var a: seq<string> := if q.dataQuality.approved then [] else [DataIssue];
    var b: seq<string> := if q.analysisQuality.approved then [] else [AnalysisIssue];
    var c: seq<string> := if q.finalQuality.approved then [] else [FinalIssue];
    if !q.overallApproved {
      assert IssueLines(q) == Ok(a + b + c);
      assert |DataIssue| == 52 && |AnalysisIssue| == 58 && |FinalIssue| == 60;
    }
  }

  /**
   * A run that gets past the guard checks and raises nothing exits 0 with
   * the report `--enhanced` selects, written to `--out`.
   */
  lemma {:induction false} FinishedRunExitsZero(args: Args, env: Environment, ext: Externals, now: string,
                             wrap: string -> seq<string>)
    requires GuardExit(args, env).None?
    ensures var outcome := MainOutcome(args, env, ext, now, wrap, None);
      outcome.exitCode == 0 && outcome.rendered.Some? &&
      outcome.rendered.value.path == args.out &&
      (outcome.rendered.value.EnhancedPdf? <==> args.enhanced)
  {
    FinishedRunIssues(args, env, ext, now, wrap);
  }

  /**
   * A finished run lists one issue line per unapproved review, and none
   * when the run is approved overall.
   */
  lemma {:induction false} FinishedRunIssues(args: Args, env: Environment, ext: Externals, now: string,
                          wrap: string -> seq<string>)
    requires GuardExit(args, env).None?
    ensures var outcome := MainOutcome(args, env, ext, now, wrap, None);
      var result := RunResult(args.user.value, args.repos, ext);
      IssueLines(GetQualitySummary(result)).Ok? &&
      outcome.issues == IssueLines(GetQualitySummary(result)).value &&
      (outcome.issues == [] <==> GetQualitySummary(result).overallApproved) &&
      (DataIssue in outcome.issues <==> !result.dataQualityReview.approved) &&
      (AnalysisIssue in outcome.issues <==> !result.analysisQualityReview.approved) &&
      (FinalIssue in outcome.issues <==> !result.finalQualityReview.approved)
  {
    var result := RunResult(args.user.value, args.repos, ext);
    var q := GetQualitySummary(result);
    RunResultShape(args.user.value, args.repos, ext);
    IssueLinesFaithful(q);
  }
}
