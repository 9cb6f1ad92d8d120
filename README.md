# Multi-Agent GitHub Analysis System — a Dafny model

This project models the core of a command-line tool that analyses a GitHub
user's repositories with a fixed chain of LLM agents and writes a PDF report.

- **Tools** (`src/tools.py`): the fetch tool selects the repositories.
  - The selector `"all"` takes the first ten of the listing.
  - Otherwise it takes a comma-separated list of names, each one stripped.
  - It walks each repository's file tree breadth-first, counting at most
    50 files.
  - A file larger than 100000 bytes is stored as a placeholder.
  - A file that cannot be read is stored as an error placeholder.
  - It turns a failed repository, or a failed user lookup, into an error
    record.
  - The Cloud Run helper builds its request from two environment variables
    and maps the network outcome to a reply.
- **Config** (`src/config.py`): the provider table.
  - It holds one LLM handle per API key that is set, plus a grok4 entry
    that is always present.
  - The default handle is the first of gpt4o, claude3.5, gemini2.5 and grok4
    that is present.
  - The per-role table gives each of the six agents its preferred provider,
    or the default.
- **Agents** (`src/agents.py`): the shared state of the pipeline and its six
  nodes: fetcher, data quality reviewer, analyzer, analysis quality reviewer,
  synthesizer and final quality reviewer.
  - Each node is a method on an `AgentState` object.
  - Each node is proved to change only its own key, exactly as a pure step
    function says.
  - A review is approved when the upper-cased answer contains `APPROVED`.
    As written, "not approved" also passes.
- **Workflow** (`src/workflow.py`): the graph is a linear chain of the six
  nodes.
  - `run_analysis` runs each node once, in order.
  - `get_quality_summary` counts the error-free records and the processed
    files, and approves only when all three reviews approve.
- **Report** (`src/report.py`): two outputs.
  - The enhanced report's story is the list of flowables handed to the
    layout engine.
  - The legacy report is the sequence of canvas calls, with page breaks and
    the cursor's position.
- **Cli** (`main.py`): `setup_environment` and `main`, including:
  - their exit codes;
  - which report they write;
  - which quality-issue lines they print.

Modules:

- Common: `Option`, `Result`.
- Env: environment variables.
- Strings: the Python string operations the code relies on.
  - `strip`, `split`, `join`, `upper`, `splitlines` and `str(int)`.
  - `strip` uses Python's white-space set; `splitlines` uses its
    line-boundary set.
- Config, Tools, Agents, Workflow.
- Report: the enhanced report.
- Pdf: the legacy `build_pdf`.
- Cli.

How the external world is modelled:

- GitHub is an in-memory map from user to repository listing. Each
  directory entry may be unlistable, and each file body may be unreadable.
- Every LLM call goes through an oracle function `Externals.llm`. Its reply
  is either a text or a raised exception.
- The embedding store is two parameters: `vectorAvailable` and `embedOk`.
- The time of day is the `now` string.
- Line wrapping is an arbitrary function `wrap` standing for `textwrap.wrap`.

## Model

| member | source | states |
|---|---|---|
| Env.Getenv | src/config.py:34 | a variable has a value exactly when it is in the environment, and the value is the variable's |
| Env.IsSetIffGetenvTruthy | src/config.py:34 | a variable counts as set exactly when `os.getenv` returns a non-empty value |
| Strings.TrimLeft | src/report.py:110-111 | the result is no longer than the input and does not begin with white space |
| Strings.TrimLeftCutsBlank | src/report.py:110-111 | left trimming removes exactly a blank prefix and keeps the rest |
| Strings.TrimRight | src/report.py:110-111 | the result is no longer than the input and does not end with white space |
| Strings.TrimRightCutsBlank | src/report.py:110-111 | right trimming removes exactly a blank suffix and keeps the rest |
| Strings.Strip | src/tools.py:24 | the stripped text neither begins nor ends with white space |
| Strings.StripSlice | src/tools.py:24 | `strip` returns a contiguous slice of the input with only white space cut on both sides |
| Strings.StripEmptyIffBlank | main.py:128 | `s.strip()` is empty exactly when `s` is all white space, as the emptiness checks assume |
| Strings.Split | src/report.py:108 | splitting always yields at least one part |
| Strings.SplitCutsAtFirst | src/report.py:108 | `split` cuts at the leftmost occurrence: one part exactly when the separator does not occur; otherwise the separator occurs right after the first part and nowhere earlier, and the remaining parts are the split of the text after it |
| Strings.Join | src/agents.py:282 | joining a single part gives that part |
| Strings.JoinSplit | src/report.py:108 | joining the parts of a split with the same separator gives back the original text |
| Strings.SplitPartsAvoidSeparator | src/report.py:108 | no part of a split contains the separator |
| Strings.JoinPrefix | src/agents.py:282 | a join begins with its first part |
| Strings.LineEnd | src/report.py:231 | the first line boundary: no boundary before it, a boundary at it unless it is the end |
| Strings.SplitLines | src/report.py:231 | no line holds a line-boundary character, and there are no lines exactly when the text is empty |
| Strings.NextLineStart | src/report.py:231 | the next line starts after the first boundary: two characters past the line's end exactly when the boundary is "\r\n", otherwise one |
| Strings.SplitLinesCuts | src/report.py:231 | the first line is the text up to the first boundary, and the other lines are the lines of the text after that boundary |
| Strings.RemoveBreaksAppend | src/report.py:231 | removing boundary characters distributes over concatenation |
| Strings.RemoveBreaksUniform | src/report.py:231 | boundary-free text is kept whole, and text made only of boundaries vanishes |
| Strings.RemoveBreaksAtBoundary | src/report.py:231 | removing the boundaries keeps the first line and continues after its terminator |
| Strings.SplitLinesConcat | src/report.py:231 | the lines read one after another are the text with its boundary characters removed: nothing lost, repeated or moved |
| Strings.UpperChar | src/agents.py:212 | each lower-case ASCII letter maps to its own capital (32 code points lower), and all other characters are unchanged |
| Strings.Upper | src/agents.py:212 | upper-casing keeps the length and maps each character on its own |
| Strings.UpperIdempotent | src/agents.py:212 | upper-casing twice is upper-casing once |
| Strings.DigitChar | src/report.py:77 | a digit below ten becomes a decimal digit character |
| Strings.NatToString | src/report.py:77-78 | `str(n)` is a non-empty run of decimal digits with no leading zero |
| Strings.NatToStringRoundTrip | src/report.py:77-78 | reading back the decimal text of `n` gives `n` |
| Config.GrokLlm | src/config.py:20-27 | the grok4 entry is a Grok client exactly when the optional package imported, otherwise the gpt-4o OpenAI client |
| Config.AvailableLlms | src/config.py:29-54 | the table holds gpt4o, gemini2.5 and claude3.5 exactly when their keys are set, always holds grok4, and so always has a default |
| Config.DefaultLlm | src/config.py:59-69 | a default exists exactly when some priority provider is present; it is the first present one; otherwise the "No LLM providers available" error |
| Config.DefaultFromGrok | src/config.py:52 | with the grok4 entry always present, the "no providers" error cannot occur |
| Config.AgentLlmConfig | src/config.py:74-83 | fails exactly when the default does; otherwise covers all six roles, each with its preferred provider if present and the default otherwise |
| Config.RolesResolveToTableEntries | src/config.py:74-83 | every role of the built table resolves to a handle the provider table holds |
| Tools.SelectorNames | src/tools.py:24 | one name per comma-separated part, each part stripped, in order |
| Tools.GetRepo | src/tools.py:25 | a repository is found exactly when one of that name exists, and then it is one with that name; otherwise the not-found error |
| Tools.GetRepos | src/tools.py:24-25 | succeeds exactly when every name is found; the result has one repository per name, in order |
| Tools.SelectAllTakesFirstTen | src/tools.py:21-22 | the selector "all" takes a prefix of the listing: its first ten repositories, or all of them when there are fewer |
| Tools.SelectNamesInOrder | src/tools.py:24-25 | a named selection holds one repository per comma-separated part, named by the stripped part, in order |
| Tools.SizeAllAppend | src/tools.py:36-43 | the size of a walk queue adds up over concatenation, which bounds the walk |
| Tools.Bfs | src/tools.py:36-43 | a breadth-first walk yields only files |
| Tools.LargeFileKeepsNoContent | src/tools.py:47-48 | an oversized file is stored as the size placeholder whatever its content |
| Tools.StoreFilesKeys | src/tools.py:44-55 | the stored paths are exactly the paths of the counted files, so there are never more entries than files counted |
| Tools.WalkContents | src/tools.py:31-55 | the walk counts min(50, files reachable) files and stores exactly the first that many files met breadth-first, each by the size, read and error rules |
| Tools.CollectRepo | src/tools.py:31-79 | one repository's record; a successful one counts at most 50 files, and an error one has no files and a zero count |
| Tools.FetchGithubRepos | src/tools.py:11-88 | the returned list is one record per selected repository, in order, or the single user-error record |
| Tools.FetchBounded | src/tools.py:34-79 | every record counts at most 50 files, stores no more files than it counted, and an error record stores none |
| Tools.FetchAllAtMostTen | src/tools.py:21-22 | the selector "all" yields at most ten records |
| Tools.RStripSlash | src/tools.py:108 | `rstrip("/")` is the longest prefix not ending in '/', with only slashes removed |
| Tools.CallCloudRun | src/tools.py:91-141 | no request without both URL and token, with the "not configured" reply; otherwise a POST to the slash-stripped URL plus endpoint with a Bearer token; success exactly on a response, carrying its data and status; every failure carries an error and no data |
| Agents.AgentState.constructor | src/workflow.py:43-52 | the new state is the initial state: the user and selector given, everything else empty |
| Agents.InitialState | src/workflow.py:43-52 | the initial state holds the user and selector, no data, no analyses, no report and three empty reviews |
| Agents.LowerApprovedCounts | src/agents.py:212 | any answer containing "approved" in lower case is approved |
| Agents.NotApprovedCountsAsApproved | src/agents.py:212 | the answer "not approved" is approved by the upper-case substring test |
| Agents.WithoutLetterANotApproved | src/agents.py:212 | an answer with no letter 'a' in either case is never approved |
| Agents.ApprovedIffWordIgnoringCase | src/agents.py:212 | an answer is approved exactly when the word APPROVED appears in it at some position, each letter in either case |
| Agents.ReviewFrom | src/agents.py:205-226 | a review always names its reviewer; approved exactly when the LLM answered with an approving text; the text is the answer, or "Error during ..." with the exception text |
| Agents.Ask | src/agents.py:207-209 | a role missing from the role table raises `KeyError` with the quoted role key; otherwise the call goes to that role's handle |
| Agents.DocumentPaths | src/agents.py:238-242 | the embedded documents are exactly the stored files with non-empty content |
| Agents.DocumentCountBounded | src/agents.py:238-242 | there are never more documents than stored files |
| Agents.VectorInsight | src/agents.py:235-250 | the vector note is non-empty exactly when the store is available and some file has content; on success it reports the number of documents |
| Agents.AnalysisOf | src/agents.py:233-274 | a repository's entry is the LLM analysis followed by the vector and cloud notes, or "Error analyzing repository <name or unknown>: ..." when the call raised |
| Agents.FetcherStep | src/agents.py:188-203 | only `repos_data` changes: it becomes the fetch result, or the single fetch-failure record when the tool raised |
| Agents.DataQualityStep | src/agents.py:205-226 | only the data review changes: it is the review of the repository data |
| Agents.AnalyzerStep | src/agents.py:228-277 | only `analyses` changes: one entry per record, in order, each that record's analysis |
| Agents.AnalysisQualityStep | src/agents.py:279-301 | only the analysis review changes: it is the review of the analyses joined with spaces |
| Agents.Synthesis | src/agents.py:303-312 | the report is the synthesizer's answer to the analyses joined by blank lines, or "Error during synthesis: ..." |
| Agents.SynthesizerStep | src/agents.py:303-312 | only `final_report` changes, and it becomes the synthesis |
| Agents.FinalQualityStep | src/agents.py:314-335 | only the final review changes: it is the review of the final report |
| Agents.FetcherNode | src/agents.py:188-203 | the node updates the shared state exactly as the fetch step says |
| Agents.DataQualityReviewerNode | src/agents.py:205-226 | the node updates the shared state exactly as the data review step says |
| Agents.AnalyzerNode | src/agents.py:228-277 | the loop builds the analyses list, and the node updates the state exactly as the analyzer step says |
| Agents.AnalysisQualityReviewerNode | src/agents.py:279-301 | the node updates the shared state exactly as the analysis review step says |
| Agents.SynthesizerNode | src/agents.py:303-312 | the node updates the shared state exactly as the synthesis step says |
| Agents.FinalQualityReviewerNode | src/agents.py:314-335 | the node updates the shared state exactly as the final review step says |
| Workflow.GraphIsLinearChain | src/workflow.py:27-35 | following edges from the entry point visits the six nodes once each, in pipeline order, and then ends |
| Workflow.EdgesAreSuccessors | src/workflow.py:30-35 | the edge list is exactly one outgoing edge per node, in pipeline order |
| Workflow.PipelineCoversStages | src/workflow.py:18-35 | every node is in the pipeline exactly once, under a distinct name |
| Workflow.RunStage | src/workflow.py:19-24 | running a node changes the shared state exactly as its step function says |
| Workflow.RunAnalysis | src/workflow.py:40-56 | the run starts from the initial state and runs each node once in chain order; the result is the composed steps |
| Workflow.RunStagesSnoc | src/workflow.py:40-56 | running one more stage applies that stage to the state reached so far |
| Workflow.RunIsComposition | src/workflow.py:40-56 | the result is the six step functions composed in pipeline order |
| Workflow.RunResultShape | src/workflow.py:40-56 | a finished run holds the fetch result (or the fetch-failure record), one analysis per record, and three written reviews, each approved only for an approving answer |
| Workflow.CountAnalyzed | src/workflow.py:67-68 | the analysed count is at most the number of records; it equals it exactly when no record has an error, and is zero exactly when all do |
| Workflow.CountAnalyzedAppend | src/workflow.py:67-68 | the count adds up over concatenated lists, and one record counts 1 exactly when its error is absent or empty, which fixes the count of every list |
| Workflow.TotalFiles | src/workflow.py:69 | every record's file count is included in the total |
| Workflow.TotalFilesAppend | src/workflow.py:69 | the total adds up over concatenated lists, and one record contributes its own file count, error records included, which fixes the total of every list |
| Workflow.TotalFilesBounded | src/workflow.py:69 | with at most `bound` files per record, the total is at most `bound` times the number of records |
| Workflow.GetQualitySummary | src/workflow.py:58-85 | approved overall exactly when all three reviews carry `approved`; the repository count is the number of error-free records and the file count is the total over all records; the three reviews pass through unchanged |
| Workflow.InitialSummary | src/workflow.py:58-85 | the summary of an untouched state is: not approved, nothing analysed, no files |
| Workflow.RunAllBounded | src/workflow.py:58-85 | for the selector "all", a run reports at most ten repositories and at most 500 files |
| Workflow.RunApprovalFromReviews | src/workflow.py:72-76 | a run is approved overall exactly when each of its three reviews is, and then each reviewer's answer contains "APPROVED" in some case |
| Report.QualityRows | src/report.py:73-85 | the table has a header row and six data rows of three cells each |
| Report.EnhancedReportGenerator.constructor | src/report.py:18-22 | a generator starts with the output file name and an empty story |
| Report.EnhancedReportGenerator.AddTitle | src/report.py:53-66 | appends the title, the subtitle only when non-empty, and a spacer |
| Report.EnhancedReportGenerator.AddQualityMetricsTable | src/report.py:68-101 | appends the heading, the metrics table and a spacer |
| Report.EnhancedReportGenerator.AddSection | src/report.py:103-113 | appends the heading, one stripped paragraph per non-blank chunk between blank lines, and a spacer |
| Report.EnhancedReportGenerator.AddQualityAppendix | src/report.py:115-139 | appends a page break, the appendix title and a section for each review that exists |
| Report.EnhancedReportGenerator.AddMetadata | src/report.py:141-154 | appends a page break, the metadata heading and the metadata paragraph naming the user and time |
| Report.EnhancedReportGenerator.Build | src/report.py:156-159 | building returns the generator's file name |
| Report.GenerateEnhancedReport | src/report.py:161-193 | returns the output path, and the story is title, quality table, executive summary, appendix and metadata, in that order |
| Report.NonBlankCountSnoc | src/report.py:109-111 | one more chunk adds one paragraph exactly when it is not blank |
| Report.SliceAvoids | src/report.py:108-111 | stripping a chunk cannot bring in a separator it lacked |
| Report.ParagraphsShape | src/report.py:109-111 | the body adds one stripped, non-empty, break-free body paragraph per non-blank chunk, after the story so far |
| Report.SectionShape | src/report.py:103-113 | a section extends the story by heading, non-blank-chunk paragraphs and spacer, with no page break |
| Report.SingleParagraphSection | src/report.py:103-113 | non-blank text without a blank line becomes exactly one stripped paragraph |
| Report.QualityTableVerdicts | src/report.py:73-85 | each verdict cell says "Approved", with the check mark, exactly when the summary approves |
| Report.QualityTableCounts | src/report.py:77-78 | the count cells read back as the summary's repository and file counts |
| Report.ReviewShape | src/report.py:120-139 | a review section adds no page break, and nothing at all for an empty review |
| Report.ExtendsTrans | src/report.py:115-139 | extension is transitive, and absence of page breaks carries through |
| Report.AppendixShape | src/report.py:115-139 | the appendix starts on a new page with its title and has no other page break |
| Report.TailShape | src/report.py:115-154 | appendix then metadata: exactly two page breaks, and the metadata paragraph last |
| Report.HeadShape | src/report.py:168-184 | title, subtitle, quality heading, table and summary heading sit at fixed positions, with no page break among them |
| Report.StoryShape | src/report.py:161-193 | the full story layout for any summary, report text and user |
| Report.EnhancedStoryShape | src/report.py:161-193 | the report opens with the title, the quality table and the executive summary, holds exactly two page breaks, and ends with the metadata naming the user |
| Report.FinishedRunAppendix | src/report.py:115-139 | after a finished run the appendix holds all three review sections, in order |
| Pdf.WrapOrBlank | src/report.py:238-240 | a line that wraps to nothing is drawn as one empty string, otherwise as its wrapped pieces |
| Pdf.BodyLinesStep | src/report.py:231-248 | the body strings of one more line are its wrapped pieces, after the earlier ones |
| Pdf.PlaceAppend | src/report.py:242-248 | drawing two runs of text in turn is drawing their concatenation, with the cursor carried over |
| Pdf.LineCheckSubsumed | src/report.py:232-235 | the per-line page check adds nothing beyond the per-string check that follows it |
| Pdf.DrawHeader | src/report.py:205-227 | the header calls are the title, the summary lines and the body heading, ending in the body font |
| Pdf.DrawWrapped | src/report.py:242-248 | the inner loop draws each piece in turn, breaking the page below the margin |
| Pdf.DrawLine | src/report.py:232-248 | one report line draws exactly like its pieces drawn in turn |
| Pdf.DrawBodyStep | src/report.py:231-248 | one loop turn extends the drawn body by that line's pieces |
| Pdf.DrawBody | src/report.py:228-248 | the body loop draws every wrapped line of the report, in order, from the first body row |
| Pdf.BuildPdf | src/report.py:195-255 | returns the output file, and the canvas calls are header, body and footer, ending with the save |
| Pdf.DrawnTextsAppend | src/report.py:195-255 | the drawn texts of concatenated calls are concatenated |
| Pdf.PlaceDrawsInOrder | src/report.py:242-248 | the body draws exactly its strings, in order, none lost or repeated |
| Pdf.PlaceStaysOnPage | src/report.py:242-248 | every body string is drawn at the left margin within the page margins, and the cursor stays in range |
| Pdf.DrawCountSnoc | src/report.py:238-242 | one more line adds max(1, its number of pieces) body strings |
| Pdf.BodyLinesCount | src/report.py:231-248 | the number of body strings is the sum over lines of max(1, number of pieces) |
| Pdf.BuildPdfDraws | src/report.py:195-255 | the document draws the six header texts, then every body string, then the footer, and ends with the save |
| Pdf.HeaderDraws | src/report.py:205-225 | the header draws the title with the user, the summary label, the verdict, the counts and the body label |
| Pdf.FooterDraws | src/report.py:251-252 | the footer draws the generation time line |
| Cli.MissingEmptyIffAllSet | main.py:25-35 | nothing is reported missing exactly when every required variable is set |
| Cli.SetupEnvironment | main.py:14-47 | valid exactly when the GitHub token and some LLM key are set; the .env warning exactly when the file is absent; a missing token is reported without the LLM warning; otherwise the LLM warning appears exactly on failure |
| Cli.RunCli | main.py:50-202 | `main` runs the guards, then the analysis, the chosen report and the summary, with the same exit code, report and issue lines as the outcome function |
| Cli.EnvFailureExitsOne | main.py:113-116 | a failed environment check exits with 1 and writes nothing |
| Cli.ValidateOnlyExitsZero | main.py:118-121 | with a valid environment, `--validate-only` exits with 0 and writes nothing |
| Cli.BadArgumentsExitOne | main.py:124-134 | a missing or blank user, or a blank selector other than "all", exits with 1 and writes nothing |
| Cli.FaultExitsOne | main.py:145-202 | an interrupt or exception exits with 1 and prints no issues; one during the run or the report writer leaves no report, one after the report is saved (while the summary prints) leaves the report the run produced |
| Cli.IssueLinesFaithful | main.py:173-185 | with all reviews written, there are no issue lines exactly when approved overall, and each line appears exactly when its review is not approved |
| Cli.FinishedRunExitsZero | main.py:137-186 | a run that finishes exits with 0 and writes the report to `--out`, the enhanced one exactly when `--enhanced` is given |
| Cli.FinishedRunIssues | main.py:167-185 | a finished run prints no issue lines exactly when approved overall, and a line for each unapproved review |

## Left out

- LLM clients, prompts and LangChain chains: every call is the oracle `Externals.llm`, which receives the role's handle and the prompt's input. Prompt texts and the `str(...)` rendering of the prompt input are not modelled.
- LangGraph execution: the compiled graph is modelled as the fixed chain its edges define, run once.
- PyGithub and the network: GitHub is an in-memory map. Repository metadata (stars, language, dates) is an opaque value passed through.
- `requests.post` in `call_cloud_run`: the network's behaviour is the `HttpOutcome` parameter (response, timeout, request error, other error). JSON encoding of the payload is not modelled.
- Tools.CallCloudRun: `raise_for_status` is folded into the outcome, so an HTTP error status is an outcome of its own rather than a check on a response.
- Agents.AnalysisOf: the cloud note is always empty. `src/agents.py` calls `os.getenv` without importing `os`, so the `NameError` is swallowed by the surrounding `except`.
- FAISS and OpenAI embeddings: whether the store exists and whether embedding succeeds are the parameters `vectorAvailable` and `embedOk`.
- reportlab: styles, fonts of the enhanced report, table styling and the PDF bytes are not modelled. The story and the canvas-call list are the output.
- `textwrap.wrap(line, width=100)` is the abstract function `wrap`. Its own wrapping rules are not modelled.
- `datetime.now()` is the `now` string, already formatted.
- `os.makedirs` for the output directory is not modelled.
- Console output, the ASCII banner, `--quiet` and argument parsing are left out. `Args` holds the parsed values; exit codes and the issue lines are kept.
- `load_dotenv` and the module-level construction of `LLM_CONFIG` and `AGENT_LLM_CONFIG` are left out. The tables are the parameter `ext.config`, and `Config.AvailableLlms` shows how they are built.
- Exceptions and `KeyboardInterrupt` escaping `main`'s work are the `fault` parameter, marked as striking before or after the report is saved; their messages are not modelled.
- Cli.MainOutcome: the summary lines printed before a late fault interrupts the summary are not recorded; a late fault's outcome lists no issues.
- Exception texts (`str(e)`) are plain strings chosen by the modelled world.
- Strings.Upper: only ASCII letters are upper-cased. Python's full Unicode case mapping is not modelled, and it can only add approvals for non-ASCII text.
- `setup.py` (packaging) is not part of this model.
- The `.get(..., default)` lookups whose keys are always present in the modelled state are not modelled as a separate case.
