/**
 * The enhanced PDF report (src/report.py, `EnhancedReportGenerator` and
 * `generate_enhanced_report`). The generator builds a "story", a list of
 * flowables that a layout engine renders later. Fonts, colours, table
 * styling and the PDF bytes are not modelled: a flowable records only its
 * text and which paragraph style it uses. Each `With...` function gives the
 * story after one generator method, as a function of the story before it.
 */
module Report {
  import opened Strings
  import opened Agents
  import opened Workflow

  datatype Style = TitleStyle | SubtitleStyle | HeadingStyle | BodyStyle

  datatype Flowable =
    | Paragraph(text: string, style: Style)
    | Spacer(width: int, height: int)
    | Table(rows: seq<seq<string>>)
    | PageBreak

  const ReportTitle := "Multi-Repository Analysis Report"
  const ReportSubtitle := "Generated by Multi-Agent GitHub Analysis System v2.0"
  const QualityHeading := "Quality Assurance Summary"
  const SummaryHeading := "Executive Summary"
  const AppendixTitle := "Quality Review Appendix"
  const DataReviewTitle := "Data Quality Review"
  const AnalysisReviewTitle := "Analysis Quality Review"
  const FinalReviewTitle := "Final Quality Review"
  const MetadataHeading := "Report Metadata"
  const ParagraphSeparator := "\n\n"

  /** The fixed lines of the metadata paragraph that follow the target line. */
  const MetadataTrailer: string :=
    "'\nSystem: Multi-Agent GitHub Analysis System v2.0\nQuality Gates: Data Quality \U{2192} Analysis Quality \U{2192} Final Quality\nGenerated by: LostMind AI (www.LostMindAI.com)\n        "

  // ---------- the story after each generator method ----------

  /** `add_title`: the title, the subtitle only when it is non-empty, then a spacer. */
  function WithTitle(story: seq<Flowable>, title: string, subtitle: string): seq<Flowable> {
    var s := story + [Paragraph(title, TitleStyle)];
    (if subtitle != "" then s + [Paragraph(subtitle, SubtitleStyle)] else s) + [Spacer(1, 20)]
  }

  function Mark(approved: bool): string {
    if approved then "\U{2705}" else "\U{274C}"
  }

  /** The rows of the quality metrics table. */
  function QualityRows(q: QualitySummary): (rows: seq<seq<string>>)
    ensures |rows| == 7 && forall i | 0 <= i < |rows| :: |rows[i]| == 3
    ensures rows[0] == ["Metric", "Value", "Status"]
  {
    [
      ["Metric", "Value", "Status"],
      ["Overall Quality", if q.overallApproved then "Approved" else "Issues Found",
        if q.overallApproved then "\U{2705}" else "\U{26A0}\U{FE0F}"],
      ["Repositories Analyzed", NatToString(q.repositoriesAnalyzed), "\U{1F4CA}"],
      ["Files Processed", NatToString(q.totalFilesProcessed), "\U{1F4C1}"],
      ["Data Quality", if ApprovedFlag(q.dataQuality) then "Approved" else "Issues", Mark(ApprovedFlag(q.dataQuality))],
      ["Analysis Quality", if ApprovedFlag(q.analysisQuality) then "Approved" else "Issues",
        Mark(ApprovedFlag(q.analysisQuality))],
      ["Final Quality", if ApprovedFlag(q.finalQuality) then "Approved" else "Issues", Mark(ApprovedFlag(q.finalQuality))]
    ]
  }

  /** `add_quality_metrics_table`: heading, table, spacer. */
  function WithQualityTable(story: seq<Flowable>, q: QualitySummary): seq<Flowable> {
    story + [Paragraph(QualityHeading, HeadingStyle)] + [Table(QualityRows(q))] + [Spacer(1, 20)]
  }

  /** The body paragraphs `add_section` appends for the given chunks: each non-blank chunk, stripped. */
  function WithParagraphs(story: seq<Flowable>, chunks: seq<string>): seq<Flowable> {
    if chunks == [] then story
    else
      var s := WithParagraphs(story, chunks[..|chunks| - 1]);
      var para := Strip(chunks[|chunks| - 1]);
      if para != "" then s + [Paragraph(para, BodyStyle)] else s
  }

  /** `add_section`: a heading, the body paragraphs of the "\n\n"-separated chunks, a spacer. */
  function WithSection(story: seq<Flowable>, title: string, content: string): seq<Flowable> {
    WithParagraphs(story + [Paragraph(title, HeadingStyle)], Split(content, ParagraphSeparator)) + [Spacer(1, 15)]
  }

  /** One review's appendix section; an empty review dict (no review written) adds nothing. */
  function WithReview(story: seq<Flowable>, title: string, r: Review): seq<Flowable> {
    if r.Review? then WithSection(story, title, r.text) else story
  }

  /** `add_quality_appendix`. */
  function WithAppendix(story: seq<Flowable>, q: QualitySummary): seq<Flowable> {
    var s := story + [PageBreak] + [Paragraph(AppendixTitle, TitleStyle)];
    WithReview(WithReview(WithReview(s, DataReviewTitle, q.dataQuality),
      AnalysisReviewTitle, q.analysisQuality), FinalReviewTitle, q.finalQuality)
  }

  /** The metadata paragraph; `now` is the formatted generation time. */
  function MetadataText(username: string, now: string): string {
    "\nGenerated: " + now + "\nTarget: GitHub user '" + username + MetadataTrailer
  }

  /** `add_metadata`. */
  function WithMetadata(story: seq<Flowable>, username: string, now: string): seq<Flowable> {
    story + [PageBreak] + [Paragraph(MetadataHeading, HeadingStyle)] + [Paragraph(MetadataText(username, now), BodyStyle)]
  }

  /** The story `generate_enhanced_report` builds for a workflow result. */
  function EnhancedStory(result: StateDict, now: string): seq<Flowable> {
    var q := GetQualitySummary(result);
    var titled := WithTitle([], ReportTitle, ReportSubtitle);
    WithMetadata(WithAppendix(WithSection(WithQualityTable(titled, q), SummaryHeading, result.finalReport), q),
      result.username, now)
  }

  // ---------- the generator ----------

  class EnhancedReportGenerator {
    const filename: string
    var story: seq<Flowable>

    constructor (filename: string)
      ensures this.filename == filename && story == []
    {
      this.filename := filename;
      story := [];
    }

    method AddTitle(title: string, subtitle: string)
      modifies this`story
      ensures story == WithTitle(old(story), title, subtitle)
    {
      story := story + [Paragraph(title, TitleStyle)];
      if subtitle != "" {
        story := story + [Paragraph(subtitle, SubtitleStyle)];
      }
      story := story + [Spacer(1, 20)];
    }

    method AddQualityMetricsTable(q: QualitySummary)
      modifies this`story
      ensures story == WithQualityTable(old(story), q)
    {
      story := story + [Paragraph(QualityHeading, HeadingStyle)];
      var data := QualityRows(q);
      story := story + [Table(data)];
      story := story + [Spacer(1, 20)];
    }

    method AddSection(title: string, content: string)
      modifies this`story
      ensures story == WithSection(old(story), title, content)
    {
      story := story + [Paragraph(title, HeadingStyle)];
      ghost var headed := story;
      var paragraphs := Split(content, ParagraphSeparator);
      for i := 0 to |paragraphs|
        invariant story == WithParagraphs(headed, paragraphs[..i])
      {
        var para := Strip(paragraphs[i]);
        if para != "" {
          story := story + [Paragraph(para, BodyStyle)];
        }
        assert paragraphs[..i + 1][..i] == paragraphs[..i];
      }
      assert paragraphs[..|paragraphs|] == paragraphs;
      story := story + [Spacer(1, 15)];
    }

    method AddQualityAppendix(q: QualitySummary)
      modifies this`story
      ensures story == WithAppendix(old(story), q)
    {
      story := story + [PageBreak];
      story := story + [Paragraph(AppendixTitle, TitleStyle)];
      if q.dataQuality.Review? {
        AddSection(DataReviewTitle, q.dataQuality.text);
      }
      if q.analysisQuality.Review? {
        AddSection(AnalysisReviewTitle, q.analysisQuality.text);
      }
      if q.finalQuality.Review? {
        AddSection(FinalReviewTitle, q.finalQuality.text);
      }
    }

    method AddMetadata(username: string, now: string)
      modifies this`story
      ensures story == WithMetadata(old(story), username, now)
    {
      story := story + [PageBreak];
      story := story + [Paragraph(MetadataHeading, HeadingStyle)];
      story := story + [Paragraph(MetadataText(username, now), BodyStyle)];
    }

    /** `build`: rendering the story is not modelled; the path of the document is returned. */
    method Build() returns (path: string)
      ensures path == filename
    {
      path := filename;
    }
  }

  /**
   * `generate_enhanced_report`: builds the story in the fixed order title,
   * quality table, executive summary, appendix, metadata, and returns the
   * output path together with the story handed to the renderer.
   */
  method GenerateEnhancedReport(result: StateDict, outputPath: string, now: string)
    returns (path: string, story: seq<Flowable>)
    ensures path == outputPath
    ensures story == EnhancedStory(result, now)
  {
    var generator := new EnhancedReportGenerator(outputPath);
    generator.AddTitle(ReportTitle, ReportSubtitle);
    var q := GetQualitySummary(result);
    generator.AddQualityMetricsTable(q);
    generator.AddSection(SummaryHeading, result.finalReport);
    generator.AddQualityAppendix(q);
    generator.AddMetadata(result.username, now);
    path := generator.Build();
    story := generator.story;
  }

  // ---------- properties of the story ----------

  /** `r` is `s` followed by more flowables. */
  predicate Extends(r: seq<Flowable>, s: seq<Flowable>) {
    |s| <= |r| && r[..|s|] == s
  }

  /** No page break at or after index `i`. */
  predicate NoPageBreakFrom(r: seq<Flowable>, i: nat) {
    forall k | i <= k < |r| :: !r[k].PageBreak?
  }

  /** How many of the chunks are non-blank. */
  function NonBlankCount(chunks: seq<string>): nat {
    if chunks == [] then 0
    else (if IsBlank(chunks[0]) then 0 else 1) + NonBlankCount(chunks[1..])
  }

  lemma {:induction false} NonBlankCountSnoc(chunks: seq<string>, c: string)
    ensures NonBlankCount(chunks + [c]) == NonBlankCount(chunks) + (if IsBlank(c) then 0 else 1)
  {
    if chunks != [] {
      assert (chunks + [c])[1..] == chunks[1..] + [c];
      NonBlankCountSnoc(chunks[1..], c);
    }
  }

  /** A slice of a string that does not contain `sub` does not contain it either. */
  lemma {:induction false} SliceAvoids(s: string, sub: string, i: int, j: int)
    requires 0 <= i <= j <= |s| && !Contains(s, sub)
    ensures !Contains(s[i..j], sub)
  {
    forall k | 0 <= k <= (j - i) - |sub| ensures !OccursAt(s[i..j], sub, k) {
      if OccursAt(s[i..j], sub, k) {
        var a := s[i + k..i + k + |sub|];
        var b := s[i..j][k..k + |sub|];
        forall m | 0 <= m < |a| ensures a[m] == b[m] {
          assert a[m] == s[i + k + m];
          assert b[m] == s[i..j][k + m];
        }
        assert OccursAt(s, sub, i + k);
      }
    }
  }

  /**
   * The body paragraphs extend the story by one stripped, non-empty
   * paragraph per non-blank chunk; a paragraph never holds a separator that
   * no chunk holds.
   */
  lemma {:induction false} ParagraphsShape(story: seq<Flowable>, chunks: seq<string>, sep: string)
    requires forall k | 0 <= k < |chunks| :: !Contains(chunks[k], sep)
    ensures var r := WithParagraphs(story, chunks);
      Extends(r, story) && |r| == |story| + NonBlankCount(chunks) &&
      forall k | |story| <= k < |r| ::
        r[k].Paragraph? && r[k].style == BodyStyle && r[k].text != [] && !Contains(r[k].text, sep)
  {
    if chunks != [] {
      var prefix := chunks[..|chunks| - 1];
      var c := chunks[|chunks| - 1];
      ParagraphsShape(story, prefix, sep);
      var s := WithParagraphs(story, prefix);
      var para := Strip(c);
      StripEmptyIffBlank(c);
      NonBlankCountSnoc(prefix, c);
      assert chunks == prefix + [c];
      var i := StripSlice(c);
      SliceAvoids(c, sep, i, i + |para|);
      var r := WithParagraphs(story, chunks);
      assert r == if para != "" then s + [Paragraph(para, BodyStyle)] else s;
      assert r[..|story|] == s[..|story|];
      forall k | |story| <= k < |r|
        ensures r[k].Paragraph? && r[k].style == BodyStyle && r[k].text != [] && !Contains(r[k].text, sep)
      {
        if k < |s| { assert r[k] == s[k]; }
      }
    }
  }

  /**
   * `add_section` appends the heading, one stripped paragraph per non-blank
   * chunk (none of which contains a paragraph break), and a spacer: the
   * story grows by two plus the number of non-blank chunks.
   */
  lemma {:induction false} SectionShape(story: seq<Flowable>, title: string, content: string)
    ensures var r := WithSection(story, title, content);
      Extends(r, story) &&
      |r| == |story| + 2 + NonBlankCount(Split(content, ParagraphSeparator)) &&
      r[|story|] == Paragraph(title, HeadingStyle) && r[|r| - 1] == Spacer(1, 15) &&
      (forall k | |story| < k < |r| - 1 ::
        r[k].Paragraph? && r[k].style == BodyStyle && r[k].text != [] && !Contains(r[k].text, ParagraphSeparator)) &&
      NoPageBreakFrom(r, |story|)
  {
    var headed := story + [Paragraph(title, HeadingStyle)];
    SplitPartsAvoidSeparator(content, ParagraphSeparator);
    ParagraphsShape(headed, Split(content, ParagraphSeparator), ParagraphSeparator);
    var body := WithParagraphs(headed, Split(content, ParagraphSeparator));
    var r := WithSection(story, title, content);
    assert r[..|body|] == body;
    assert r[..|story|] == body[..|headed|][..|story|];
    assert r[|story|] == body[..|headed|][|story|];
  }

  /** Text without a paragraph break that is not blank becomes exactly one paragraph, stripped. */
  lemma {:induction false} SingleParagraphSection(story: seq<Flowable>, title: string, content: string)
    requires !Contains(content, ParagraphSeparator) && !IsBlank(content)
    ensures WithSection(story, title, content) ==
      story + [Paragraph(title, HeadingStyle), Paragraph(Strip(content), BodyStyle), Spacer(1, 15)]
  {
    var chunks := Split(content, ParagraphSeparator);
    JoinSplit(content, ParagraphSeparator);
    if |chunks| > 1 {
      JoinPrefix(chunks, ParagraphSeparator);
      assert content == chunks[0] + ParagraphSeparator + Join(chunks[1..], ParagraphSeparator);
      assert OccursAt(content, ParagraphSeparator, |chunks[0]|);
      assert false;
    }
    assert chunks == [content];
    assert chunks[..0] == [];
    StripEmptyIffBlank(content);
    var headed := story + [Paragraph(title, HeadingStyle)];
    assert WithParagraphs(headed, chunks) == headed + [Paragraph(Strip(content), BodyStyle)];
  }

  /**
   * The table reports the verdicts the summary holds: the overall row and
   * each review row say "Approved" with a check mark exactly when approved.
   */
  lemma {:induction false} QualityTableVerdicts(q: QualitySummary)
    ensures var rows := QualityRows(q);
      (rows[1][1] == "Approved" <==> q.overallApproved) &&
      (rows[1][2] == "\U{2705}" <==> q.overallApproved) &&
      (rows[4][1] == "Approved" <==> ApprovedFlag(q.dataQuality)) &&
      (rows[4][2] == "\U{2705}" <==> ApprovedFlag(q.dataQuality)) &&
      (rows[5][1] == "Approved" <==> ApprovedFlag(q.analysisQuality)) &&
      (rows[5][2] == "\U{2705}" <==> ApprovedFlag(q.analysisQuality)) &&
      (rows[6][1] == "Approved" <==> ApprovedFlag(q.finalQuality)) &&
      (rows[6][2] == "\U{2705}" <==> ApprovedFlag(q.finalQuality))
  {
  }

  /** The two count cells read back as the summary's numbers. */
  lemma {:induction false} QualityTableCounts(q: QualitySummary)
    ensures var rows := QualityRows(q);
      DigitsValue(rows[2][1]) == q.repositoriesAnalyzed &&
      DigitsValue(rows[3][1]) == q.totalFilesProcessed
  {
    NatToStringRoundTrip(q.repositoriesAnalyzed);
    NatToStringRoundTrip(q.totalFilesProcessed);
  }

  /** A review section adds no page break, and nothing when the review dict is empty. */
  lemma {:induction false} ReviewShape(story: seq<Flowable>, title: string, r: Review)
    ensures Extends(WithReview(story, title, r), story) && NoPageBreakFrom(WithReview(story, title, r), |story|)
    ensures r.NoReview? ==> WithReview(story, title, r) == story
  {
    if r.Review? {
      SectionShape(story, title, r.text);
    }
  }

  /** `Extends` is transitive, and page-break freedom carries over from the middle story. */
  lemma {:induction false} ExtendsTrans(a: seq<Flowable>, b: seq<Flowable>, c: seq<Flowable>, i: nat)
    requires Extends(b, a) && Extends(c, b) && 0 <= i <= |a|
    requires NoPageBreakFrom(b, i) && NoPageBreakFrom(c, |b|)
    ensures Extends(c, a) && NoPageBreakFrom(c, i)
  {
    assert c[..|a|] == c[..|b|][..|a|];
    forall k | i <= k < |c| ensures !c[k].PageBreak? {
      if k < |b| { assert c[k] == c[..|b|][k]; }
    }
  }

  /** The appendix opens on a new page with its title and then adds no further page break. */
  lemma {:induction false} AppendixShape(story: seq<Flowable>, q: QualitySummary)
    ensures var r := WithAppendix(story, q);
      Extends(r, story) && |r| >= |story| + 2 &&
      r[|story|] == PageBreak && r[|story| + 1] == Paragraph(AppendixTitle, TitleStyle) &&
      NoPageBreakFrom(r, |story| + 1)
  {
    var s := story + [PageBreak] + [Paragraph(AppendixTitle, TitleStyle)];
    var s1 := WithReview(s, DataReviewTitle, q.dataQuality);
    var s2 := WithReview(s1, AnalysisReviewTitle, q.analysisQuality);
    var s3 := WithReview(s2, FinalReviewTitle, q.finalQuality);
    ReviewShape(s, DataReviewTitle, q.dataQuality);
    ReviewShape(s1, AnalysisReviewTitle, q.analysisQuality);
    ReviewShape(s2, FinalReviewTitle, q.finalQuality);
    assert NoPageBreakFrom(s, |story| + 1);
    ExtendsTrans(s, s1, s2, |story| + 1);
    ExtendsTrans(s, s2, s3, |story| + 1);
    assert s3[..|s|] == s;
    assert s3[..|story|] == s[..|story|];
    assert s3[|story|] == s[|story|] && s3[|story| + 1] == s[|story| + 1];
  }

  /** Appendix and metadata after a story: two page breaks, the metadata paragraph last. */
  lemma {:induction false} TailShape(story: seq<Flowable>, q: QualitySummary, username: string, now: string)
    ensures var r := WithMetadata(WithAppendix(story, q), username, now);
      Extends(r, story) && |r| >= |story| + 5 &&
      r[|story|] == PageBreak && r[|story| + 1] == Paragraph(AppendixTitle, TitleStyle) &&
      r[|r| - 1] == Paragraph(MetadataText(username, now), BodyStyle) &&
      forall i | |story| <= i < |r| :: r[i].PageBreak? <==> (i == |story| || i == |r| - 3)
  {
    var appendix := WithAppendix(story, q);
    var r := WithMetadata(appendix, username, now);
    AppendixShape(story, q);
    assert r[..|appendix|] == appendix;
    assert r[..|story|] == appendix[..|story|];
    forall i | |story| <= i < |r| ensures r[i].PageBreak? <==> (i == |story| || i == |r| - 3) {
      if i < |appendix| { assert r[i] == appendix[i]; }
    }
    assert r[|story|] == appendix[|story|];
    assert r[|story| + 1] == appendix[|story| + 1];
  }

  /** Title, subtitle, quality table and executive summary, with no page break among them. */
  lemma {:induction false} HeadShape(q: QualitySummary, finalReport: string)
    ensures var head := WithQualityTable(WithTitle([], ReportTitle, ReportSubtitle), q);
      var r := WithSection(head, SummaryHeading, finalReport);
      |r| >= 8 &&
      r[0] == Paragraph(ReportTitle, TitleStyle) &&
      r[1] == Paragraph(ReportSubtitle, SubtitleStyle) &&
      r[3] == Paragraph(QualityHeading, HeadingStyle) &&
      r[4] == Table(QualityRows(q)) &&
      r[6] == Paragraph(SummaryHeading, HeadingStyle) &&
      NoPageBreakFrom(r, 0)
  {
    var head := WithQualityTable(WithTitle([], ReportTitle, ReportSubtitle), q);
    assert head == [Paragraph(ReportTitle, TitleStyle), Paragraph(ReportSubtitle, SubtitleStyle), Spacer(1, 20),
      Paragraph(QualityHeading, HeadingStyle), Table(QualityRows(q)), Spacer(1, 20)];
    var r := WithSection(head, SummaryHeading, finalReport);
    SectionShape(head, SummaryHeading, finalReport);
    forall i | 0 <= i < |r| ensures !r[i].PageBreak? {
      if i < |head| { assert r[i] == r[..|head|][i]; }
    }
    assert r[0] == r[..|head|][0];
    assert r[1] == r[..|head|][1];
    assert r[3] == r[..|head|][3];
    assert r[4] == r[..|head|][4];
  }

  /** The layout of the whole story, for any quality summary, summary text and user. */
  lemma {:induction false} StoryShape(q: QualitySummary, finalReport: string, username: string, now: string)
    ensures var summary := WithSection(WithQualityTable(WithTitle([], ReportTitle, ReportSubtitle), q),
                                       SummaryHeading, finalReport);
      var story := WithMetadata(WithAppendix(summary, q), username, now);
      |summary| >= 8 && |story| >= |summary| + 5 &&
      story[0] == Paragraph(ReportTitle, TitleStyle) &&
      story[1] == Paragraph(ReportSubtitle, SubtitleStyle) &&
      story[3] == Paragraph(QualityHeading, HeadingStyle) &&
      story[4] == Table(QualityRows(q)) &&
      story[6] == Paragraph(SummaryHeading, HeadingStyle) &&
      story[|summary|] == PageBreak && story[|summary| + 1] == Paragraph(AppendixTitle, TitleStyle) &&
      story[|story| - 1] == Paragraph(MetadataText(username, now), BodyStyle) &&
      forall i | 0 <= i < |story| :: story[i].PageBreak? <==> (i == |summary| || i == |story| - 3)
  {
    var summary := WithSection(WithQualityTable(WithTitle([], ReportTitle, ReportSubtitle), q),
                               SummaryHeading, finalReport);
    var story := WithMetadata(WithAppendix(summary, q), username, now);
    HeadShape(q, finalReport);
    TailShape(summary, q, username, now);
    forall i | 0 <= i < |summary| ensures story[i] == summary[i] {
      assert story[i] == story[..|summary|][i];
    }
  }

  /**
   * The enhanced story opens with the title and subtitle, then the quality
   * table, then the executive summary; it holds exactly two page breaks,
   * opening the appendix and the metadata, and ends with the metadata
   * paragraph naming the user.
   */
  lemma {:induction false} EnhancedStoryShape(result: StateDict, now: string)
    ensures var story := EnhancedStory(result, now);
      var q := GetQualitySummary(result);
      var summaryEnd := |WithSection(WithQualityTable(WithTitle([], ReportTitle, ReportSubtitle), q),
                                     SummaryHeading, result.finalReport)|;
      summaryEnd >= 8 && |story| >= summaryEnd + 5 &&
      story[0] == Paragraph(ReportTitle, TitleStyle) &&
      story[1] == Paragraph(ReportSubtitle, SubtitleStyle) &&
      story[3] == Paragraph(QualityHeading, HeadingStyle) &&
      story[4] == Table(QualityRows(q)) &&
      story[6] == Paragraph(SummaryHeading, HeadingStyle) &&
      story[summaryEnd] == PageBreak && story[summaryEnd + 1] == Paragraph(AppendixTitle, TitleStyle) &&
      story[|story| - 1] == Paragraph(MetadataText(result.username, now), BodyStyle) &&
      forall i | 0 <= i < |story| :: story[i].PageBreak? <==> (i == summaryEnd || i == |story| - 3)
  {
    StoryShape(GetQualitySummary(result), result.finalReport, result.username, now);
  }

  /** After a finished run every review exists, so the appendix has all three sections. */
  lemma {:induction false} FinishedRunAppendix(username: string, repos: string, ext: Externals, story: seq<Flowable>)
    ensures var r := RunResult(username, repos, ext);
      r.dataQualityReview.Review? && r.analysisQualityReview.Review? && r.finalQualityReview.Review? &&
      WithAppendix(story, GetQualitySummary(r)) ==
        WithSection(WithSection(WithSection(story + [PageBreak] + [Paragraph(AppendixTitle, TitleStyle)],
          DataReviewTitle, r.dataQualityReview.text),
          AnalysisReviewTitle, r.analysisQualityReview.text),
          FinalReviewTitle, r.finalQualityReview.text)
  {
    RunResultShape(username, repos, ext);
  }
}
