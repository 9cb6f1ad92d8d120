/**
 * The legacy plain PDF report (src/report.py, `build_pdf`). The canvas is
 * the rendering library's; the model records the calls made on it, in
 * order, and proves where the body text lands and that every wrapped line
 * is drawn exactly once.
 */
module Pdf {
  import opened Common
  import opened Strings
  import opened Workflow

  /** The calls made on the canvas. */
  datatype CanvasOp =
    | SetFont(name: string, size: nat)
    | DrawString(x: int, y: int, text: string)
    | ShowPage
    | Save

  /** Height of a US letter page, in points. */
  const PageHeight: int := 792
  const BottomMargin: int := 50
  const LeftMargin: int := 50
  const LineHeight: int := 12
  const BodyFont := SetFont("Helvetica", 10)
  /** Where the body text starts on the first page, and on every later page. */
  const FirstBodyY: int := PageHeight - 230
  const PageTopY: int := PageHeight - 50

  const TitlePrefix := "GitHub Analysis Report - "
  const SummaryLabel := "Quality Summary:"
  const BodyLabel := "Analysis Report:"
  const FooterSuffix := " | LostMind AI"

  /** `textwrap.wrap(line)`, with an empty result replaced by one blank line. */
  function WrapOrBlank(wrapped: seq<string>): (r: seq<string>)
    ensures |r| >= 1
    ensures wrapped != [] ==> r == wrapped
    ensures wrapped == [] ==> r == [""]
  {
    if wrapped == [] then [""] else wrapped
  }

  /** The strings the body draws, in order, for the given report lines. */
  function BodyLines(lines: seq<string>, wrap: string -> seq<string>): seq<string> {
    if lines == [] then []
    else BodyLines(lines[..|lines| - 1], wrap) + WrapOrBlank(wrap(lines[|lines| - 1]))
  }

  /** Number of body strings, counted line by line: max(1, number of wrapped pieces). */
  function DrawCount(lines: seq<string>, wrap: string -> seq<string>): nat {
    if lines == [] then 0
    else (if |wrap(lines[0])| == 0 then 1 else |wrap(lines[0])|) + DrawCount(lines[1..], wrap)
  }

  /** Drawing one string at cursor `y`: a new page first when the cursor is below the margin. */
  function DrawOne(y: int, text: string): seq<CanvasOp> {
    if y < BottomMargin then [ShowPage, BodyFont, DrawString(LeftMargin, PageTopY, text)]
    else [DrawString(LeftMargin, y, text)]
  }

  /** The cursor after drawing one string at `y`. */
  function Next(y: int): int {
    (if y < BottomMargin then PageTopY else y) - LineHeight
  }

  /** The cursor after drawing `texts` from `y`. */
  function YAfter(texts: seq<string>, y: int): int {
    if texts == [] then y else YAfter(texts[1..], Next(y))
  }

  /** The body strings of one more line are those of its wrapped pieces. */
  lemma {:induction false} BodyLinesStep(lines: seq<string>, i: int, wrap: string -> seq<string>)
    requires 0 <= i < |lines|
    ensures BodyLines(lines[..i + 1], wrap) == BodyLines(lines[..i], wrap) + WrapOrBlank(wrap(lines[i]))
  {
    assert lines[..i + 1][..i] == lines[..i];
  }

  /** The canvas calls that draw `texts` one below the other from `y`. */
  function Place(texts: seq<string>, y: int): seq<CanvasOp> {
    if texts == [] then [] else DrawOne(y, texts[0]) + Place(texts[1..], Next(y))
  }

  function ApprovalWord(approved: bool): string {
    if approved then "Approved" else "Issues Found"
  }

  /** The title, the quality summary and the body heading, ending with the body font. */
  function HeaderOps(username: string, q: QualitySummary): seq<CanvasOp> {
    [SetFont("Helvetica-Bold", 18), DrawString(LeftMargin, PageHeight - 50, TitlePrefix + username)] +
    [SetFont("Helvetica-Bold", 14), DrawString(LeftMargin, PageHeight - 100, SummaryLabel)] +
    [SetFont("Helvetica", 12)] +
    [DrawString(LeftMargin, PageHeight - 120, "Overall: " + ApprovalWord(q.overallApproved))] +
    [DrawString(LeftMargin, PageHeight - 140, "Repositories: " + NatToString(q.repositoriesAnalyzed))] +
    [DrawString(LeftMargin, PageHeight - 160, "Files: " + NatToString(q.totalFilesProcessed))] +
    [SetFont("Helvetica-Bold", 14), DrawString(LeftMargin, PageHeight - 200, BodyLabel)] +
    [BodyFont]
  }

  /** The footer line with the generation time, then saving the document. */
  function FooterOps(now: string): seq<CanvasOp> {
    [SetFont("Helvetica", 8), DrawString(LeftMargin, 30, "Generated: " + now + FooterSuffix), Save]
  }

  /** Every canvas call `build_pdf` makes, in order. */
  function PdfOps(report: string, username: string, q: QualitySummary, now: string,
                  wrap: string -> seq<string>): seq<CanvasOp> {
    HeaderOps(username, q) + Place(BodyLines(SplitLines(report), wrap), FirstBodyY) + FooterOps(now)
  }

  /** Drawing `a` and then `b` is drawing `a + b`; the cursor carries over. */
  lemma {:induction false} PlaceAppend(a: seq<string>, b: seq<string>, y: int)
    ensures Place(a + b, y) == Place(a, y) + Place(b, YAfter(a, y))
    ensures YAfter(a + b, y) == YAfter(b, YAfter(a, y))
  {
    if a == [] {
      assert a + b == b;
    } else {
      assert (a + b)[1..] == a[1..] + b;
      PlaceAppend(a[1..], b, Next(y));
    }
  }

  /**
   * The page check `build_pdf` makes before each source line changes
   * nothing: the check before the line's first string would break the page
   * in the same way.
   */
  lemma {:induction false} LineCheckSubsumed(texts: seq<string>, y: int)
    requires texts != [] && y < BottomMargin
    ensures Place(texts, y) == [ShowPage, BodyFont] + Place(texts, PageTopY)
    ensures YAfter(texts, y) == YAfter(texts, PageTopY)
  {
    assert Next(y) == Next(PageTopY);
  }

  /** The header part of `build_pdf`: title, quality summary, body heading, body font. */
  method DrawHeader(username: string, q: QualitySummary) returns (ops: seq<CanvasOp>)
    ensures ops == HeaderOps(username, q)
  {
    ops := [SetFont("Helvetica-Bold", 18), DrawString(LeftMargin, PageHeight - 50, TitlePrefix + username)];
    ops := ops + [SetFont("Helvetica-Bold", 14), DrawString(LeftMargin, PageHeight - 100, SummaryLabel)];
    ops := ops + [SetFont("Helvetica", 12)];
    var qualityText := "Overall: " + ApprovalWord(q.overallApproved);
    ops := ops + [DrawString(LeftMargin, PageHeight - 120, qualityText)];
    var reposText := "Repositories: " + NatToString(q.repositoriesAnalyzed);
    ops := ops + [DrawString(LeftMargin, PageHeight - 140, reposText)];
    var filesText := "Files: " + NatToString(q.totalFilesProcessed);
    ops := ops + [DrawString(LeftMargin, PageHeight - 160, filesText)];
    ops := ops + [SetFont("Helvetica-Bold", 14), DrawString(LeftMargin, PageHeight - 200, BodyLabel)];
    ops := ops + [SetFont("Helvetica", 10)];
  }

  /**
   * The inner loop of `build_pdf`: draws the wrapped pieces of one line from
   * cursor `y0`, breaking the page before any piece that would fall below the
   * margin.
   */
  method DrawWrapped(ops0: seq<CanvasOp>, y0: int, wrapped: seq<string>) returns (ops: seq<CanvasOp>, y: int)
    ensures ops == ops0 + Place(wrapped, y0)
    ensures y == YAfter(wrapped, y0)
  {
    ops := ops0;
    y := y0;
    for j := 0 to |wrapped|
      invariant ops == ops0 + Place(wrapped[..j], y0)
      invariant y == YAfter(wrapped[..j], y0)
    {
      PlaceAppend(wrapped[..j], [wrapped[j]], y0);
      assert wrapped[..j + 1] == wrapped[..j] + [wrapped[j]];
      if y < BottomMargin {
        ops := ops + [ShowPage, SetFont("Helvetica", 10)];
        y := PageHeight - 50;
      }
      ops := ops + [DrawString(LeftMargin, y, wrapped[j])];
      y := y - LineHeight;
    }
    assert wrapped[..|wrapped|] == wrapped;
  }

  /**
   * One source line of `build_pdf`: the page check before the line, then
   * its wrapped pieces. The page check before the line is subsumed by the
   * one before its first piece.
   */
  method DrawLine(ops0: seq<CanvasOp>, y0: int, wrapped: seq<string>) returns (ops: seq<CanvasOp>, y: int)
    requires wrapped != []
    ensures ops == ops0 + Place(wrapped, y0)
    ensures y == YAfter(wrapped, y0)
  {
    if y0 < BottomMargin {
      var broken := ops0 + [ShowPage, BodyFont];
      LineCheckSubsumed(wrapped, y0);
      ops, y := DrawWrapped(broken, PageTopY, wrapped);
      AppendAssoc(ops0, [ShowPage, BodyFont], Place(wrapped, PageTopY));
    } else {
      ops, y := DrawWrapped(ops0, y0, wrapped);
    }
  }

  /** One turn of the body loop keeps its invariant. */
  lemma {:induction false} DrawBodyStep(ops0: seq<CanvasOp>, lines: seq<string>, i: int, wrap: string -> seq<string>,
                     drawn: seq<string>, opsBefore: seq<CanvasOp>, yBefore: int, ops: seq<CanvasOp>, y: int)
    requires 0 <= i < |lines|
    requires drawn == BodyLines(lines[..i], wrap)
    requires opsBefore == ops0 + Place(drawn, FirstBodyY) && yBefore == YAfter(drawn, FirstBodyY)
    requires ops == opsBefore + Place(WrapOrBlank(wrap(lines[i])), yBefore)
    requires y == YAfter(WrapOrBlank(wrap(lines[i])), yBefore)
    ensures drawn + WrapOrBlank(wrap(lines[i])) == BodyLines(lines[..i + 1], wrap)
    ensures ops == ops0 + Place(drawn + WrapOrBlank(wrap(lines[i])), FirstBodyY)
    ensures y == YAfter(drawn + WrapOrBlank(wrap(lines[i])), FirstBodyY)
  {
    var wrapped := WrapOrBlank(wrap(lines[i]));
    BodyLinesStep(lines, i, wrap);
    PlaceAppend(drawn, wrapped, FirstBodyY);
    AppendAssoc(ops0, Place(drawn, FirstBodyY), Place(wrapped, yBefore));
  }

  /**
   * The body loop of `build_pdf`: every report line, wrapped, drawn from the
   * first body line down.
   */
  method DrawBody(ops0: seq<CanvasOp>, lines: seq<string>, wrap: string -> seq<string>)
    returns (ops: seq<CanvasOp>)
    ensures ops == ops0 + Place(BodyLines(lines, wrap), FirstBodyY)
  {
    ops := ops0;
    var y := FirstBodyY;
    ghost var drawn: seq<string> := [];
    for i := 0 to |lines|
      invariant drawn == BodyLines(lines[..i], wrap)
      invariant ops == ops0 + Place(drawn, FirstBodyY)
      invariant y == YAfter(drawn, FirstBodyY)
    {
      var wrapped := wrap(lines[i]);
      if wrapped == [] {
        wrapped := [""];
      }
      assert wrapped == WrapOrBlank(wrap(lines[i]));
      ghost var opsBefore, yBefore := ops, y;
      ops, y := DrawLine(ops, y, wrapped);
      DrawBodyStep(ops0, lines, i, wrap, drawn, opsBefore, yBefore, ops, y);
      drawn := drawn + wrapped;
    }
    assert lines[..|lines|] == lines;
  }

  /**
   * `build_pdf`: the header, then every wrapped report line at a cursor
   * that starts at height - 230 and drops by 12, a new page whenever it is
   * below 50, then the footer. `wrap` stands for `textwrap.wrap(., width=100)`
   * and `now` for the formatted current time.
   */
  method BuildPdf(report: string, username: string, q: QualitySummary, outfile: string, now: string,
                  wrap: string -> seq<string>)
    returns (path: string, ops: seq<CanvasOp>)
    ensures path == outfile
    ensures ops == PdfOps(report, username, q, now, wrap)
  {
    ops := DrawHeader(username, q);
    ops := DrawBody(ops, SplitLines(report), wrap);
    ops := ops + [SetFont("Helvetica", 8), DrawString(LeftMargin, 30, "Generated: " + now + FooterSuffix)];
    ops := ops + [Save];
    path := outfile;
  }

  // ---------- properties of build_pdf ----------

  /** The texts of the strings drawn by a sequence of canvas calls, in call order. */
  function DrawnTexts(ops: seq<CanvasOp>): seq<string> {
    if ops == [] then []
    else (if ops[0].DrawString? then [ops[0].text] else []) + DrawnTexts(ops[1..])
  }

  lemma {:induction false} DrawnTextsAppend(a: seq<CanvasOp>, b: seq<CanvasOp>)
    ensures DrawnTexts(a + b) == DrawnTexts(a) + DrawnTexts(b)
  {
    if a == [] {
      assert a + b == b;
    } else {
      assert (a + b)[1..] == a[1..] + b;
      DrawnTextsAppend(a[1..], b);
    }
  }

  /** Every string is drawn exactly once, in order: nothing is lost or repeated across page breaks. */
  lemma {:induction false} PlaceDrawsInOrder(texts: seq<string>, y: int)
    ensures DrawnTexts(Place(texts, y)) == texts
  {
    if texts != [] {
      PlaceDrawsInOrder(texts[1..], Next(y));
      var d := DrawOne(y, texts[0]);
      DrawnTextsAppend(d, Place(texts[1..], Next(y)));
      if y < BottomMargin {
        assert DrawnTexts(d) == DrawnTexts(d[1..]) == DrawnTexts(d[2..]) == [texts[0]];
      } else {
        assert DrawnTexts(d) == [texts[0]];
      }
    }
  }

  /**
   * From a cursor on the page, every body string is drawn at the left
   * margin between the bottom margin and the top line, and the cursor stays
   * within [38, 742].
   */
  lemma {:induction false} PlaceStaysOnPage(texts: seq<string>, y: int)
    requires BottomMargin - LineHeight <= y <= PageTopY
    ensures BottomMargin - LineHeight <= YAfter(texts, y) <= PageTopY
    ensures forall k | 0 <= k < |Place(texts, y)| :: Place(texts, y)[k].DrawString? ==>
      Place(texts, y)[k].x == LeftMargin && BottomMargin <= Place(texts, y)[k].y <= PageTopY
  {
    if texts != [] {
      PlaceStaysOnPage(texts[1..], Next(y));
      var a: seq<CanvasOp> := DrawOne(y, texts[0]);
      var b: seq<CanvasOp> := Place(texts[1..], Next(y));
      var ab: seq<CanvasOp> := a + b;
      forall k | 0 <= k < |ab| && ab[k].DrawString?
        ensures ab[k].x == LeftMargin && BottomMargin <= ab[k].y <= PageTopY
      {
        if k < |a| { assert ab[k] == a[k]; } else { assert ab[k] == b[k - |a|]; }
      }
    }
  }

  lemma {:induction false} DrawCountSnoc(lines: seq<string>, line: string, wrap: string -> seq<string>)
    ensures DrawCount(lines + [line], wrap) ==
      DrawCount(lines, wrap) + (if |wrap(line)| == 0 then 1 else |wrap(line)|)
  {
    if lines != [] {
      assert (lines + [line])[1..] == lines[1..] + [line];
      DrawCountSnoc(lines[1..], line, wrap);
    }
  }

  /** An empty source line still takes one drawn line: the body draws the sum of max(1, |wrap(line)|) strings. */
  lemma {:induction false} BodyLinesCount(lines: seq<string>, wrap: string -> seq<string>)
    ensures |BodyLines(lines, wrap)| == DrawCount(lines, wrap)
  {
    if lines != [] {
      BodyLinesCount(lines[..|lines| - 1], wrap);
      DrawCountSnoc(lines[..|lines| - 1], lines[|lines| - 1], wrap);
      assert lines == lines[..|lines| - 1] + [lines[|lines| - 1]];
    }
  }

  /**
   * What `build_pdf` draws: the six header strings, every wrapped report
   * line in order, and the footer; the body count is the sum over the
   * report's lines, and the last call saves the document.
   */
  lemma {:induction false} BuildPdfDraws(report: string, username: string, q: QualitySummary, now: string,
                      wrap: string -> seq<string>)
    ensures var body := BodyLines(SplitLines(report), wrap);
      var ops := PdfOps(report, username, q, now, wrap);
      DrawnTexts(ops) ==
        [TitlePrefix + username, SummaryLabel, "Overall: " + ApprovalWord(q.overallApproved),
         "Repositories: " + NatToString(q.repositoriesAnalyzed), "Files: " + NatToString(q.totalFilesProcessed),
         BodyLabel] + body + ["Generated: " + now + FooterSuffix] &&
      |body| == DrawCount(SplitLines(report), wrap) &&
      ops[|ops| - 1] == Save
  {
    var body := BodyLines(SplitLines(report), wrap);
    var h := HeaderOps(username, q);
    var p := Place(body, FirstBodyY);
    var f := FooterOps(now);
    DrawnTextsAppend(h + p, f);
    DrawnTextsAppend(h, p);
    PlaceDrawsInOrder(body, FirstBodyY);
    BodyLinesCount(SplitLines(report), wrap);
    HeaderDraws(username, q);
    FooterDraws(now);
  }

  lemma {:induction false} HeaderDraws(username: string, q: QualitySummary)
    ensures DrawnTexts(HeaderOps(username, q)) ==
      [TitlePrefix + username, SummaryLabel, "Overall: " + ApprovalWord(q.overallApproved),
       "Repositories: " + NatToString(q.repositoriesAnalyzed), "Files: " + NatToString(q.totalFilesProcessed),
       BodyLabel]
  {
    var title := TitlePrefix + username;
    var overall := "Overall: " + ApprovalWord(q.overallApproved);
    var repos := "Repositories: " + NatToString(q.repositoriesAnalyzed);
    var files := "Files: " + NatToString(q.totalFilesProcessed);
    var p1 := [SetFont("Helvetica-Bold", 18), DrawString(LeftMargin, PageHeight - 50, title)];
    var p2 := [SetFont("Helvetica-Bold", 14), DrawString(LeftMargin, PageHeight - 100, SummaryLabel)];
    var p3 := [SetFont("Helvetica", 12)];
    var p4 := [DrawString(LeftMargin, PageHeight - 120, overall)];
    var p5 := [DrawString(LeftMargin, PageHeight - 140, repos)];
    var p6 := [DrawString(LeftMargin, PageHeight - 160, files)];
    var p7 := [SetFont("Helvetica-Bold", 14), DrawString(LeftMargin, PageHeight - 200, BodyLabel)];
    var p8 := [BodyFont];
    assert DrawnTexts(p1[1..]) == [title];
    assert DrawnTexts(p2[1..]) == [SummaryLabel];
    assert DrawnTexts(p7[1..]) == [BodyLabel];
    var a := p1 + p2 + p3;
    DrawnTextsAppend(p1, p2);
    DrawnTextsAppend(p1 + p2, p3);
    assert DrawnTexts(a) == [title, SummaryLabel];
    var b := a + p4 + p5 + p6;
    DrawnTextsAppend(a, p4);
    DrawnTextsAppend(a + p4, p5);
    DrawnTextsAppend(a + p4 + p5, p6);
    assert DrawnTexts(b) == [title, SummaryLabel, overall, repos, files];
    DrawnTextsAppend(b, p7);
    DrawnTextsAppend(b + p7, p8);
  }

  lemma {:induction false} FooterDraws(now: string)
    ensures DrawnTexts(FooterOps(now)) == ["Generated: " + now + FooterSuffix]
  {
    var f := FooterOps(now);
    assert DrawnTexts(f[2..]) == [];
    assert DrawnTexts(f[1..]) == ["Generated: " + now + FooterSuffix];
  }
}
