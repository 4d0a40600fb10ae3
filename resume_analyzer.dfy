/** The resume page of src/pages/ResumeAnalyzer.tsx: the PDF upload validator, the
    selection and result it keeps, the score bands, and the plain-text report. */
module ResumeAnalyzer {
  import opened Common
  import opened Api
  import Text

  const PdfType := "application/pdf"
  const MaxResumeBytes := 5 * 1024 * 1024

  const NoFileMessage := "Please select a resume file first"
  const FallbackError := "Failed to analyze resume"

  /** Why a picked file is refused. */
  datatype Rejection = NotPdf | TooLarge
  {
    function Message(): string
    {
      match this
      case NotPdf => "Please select a PDF file"
      case TooLarge => "File size must be less than 5MB"
    }
  }

  /** The type is checked before the size, and the type must be exactly the PDF
      type; a file of exactly 5 MiB passes. */
  function CheckResume(f: File): (r: Option<Rejection>)
    ensures r == Some(NotPdf) <==> f.mimeType != PdfType
    ensures r == Some(TooLarge) <==> f.mimeType == PdfType && f.size > MaxResumeBytes
    ensures r.None? <==> f.mimeType == PdfType && f.size <= 5242880
  {
    if f.mimeType != PdfType then Some(NotPdf)
    else if f.size > MaxResumeBytes then Some(TooLarge)
    else None
  }

  /** The analysis the server returns. */
  datatype AnalysisResult = AnalysisResult(
    score: int,
    strengths: seq<string>,
    improvements: seq<string>,
    keywords: seq<string>,
    recommendations: seq<string>)

  // ---------------------------------------------------------------------------
  // Score bands
  // ---------------------------------------------------------------------------

  datatype Band = Green | Yellow | Red

  /** The band a text or background class belongs to, read back from its colour word. */
  function ClassBand(cls: string): Option<Band>
  {
    if cls in {"text-green-500", "bg-green-500/10"} then Some(Green)
    else if cls in {"text-yellow-500", "bg-yellow-500/10"} then Some(Yellow)
    else if cls in {"text-red-500", "bg-red-500/10"} then Some(Red)
    else None
  }

  /** `getScoreColor`. */
  function ScoreColor(score: int): (r: string)
    ensures ClassBand(r) == Some(Green) <==> score >= 80
    ensures ClassBand(r) == Some(Yellow) <==> 60 <= score < 80
    ensures ClassBand(r) == Some(Red) <==> score < 60
  {
    if score >= 80 then "text-green-500"
    else if score >= 60 then "text-yellow-500"
    else "text-red-500"
  }

  /** `getScoreBg`. */
  function ScoreBg(score: int): (r: string)
    ensures ClassBand(r) == Some(Green) <==> score >= 80
    ensures ClassBand(r) == Some(Yellow) <==> 60 <= score < 80
    ensures ClassBand(r) == Some(Red) <==> score < 60
  {
    if score >= 80 then "bg-green-500/10"
    else if score >= 60 then "bg-yellow-500/10"
    else "bg-red-500/10"
  }

  /** The score circle's text colour and background always come from the same band. */
  lemma ColorAndBackgroundAgree(score: int)
    ensures ClassBand(ScoreColor(score)) == ClassBand(ScoreBg(score))
    ensures ClassBand(ScoreColor(score)).Some?
  {
  }

  /** The sentence under "Overall Score": `score && score >= 80 ? ... : ...`, where a
      score of 0 is falsy and so falls through to the last sentence. */
  function Verdict(score: int): (r: string)
    ensures r == "Excellent resume!" <==> score >= 80
    ensures r == "Good resume with room for improvement" <==> 60 <= score < 80
    ensures r == "Resume needs significant improvements" <==> score < 60
  {
    if score != 0 && score >= 80 then "Excellent resume!"
    else if score != 0 && score >= 60 then "Good resume with room for improvement"
    else "Resume needs significant improvements"
  }

  /** The verdict follows the same bands as the colours. */
  lemma VerdictMatchesBand(score: int)
    ensures Verdict(score) == "Excellent resume!" <==> ClassBand(ScoreColor(score)) == Some(Green)
    ensures Verdict(score) == "Resume needs significant improvements" <==> ClassBand(ScoreColor(score)) == Some(Red)
  {
  }

  // ---------------------------------------------------------------------------
  // The report
  // ---------------------------------------------------------------------------

  const Bullet := "\U{2022} "
  const ReportRule := "========================"

  /** `xs.map(s => `• ${s}`)`. */
  function Bulleted(xs: seq<string>): (r: seq<string>)
    ensures |r| == |xs|
    ensures forall i :: 0 <= i < |xs| ==> r[i] == Bullet + xs[i]
  {
    seq(|xs|, i requires 0 <= i < |xs| => Bullet + xs[i])
  }

  /** One `• item` line per item. */
  function BulletList(xs: seq<string>): string
  {
    Text.Join(Bulleted(xs), "\n")
  }

  /** Each item comes back as its own bullet line when the list is cut at line
      breaks, as long as no item spans several lines. */
  lemma BulletListLines(xs: seq<string>)
    requires |xs| >= 1
    requires forall i :: 0 <= i < |xs| ==> '\n' !in xs[i]
    ensures Text.Split(BulletList(xs), '\n') == Bulleted(xs)
  {
    var lines := Bulleted(xs);
    forall i | 0 <= i < |lines|
      ensures '\n' !in lines[i]
    {
      assert lines[i] == Bullet + xs[i];
    }
    Text.SplitJoin(lines, '\n');
  }

  /** Every keyword comes back when the keyword line is cut at the commas, as long as
      no keyword contains a comma. */
  lemma KeywordLine(keywords: seq<string>)
    requires |keywords| >= 1
    requires forall i :: 0 <= i < |keywords| ==> ',' !in keywords[i]
    ensures Text.Split(Text.Join(keywords, ", "), ',') == [keywords[0]] + SpaceLed(keywords[1..])
  {
    var pieces := [keywords[0]] + SpaceLed(keywords[1..]);
    CommaSpacePieces(keywords);
    Text.SplitJoin(pieces, ',');
  }

  /** The pieces of a ", "-joined line, cut at the commas. */
  lemma CommaSpacePieces(keywords: seq<string>)
    requires |keywords| >= 1
    requires forall i :: 0 <= i < |keywords| ==> ',' !in keywords[i]
    ensures var pieces := [keywords[0]] + SpaceLed(keywords[1..]);
            && Text.Join(keywords, ", ") == Text.Join(pieces, ",")
            && forall i :: 0 <= i < |pieces| ==> ',' !in pieces[i]
  {
    var rest := SpaceLed(keywords[1..]);
    var pieces := [keywords[0]] + rest;
    if |keywords| > 1 {
      JoinSpaceLed(keywords[1..]);
      Text.JoinCons(keywords[0], rest, ",");
      Text.JoinCons(keywords[0], keywords[1..], ", ");
      assert [keywords[0]] + keywords[1..] == keywords;
    } else {
      assert pieces == keywords;
    }
    forall i | 0 <= i < |pieces|
      ensures ',' !in pieces[i]
    {
      if i > 0 {
        assert pieces[i] == rest[i - 1] == " " + keywords[i];
      }
    }
  }

  /** The keywords after the first, each with the space that follows a comma. */
  function SpaceLed(xs: seq<string>): (r: seq<string>)
    ensures |r| == |xs|
    ensures forall i :: 0 <= i < |xs| ==> r[i] == " " + xs[i]
  {
    seq(|xs|, i requires 0 <= i < |xs| => " " + xs[i])
  }

  /** Joining with ", " is joining the space-led pieces with ",". */
  lemma {:induction false} JoinSpaceLed(ys: seq<string>)
    requires |ys| >= 1
    ensures Text.Join(SpaceLed(ys), ",") == " " + Text.Join(ys, ", ")
    decreases |ys|
  {
    if |ys| > 1 {
      JoinSpaceLed(ys[1..]);
      assert SpaceLed(ys)[1..] == SpaceLed(ys[1..]);
    }
  }

  /** The report `downloadReport` writes, the template's text pieces in order with
      the values between them; `date` is the locale date string of the moment of
      download. */
  function ReportText(r: AnalysisResult, date: string): (t: string)
    ensures Text.StartsWith(t, "Resume Analysis Report\n" + ReportRule + "\n\nOverall Score: "
                               + Text.IntToString(r.score) + "/100\n\nStrengths:\n")
    ensures Text.EndsWith(t, "\n\nGenerated on: " + date + "\n")
  {
    var head := "Resume Analysis Report\n" + ReportRule + "\n\nOverall Score: "
                + Text.IntToString(r.score) + "/100\n\nStrengths:\n";
    var l1, l2, l3 := BulletList(r.strengths), BulletList(r.improvements),
                      BulletList(r.recommendations);
    var keys := Text.Join(r.keywords, ", ");
    var tail := "\n\nGenerated on: " + date + "\n";
    var t := "Resume Analysis Report\n" + ReportRule + "\n\nOverall Score: " + Text.IntToString(r.score)
             + "/100\n\nStrengths:\n" + l1
             + "\n\nAreas for Improvement:\n" + l2
             + "\n\nKey Skills Found:\n" + keys
             + "\n\nRecommendations:\n" + l3
             + "\n\nGenerated on: " + date + "\n";
    var h := "Resume Analysis Report\n" + ReportRule + "\n\nOverall Score: " + Text.IntToString(r.score);
    TemplateGroups(h, l1, l2, keys, l3, date);
    var g := "\n\nKey Skills Found:\n" + keys + "\n\nRecommendations:\n";
    Surround(head, l1, "\n\nAreas for Improvement:\n", l2, g, l3, tail);
    assert t == head + (l1 + "\n\nAreas for Improvement:\n" + l2 + g + l3) + tail;
    assert t[..|head|] == head;
    assert t[|t| - |tail|..] == tail;
    t
  }

  /** The lines a bullet list occupies: one per item, or one empty line when the
      list is empty. */
  function SectionLines(xs: seq<string>): (r: seq<string>)
    ensures |r| >= 1
    ensures |xs| >= 1 ==> r == Bulleted(xs)
    ensures |xs| == 0 ==> r == [""]
  {
    if |xs| == 0 then [""] else Bulleted(xs)
  }

  /** The report, line by line: the title, the rule, the score, then each section
      under its heading with an empty line before it, and the date last. The final
      empty line stands for the closing line break. */
  function ReportLines(r: AnalysisResult, date: string): (ls: seq<string>)
    ensures |ls| == 16 + |SectionLines(r.strengths)| + |SectionLines(r.improvements)|
                    + |SectionLines(r.recommendations)|
    ensures ls[0] == "Resume Analysis Report" && ls[1] == ReportRule
    ensures ls[3] == "Overall Score: " + Text.IntToString(r.score) + "/100"
    ensures ls[|ls| - 2] == "Generated on: " + date && ls[|ls| - 1] == ""
  {
    ["Resume Analysis Report", ReportRule, "", "Overall Score: " + Text.IntToString(r.score) + "/100",
     "", "Strengths:"]
    + SectionLines(r.strengths)
    + ["", "Areas for Improvement:"]
    + SectionLines(r.improvements)
    + ["", "Key Skills Found:", Text.Join(r.keywords, ", "), "", "Recommendations:"]
    + SectionLines(r.recommendations)
    + ["", "Generated on: " + date, ""]
  }

  /** The report text is its lines joined by line breaks. */
  lemma ReportIsLines(r: AnalysisResult, date: string)
    ensures ReportText(r, date) == Text.Join(ReportLines(r, date), "\n")
  {
    var nl := "\n";
    var n := Text.IntToString(r.score);
    var keys := Text.Join(r.keywords, ", ");
    var a := ["Resume Analysis Report", ReportRule, "", "Overall Score: " + n + "/100", "", "Strengths:"];
    var b := ["", "Areas for Improvement:"];
    var c := ["", "Key Skills Found:", keys, "", "Recommendations:"];
    var d := ["", "Generated on: " + date, ""];
    var s1, s2, s3 := SectionLines(r.strengths), SectionLines(r.improvements),
                      SectionLines(r.recommendations);
    assert ReportLines(r, date) == a + s1 + b + s2 + c + s3 + d;
    JoinSeven(a, s1, b, s2, c, s3, d, nl);
    var ja, jb, jc, jd := Text.Join(a, nl), Text.Join(b, nl), Text.Join(c, nl), Text.Join(d, nl);
    SectionIsBulletList(r.strengths);
    SectionIsBulletList(r.improvements);
    SectionIsBulletList(r.recommendations);
    var l1, l2, l3 := BulletList(r.strengths), BulletList(r.improvements),
                      BulletList(r.recommendations);
    Regroup(ja, l1, jb, l2, jc, l3, jd, nl);
    HeadingLines(n);
    AreasLines();
    KeywordLines(keys);
    DateLines(date);
    var h := "Resume Analysis Report\n" + ReportRule + "\n\nOverall Score: " + n;
    TemplateGroups(h, l1, l2, keys, l3, date);
  }

  /** Cutting the report at its line breaks gives its lines back, as long as no
      entry of the result and not the date spans several lines. */
  lemma ReportLinesSplit(r: AnalysisResult, date: string)
    requires SingleLines(r.strengths) && SingleLines(r.improvements)
    requires SingleLines(r.keywords) && SingleLines(r.recommendations)
    requires '\n' !in date
    ensures Text.Split(ReportText(r, date), '\n') == ReportLines(r, date)
  {
    ReportLinesSingle(r, date);
    ReportIsLines(r, date);
    Text.SplitJoin(ReportLines(r, date), '\n');
  }

  /** Under the same condition, no line of the report holds a line break. */
  lemma ReportLinesSingle(r: AnalysisResult, date: string)
    requires SingleLines(r.strengths) && SingleLines(r.improvements)
    requires SingleLines(r.keywords) && SingleLines(r.recommendations)
    requires '\n' !in date
    ensures SingleLines(ReportLines(r, date))
  {
    var n := Text.IntToString(r.score);
    var keys := Text.Join(r.keywords, ", ");
    DigitsBeforeSlash(r.score);
    Text.JoinAvoids(r.keywords, ", ", '\n');
    var a := ["Resume Analysis Report", ReportRule, "", "Overall Score: " + n + "/100", "", "Strengths:"];
    var b := ["", "Areas for Improvement:"];
    var c := ["", "Key Skills Found:", keys, "", "Recommendations:"];
    var d := ["", "Generated on: " + date, ""];
    var s1, s2, s3 := SectionLines(r.strengths), SectionLines(r.improvements),
                      SectionLines(r.recommendations);
    HeadingSingle(n);
    SectionSingleLines(r.strengths);
    SectionSingleLines(r.improvements);
    SectionSingleLines(r.recommendations);
    SingleLinesAppend(a, s1);
    SingleLinesAppend(a + s1, b);
    SingleLinesAppend(a + s1 + b, s2);
    SingleLinesAppend(a + s1 + b + s2, c);
    SingleLinesAppend(a + s1 + b + s2 + c, s3);
    SingleLinesAppend(a + s1 + b + s2 + c + s3, d);
    assert ReportLines(r, date) == a + s1 + b + s2 + c + s3 + d;
  }

  lemma HeadingSingle(n: string)
    requires '\n' !in n
    ensures SingleLines(["Resume Analysis Report", ReportRule, "", "Overall Score: " + n + "/100", "", "Strengths:"])
  {
    var line := "Overall Score: " + n + "/100";
    assert forall k :: 0 <= k < |line| ==> line[k] != '\n' by {
      assert line == "Overall Score: " + (n + "/100");
    }
  }

  /** No entry holds a line break. */
  predicate SingleLines(xs: seq<string>)
  {
    forall i :: 0 <= i < |xs| ==> '\n' !in xs[i]
  }

  lemma SingleLinesAppend(xs: seq<string>, ys: seq<string>)
    requires SingleLines(xs) && SingleLines(ys)
    ensures SingleLines(xs + ys)
  {
    forall i | 0 <= i < |xs + ys|
      ensures '\n' !in (xs + ys)[i]
    {
      if i >= |xs| {
        assert (xs + ys)[i] == ys[i - |xs|];
      }
    }
  }

  lemma SectionSingleLines(xs: seq<string>)
    requires SingleLines(xs)
    ensures SingleLines(SectionLines(xs))
  {
    if |xs| > 0 {
      var ls := SectionLines(xs);
      forall i | 0 <= i < |ls|
        ensures '\n' !in ls[i]
      {
        assert ls[i] == Bullet + xs[i];
      }
    }
  }

  /** Joining seven non-empty runs of lines: the seven joins, separated. */
  lemma JoinSeven(a: seq<string>, s1: seq<string>, b: seq<string>, s2: seq<string>,
                  c: seq<string>, s3: seq<string>, d: seq<string>, sep: string)
    requires |a| >= 1 && |s1| >= 1 && |b| >= 1 && |s2| >= 1 && |c| >= 1 && |s3| >= 1 && |d| >= 1
    ensures Text.Join(a + s1 + b + s2 + c + s3 + d, sep)
            == Text.Join(a, sep) + sep + Text.Join(s1, sep) + sep + Text.Join(b, sep) + sep
               + Text.Join(s2, sep) + sep + Text.Join(c, sep) + sep + Text.Join(s3, sep) + sep
               + Text.Join(d, sep)
  {
    Text.JoinAppend(a + s1 + b + s2 + c + s3, d, sep);
    Text.JoinAppend(a + s1 + b + s2 + c, s3, sep);
    Text.JoinAppend(a + s1 + b + s2, c, sep);
    Text.JoinAppend(a + s1 + b, s2, sep);
    Text.JoinAppend(a + s1, b, sep);
    Text.JoinAppend(a, s1, sep);
  }

  /** The separators around each fixed run of lines, grouped with it. */
  lemma Regroup(ja: string, l1: string, jb: string, l2: string, jc: string, l3: string, jd: string,
                nl: string)
    ensures ja + nl + l1 + nl + jb + nl + l2 + nl + jc + nl + l3 + nl + jd
            == (ja + nl) + l1 + (nl + jb + nl) + l2 + (nl + jc + nl) + l3 + (nl + jd)
  {
  }

  /** The template's text grouped into the runs between the bullet lists. */
  lemma TemplateGroups(h: string, l1: string, l2: string, keys: string, l3: string, date: string)
    ensures h + "/100\n\nStrengths:\n" + l1
            + "\n\nAreas for Improvement:\n" + l2
            + "\n\nKey Skills Found:\n" + keys
            + "\n\nRecommendations:\n" + l3
            + "\n\nGenerated on: " + date + "\n"
            == (h + "/100\n\nStrengths:\n") + l1 + "\n\nAreas for Improvement:\n" + l2
               + ("\n\nKey Skills Found:\n" + keys + "\n\nRecommendations:\n") + l3
               + ("\n\nGenerated on: " + date + "\n")
  {
  }

  /** A text is its opening, its middle and its closing. */
  lemma Surround(head: string, m1: string, m2: string, m3: string, m4: string, m5: string, tail: string)
    ensures head + m1 + m2 + m3 + m4 + m5 + tail == head + (m1 + m2 + m3 + m4 + m5) + tail
  {
  }

  /** A section's lines joined by line breaks are the bullet list. */
  lemma SectionIsBulletList(xs: seq<string>)
    ensures Text.Join(SectionLines(xs), "\n") == BulletList(xs)
  {
    if |xs| == 0 {
      assert Bulleted(xs) == [];
    }
  }

  lemma HeadingLines(n: string)
    ensures Text.Join(["Resume Analysis Report", ReportRule, "", "Overall Score: " + n + "/100", "", "Strengths:"], "\n")
            + "\n" == "Resume Analysis Report\n" + ReportRule + "\n\nOverall Score: " + n + "/100\n\nStrengths:\n"
  {
    var nl, title, pre, post, heading := "\n", "Resume Analysis Report", "Overall Score: ", "/100", "Strengths:";
    var score := pre + n + post;
    Text.JoinCons("", [heading], nl);
    Text.JoinCons(score, ["", heading], nl);
    Text.JoinCons("", [score, "", heading], nl);
    Text.JoinCons(ReportRule, ["", score, "", heading], nl);
    Text.JoinCons(title, [ReportRule, "", score, "", heading], nl);
    AroundScore(nl, title, ReportRule, pre, n, post, heading);
    assert title + nl == "Resume Analysis Report\n";
    assert nl + nl + pre == "\n\nOverall Score: ";
    assert post + nl + nl + heading + nl == "/100\n\nStrengths:\n";
  }

  /** The score line between the rule and the first heading. */
  lemma AroundScore(nl: string, title: string, rule: string, pre: string, n: string, post: string,
                    heading: string)
    ensures title + nl + (rule + nl + ("" + nl + (pre + n + post + nl + ("" + nl + heading)))) + nl
            == (title + nl) + rule + (nl + nl + pre) + n + (post + nl + nl + heading + nl)
  {
  }

  lemma AreasLines()
    ensures "\n" + Text.Join(["", "Areas for Improvement:"], "\n") + "\n" == "\n\nAreas for Improvement:\n"
  {
    var nl, heading := "\n", "Areas for Improvement:";
    Text.JoinCons("", [heading], nl);
    assert nl + ("" + nl + heading) + nl == nl + nl + heading + nl;
  }

  lemma KeywordLines(keys: string)
    ensures "\n" + Text.Join(["", "Key Skills Found:", keys, "", "Recommendations:"], "\n") + "\n"
            == "\n\nKey Skills Found:\n" + keys + "\n\nRecommendations:\n"
  {
    var nl, heading, next := "\n", "Key Skills Found:", "Recommendations:";
    Text.JoinCons("", [next], nl);
    Text.JoinCons(keys, ["", next], nl);
    Text.JoinCons(heading, [keys, "", next], nl);
    Text.JoinCons("", [heading, keys, "", next], nl);
    AroundKeywords(nl, heading, keys, next);
    assert nl + nl + heading + nl == "\n\nKey Skills Found:\n";
    assert nl + nl + next + nl == "\n\nRecommendations:\n";
  }

  /** The keyword line between its heading and the next one. */
  lemma AroundKeywords(nl: string, heading: string, keys: string, next: string)
    ensures nl + ("" + nl + (heading + nl + (keys + nl + ("" + nl + next)))) + nl
            == (nl + nl + heading + nl) + keys + (nl + nl + next + nl)
  {
  }

  lemma DateLines(date: string)
    ensures "\n" + Text.Join(["", "Generated on: " + date, ""], "\n") == "\n\nGenerated on: " + date + "\n"
  {
    var nl := "\n";
    Text.JoinCons("Generated on: " + date, [""], nl);
    Text.JoinCons("", ["Generated on: " + date, ""], nl);
  }

  /** A report names its score: two results whose reports agree have the same score. */
  lemma ReportDeterminesScore(a: AnalysisResult, b: AnalysisResult, date: string)
    requires ReportText(a, date) == ReportText(b, date)
    ensures a.score == b.score
  {
    var t := ReportText(a, date);
    var prefix := "Resume Analysis Report\n" + ReportRule + "\n\nOverall Score: ";
    var sa, sb := Text.IntToString(a.score), Text.IntToString(b.score);
    ScoreThenSlash(t, prefix, sa);
    ScoreThenSlash(t, prefix, sb);
    DigitsBeforeSlash(a.score);
    DigitsBeforeSlash(b.score);
    Text.PrefixBeforeMark(t, prefix, sa, sb, '/');
    Text.IntToStringInjective(a.score, b.score);
  }

  /** The score in the report's opening is followed by a slash. */
  lemma ScoreThenSlash(t: string, prefix: string, score: string)
    requires Text.StartsWith(t, prefix + score + "/100\n\nStrengths:\n")
    ensures Text.StartsWith(t, prefix + score + ['/'])
  {
    var rest := "100\n\nStrengths:\n";
    assert prefix + score + "/100\n\nStrengths:\n" == prefix + score + ['/'] + rest;
    Text.StartsWithShorter(t, prefix + score + ['/'], rest);
  }

  /** A formatted integer holds neither a slash nor a line break. */
  lemma DigitsBeforeSlash(i: int)
    ensures '/' !in Text.IntToString(i) && '\n' !in Text.IntToString(i)
  {
    var s := Text.IntToString(i);
    if i < 0 {
      assert s == "-" + Text.NatToString(-i);
      assert forall k :: 1 <= k < |s| ==> s[k] == Text.NatToString(-i)[k - 1];
    }
  }

  /** What the "Download Report" button produces. */
  datatype Download = Download(filename: string, text: string)

  // ---------------------------------------------------------------------------
  // The page's state
  // ---------------------------------------------------------------------------

  class ResumePage {
    var selectedFile: Option<File>
    var analysisResult: Option<AnalysisResult>

    constructor ()
      ensures selectedFile.None? && analysisResult.None?
    {
      selectedFile, analysisResult := None, None;
    }

    /** `handleFileSelect`: no file changes nothing; a refused file changes nothing
        and reports why; an accepted file becomes the selection and the previous
        analysis is dropped. */
    method HandleFileSelect(file: Option<File>) returns (rejected: Option<Rejection>, toast: Option<string>)
      modifies this
      ensures file.None? ==> rejected.None?
      ensures toast.Some? <==> rejected.Some?
      ensures rejected.Some? ==> toast.value == rejected.value.Message()
      ensures file.Some? ==> rejected == CheckResume(file.value)
      ensures file.None? || rejected.Some? ==>
                selectedFile == old(selectedFile) && analysisResult == old(analysisResult)
      ensures file.Some? && rejected.None? ==> selectedFile == file && analysisResult.None?
    {
      rejected, toast := None, None;
      if file.Some? {
        var f := file.value;
        if f.mimeType != PdfType {
          return Some(NotPdf), Some(NotPdf.Message());
        }
        if f.size > MaxResumeBytes {
          return Some(TooLarge), Some(TooLarge.Message());
        }
        selectedFile := Some(f);
        analysisResult := None;
      }
    }

    /** `handleAnalyzeResume`: without a selection no request is made and the
        page asks for a file; with one the file is posted as the form field `file`. */
    method HandleAnalyzeResume(client: Client) returns (sent: Option<Request>, toast: Option<string>)
      ensures sent.None? <==> selectedFile.None?
      ensures toast.Some? <==> sent.None?
      ensures toast.Some? ==> toast.value == NoFileMessage
      ensures sent.Some? ==>
                && sent.value.path == "/resume"
                && sent.value.body == FormBody([Part("file", selectedFile.value)])
                && sent.value.timeoutMs == ResumeTimeoutMs
      ensures sent.Some? ==> CarriesCredentialOf(sent.value, client.common)
    {
      if selectedFile.None? {
        return None, Some(NoFileMessage);
      }
      var req := client.AnalyzeResume(selectedFile.value);
      sent, toast := Some(req), None;
    }

    /** `onSuccess`: the analysis replaces the previous one. */
    method OnSuccess(data: AnalysisResult)
      modifies this
      ensures analysisResult == Some(data) && selectedFile == old(selectedFile)
    {
      analysisResult := Some(data);
    }

    /** `downloadReport`: nothing without an analysis; otherwise the report, saved
        under a name built from the millisecond clock `now`. */
    method DownloadReport(date: string, now: int) returns (d: Option<Download>)
      ensures d.None? <==> analysisResult.None?
      ensures d.Some? ==> d.value.text == ReportText(analysisResult.value, date)
      ensures d.Some? ==> d.value.filename == "resume-analysis-" + Text.IntToString(now) + ".txt"
      ensures d.Some? ==> Text.StartsWith(d.value.filename, "resume-analysis-")
                          && Text.EndsWith(d.value.filename, ".txt")
    {
      if analysisResult.None? {
        return None;
      }
      var name := "resume-analysis-" + Text.IntToString(now) + ".txt";
      assert name[..16] == "resume-analysis-";
      assert name[|name| - 4..] == ".txt";
      d := Some(Download(name, ReportText(analysisResult.value, date)));
    }

    /** `clearFile`. */
    method ClearFile()
      modifies this
      ensures selectedFile.None? && analysisResult.None?
    {
      selectedFile := None;
      analysisResult := None;
    }
  }

  /** `onError`: the server's message, or the fixed fallback. */
  function ErrorMessage(e: ApiError): (r: string)
    ensures r != ""
    ensures Truthy(ResponseMessage(e)) ==> r == ResponseMessage(e).value
  {
    MessageOr(e, FallbackError)
  }
}
