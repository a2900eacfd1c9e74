/** The evaluation screen's logic: score banding (colour and emoji), the plain-text report that
    is copied to the clipboard, and the CSV text that is downloaded. Both reports are built by
    appending to a string in loops; each loop is proved to produce the report function below. */
module EvaluationReport {
  import opened Wrappers
  import opened Strings
  import opened Types

  // ---------------------------------------------------------------------------------------------
  // Score bands

  const Green: string := "text-green-600"
  const Yellow: string := "text-yellow-600"
  const Red: string := "text-red-600"

  function ScoreColor(score: int): (r: string)
    ensures r == Green <==> score >= 80
    ensures r == Yellow <==> 60 <= score < 80
    ensures r == Red <==> score < 60
  {
    assert |Green| == 14 && |Yellow| == 15 && |Red| == 12;
    if score >= 80 then Green else if score >= 60 then Yellow else Red
  }

  function ScoreEmoji(score: int): (r: string)
    ensures r == "🌟" <==> score >= 80
    ensures r == "👍" <==> 60 <= score < 80
    ensures r == "💪" <==> score < 60
  {
    assert "🌟"[0] != "👍"[0] && "🌟"[0] != "💪"[0] && "👍"[0] != "💪"[0];
    if score >= 80 then "🌟" else if score >= 60 then "👍" else "💪"
  }

  /** Colour and emoji always show the same band, and the bands are ordered: a higher score
      never shows a lower band. */
  lemma BandsAgree(a: int, b: int)
    requires a <= b
    ensures ScoreColor(a) == Green <==> ScoreEmoji(a) == "🌟"
    ensures ScoreColor(a) == Red <==> ScoreEmoji(a) == "💪"
    ensures ScoreColor(a) == Green ==> ScoreColor(b) == Green
    ensures ScoreColor(b) == Red ==> ScoreColor(a) == Red
  {
  }

  // ---------------------------------------------------------------------------------------------
  // The text report

  const TextHeader: string := "📊 評価結果\n\n"
  const ResultsHeading: string := "📈 項目別評価\n"
  const ExamplesHeading: string := "具体例:\n"
  const StrengthsHeading: string := "✅ 良かった点"
  const ImprovementsHeading: string := "📝 改善点"
  const RecommendationsHeading: string := "💡 次回へのアドバイス"

  function OverallLine(score: int): string {
    "総合スコア: " + IntToString(score) + "/100\n\n"
  }

  function Bullet(item: string): string {
    "  - " + item + "\n"
  }

  /** One bullet line per item, in order. */
  function Bullets(items: seq<string>): string {
    ConcatMap(items, Bullet)
  }

  /** A list that is present and holds at least one item. */
  predicate NonEmpty(xs: Option<seq<string>>) {
    xs.Some? && |xs.value| > 0
  }

  function ScoreLine(r: EvaluationResult): string {
    "\n" + r.criteriaName + ": " + IntToString(r.score) + "点\n"
  }

  function FeedbackLine(r: EvaluationResult): string {
    "フィードバック: " + r.feedback + "\n"
  }

  /** The examples part of a result's block: present only for a non-empty list. */
  function ExamplesPart(examples: Option<seq<string>>): string {
    if NonEmpty(examples) then ExamplesHeading + Bullets(examples.value) else ""
  }

  function ResultBlock(r: EvaluationResult): string {
    ScoreLine(r) + FeedbackLine(r) + ExamplesPart(r.examples)
  }

  /** One block per result, in order. */
  function ResultBlocks(rs: seq<EvaluationResult>): string {
    ConcatMap(rs, ResultBlock)
  }

  function SectionHead(heading: string): string {
    "\n" + heading + "\n"
  }

  /** A closing section: a blank line, the heading and the bullets, present only for a non-empty list. */
  function Section(heading: string, xs: Option<seq<string>>): string {
    if NonEmpty(xs) then SectionHead(heading) + Bullets(xs.value) else ""
  }

  /** The text report. */
  function ReportText(e: SessionEvaluation): string {
    TextHeader + OverallLine(e.overallScore) + ResultsHeading + ResultBlocks(e.results)
    + Section(StrengthsHeading, e.strengths)
    + Section(ImprovementsHeading, e.improvements)
    + Section(RecommendationsHeading, e.recommendations)
  }

  /** Appends one bullet per item, in a loop. */
  method AppendBullets(text: string, items: seq<string>) returns (out: string)
    ensures out == text + Bullets(items)
  {
    out := text;
    var j := 0;
    while j < |items|
      invariant 0 <= j <= |items|
      invariant out == text + Bullets(items[..j])
    {
      ConcatMapSnoc(items, j, Bullet);
      Assoc(text, Bullets(items[..j]), Bullet(items[j]));
      out := out + Bullet(items[j]);
      j := j + 1;
    }
    assert items[..j] == items;
  }

  /** Appends a closing section when its list is present and non-empty. */
  method AppendSection(text: string, heading: string, xs: Option<seq<string>>) returns (out: string)
    ensures out == text + Section(heading, xs)
  {
    out := text;
    if xs.Some? && |xs.value| > 0 {
      out := out + SectionHead(heading);
      out := AppendBullets(out, xs.value);
      Assoc(text, SectionHead(heading), Bullets(xs.value));
    }
  }

  /** Appends one result's block: its score line, its feedback line and, for a non-empty list,
      its examples. */
  method AppendResultBlock(text: string, r: EvaluationResult) returns (out: string)
    ensures out == text + ResultBlock(r)
  {
    out := text + ScoreLine(r);
    out := out + FeedbackLine(r);
    Assoc(text, ScoreLine(r), FeedbackLine(r));
    ghost var lines := ScoreLine(r) + FeedbackLine(r);
    if r.examples.Some? && |r.examples.value| > 0 {
      out := out + ExamplesHeading;
      out := AppendBullets(out, r.examples.value);
      Assoc(text + lines, ExamplesHeading, Bullets(r.examples.value));
    }
    Assoc(text, lines, ExamplesPart(r.examples));
  }

  /** `formatEvaluationText`: builds the text report by appending, result by result. */
  method FormatEvaluationText(e: SessionEvaluation) returns (text: string)
    ensures text == ReportText(e)
  {
    text := TextHeader;
    text := text + OverallLine(e.overallScore);
    text := text + ResultsHeading;
    ghost var preamble := text;
    var i := 0;
    while i < |e.results|
      invariant 0 <= i <= |e.results|
      invariant text == preamble + ResultBlocks(e.results[..i])
    {
      ConcatMapSnoc(e.results, i, ResultBlock);
      Assoc(preamble, ResultBlocks(e.results[..i]), ResultBlock(e.results[i]));
      text := AppendResultBlock(text, e.results[i]);
      i := i + 1;
    }
    assert e.results[..i] == e.results;
    text := AppendSection(text, StrengthsHeading, e.strengths);
    text := AppendSection(text, ImprovementsHeading, e.improvements);
    text := AppendSection(text, RecommendationsHeading, e.recommendations);
  }

  /** The report opens with the header line and then the overall score out of 100. */
  lemma ReportOpensWithScore(e: SessionEvaluation)
    ensures IsPrefix(TextHeader + OverallLine(e.overallScore), ReportText(e))
  {
    var p := TextHeader + OverallLine(e.overallScore);
    assert IsPrefix(p, p);
    PrefixOfAppend(p, p, ResultsHeading);
    var q := p + ResultsHeading;
    PrefixOfAppend(p, q, ResultBlocks(e.results));
    var q2 := q + ResultBlocks(e.results);
    PrefixOfAppend(p, q2, Section(StrengthsHeading, e.strengths));
    var q3 := q2 + Section(StrengthsHeading, e.strengths);
    PrefixOfAppend(p, q3, Section(ImprovementsHeading, e.improvements));
    var q4 := q3 + Section(ImprovementsHeading, e.improvements);
    PrefixOfAppend(p, q4, Section(RecommendationsHeading, e.recommendations));
  }

  /** The results' blocks are laid out in order: the blocks of a concatenation are the blocks of
      its parts, one after the other, and a single result contributes its own block. */
  lemma ResultBlocksInOrder(a: seq<EvaluationResult>, b: seq<EvaluationResult>, r: EvaluationResult)
    ensures ResultBlocks(a + b) == ResultBlocks(a) + ResultBlocks(b)
    ensures ResultBlocks([r]) == ResultBlock(r)
  {
    ConcatMapAppend(a, b, ResultBlock);
    ConcatMapSingle(r, ResultBlock);
  }

  /** An absent list and an empty list give the same report: their sections are omitted. */
  lemma EmptySectionsOmitted(e: SessionEvaluation)
    ensures ReportText(e.(strengths := Some([]))) == ReportText(e.(strengths := None))
    ensures ReportText(e.(improvements := Some([]))) == ReportText(e.(improvements := None))
    ensures ReportText(e.(recommendations := Some([]))) == ReportText(e.(recommendations := None))
    ensures ReportText(e.(strengths := None, improvements := None, recommendations := None))
              == TextHeader + OverallLine(e.overallScore) + ResultsHeading + ResultBlocks(e.results)
  {
  }

  /** A result's examples part is there exactly when its list is present and non-empty. */
  lemma ExamplesShownIffPresent(examples: Option<seq<string>>)
    ensures ExamplesPart(examples) != "" <==> NonEmpty(examples)
  {
    if NonEmpty(examples) {
      assert ExamplesPart(examples)[0] == ExamplesHeading[0];
    }
  }

  // ---------------------------------------------------------------------------------------------
  // The CSV report

  const Bom: string := "\U{FEFF}"
  const CsvHeader: string := "評価項目,スコア,フィードバック,具体例" + "\n"
  const StrengthsRow: string := "\n" + ("良かった点" + ",,,") + "\n"
  const ImprovementsRow: string := "\n" + ("改善点" + ",,,") + "\n"
  const RecommendationsRow: string := "\n" + ("次回へのアドバイス" + ",,,") + "\n"

  function CsvOverallRow(score: int): string {
    "総合スコア," + IntToString(score) + ",," + "\n"
  }

  /** The examples cell: the examples joined by a full-width semicolon, or empty when absent. */
  function ExamplesCell(examples: Option<seq<string>>): string {
    if examples.Some? then Join(examples.value, "；") else ""
  }

  function CsvResultRow(r: EvaluationResult): string {
    r.criteriaName + "," + IntToString(r.score) + ",\"" + r.feedback + "\",\"" + ExamplesCell(r.examples) + "\"" + "\n"
  }

  function CsvResultRows(rs: seq<EvaluationResult>): string {
    ConcatMap(rs, CsvResultRow)
  }

  function CsvItemRow(item: string): string {
    ",\"" + item + "\",," + "\n"
  }

  /** The rows under a section heading; an absent list has none. */
  function CsvListRows(xs: Option<seq<string>>): string {
    if xs.Some? then ConcatMap(xs.value, CsvItemRow) else ""
  }

  /** The CSV text. */
  function EvaluationCsv(e: SessionEvaluation): string {
    Bom + CsvHeader + CsvOverallRow(e.overallScore) + CsvResultRows(e.results)
    + StrengthsRow + CsvListRows(e.strengths)
    + ImprovementsRow + CsvListRows(e.improvements)
    + RecommendationsRow + CsvListRows(e.recommendations)
  }

  /** Appends one quoted item row per item of a present list, in a loop. */
  method AppendItemRows(csv: string, xs: Option<seq<string>>) returns (out: string)
    ensures out == csv + CsvListRows(xs)
  {
    out := csv;
    if xs.Some? {
      var items := xs.value;
      var j := 0;
      while j < |items|
        invariant 0 <= j <= |items|
        invariant out == csv + ConcatMap(items[..j], CsvItemRow)
      {
        ConcatMapSnoc(items, j, CsvItemRow);
        Assoc(csv, ConcatMap(items[..j], CsvItemRow), CsvItemRow(items[j]));
        out := out + CsvItemRow(items[j]);
        j := j + 1;
      }
      assert items[..j] == items;
    }
  }

  /** The CSV building part of `downloadAsCSV`. */
  method BuildCsv(e: SessionEvaluation) returns (csv: string)
    ensures csv == EvaluationCsv(e)
  {
    csv := Bom;
    csv := csv + CsvHeader;
    csv := csv + CsvOverallRow(e.overallScore);
    ghost var preamble := csv;
    var i := 0;
    while i < |e.results|
      invariant 0 <= i <= |e.results|
      invariant csv == preamble + CsvResultRows(e.results[..i])
    {
      ConcatMapSnoc(e.results, i, CsvResultRow);
      Assoc(preamble, CsvResultRows(e.results[..i]), CsvResultRow(e.results[i]));
      csv := csv + CsvResultRow(e.results[i]);
      i := i + 1;
    }
    assert e.results[..i] == e.results;
    csv := csv + StrengthsRow;
    csv := AppendItemRows(csv, e.strengths);
    csv := csv + ImprovementsRow;
    csv := AppendItemRows(csv, e.improvements);
    csv := csv + RecommendationsRow;
    csv := AppendItemRows(csv, e.recommendations);
  }

  /** The CSV opens with the byte-order mark, then the header row, then the overall-score row. */
  lemma CsvOpensWithHeader(e: SessionEvaluation)
    ensures IsPrefix(Bom + CsvHeader + CsvOverallRow(e.overallScore), EvaluationCsv(e))
    ensures EvaluationCsv(e)[0] == '\U{FEFF}'
  {
    var p := Bom + CsvHeader + CsvOverallRow(e.overallScore);
    assert IsPrefix(p, p);
    var q := p;
    PrefixOfAppend(p, q, CsvResultRows(e.results));
    q := q + CsvResultRows(e.results);
    PrefixOfAppend(p, q, StrengthsRow);
    q := q + StrengthsRow;
    PrefixOfAppend(p, q, CsvListRows(e.strengths));
    q := q + CsvListRows(e.strengths);
    PrefixOfAppend(p, q, ImprovementsRow);
    q := q + ImprovementsRow;
    PrefixOfAppend(p, q, CsvListRows(e.improvements));
    q := q + CsvListRows(e.improvements);
    PrefixOfAppend(p, q, RecommendationsRow);
    q := q + RecommendationsRow;
    PrefixOfAppend(p, q, CsvListRows(e.recommendations));
    q := q + CsvListRows(e.recommendations);
    assert q == EvaluationCsv(e);
    assert p[0] == Bom[0];
  }

  // Line counting: when no field holds a line break, the CSV has exactly one line per row.

  predicate NoLineBreak(s: string) {
    '\n' !in s
  }

  predicate ListSingleLine(xs: Option<seq<string>>) {
    xs.Some? ==> forall k :: 0 <= k < |xs.value| ==> NoLineBreak(xs.value[k])
  }

  predicate ResultSingleLine(r: EvaluationResult) {
    NoLineBreak(r.criteriaName) && NoLineBreak(r.feedback) && ListSingleLine(r.examples)
  }

  /** No text of the evaluation that lands in the CSV holds a line break. */
  predicate CsvSafe(e: SessionEvaluation) {
    && (forall i :: 0 <= i < |e.results| ==> ResultSingleLine(e.results[i]))
    && ListSingleLine(e.strengths) && ListSingleLine(e.improvements) && ListSingleLine(e.recommendations)
  }

  function ListLength(xs: Option<seq<string>>): nat {
    if xs.Some? then |xs.value| else 0
  }

  /** Every row of the CSV ends in one line break and holds no other: the header, the overall
      score, one row per result, and for each section an empty line, its header row (always,
      even for an empty or absent list) and one row per item. */
  lemma CsvRowCount(e: SessionEvaluation)
    requires CsvSafe(e)
    ensures Count(EvaluationCsv(e), '\n') ==
      2 + |e.results| + 2 + ListLength(e.strengths) + 2 + ListLength(e.improvements)
        + 2 + ListLength(e.recommendations)
  {
    var n := '\n';
    var head := Bom + CsvHeader + CsvOverallRow(e.overallScore);
    HeadCount(e.overallScore);
    forall k | 0 <= k < |e.results| ensures Count(CsvResultRow(e.results[k]), n) == 1 {
      ResultRowCount(e.results[k]);
    }
    ConcatMapCount(e.results, CsvResultRow, n);
    CountAppend(head, CsvResultRows(e.results), n);
    var c := head + CsvResultRows(e.results);
    SectionCount(c, StrengthsRow, e.strengths);
    var d := c + StrengthsRow + CsvListRows(e.strengths);
    SectionCount(d, ImprovementsRow, e.improvements);
    var f := d + ImprovementsRow + CsvListRows(e.improvements);
    SectionCount(f, RecommendationsRow, e.recommendations);
  }

  /** The byte-order mark holds no line break; the header and the overall-score rows one each. */
  lemma HeadCount(score: int)
    ensures Count(Bom + CsvHeader + CsvOverallRow(score), '\n') == 2
  {
    var n := '\n';
    assert Count(Bom, n) == 0;
    var title := "評価項目,スコア,フィードバック,具体例";
    assert NoLineBreak(title);
    LineCount(title);
    assert Count(CsvHeader, n) == 1;
    IntToStringPlain(score);
    var overall := "総合スコア," + IntToString(score) + ",,";
    assert NoLineBreak(overall);
    LineCount(overall);
    assert Count(CsvOverallRow(score), n) == 1;
    CountAppend(Bom, CsvHeader, n);
    CountAppend(Bom + CsvHeader, CsvOverallRow(score), n);
  }

  /** A section adds its empty line and heading row, then one row per item. */
  lemma SectionCount(prefix: string, row: string, xs: Option<seq<string>>)
    requires row == StrengthsRow || row == ImprovementsRow || row == RecommendationsRow
    requires ListSingleLine(xs)
    ensures Count(prefix + row + CsvListRows(xs), '\n') == Count(prefix, '\n') + 2 + ListLength(xs)
  {
    CountAppend(prefix, row, '\n');
    CountAppend(prefix + row, CsvListRows(xs), '\n');
    SectionRowCount("良かった点");
    SectionRowCount("改善点");
    SectionRowCount("次回へのアドバイス");
    ListRowsCount(xs);
  }

  /** A break-free text followed by one line break holds exactly one. */
  lemma LineCount(body: string)
    requires NoLineBreak(body)
    ensures Count(body + "\n", '\n') == 1
  {
    CountAppend(body, "\n", '\n');
  }

  lemma SectionRowCount(title: string)
    requires NoLineBreak(title)
    ensures Count("\n" + (title + ",,,") + "\n", '\n') == 2
  {
    CountAppend("\n", title + ",,,", '\n');
    CountAppend("\n" + (title + ",,,"), "\n", '\n');
  }

  lemma ResultRowCount(r: EvaluationResult)
    requires ResultSingleLine(r)
    ensures Count(CsvResultRow(r), '\n') == 1
  {
    IntToStringPlain(r.score);
    ExamplesCellSingleLine(r.examples);
    LineCount(r.criteriaName + "," + IntToString(r.score) + ",\"" + r.feedback + "\",\"" + ExamplesCell(r.examples) + "\"");
  }

  lemma ExamplesCellSingleLine(examples: Option<seq<string>>)
    requires ListSingleLine(examples)
    ensures NoLineBreak(ExamplesCell(examples))
  {
    if examples.Some? {
      JoinSingleLine(examples.value);
    }
  }

  lemma {:induction false} JoinSingleLine(xs: seq<string>)
    requires forall k :: 0 <= k < |xs| ==> NoLineBreak(xs[k])
    ensures NoLineBreak(Join(xs, "；"))
  {
    if |xs| > 1 {
      JoinSingleLine(xs[1..]);
    }
  }

  lemma ListRowsCount(xs: Option<seq<string>>)
    requires ListSingleLine(xs)
    ensures Count(CsvListRows(xs), '\n') == ListLength(xs)
  {
    if xs.Some? {
      forall k | 0 <= k < |xs.value| ensures Count(CsvItemRow(xs.value[k]), '\n') == 1 {
        LineCount(",\"" + xs.value[k] + "\",,");
      }
      ConcatMapCount(xs.value, CsvItemRow, '\n');
    }
  }
}
