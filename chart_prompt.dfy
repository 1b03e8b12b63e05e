/**
 * The prompt assembled by `processWithGeminiAI` (server.js:49-101): a
 * description paragraph chosen by the lower-cased chart-type keyword, and the
 * template that embeds it with the caller's keyword and the serialised table.
 */
module ChartPrompt {
  import opened Wrappers
  import opened Strings

  predicate IsUpper(c: char) {
    'A' <= c <= 'Z'
  }

  /** `toLowerCase` on one character, for the ASCII letters. */
  function LowerChar(c: char): char {
    if IsUpper(c) then (c as int + 32) as char else c
  }

  /** `String.prototype.toLowerCase`: same length, no upper-case letter left, everything else kept. */
  function Lower(s: string): (r: string)
    ensures |r| == |s|
    ensures forall i :: 0 <= i < |s| ==> r[i] == LowerChar(s[i])
    ensures forall i :: 0 <= i < |r| ==> !IsUpper(r[i])
  {
    if s == [] then [] else [LowerChar(s[0])] + Lower(s[1..])
  }

  /** Two keywords that differ only in the case of their letters. */
  predicate EqualIgnoringCase(a: string, b: string) {
    |a| == |b| && forall i :: 0 <= i < |a| ==> LowerChar(a[i]) == LowerChar(b[i])
  }

  /** The branches of the `switch` (server.js:53-84): one per description paragraph, and the default. */
  datatype Paragraph =
    | BarGraph | Line | PieDoughnut | Radar | PolarArea | Bubble | Scatter | Area | Mixed
    | Generic  // the `default` branch

  /** The paragraph each branch assigns to `specificPrompt`. */
  function Text(p: Paragraph): string {
    match p
    case BarGraph => "BAR GRAPH\nA bar chart provides a way of showing data values represented as vertical bars. It is sometimes used to show trend data, and the comparison of multiple data sets side by side.\n"
    case Line => "LINE CHART\nA line chart is a way of plotting data points on a line. Often, it is used to show trend data, or the comparison of two data sets.\n"
    case PieDoughnut => "PIE/DOUGHNUT CHART\nPie and doughnut charts are used to show the proportional value of each piece of data. They are excellent at showing the relational proportions between data.\n"
    case Radar => "RADAR CHART\nA radar chart is a way of showing multiple data points and the variation between them. They are often useful for comparing the points of two or more different data sets.\n"
    case PolarArea => "POLAR AREA CHART\nPolar area charts are similar to pie charts, but each segment has the same angle - the radius of the segment differs depending on the value.\n"
    case Bubble => "BUBBLE CHART\nA bubble chart is used to display three dimensions of data at the same time. The location of the bubble is determined by the first two dimensions and the corresponding horizontal and vertical axes. The third dimension is represented by the size of the individual bubbles.\n"
    case Scatter => "SCATTER CHART\nScatter charts are based on basic line charts with the x-axis changed to a linear axis. Data must be passed as objects containing X and Y properties.\n"
    case Area => "AREA CHART\nBoth line and radar charts support a fill option on the dataset object which can be used to create space between two datasets or a dataset and a boundary, i.e. the scale origin, start, or end.\n"
    case Mixed => "MIXED CHART\nWith Chart.js, it is possible to create mixed charts that are a combination of two or more different chart types. A common example is a bar chart that also includes a line dataset.\n"
    case Generic => "CHART\n"
  }

  /** The `switch` with its case labels as written, applied to the already lower-cased key. */
  function Select(key: string): Paragraph {
    match key
    case "bar" => BarGraph
    case "line" => Line
    case "pie" => PieDoughnut
    case "doughnut" => PieDoughnut
    case "radar" => Radar
    case "polarArea" => PolarArea
    case "bubble" => Bubble
    case "scatter" => Scatter
    case "area" => Area
    case "mixed" => Mixed
    case _ => Generic
  }

  /** The branch taken for the caller's `chartType`. */
  function Selected(chartType: string): Paragraph {
    Select(Lower(chartType))
  }

  /** `specificPrompt` for the caller's `chartType`. */
  function SpecificPrompt(chartType: string): string {
    Text(Selected(chartType))
  }

  /** The keywords that reach a branch other than the default, and that branch. */
  const Catalogue: map<string, Paragraph> := map[
    "bar" := BarGraph, "line" := Line, "pie" := PieDoughnut, "doughnut" := PieDoughnut,
    "radar" := Radar, "bubble" := Bubble, "scatter" := Scatter, "area" := Area, "mixed" := Mixed]

  /** The case label `polarArea` has an upper-case letter, so no lower-cased keyword equals it. */
  lemma LowerNeverMatchesPolarAreaLabel(chartType: string)
    ensures Lower(chartType) != "polarArea"
  {
    var key := Lower(chartType);
    if |key| == 9 {
      assert IsUpper("polarArea"[5]);
      assert !IsUpper(key[5]);
    }
  }

  /**
   * Keyword selection agrees with the catalogue: a keyword whose lower-cased
   * form is listed takes that branch, and every other keyword takes the default.
   */
  lemma SelectionFollowsCatalogue(chartType: string)
    ensures Selected(chartType) == if Lower(chartType) in Catalogue then Catalogue[Lower(chartType)] else Generic
  {
    LowerNeverMatchesPolarAreaLabel(chartType);
  }

  /** The polar-area branch is never taken, whatever the keyword's casing. */
  lemma PolarAreaNeverSelected(chartType: string)
    ensures Selected(chartType) != PolarArea
  {
    SelectionFollowsCatalogue(chartType);
  }

  /** The keyword `polarArea`, in any casing, takes the default branch. */
  lemma PolarAreaKeywordFallsBack(chartType: string)
    requires EqualIgnoringCase(chartType, "polarArea")
    ensures Selected(chartType) == Generic
  {
    assert Lower(chartType) == "polararea";
    SelectionFollowsCatalogue(chartType);
  }

  /** The default branch is taken exactly for the keywords outside the catalogue. */
  lemma FallbackExactlyForUnlisted(chartType: string)
    ensures Selected(chartType) == Generic <==> Lower(chartType) !in Catalogue
  {
    SelectionFollowsCatalogue(chartType);
  }

  /** Selection ignores case: keywords that differ only in letter case get the same paragraph. */
  lemma SelectionIgnoresCase(a: string, b: string)
    requires EqualIgnoringCase(a, b)
    ensures SpecificPrompt(a) == SpecificPrompt(b)
  {
    assert Lower(a) == Lower(b);
  }

  /**
   * Only `pie` and `doughnut` share a branch: a keyword from the catalogue takes
   * the same branch as another keyword exactly when the two are the same up to
   * case, or are `pie` and `doughnut` in some casing.
   */
  lemma ParagraphIdentifiesKeyword(a: string, b: string)
    requires Lower(a) in Catalogue
    ensures Selected(a) == Selected(b)
        <==> Lower(a) == Lower(b) || (Lower(a) in {"pie", "doughnut"} && Lower(b) in {"pie", "doughnut"})
  {
    SelectionFollowsCatalogue(a);
    SelectionFollowsCatalogue(b);
  }

  // The fixed text of the template literal at server.js:86-101, around its three
  // substitutions and the paragraph.
  const PromptHead := "\n      Using the following details:\n      - Chart Type: "
  const LabelsField := "\n      - Labels: "
  const DataField := "\n      - Data: "
  const ParagraphIndent := "\n\n      "
  const PromptTail := "\n      Generate the best configuration code for creating a styled and interactive Chart.js chart. " +
    "\n      The configuration should include:" +
    "\n      - Responsive design" +
    "\n      - A legend positioned at the top" +
    "\n      - A title at the top of the chart that says \"Generated Chart\"" +
    "\n      - Properly formatted scales for the X and Y axes, with the Y-axis starting at zero." +
    "\n      " +
    "\n      Return only the JavaScript code for the chart configuration, without any backticks or additional content." +
    "\n      "

  /** The fixed text of a prompt template, around its substitutions. */
  datatype Template = Template(head: string, labelsField: string, dataField: string, indent: string, tail: string)

  const ServerTemplate := Template(PromptHead, LabelsField, DataField, ParagraphIndent, PromptTail)

  /**
   * The `chartType` form field as the upload route passes it on: absent, a
   * single string, or anything else (a field sent twice arrives as an array).
   */
  datatype FormField = Missing | Str(value: string) | NotText

  /**
   * The prompt sent to the model. `JSON.stringify` is left abstract: the two
   * serialisers are parameters. `chartType.toLowerCase()` throws unless the
   * field is a string.
   */
  function Prompt<Cell>(chartType: FormField, labels: seq<Cell>, datachart: seq<seq<Cell>>,
                        labelsJson: seq<Cell> -> string, dataJson: seq<seq<Cell>> -> string): (r: Result<string>)
    ensures r.Ok? <==> chartType.Str?
    ensures chartType.Missing? ==> r == Err(MissingChartType)
    ensures chartType.NotText? ==> r == Err(ChartTypeNotText)
  {
    match chartType
    case Missing => Err(MissingChartType)
    case NotText => Err(ChartTypeNotText)
    case Str(keyword) => Ok(Fill(ServerTemplate, keyword, labelsJson(labels), dataJson(datachart), SpecificPrompt(keyword)))
  }

  /** A template with its substitutions made. */
  function Fill(t: Template, keyword: string, labelsText: string, dataText: string, paragraph: string): string {
    t.head + keyword + t.labelsField + labelsText + t.dataField + dataText + t.indent + paragraph + t.tail
  }

  /**
   * `p` is the template `t` filled in, piece by piece: the head, the keyword,
   * the labels field, the labels text, the data field, the data text, the
   * indent, the paragraph and the tail, each right after the one before, and
   * nothing else.
   */
  predicate FilledFrom(p: string, t: Template, keyword: string, labelsText: string, dataText: string, paragraph: string) {
    var atLabels := |t.head| + |keyword| + |t.labelsField|;
    var atData := atLabels + |labelsText| + |t.dataField|;
    var atParagraph := atData + |dataText| + |t.indent|;
    var atTail := atParagraph + |paragraph|;
    && |p| == atTail + |t.tail|
    && Occurs(t.head, p, 0)
    && Occurs(keyword, p, |t.head|)
    && Occurs(t.labelsField, p, |t.head| + |keyword|)
    && Occurs(labelsText, p, atLabels)
    && Occurs(t.dataField, p, atLabels + |labelsText|)
    && Occurs(dataText, p, atData)
    && Occurs(t.indent, p, atData + |dataText|)
    && Occurs(paragraph, p, atParagraph)
    && Occurs(t.tail, p, atTail)
  }

  /** Filling a template lays its pieces out as `FilledFrom` describes. */
  lemma TemplateLayout(t: Template, keyword: string, labelsText: string, dataText: string, paragraph: string)
    ensures FilledFrom(Fill(t, keyword, labelsText, dataText, paragraph), t, keyword, labelsText, dataText, paragraph)
  {
    // The template is built up one piece at a time, left to right.
    var p1 := t.head + keyword;
    var p2 := p1 + t.labelsField;
    var p3 := p2 + labelsText;
    var p4 := p3 + t.dataField;
    var p5 := p4 + dataText;
    var p6 := p5 + t.indent;
    var p7 := p6 + paragraph;
    Append(t.head, keyword);
    Append(p1, t.labelsField);
    Append(p2, labelsText);
    Append(p3, t.dataField);
    Append(p4, dataText);
    Append(p5, t.indent);
    Append(p6, paragraph);
    Append(p7, t.tail);
  }

  /**
   * The prompt is the server's template filled with the caller's keyword as
   * given (not lower-cased), the serialised labels and series, and the
   * selected paragraph.
   */
  lemma PromptCarriesInputs<Cell>(chartType: string, labels: seq<Cell>, datachart: seq<seq<Cell>>,
                                  labelsJson: seq<Cell> -> string, dataJson: seq<seq<Cell>> -> string)
    ensures Prompt(Str(chartType), labels, datachart, labelsJson, dataJson).Ok?
    ensures FilledFrom(Prompt(Str(chartType), labels, datachart, labelsJson, dataJson).value, ServerTemplate,
                       chartType, labelsJson(labels), dataJson(datachart), SpecificPrompt(chartType))
  {
    TemplateLayout(ServerTemplate, chartType, labelsJson(labels), dataJson(datachart), SpecificPrompt(chartType));
  }

  /** The prompt contains the selected paragraph and the caller's keyword verbatim. */
  lemma PromptContainsKeywordAndParagraph<Cell>(chartType: string, labels: seq<Cell>, datachart: seq<seq<Cell>>,
                                                labelsJson: seq<Cell> -> string, dataJson: seq<seq<Cell>> -> string)
    ensures Prompt(Str(chartType), labels, datachart, labelsJson, dataJson).Ok?
    ensures var p := Prompt(Str(chartType), labels, datachart, labelsJson, dataJson).value;
            Contains(p, chartType) && Contains(p, SpecificPrompt(chartType))
  {
    PromptCarriesInputs(chartType, labels, datachart, labelsJson, dataJson);
  }

}
