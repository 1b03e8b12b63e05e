# Chart hub: a verified model of its table shaping, prompt selection and reply cleanup

The server accepts an uploaded spreadsheet and a chart type. It shapes the
first sheet into header labels and data series, and builds a prompt for a
hosted language model: a description paragraph chosen by the chart-type
keyword, embedded in a fixed template. It then strips code-fence markup from
the model's reply before rendering it. This project models the logic of those
steps in `server.js`, plus the unused `to_json` helper, and proves what they do.

- `extraction.dfy` (module `Extraction`): `processExcel` after the spreadsheet
  parse. The rows of the first sheet are the input, and a cell is a type
  parameter. A sheet with no rows is an `EmptySheet` error, because
  `labels.slice(1)` throws on an undefined header row.
- `chart_prompt.dfy` (module `ChartPrompt`): `toLowerCase`, then the
  chart-type `switch` with its case labels as written, then the prompt
  template. `JSON.stringify` is abstract: the two serialisers are parameters.
  The `chartType` field is absent, a string, or something else, such as the
  array a field sent twice becomes. Only a string gets past `toLowerCase`.
  An absent field is a `MissingChartType` error, and anything else is a
  `ChartTypeNotText` error.
- `cleanup.dfy` (module `Cleanup`): `.replace(/```/g, '').replace(/javascript/g, '')`.
  Each pass is `DeleteAll`, which runs a global replace the way the regex
  semantics do. It searches for the leftmost match (`FirstMatch`), keeps the
  text before it, drops the match and searches again right after it.
  - `FirstMatch` is proved against the plain definition of an occurrence.
  - `DeleteAll` is related to reference definitions of splitting and joining (`Split`, `Join`, `Concat`).
    Joining the pieces with the pattern gives the text back, no piece holds
    the pattern, and a pass returns the pieces alone.
- `sheet_map.dfy` (module `SheetMap`): `to_json`, a loop over the sheet names
  that fills a map. The library's `sheet_to_json` is a parameter.
- `wrappers.dfy`, `strings.dfy`: `Option`/`Result`, the three error cases (`EmptySheet`, `MissingChartType`, `ChartTypeNotText`), and
  substring occurrence.

Three facts proved about the source:
- The `case 'polarArea'` label holds an upper-case letter, and the key is
  lower-cased first. So the polar-area paragraph can never be chosen, and the
  keyword `polarArea` in any casing gets the generic `CHART\n`.
- The cleanup does not guarantee that the reply ends up free of fences or of
  the tag. Deleting one occurrence can join the text around it into a new
  one, and each pass runs only once. `javajavascriptscript` cleans to
  `javascript`, and `` `javascript`` `` cleans to three backticks. The model
  follows the code here, not the looser reading that the cleaned reply holds
  neither pattern.
- The deletion is case-sensitive, so `JavaScript` survives.

The prompt template in `server.js` is stored with CRLF line endings. A
JavaScript template literal turns each of those into a single line feed, so
the model's template text uses `\n`.

## Model

| member | source | states |
|---|---|---|
| `Extraction.DropFirst` | server.js:32-35 | `slice(1)` on a row: an empty row stays empty; otherwise one cell shorter, and putting the first cell back in front gives the row again |
| `Extraction.DropFirstEach` | server.js:32 | the `map` over the data rows: one entry per row, in order, entry `i` being row `i` without its first cell |
| `Extraction.ProcessRows` | server.js:25-38 | fails exactly on a sheet with no rows; otherwise the labels are the header without its first cell (length one less, `labels[i] == header[i+1]`), and the series has one entry per later row, in order, entry `i` being row `i+1` without its first cell |
| `Extraction.ExtractionLosesOnlyFirstColumn` | server.js:30-37 | when every row has a first cell, putting each row's first cell back in front of the labels and of each series row rebuilds the sheet exactly: nothing but column 0 is lost |
| `Extraction.MonthlyExample` | server.js:30-37 | header `Month, A, B` with rows `Jan, 1, 2` and `Feb, 3, 4` gives labels `A, B` and series `[1, 2], [3, 4]` |
| `ChartPrompt.Lower` | server.js:53 | lower-casing keeps the length, maps each character through the letter mapping, and leaves no upper-case letter |
| `ChartPrompt.LowerNeverMatchesPolarAreaLabel` | server.js:53-67 | no lower-cased keyword equals the case label `polarArea` |
| `ChartPrompt.SelectionFollowsCatalogue` | server.js:53-84 | the switch agrees with the catalogue of nine keywords: a keyword whose lower-cased form is listed takes that keyword's branch, any other keyword takes the default branch (`CHART\n`) |
| `ChartPrompt.PolarAreaNeverSelected` | server.js:67-68 | the polar-area branch is never taken, for any keyword |
| `ChartPrompt.PolarAreaKeywordFallsBack` | server.js:53-84 | `polarArea` in any casing takes the default branch, `CHART\n` |
| `ChartPrompt.FallbackExactlyForUnlisted` | server.js:82-83 | the default branch is taken if and only if the lower-cased keyword is not one of the listed ones |
| `ChartPrompt.SelectionIgnoresCase` | server.js:53 | keywords that differ only in letter case get the same paragraph |
| `ChartPrompt.ParagraphIdentifiesKeyword` | server.js:60-62 | a listed keyword takes the same branch as another keyword if and only if they agree up to case or are `pie` and `doughnut` |
| `ChartPrompt.Select` | server.js:53-84 | the `switch` with its case labels as written, `polarArea` included, on the lower-cased key; its contract is carried by `SelectionFollowsCatalogue`, `FallbackExactlyForUnlisted` and `ParagraphIdentifiesKeyword` |
| `ChartPrompt.Text` | server.js:54-83 | the paragraph each branch assigns to `specificPrompt`, as written, and `CHART\n` for the default; `PolarAreaNeverSelected` shows the polar-area paragraph is never used |
| `ChartPrompt.Selected` | server.js:53 | the branch taken for the caller's keyword, after `toLowerCase`; its contract is carried by `SelectionFollowsCatalogue`, `PolarAreaKeywordFallsBack` and `FallbackExactlyForUnlisted` |
| `ChartPrompt.SpecificPrompt` | server.js:51-84 | the value of `specificPrompt` after the switch; `SelectionIgnoresCase` states it depends on the keyword only up to case |
| `ChartPrompt.Fill` | server.js:86-101 | the template literal with its substitutions made; the fixed text is `ServerTemplate`, from the literal with its CRLF line ends read as line feeds. Its contract is carried by `TemplateLayout` |
| `ChartPrompt.Prompt` | server.js:49-101 | succeeds exactly when `chartType` is a string; an absent field fails with `MissingChartType` and any other value with `ChartTypeNotText`, since `toLowerCase` throws on both |
| `ChartPrompt.TemplateLayout` | server.js:86-101 | (`FilledFrom`) a filled template is exactly its nine pieces in order: head, keyword, labels field, labels text, data field, data text, indent, paragraph and tail, each at the offset where the one before ends, with the total length their sum |
| `ChartPrompt.PromptCarriesInputs` | server.js:86-101 | (`FilledFrom`) the prompt is the server template's head, the caller's keyword as given, the labels field, the serialised labels, the data field, the serialised series, the indent, the selected paragraph and the tail, each right after the one before and nothing else |
| `ChartPrompt.PromptContainsKeywordAndParagraph` | server.js:88-92 | the prompt contains the un-lower-cased keyword and the selected paragraph |
| `Cleanup.FirstMatch` | server.js:106 | a match the search reports lies wholly inside the text |
| `Cleanup.FirstMatchFindsLeftmost` | server.js:106 | the regex search finds the leftmost occurrence: it is an occurrence and none starts earlier; it finds nothing exactly when the pattern does not occur |
| `Cleanup.FirstMatchIsLeftmost` | server.js:106 | an occurrence with none before it is the one the search finds |
| `Cleanup.DeleteAll` | server.js:106 | one global replace by the empty string never makes the text longer |
| `Cleanup.DeleteAllWithoutMatch` | server.js:106 | text in which the pattern does not occur comes back unchanged |
| `Cleanup.JoinSplit` | server.js:106 | splitting at the occurrences and joining back with the pattern gives the text back |
| `Cleanup.SplitPiecesHoldNoMatch` | server.js:106 | no piece between the occurrences holds the pattern |
| `Cleanup.DeleteAllKeepsPieces` | server.js:106 | the result of a pass is exactly the pieces between the occurrences, in order |
| `Cleanup.DeleteAllRemovesWholeCopies` | server.js:106 | a pass removes only whole copies of the pattern: the input is the kept pieces with the pattern between each two, and its length is the result's plus a whole number of pattern lengths |
| `Cleanup.CleanReply` | server.js:106 | the cleaned reply is never longer than the reply |
| `Cleanup.CleanReplyKeepsPlainText` | server.js:106 | a reply with neither a code fence nor the tag `javascript` comes back unchanged |
| `Cleanup.CapitalisedTagSurvives` | server.js:106 | deletion is case-sensitive: `JavaScript` comes back unchanged |
| `Cleanup.SplitTagFoundAfterPrefix` | server.js:106 | in `javajavascriptscript` the tag pass first matches at position 4 |
| `Cleanup.TagCanSurviveCleanup` | server.js:106 | `javajavascriptscript` cleans to `javascript`, which still holds the tag |
| `Cleanup.FencedTagFoundAfterBacktick` | server.js:106 | in `` `javascript`` `` the tag pass first matches at position 1 |
| `Cleanup.FenceCanSurviveCleanup` | server.js:106 | `` `javascript`` `` cleans to three backticks, which still form a fence |
| `SheetMap.ToJson` | server.js:41-48 | the result has an entry for a name exactly when the name is one of the sheets and its row list is non-empty, and that entry is the row list |

## Left out

- The Express app, its middleware, the routes and EJS rendering (server.js:11-16, 116-142, 146) are HTTP and UI plumbing. A request without a file fails on `req.file.filename` before any processing; that path is part of the route and is not modelled.
- The Multer upload, `fs.readFileSync` and `fs.unlinkSync` (server.js:19, 120-123, 140) are file-system I/O. The removal of the upload in `finally` is resource handling and is not modelled.
- `XLSX.read` and `XLSX.utils.sheet_to_json` (server.js:26-28, 44) are the spreadsheet library. Their output is an input here: the rows of the first sheet for `Extraction.ProcessRows`, and a name-to-rows function for `SheetMap.ToJson`. A workbook with no sheets, and sparse rows with holes, are the library's concern.
- Cell values, which may be numbers, strings or dates, are a type parameter. The output of `JSON.stringify` (server.js:89-90) is abstract, given as two serialiser parameters.
- The Gemini client and `generateContent` / `response.text()` (server.js:22-23, 103-105) are an asynchronous call to an external service. The reply text is an input to `Cleanup.CleanReply`.
- The `console.error` at server.js:110 is logging and is left out. The rethrow at server.js:111 passes the TypeError on unchanged, which the `Err` results stand for.
- The unused `data` argument of `processWithGeminiAI` (server.js:49) has no effect and is not modelled.
- `dotenv` and the API key (server.js:1, 22) are environment configuration.
- ChartPrompt.Lower: maps only the ASCII letters A-Z, not the whole Unicode case mapping of `toLowerCase`. Keyword selection is unaffected. Only two non-ASCII characters lower-case to ASCII letters. The Kelvin sign becomes `k`, which no keyword contains. `İ` becomes `i` followed by a combining dot, which no keyword contains either. The polar-area result holds under the full mapping too, because it never yields an upper-case ASCII letter.
- SheetMap.ToJson: the result is a `map`. It does not model the insertion order of the JavaScript object's keys, or the special behaviour of a sheet named `__proto__` when used as a plain-object key.
