# DataUpload: a verified model of the upload-to-report pipeline

This project models the core of the `DataUpload` React component in
`src/components/DataUpload.tsx`. It covers:

- the CSV parser `parseCSV`;
- the effect that discovers the columns of newly loaded data;
- `generateChart`, the configuration builder for the seven chart kinds
  (bar, line, pie, scatter, radar, box plot, heat map), together with its
  append to `generatedCharts`;
- `handleAnalysisComplete`, which generates one chart per recommended type;
- the layout arithmetic of `downloadReport`, which places the analysis
  text and one image per chart down a sequence of pages.

It is written in Dafny and split into modules:

| file | module | contents |
|---|---|---|
| `seqs.dfy` | `Seqs` | `Option`, filtering, a stable sort by a numeric key, sums |
| `text.dfy` | `Text` | `String.prototype.trim`, `split` on one character, decimal numerals, the ECMAScript "array index" key test |
| `records.dfy` | `Records` | values (number, NaN, string, `undefined`), objects with creation-ordered keys, property read and write, `Object.keys` order |
| `csv.dfy` | `Csv` | `parseCSV` as the source's two nested loops, and the shape of every parsed record |
| `columns.dfy` | `Columns` | the column-discovery effect |
| `stats.dfy` | `Stats` | the sorting and nearest-rank quartiles of the box plot |
| `charts.dfy` | `Charts` | the configuration of every chart kind, the pie count as the source's mutating loop, and the recommendation loop |
| `report.dfy` | `Report` | the page/offset cursor of `downloadReport` as a loop, with its layout function |
| `component.dfy` | `Component` | the component as a class whose fields are its React state, with one method per handler |

JavaScript numbers are modelled as `real`, with one more value, `NaN`,
for the not-a-number `parseFloat` produces. The three number operations
the parser and the pie count rely on are taken as a parameter
(`Records.NumberFormat`):

- the global `isNaN` applied to a string;
- `parseFloat`, which gives `None` where JavaScript gives NaN;
- `String(x)`.

Pages are numbered from 0, so page 0 is the first page of the PDF.

Points of the code's behaviour that are easy to get wrong, each stated
as the code does it:

- **Uploading does not clear the generated charts.** `setData` (line 80)
  replaces the data and leaves `generatedCharts` as it was
  (`Component.DataUpload.Upload`).
- **Empty data leaves the columns unchanged.** The effect at lines 57-63
  only acts when `data.length > 0`. After an upload of an empty table the
  previous columns and selection stay (`Columns.Discover`).
- **The page-break test has no bottom margin.** The code tests `yOffset +
  100 > pageHeight` (line 343). An image ending exactly at the page height
  stays on its page (`Report.ThresholdIsStrict`).
- **Text that fills most of the first page pushes the first chart on.**
  Take 30 wrapped lines, three charts and a page height of 280. The text
  ends at offset 240, so the test at line 343 puts the first chart on a new
  page (page 1 in this model). The second chart follows on that page, and
  the third goes on another page (`Report.ThirtyLinesThreeCharts`).
- **A radar chart over an empty table throws.** `data[0][col]` (line 230)
  throws a TypeError there. That exception ends the `forEach` of
  `handleAnalysisComplete` (`Charts.RunAllThrows`,
  `Component.DataUpload.HandleAnalysisComplete`).
- **Coercion is what `isNaN` says, not whether conversion succeeds.** A
  field is coerced to a number exactly when `isNaN` is false for it, and
  the number is then `parseFloat` of it (line 100, `Csv.Coerce`). The
  empty field passes `isNaN` and becomes `parseFloat("")`, which is NaN.
  Every file ending in a line break has such a field: its last, empty line
  gives a record whose first column holds NaN and whose other columns are
  `undefined`. A column holding NaN gets no five-number summary, like a
  column holding a string (`Stats.Summary`).

## Model

| member | source | states |
|---|---|---|
| Text.TrimShape | src/components/DataUpload.tsx:99-100 | `trim` keeps the part of the string after its leading whitespace with only whitespace cut from its end, and the result neither starts nor ends with whitespace |
| Text.TrimIdempotent | src/components/DataUpload.tsx:99-100 | trimming an already trimmed header or field changes nothing |
| Text.Split | src/components/DataUpload.tsx:90-91 | `split` on one character yields one more piece than there are separators (so "" gives one empty piece), no piece holds the separator, and joining the pieces gives the string back |
| Text.SplitJoin | src/components/DataUpload.tsx:90-91 | splitting undoes joining pieces that do not hold the separator |
| Text.DecimalValue | src/components/DataUpload.tsx:156 | the numeral `${n}` reads back as `n` |
| Text.ValueDecimal | src/components/DataUpload.tsx:156 | a canonical numeral is the printing of the number it denotes |
| Text.DecimalInjective | src/components/DataUpload.tsx:156 | distinct row numbers print as distinct numerals |
| Records.Assign | src/components/DataUpload.tsx:100 | after `obj[k] = v`, `k` reads as `v` and every other key reads as before |
| Records.AssignKeepsWellFormed | src/components/DataUpload.tsx:100 | a write keeps every key created once; a new key is created after all existing ones, and an existing key keeps its place |
| Records.OwnKeysOrder | src/components/DataUpload.tsx:59 | `Object.keys` lists the same keys as were created, each once, with array-index keys first in ascending order and the other keys in creation order |
| Records.OwnKeysInCreationOrder | src/components/DataUpload.tsx:59 | without array-index keys, `Object.keys` is creation order |
| Csv.ParseCsv | src/components/DataUpload.tsx:88-107 | one record per line after the header line (a trailing empty line included), so as many records as the content has line breaks; record `i` is the row built from line `i + 1` under the header line's cells |
| Csv.ParseLine | src/components/DataUpload.tsx:95-102 | the inner loop builds exactly the record `Row` describes, assigning the trimmed headers one after another, each holding `Csv.Coerce` of its trimmed field: a string when `isNaN` holds for it, else `parseFloat` of it, NaN included |
| Csv.RowPrefixKeys | src/components/DataUpload.tsx:98-101 | after `n` assignments the record is well formed and its properties are exactly the first `n` keys |
| Csv.RowPrefixKeysInOrder | src/components/DataUpload.tsx:98-101 | with distinct keys the properties are created in key order |
| Csv.RowPrefixValue | src/components/DataUpload.tsx:99-100 | a key holds the coerced field at the last position carrying it, since later writes overwrite earlier ones |
| Csv.RowPrefixIgnoresExtraFields | src/components/DataUpload.tsx:98-99 | fields beyond the header count never reach the record |
| Csv.RowShape | src/components/DataUpload.tsx:94-103 | a parsed record is well formed; its properties are exactly the trimmed headers, in header order when they are distinct; each trimmed header holds the trimmed, coerced field (`Csv.Coerce`) at its last position, or `undefined` on a short line; every other key reads `undefined` (`Records.Lookup`); extra fields are dropped |
| Csv.RowValues | src/components/DataUpload.tsx:98-101 | the value read under each trimmed header is the coerced field at the last position carrying that header |
| Columns.Discover | src/components/DataUpload.tsx:57-63 | with at least one record, the columns are `Object.keys` of the first record, in own-key order (array-index keys first), and the selection is the first `min(2, n)` of them; with no data or an empty table both stay as they were |
| Columns.DiscoveredColumnsDistinct | src/components/DataUpload.tsx:59 | the discovered columns are distinct and are exactly the first record's properties |
| Columns.ColumnsInCreationOrder | src/components/DataUpload.tsx:59-61 | when no key of the first record is an array index, the columns are its keys in creation order, and the selection is the first two of them |
| Seqs.SortBy | src/components/DataUpload.tsx:245 | the sort returns its input ascending by key, as a permutation |
| Stats.SortValues | src/components/DataUpload.tsx:245 | on a column without strings or NaN, after `sort((a, b) => a - b)` every number precedes every later number that is no smaller, and all numbers precede `undefined` |
| Stats.SortValuesPermutes | src/components/DataUpload.tsx:245 | without strings or NaN, the sort keeps every value of the column, each as often as before |
| Stats.Rank | src/components/DataUpload.tsx:246-248 | `Math.floor(n * q/4)` is the `i` with `4i <= qn < 4i + 4`, and lies inside a non-empty column for `q < 4` |
| Stats.Summary | src/components/DataUpload.tsx:244-251 | the five values are defined exactly when the column holds no string and no NaN (which positions they are: Stats.FiveNumberRanks) |
| Stats.SummaryMembers | src/components/DataUpload.tsx:246-250 | every value reported is a value of the column; an empty column reports `undefined` five times |
| Stats.FiveNumberOrdered | src/components/DataUpload.tsx:244-251 | for a non-empty column of numbers, the five values are numbers with min <= q1 <= median <= q3 <= max |
| Stats.FiveNumberBounds | src/components/DataUpload.tsx:249-250 | for a non-empty column of numbers, min and max bound every value of the column |
| Stats.FiveNumberRanks | src/components/DataUpload.tsx:246-250 | for a non-empty column of numbers, each reported value is the column's nearest-rank value at its position: at most `r` values lie below it and more than `r` at or below it, for `r` = 0 (min), `floor(n/4)` (q1), `floor(n/2)` (median), `floor(3n/4)` (q3) and `n - 1` (max) |
| Stats.UndefinedIsMaximum | src/components/DataUpload.tsx:245-250 | a column holding `undefined` (and no string or NaN) reports `undefined` as its maximum |
| Charts.KindOf | src/components/DataUpload.tsx:151-302 | a tag selects a kind exactly when it is that kind's tag; any other tag selects none |
| Charts.AxesFor | src/components/DataUpload.tsx:133-148 | the x-axis title is the first column; the y-axis title is the second column, or empty when there is none |
| Charts.EntryLabels | src/components/DataUpload.tsx:156 | one label per row, the `i`-th being "Entry " followed by the numeral of `i + 1` |
| Charts.EntryLabelsDistinct | src/components/DataUpload.tsx:156 | the "Entry k" labels are pairwise distinct |
| Charts.ColumnValues | src/components/DataUpload.tsx:159 | `data.map(item => item[col])` has one value per row, the row's value of the column as `Records.Lookup` reads it (`undefined` where the row lacks the column) |
| Charts.SeriesFor | src/components/DataUpload.tsx:157-161 | one series per selected column, in order, named by the column and holding its values |
| Charts.ScatterPoints | src/components/DataUpload.tsx:212-215 | one point per row, with `x` from the first column and `y` from the second |
| Charts.RadarValues | src/components/DataUpload.tsx:230 | one value per selected column, taken from the given row |
| Charts.HeatCells | src/components/DataUpload.tsx:269-273 | one cell per row, at the row's index, in the first column, with the row's value |
| Charts.BoxSeriesFor | src/components/DataUpload.tsx:244-262 | one series per selected column, in order, holding that column's summary |
| Charts.PieKeys | src/components/DataUpload.tsx:185-186 | one property key per row, `Charts.PieKey` of the row's value of the first column: `String(x)` for a number, "NaN", the string itself, or "undefined" |
| Charts.FirstSeen | src/components/DataUpload.tsx:184-188 | the order in which `pieData` creates its properties is distinct and contains exactly the keys that occur |
| Charts.Tallies | src/components/DataUpload.tsx:187 | each label's count is its number of occurrences among the keys |
| Charts.BarSpec | src/components/DataUpload.tsx:152-165 | the configuration is a bar chart (its content: Charts.BarLineShape) |
| Charts.LineSpec | src/components/DataUpload.tsx:167-181 | the configuration is a line chart (its content: Charts.BarLineShape) |
| Charts.PieSpec | src/components/DataUpload.tsx:183-203 | the configuration is a pie chart (its content: Charts.PieShape) |
| Charts.ScatterSpec | src/components/DataUpload.tsx:205-221 | the configuration is a scatter plot (its content: Charts.ScatterShape) |
| Charts.RadarSpec | src/components/DataUpload.tsx:223-241 | the configuration is a radar chart (its content: Charts.RadarShape) |
| Charts.BoxplotSpec | src/components/DataUpload.tsx:243-266 | the configuration is a box plot (its content: Charts.BoxplotShape) |
| Charts.HeatmapSpec | src/components/DataUpload.tsx:268-301 | the configuration is a heat map (its content: Charts.HeatmapShape) |
| Charts.SpecOf | src/components/DataUpload.tsx:151-302 | a kind that can be built yields a configuration of that kind |
| Charts.Build | src/components/DataUpload.tsx:151-302 | for a known kind: no chart exactly for a scatter plot on fewer than two columns; a throw exactly for a radar chart on no rows; otherwise a configuration of that kind |
| Charts.ChartFor | src/components/DataUpload.tsx:115-308 | no chart exactly when data is absent, the selection is empty, the tag is unknown, or a scatter plot lacks a second column; a throw exactly for a radar chart over loaded but empty data; otherwise a configuration of the tag's kind |
| Charts.BarLineShape | src/components/DataUpload.tsx:152-181 | a bar or line chart has one "Entry k" label per row and one series per selected column, named by it and holding that column's value of every row; its axis titles are `Charts.AxesFor`'s: the first column, and the second or else empty |
| Charts.PieShape | src/components/DataUpload.tsx:183-203 | pie labels are distinct and are exactly the keys of the first column's values; each count is the number of rows with that key and at least 1; the counts add up to the number of rows |
| Charts.PieFirstColumnOnly | src/components/DataUpload.tsx:186 | a pie chart depends on the first selected column only |
| Charts.ScatterShape | src/components/DataUpload.tsx:205-221 | a scatter plot is named "c0 vs c1", has one point per row from the first two columns, and titles its x and y axes with those two columns |
| Charts.RadarShape | src/components/DataUpload.tsx:223-241 | a radar chart's labels are the selected columns and its values are row 0's; dropping every other row gives the same chart |
| Charts.BoxplotShape | src/components/DataUpload.tsx:243-266 | a box plot has the five category labels and, per selected column in order, that column's summary; its axis titles are `Charts.AxesFor`'s |
| Charts.BoxplotOrdered | src/components/DataUpload.tsx:244-251 | for a column of numbers over a non-empty table, the box plot's five values are numbers in ascending order |
| Charts.HeatmapShape | src/components/DataUpload.tsx:268-301 | a heat map is named after the first column, has one point `(i, cols[0], row i's value)` per row, and keeps the axis titles of `Charts.AxesFor` |
| Charts.CountKeys | src/components/DataUpload.tsx:184-188 | the counting loop creates the keys in first-seen order; a key has a count exactly when it occurs, and the count is its number of occurrences |
| Charts.CountByKey | src/components/DataUpload.tsx:184-195 | `Object.keys(pieData)` and `Object.values(pieData)` are the own-key order of the first-seen keys and their tallies |
| Charts.PieLabels | src/components/DataUpload.tsx:193 | the pie labels are distinct and are exactly the keys that occur |
| Charts.PieCounts | src/components/DataUpload.tsx:184-196 | every count is at least one and is the number of rows with its label, and the counts sum to the number of rows |
| Charts.SumTallies | src/components/DataUpload.tsx:195 | when every key occurs exactly once among the labels, the tallies sum to the number of keys |
| Charts.RunAll | src/components/DataUpload.tsx:315-317 | the recommendation loop appends at most one chart per recommendation |
| Charts.RunAllThrows | src/components/DataUpload.tsx:313-318 | the loop throws exactly when a radar chart is recommended for a non-empty selection over loaded but empty data |
| Charts.RunAllAppend | src/components/DataUpload.tsx:315-317 | the calls are independent: running two lists of recommendations in turn, when the first does not throw, concatenates their charts |
| Component.RunAllStopped | src/components/DataUpload.tsx:315-317 | once a call has thrown, later recommendations add nothing |
| Component.DataUpload.constructor | src/components/DataUpload.tsx:48-54 | the initial state: no data, no columns, empty selection, no charts, no analysis |
| Component.DataUpload.Upload | src/components/DataUpload.tsx:57-63 | `setData` followed by the effect: data replaced, columns and selection per `Columns.Discover`, charts and analysis unchanged |
| Component.DataUpload.GenerateChart | src/components/DataUpload.tsx:115-308 | appends exactly the configuration `Charts.ChartFor` builds, or nothing, and reports a throw exactly when it throws; nothing else changes |
| Component.DataUpload.HandleAnalysisComplete | src/components/DataUpload.tsx:310-319 | stores the analysis; with recommendations, appends the charts of `Charts.RunAll` on the suggested columns or else the prior selection; without them, the charts are unchanged |
| Component.DataUpload.GenerateAll | src/components/DataUpload.tsx:315-317 | the `forEach` loop appends `Charts.RunAll`'s charts and stops at the first throw |
| Component.DataUpload.DownloadReport | src/components/DataUpload.tsx:321-353 | skipped exactly with no charts and no analysis; fails when no data is loaded, since the chart container is then not rendered (the download button is rendered only with data, line 387, so the page never reaches this case); otherwise the plan is `Report.Layout` |
| Report.Images | src/components/DataUpload.tsx:339-350 | one placement per chart image |
| Report.PlanReport | src/components/DataUpload.tsx:321-350 | the cursor loop returns nothing exactly with no charts and no analysis, and otherwise the plan `Report.Layout` describes (lines 325-350: title at 10, text at 20, images from `Report.StartY`, page count one past the last image's page) |
| Report.ImagesAt | src/components/DataUpload.tsx:343-348 | image `i` is drawn at the cursor before it, moved to offset 10 of a new page when `y + 100 > pageHeight` |
| Report.ImagesConsecutive | src/components/DataUpload.tsx:343-349 | the next image sits 110 lower on the same page when `y + 210 <= pageHeight`, and otherwise at 10 on the next page |
| Report.FirstImage | src/components/DataUpload.tsx:325-348 | the text block is placed at offset 20 and never checked against the page height; the first image stays at `StartY` when it ends within the page and otherwise starts page 1 at 10 |
| Report.CursorBelowMargin | src/components/DataUpload.tsx:345-349 | the cursor never rises above offset 10 |
| Report.ImagesFit | src/components/DataUpload.tsx:343-348 | on a page at least 110 high, every image starts at 10 or lower and ends by the page height |
| Report.ImagesInOrder | src/components/DataUpload.tsx:339-352 | each image is on the page of the one before it or on the next page, and the report ends on the last image's page |
| Report.ThirtyLinesThreeCharts | src/components/DataUpload.tsx:325-350 | with 30 lines, three charts and height 280, the images go to (1, 10), (1, 120) and (2, 10) over 3 pages |
| Report.ThresholdIsStrict | src/components/DataUpload.tsx:343 | an image ending exactly at the page height stays on its page, and one unit more moves it to the next page |

## Left out

- The React rendering, the `loading` flag, the chart-type and column pickers and the `AIAnalysis` child are left out. The analysis is a parameter of `HandleAnalysisComplete`.
- Reading the file (`FileReader`) and choosing a parser by file extension are left out: the upload is given as already parsed data. `parseExcel` (XLSX) and `JSON.parse` are not part of this model. A file with another extension gives `undefined`, which is the `None` passed to `Upload`.
- JSON data that is not an array of flat objects is not modelled: rows are records of numbers, NaN, strings and `undefined`. Cells holding `null` or a boolean, which JSON and XLSX rows can have, are not modelled either. In the source `null - b` is a number, so `null` sorts as 0 in the box plot, and it becomes the pie key "null"; a boolean sorts as 0 or 1 and becomes "true" or "false".
- Floating point is left out. `isNaN`, `parseFloat` and number-to-string conversion are parameters. NaN from `parseFloat` is a value of its own; infinities (`parseFloat("Infinity")`, `parseFloat("1e999")`) and rounding are not modelled, since a number is a `real`.
- Heat map: the colour callback (`value / max` against the column maximum) and the tooltip callback are left out. They run inside the renderer and do not shape the data of the configuration.
- Colours, `tension`, fill, the legend and tooltip options are not modelled. The only options modelled are the two axis titles.
- Stats.Summary: a column that holds any string or NaN is reported as `Unordered`, without the five values. For NaN and for strings that do not convert to a number, `a - b` is NaN for some pairs and the order `sort` produces depends on the engine. Numeric strings, which JSON or XLSX rows can hold ("5", or a blank " " that converts to 0), give a finite `a - b`; the source then sorts them by their number and reads real quartiles, which the model does not follow, since it has no string-to-number conversion.
- Stats.FiveNumberOrdered: it covers columns of numbers only. A column from a file ending in a line break holds NaN in its last record's first column, and gets no ordered summary.
- Charts.BoxplotOrdered: as for Stats.FiveNumberOrdered, the blank field of a trailing empty line is NaN, so the first column of such a file is not covered.
- Records.Assign: a property named like an `Object.prototype` member (such as `__proto__`) is treated as an ordinary key. In JavaScript, assigning a string to `__proto__` creates no property.
- Records.Lookup: reading a key the record lacks gives `undefined`. In JavaScript a key named like an `Object.prototype` member (`toString`, `constructor`, `valueOf`, `__proto__`, ...) reads the inherited member instead. This affects `item[col]` at lines 159, 186, 213-214, 230 and 272 when a row lacks a column so named.
- Charts.CountKeys: prototype-named keys are counted as ordinary keys. In JavaScript `pieData[key] || 0` (line 187) reads the inherited member for them: a key like "toString" gets a count that is a string grown by concatenation, and "__proto__" never becomes a property.
- Charts.CountByKey: for the same reason, its labels and values differ from JavaScript's when a key is named like an `Object.prototype` member.
- Charts.PieLabels: "__proto__" among the keys is a label here, but never in JavaScript.
- Charts.PieCounts: the counts are occurrence counts of at least 1 summing to the number of rows only when no key is named like an `Object.prototype` member; with such keys JavaScript's counts are strings, or missing for "__proto__".
- Charts.PieShape: states the pie as `Charts.PieCounts` does, so the same prototype-named keys are not covered.
- Report.PlanReport: the page height is taken as a whole number, the floor of jsPDF's height. This gives the same comparisons, because every offset is a whole number.
- Report.PlanReport: `splitTextToSize` (text wrapping) is not modelled: the number of wrapped lines is a parameter.
- Report.PlanReport: capturing the charts with `html2canvas`, drawing, and saving the PDF are not modelled.
- Report.ImagesFit: this covers page heights of 110 and more. On a smaller page an image is still placed at offset 10 and overflows, as the code does; that case is not stated.
- Component.DataUpload.DownloadReport: the model assumes the chart container holds one element per generated chart, as the rendering at lines 463-465 makes it.
- Stats.FiveNumberOrdered: no concrete summary of a literal column is proved, only the general properties.
