/** `generateChart` of src/components/DataUpload.tsx: the chart configuration
    built for a chart-type tag, the loaded rows and the selected columns.
    Only the data a chart carries is modelled (labels, series, points and
    the two axis titles); colours and renderer options are not. */
module Charts {
  import opened Seqs
  import opened Text
  import opened Records
  import opened Stats

  /** The seven entries of CHART_TYPES. */
  datatype ChartKind = Bar | Line | Pie | Scatter | Radar | Boxplot | Heatmap

  /** The tag the chart-type select carries for a kind. */
  function TagOf(k: ChartKind): string {
    match k
    case Bar => "bar"
    case Line => "line"
    case Pie => "pie"
    case Scatter => "scatter"
    case Radar => "radar"
    case Boxplot => "boxplot"
    case Heatmap => "heatmap"
  }

  /** The `switch (type)` dispatch: the kind a tag selects, if any. A tag
      selects a kind exactly when it is that kind's tag. */
  function KindOf(tag: string): (k: Option<ChartKind>)
    ensures k.Some? ==> TagOf(k.value) == tag
    ensures k.None? ==> forall c: ChartKind :: TagOf(c) != tag
  {
    if tag == "bar" then Some(Bar)
    else if tag == "line" then Some(Line)
    else if tag == "pie" then Some(Pie)
    else if tag == "scatter" then Some(Scatter)
    else if tag == "radar" then Some(Radar)
    else if tag == "boxplot" then Some(Boxplot)
    else if tag == "heatmap" then Some(Heatmap)
    else None
  }

  /** The axis titles of `chartOptions`: `cols[0]` and `cols[1] || ''`. */
  datatype Axes = Axes(x: string, y: string)

  function AxesFor(cols: seq<string>): (a: Axes)
    requires |cols| > 0
    ensures a.x == cols[0]
    ensures |cols| == 1 ==> a.y == ""
    ensures |cols| > 1 ==> a.y == cols[1]
  {
    Axes(cols[0], if |cols| > 1 then cols[1] else "")
  }

  /** A named data series: one value per row (bar, line). */
  datatype Series = Series(name: string, entries: seq<Value>)

  /** One point of a scatter plot. */
  datatype Point = Point(x: Value, y: Value)

  /** One point of a heat map: row index, column name, value. */
  datatype HeatCell = HeatCell(x: nat, y: string, v: Value)

  /** One box-plot series: the column and its five numbers. */
  datatype BoxSeries = BoxSeries(name: string, stats: BoxStats)

  /** The data of a chart configuration, per kind. */
  datatype ChartSpec =
      /** `config.type` 'bar'. */
    | BarChart(labels: seq<string>, series: seq<Series>, axes: Axes)
      /** `config.type` 'line'. */
    | LineChart(labels: seq<string>, series: seq<Series>, axes: Axes)
      /** `config.type` 'pie'. */
    | PieChart(labels: seq<string>, counts: seq<nat>)
      /** `config.type` 'scatter'. */
    | ScatterChart(name: string, points: seq<Point>, axes: Axes)
      /** `config.type` 'radar'. */
    | RadarChart(labels: seq<string>, entries: seq<Value>)
      /** Emitted as `config.type` 'bar': one bar dataset per column over
          the five categories (line 255). */
    | BoxplotChart(categories: seq<string>, boxes: seq<BoxSeries>, axes: Axes)
      /** Emitted as `config.type` 'scatter': one point per row whose
          colour the renderer derives from its value (line 276). */
    | HeatmapChart(name: string, cells: seq<HeatCell>, axes: Axes)

  /** What one call of `generateChart` comes to: a configuration, nothing
      (`config` stays undefined or the guard returns early), or a thrown
      TypeError. */
  datatype Outcome = Built(spec: ChartSpec) | NoChart | Threw

  /** An entry of `generatedCharts`: `{ config, type }`. */
  datatype GeneratedChart = GeneratedChart(spec: ChartSpec, tag: string)

  /** The kind a configuration was built for. */
  function SpecKind(s: ChartSpec): ChartKind {
    match s
    case BarChart(_, _, _) => Bar
    case LineChart(_, _, _) => Line
    case PieChart(_, _) => Pie
    case ScatterChart(_, _, _) => Scatter
    case RadarChart(_, _) => Radar
    case BoxplotChart(_, _, _) => Boxplot
    case HeatmapChart(_, _, _) => Heatmap
  }

  /** `data.map((_, i) => `Entry ${i + 1}`)` for `n` rows. */
  function EntryLabels(n: nat): (r: seq<string>)
    ensures |r| == n
    ensures forall i :: 0 <= i < n ==> r[i] == "Entry " + Decimal(i + 1)
  {
    if n == 0 then [] else EntryLabels(n - 1) + ["Entry " + Decimal(n)]
  }

  /** `data.map(item => item[col])`: one value per row, in row order. */
  function ColumnValues(rows: seq<Record>, col: string): (r: seq<Value>)
    ensures |r| == |rows|
    ensures forall i :: 0 <= i < |rows| ==> r[i] == Lookup(rows[i], col)
  {
    if rows == [] then []
    else ColumnValues(rows[..|rows| - 1], col) + [Lookup(rows[|rows| - 1], col)]
  }

  /** The datasets of a bar or line chart: one series per selected column,
      in selection order, labelled by the column. */
  function SeriesFor(rows: seq<Record>, cols: seq<string>): (r: seq<Series>)
    ensures |r| == |cols|
    ensures forall i :: 0 <= i < |cols| ==> r[i] == Series(cols[i], ColumnValues(rows, cols[i]))
  {
    if cols == [] then []
    else SeriesFor(rows, cols[..|cols| - 1]) + [Series(cols[|cols| - 1], ColumnValues(rows, cols[|cols| - 1]))]
  }

  /** The scatter points: one per row, `x` from the first column and `y`
      from the second. */
  function ScatterPoints(rows: seq<Record>, a: string, b: string): (r: seq<Point>)
    ensures |r| == |rows|
    ensures forall i :: 0 <= i < |rows| ==> r[i] == Point(Lookup(rows[i], a), Lookup(rows[i], b))
  {
    if rows == [] then []
    else ScatterPoints(rows[..|rows| - 1], a, b) + [Point(Lookup(rows[|rows| - 1], a), Lookup(rows[|rows| - 1], b))]
  }

  /** `cols.map(col => data[0][col])`: one value per column, from one row. */
  function RadarValues(row: Record, cols: seq<string>): (r: seq<Value>)
    ensures |r| == |cols|
    ensures forall i :: 0 <= i < |cols| ==> r[i] == Lookup(row, cols[i])
  {
    if cols == [] then []
    else RadarValues(row, cols[..|cols| - 1]) + [Lookup(row, cols[|cols| - 1])]
  }

  /** The heat-map points: one per row, at the row's index, from one column. */
  function HeatCells(rows: seq<Record>, col: string): (r: seq<HeatCell>)
    ensures |r| == |rows|
    ensures forall i :: 0 <= i < |rows| ==> r[i] == HeatCell(i, col, Lookup(rows[i], col))
  {
    if rows == [] then []
    else HeatCells(rows[..|rows| - 1], col) + [HeatCell(|rows| - 1, col, Lookup(rows[|rows| - 1], col))]
  }

  /** The box-plot datasets: one per selected column, in selection order,
      holding that column's five numbers. */
  function BoxSeriesFor(rows: seq<Record>, cols: seq<string>): (r: seq<BoxSeries>)
    ensures |r| == |cols|
    ensures forall i :: 0 <= i < |cols| ==> r[i] == BoxSeries(cols[i], Summary(ColumnValues(rows, cols[i])))
  {
    if cols == [] then []
    else BoxSeriesFor(rows, cols[..|cols| - 1]) + [BoxSeries(cols[|cols| - 1], Summary(ColumnValues(rows, cols[|cols| - 1])))]
  }

  const BoxCategories: seq<string> := ["Minimum", "Q1", "Median", "Q3", "Maximum"]

  /** The property key a cell value becomes in `pieData[key]`: a number
      through `String(x)`, NaN as "NaN", a string as itself, `undefined` as
      "undefined". */
  function PieKey(v: Value, fmt: NumberFormat): string {
    match v
    case Num(x) => fmt.show(x)
    case NaN => "NaN"
    case Str(s) => s
    case Undef => "undefined"
  }

  /** The keys the pie count sees: one per row, from the first column. */
  function PieKeys(rows: seq<Record>, col: string, fmt: NumberFormat): (r: seq<string>)
    ensures |r| == |rows|
    ensures forall i :: 0 <= i < |rows| ==> r[i] == PieKey(Lookup(rows[i], col), fmt)
  {
    if rows == [] then []
    else PieKeys(rows[..|rows| - 1], col, fmt) + [PieKey(Lookup(rows[|rows| - 1], col), fmt)]
  }

  /** The distinct keys in order of first occurrence: the order in which
      `pieData` creates its properties. */
  function FirstSeen(keys: seq<string>): (r: seq<string>)
    ensures Distinct(r)
    ensures forall k :: k in r <==> k in keys
  {
    if keys == [] then []
    else
      var r := FirstSeen(keys[..|keys| - 1]);
      var k := keys[|keys| - 1];
      assert forall x :: x in keys <==> x in keys[..|keys| - 1] || x == k by {
        assert keys == keys[..|keys| - 1] + [k];
      }
      if k in r then r
      else
        assert multiset(r)[k] == 0;
        r + [k]
  }

  /** How often each label occurs among the keys. */
  function Tallies(labels: seq<string>, keys: seq<string>): (r: seq<nat>)
    ensures |r| == |labels|
    ensures forall i :: 0 <= i < |labels| ==> r[i] == multiset(keys)[labels[i]]
  {
    if labels == [] then []
    else Tallies(labels[..|labels| - 1], keys) + [multiset(keys)[labels[|labels| - 1]]]
  }

  /** The pie chart of the keys: `Object.keys(pieData)` and
      `Object.values(pieData)`. */
  function PieChartOf(keys: seq<string>): ChartSpec {
    var labels := OwnKeys(FirstSeen(keys));
    PieChart(labels, Tallies(labels, keys))
  }

  /** The bar or line configuration: one "Entry k" label per row and one
      series per selected column. */
  function BarSpec(rows: seq<Record>, cols: seq<string>): (s: ChartSpec)
    requires |cols| > 0
    ensures s.BarChart?
    ensures SpecKind(s) == Bar
  {
    BarChart(EntryLabels(|rows|), SeriesFor(rows, cols), AxesFor(cols))
  }

  function LineSpec(rows: seq<Record>, cols: seq<string>): (s: ChartSpec)
    requires |cols| > 0
    ensures s.LineChart?
    ensures SpecKind(s) == Line
  {
    LineChart(EntryLabels(|rows|), SeriesFor(rows, cols), AxesFor(cols))
  }

  function PieSpec(rows: seq<Record>, cols: seq<string>, fmt: NumberFormat): (s: ChartSpec)
    requires |cols| > 0
    ensures s.PieChart?
    ensures SpecKind(s) == Pie
  {
    PieChartOf(PieKeys(rows, cols[0], fmt))
  }

  function ScatterSpec(rows: seq<Record>, cols: seq<string>): (s: ChartSpec)
    requires |cols| >= 2
    ensures s.ScatterChart?
    ensures SpecKind(s) == Scatter
  {
    ScatterChart(cols[0] + " vs " + cols[1], ScatterPoints(rows, cols[0], cols[1]), AxesFor(cols))
  }

  function RadarSpec(rows: seq<Record>, cols: seq<string>): (s: ChartSpec)
    requires |rows| > 0
    ensures s.RadarChart?
    ensures SpecKind(s) == Radar
  {
    RadarChart(cols, RadarValues(rows[0], cols))
  }

  function BoxplotSpec(rows: seq<Record>, cols: seq<string>): (s: ChartSpec)
    requires |cols| > 0
    ensures s.BoxplotChart?
    ensures SpecKind(s) == Boxplot
  {
    BoxplotChart(BoxCategories, BoxSeriesFor(rows, cols), AxesFor(cols))
  }

  function HeatmapSpec(rows: seq<Record>, cols: seq<string>): (s: ChartSpec)
    requires |cols| > 0
    ensures s.HeatmapChart?
    ensures SpecKind(s) == Heatmap
  {
    HeatmapChart(cols[0], HeatCells(rows, cols[0]), AxesFor(cols))
  }

  /** The configuration `generateChart` builds for a known kind, on loaded
      rows and a non-empty selection. */
  function Build(k: ChartKind, rows: seq<Record>, cols: seq<string>, fmt: NumberFormat): (o: Outcome)
    requires |cols| > 0
    ensures o.NoChart? <==> k == Scatter && |cols| < 2
    ensures o.Threw? <==> k == Radar && |rows| == 0
    ensures o.Built? ==> SpecKind(o.spec) == k
  {
    if k == Scatter && |cols| < 2 then NoChart
    else if k == Radar && |rows| == 0 then Threw
    else Built(SpecOf(k, rows, cols, fmt))
  }

  /** The configuration of a kind that can be built on these rows and
      columns. */
  function SpecOf(k: ChartKind, rows: seq<Record>, cols: seq<string>, fmt: NumberFormat): (s: ChartSpec)
    requires |cols| > 0
    requires k == Scatter ==> |cols| >= 2
    requires k == Radar ==> |rows| > 0
    ensures SpecKind(s) == k
  {
    match k
    case Bar => BarSpec(rows, cols)
    case Line => LineSpec(rows, cols)
    case Pie => PieSpec(rows, cols, fmt)
    case Scatter => ScatterSpec(rows, cols)
    case Radar => RadarSpec(rows, cols)
    case Boxplot => BoxplotSpec(rows, cols)
    case Heatmap => HeatmapSpec(rows, cols)
  }

  /** `generateChart(type, cols)` on the loaded `data` (`None` when `data`
      is null or undefined). No chart exactly when data is absent, the
      selection is empty, the tag is unknown, or a scatter plot lacks a
      second column; it throws exactly for a radar chart over no rows
      (`data[0]` is undefined); otherwise the chart is of the tag's kind. */
  function ChartFor(tag: string, data: Option<seq<Record>>, cols: seq<string>, fmt: NumberFormat): (o: Outcome)
    ensures o.NoChart? <==>
      data.None? || |cols| == 0 || KindOf(tag).None? || (KindOf(tag) == Some(Scatter) && |cols| < 2)
    ensures o.Threw? <==>
      data.Some? && |cols| > 0 && KindOf(tag) == Some(Radar) && |data.value| == 0
    ensures o.Built? ==> KindOf(tag) == Some(SpecKind(o.spec))
  {
    if data.None? || |cols| == 0 then NoChart
    else
      match KindOf(tag)
      case None => NoChart
      case Some(k) => Build(k, data.value, cols, fmt)
  }

  /** The pie count of lines 184-188: `data.forEach` adds one to the
      property of `pieData` named by each row's key, creating it at 1 on
      first sight (`(pieData[key] || 0) + 1`). The object is its creation
      order and its map from key to count. */
  method CountKeys(keys: seq<string>) returns (created: seq<string>, pieData: map<string, nat>)
    ensures created == FirstSeen(keys)
    ensures forall k :: k in pieData <==> k in keys
    ensures forall k :: k in pieData ==> pieData[k] == multiset(keys)[k]
  {
    created := [];
    pieData := map[];
    for i := 0 to |keys|
      invariant created == FirstSeen(keys[..i])
      invariant forall k :: k in pieData <==> k in created
      invariant forall k :: k in pieData ==> pieData[k] == multiset(keys[..i])[k]
    {
      CountStep(keys, i);
      var key := keys[i];
      var prior := if key in pieData then pieData[key] else 0;
      if key !in pieData {
        created := created + [key];
      }
      pieData := pieData[key := prior + 1];
    }
    assert keys[..|keys|] == keys;
  }

  /** The pie chart's labels and counts: `Object.keys(pieData)` and
      `Object.values(pieData)` after the count. */
  method CountByKey(keys: seq<string>) returns (labels: seq<string>, counts: seq<nat>)
    ensures labels == OwnKeys(FirstSeen(keys))
    ensures counts == Tallies(labels, keys)
  {
    var created, pieData := CountKeys(keys);
    labels := OwnKeys(created);
    counts := seq(|labels|, j requires 0 <= j < |labels| => if labels[j] in pieData then pieData[labels[j]] else 0);
    OwnKeysOrder(created);
    forall j | 0 <= j < |labels| ensures counts[j] == multiset(keys)[labels[j]] {
      assert labels[j] in multiset(created);
    }
  }

  /** What one more key does to the first-seen order and to the counts. */
  lemma CountStep(keys: seq<string>, i: nat)
    requires i < |keys|
    ensures FirstSeen(keys[..i + 1]) ==
      if keys[i] in FirstSeen(keys[..i]) then FirstSeen(keys[..i]) else FirstSeen(keys[..i]) + [keys[i]]
    ensures multiset(keys[..i + 1]) == multiset(keys[..i]) + multiset{keys[i]}
  {
    assert keys[..i + 1][..i] == keys[..i];
    assert keys[..i + 1] == keys[..i] + [keys[i]];
  }

  /** The pie labels are distinct and are exactly the keys that occur. */
  lemma PieLabels(keys: seq<string>)
    ensures Distinct(PieChartOf(keys).labels)
    ensures forall k :: k in PieChartOf(keys).labels <==> k in keys
  {
    var seen := FirstSeen(keys);
    OwnKeysOrder(seen);
    var labels := OwnKeys(seen);
    assert multiset(labels) == multiset(seen);
    forall k ensures k in labels <==> k in keys {
      assert k in labels <==> k in multiset(seen);
    }
  }

  /** The pie chart's promises: the labels are distinct and are exactly the
      keys that occur, every count is at least one and is the number of rows
      carrying its label, and the counts add up to the number of rows. */
  lemma PieCounts(keys: seq<string>)
    ensures var p := PieChartOf(keys);
      && Distinct(p.labels)
      && (forall k :: k in p.labels <==> k in keys)
      && |p.counts| == |p.labels|
      && (forall i :: 0 <= i < |p.counts| ==> p.counts[i] == multiset(keys)[p.labels[i]] >= 1)
      && Sum(p.counts) == |keys|
  {
    var p := PieChartOf(keys);
    PieLabels(keys);
    assert Sum(p.counts) == |keys| by {
      forall i | 0 <= i < |keys| ensures multiset(p.labels)[keys[i]] == 1 {
        assert keys[i] in p.labels;
      }
      SumTallies(p.labels, keys);
    }
    forall i | 0 <= i < |p.counts| ensures p.counts[i] >= 1 {
      assert p.labels[i] in keys;
    }
  }

  /** Counting one more key adds its number of occurrences among the labels. */
  lemma {:induction false} TalliesSnoc(labels: seq<string>, keys: seq<string>)
    requires |keys| > 0
    ensures Sum(Tallies(labels, keys))
      == Sum(Tallies(labels, keys[..|keys| - 1])) + multiset(labels)[keys[|keys| - 1]]
  {
    var init := keys[..|keys| - 1];
    assert keys == init + [keys[|keys| - 1]];
    if labels != [] {
      var front := labels[..|labels| - 1];
      TalliesSnoc(front, keys);
      assert labels == front + [labels[|labels| - 1]];
      assert Tallies(labels, keys)[..|labels| - 1] == Tallies(front, keys);
      assert Tallies(labels, init)[..|labels| - 1] == Tallies(front, init);
    }
  }

  lemma {:induction false} TalliesNothing(labels: seq<string>)
    ensures Sum(Tallies(labels, [])) == 0
  {
    if labels != [] {
      TalliesNothing(labels[..|labels| - 1]);
      assert Tallies(labels, [])[..|labels| - 1] == Tallies(labels[..|labels| - 1], []);
    }
  }

  /** When every key occurs exactly once among the labels, the tallies of
      the labels add up to the number of keys. */
  lemma {:induction false} SumTallies(labels: seq<string>, keys: seq<string>)
    requires forall i :: 0 <= i < |keys| ==> multiset(labels)[keys[i]] == 1
    ensures Sum(Tallies(labels, keys)) == |keys|
  {
    if keys == [] {
      TalliesNothing(labels);
    } else {
      SumTallies(labels, keys[..|keys| - 1]);
      TalliesSnoc(labels, keys);
    }
  }

  /** Distinct rows get distinct "Entry k" labels. */
  lemma EntryLabelsDistinct(n: nat)
    ensures forall i, j :: 0 <= i < j < n ==> EntryLabels(n)[i] != EntryLabels(n)[j]
  {
    var r := EntryLabels(n);
    forall i, j | 0 <= i < j < n ensures r[i] != r[j] {
      if r[i] == r[j] {
        assert r[i][6..] == Decimal(i + 1);
        assert r[j][6..] == Decimal(j + 1);
        DecimalInjective(i + 1, j + 1);
      }
    }
  }

  /** A pie chart consults the first selected column only. */
  lemma PieFirstColumnOnly(data: Option<seq<Record>>, cols: seq<string>, fmt: NumberFormat)
    requires |cols| > 0
    ensures ChartFor("pie", data, cols, fmt) == ChartFor("pie", data, [cols[0]], fmt)
  {
  }

  /** A bar or line chart on loaded rows: one "Entry k" label per row, one
      series per selected column named by it and holding that column's
      value of every row, and the axis titles of `chartOptions`: the first
      column, and the second or else the empty string. */
  lemma BarLineShape(tag: string, rows: seq<Record>, cols: seq<string>, fmt: NumberFormat)
    requires tag == "bar" || tag == "line"
    requires |cols| > 0
    ensures var o := ChartFor(tag, Some(rows), cols, fmt);
      && o.Built? && (o.spec.BarChart? || o.spec.LineChart?)
      && |o.spec.labels| == |rows|
      && (forall i :: 0 <= i < |rows| ==> o.spec.labels[i] == "Entry " + Decimal(i + 1))
      && |o.spec.series| == |cols|
      && (forall c :: 0 <= c < |cols| ==> o.spec.series[c].name == cols[c] && |o.spec.series[c].entries| == |rows|)
      && (forall c, i :: 0 <= c < |cols| && 0 <= i < |rows| ==> o.spec.series[c].entries[i] == Lookup(rows[i], cols[c]))
      && o.spec.axes == AxesFor(cols) && o.spec.axes.x == cols[0]
  {
  }

  /** A pie chart on loaded rows: its labels are the distinct keys of the
      first column's values, each count is the number of rows whose value
      has that key, and the counts add up to the number of rows. */
  lemma PieShape(rows: seq<Record>, cols: seq<string>, fmt: NumberFormat, s: ChartSpec)
    requires |cols| > 0
    requires ChartFor("pie", Some(rows), cols, fmt) == Built(s)
    ensures s.PieChart?
    ensures Distinct(s.labels)
    ensures forall k :: k in s.labels <==> exists i :: 0 <= i < |rows| && PieKey(Lookup(rows[i], cols[0]), fmt) == k
    ensures |s.counts| == |s.labels|
    ensures forall i :: 0 <= i < |s.counts| ==> s.counts[i] == multiset(PieKeys(rows, cols[0], fmt))[s.labels[i]] >= 1
    ensures Sum(s.counts) == |rows|
  {
    var keys := PieKeys(rows, cols[0], fmt);
    assert s == PieChartOf(keys);
    PieCounts(keys);
    PieKeysOccur(rows, cols[0], fmt);
  }

  /** The pie keys are the keys of the rows' values. */
  lemma PieKeysOccur(rows: seq<Record>, col: string, fmt: NumberFormat)
    ensures forall k :: k in PieKeys(rows, col, fmt) <==> exists i :: 0 <= i < |rows| && PieKey(Lookup(rows[i], col), fmt) == k
  {
    var keys := PieKeys(rows, col, fmt);
    forall k ensures k in keys <==> exists i :: 0 <= i < |rows| && PieKey(Lookup(rows[i], col), fmt) == k {
      if k in keys {
        var i :| 0 <= i < |keys| && keys[i] == k;
      }
    }
  }

  /** A scatter plot on loaded rows and two or more columns: named after
      the first two, one point per row from those two columns, which also
      title the x and y axes. */
  lemma ScatterShape(rows: seq<Record>, cols: seq<string>, fmt: NumberFormat)
    requires |cols| >= 2
    ensures var o := ChartFor("scatter", Some(rows), cols, fmt);
      && o.Built? && o.spec.ScatterChart?
      && o.spec.name == cols[0] + " vs " + cols[1]
      && |o.spec.points| == |rows|
      && (forall i :: 0 <= i < |rows| ==> o.spec.points[i] == Point(Lookup(rows[i], cols[0]), Lookup(rows[i], cols[1])))
      && o.spec.axes == Axes(cols[0], cols[1])
  {
  }

  /** A radar chart on a non-empty table: the selected columns as labels,
      and the first row's value of each; no other row is consulted. */
  lemma RadarShape(rows: seq<Record>, cols: seq<string>, fmt: NumberFormat)
    requires |rows| > 0 && |cols| > 0
    ensures var o := ChartFor("radar", Some(rows), cols, fmt);
      && o.Built? && o.spec.RadarChart?
      && o.spec.labels == cols
      && |o.spec.entries| == |cols|
      && (forall c :: 0 <= c < |cols| ==> o.spec.entries[c] == Lookup(rows[0], cols[c]))
      && o == ChartFor("radar", Some([rows[0]]), cols, fmt)
  {
  }

  /** A box plot on loaded rows: the five category labels, and one series
      per selected column holding the summary of that column; the axis
      titles of `chartOptions`. */
  lemma BoxplotShape(rows: seq<Record>, cols: seq<string>, fmt: NumberFormat, s: ChartSpec)
    requires |cols| > 0
    requires ChartFor("boxplot", Some(rows), cols, fmt) == Built(s)
    ensures s.BoxplotChart?
    ensures s.categories == ["Minimum", "Q1", "Median", "Q3", "Maximum"]
    ensures |s.boxes| == |cols|
    ensures forall c :: 0 <= c < |cols| ==> s.boxes[c] == BoxSeries(cols[c], Summary(ColumnValues(rows, cols[c])))
    ensures s.axes == AxesFor(cols)
  {
    assert KindOf("boxplot") == Some(Boxplot);
    assert s == BoxplotSpec(rows, cols);
  }

  /** For a column of numbers over a non-empty table, the box plot's five
      values are numbers in ascending order. */
  lemma BoxplotOrdered(rows: seq<Record>, col: string)
    requires |rows| > 0
    requires forall i :: 0 <= i < |rows| ==> Lookup(rows[i], col).Num?
    ensures var b := Summary(ColumnValues(rows, col));
      && b.Five?
      && b.min.Num? && b.q1.Num? && b.median.Num? && b.q3.Num? && b.max.Num?
      && b.min.x <= b.q1.x <= b.median.x <= b.q3.x <= b.max.x
  {
    FiveNumberOrdered(ColumnValues(rows, col));
  }

  /** A heat map on loaded rows: named after the first column, one cell per
      row at the row's index, in the first column, with that row's value;
      the axis titles of `chartOptions`, which `...chartOptions` keeps. */
  lemma HeatmapShape(rows: seq<Record>, cols: seq<string>, fmt: NumberFormat)
    requires |cols| > 0
    ensures var o := ChartFor("heatmap", Some(rows), cols, fmt);
      && o.Built? && o.spec.HeatmapChart?
      && o.spec.name == cols[0]
      && |o.spec.cells| == |rows|
      && (forall i :: 0 <= i < |rows| ==> o.spec.cells[i] == HeatCell(i, cols[0], Lookup(rows[i], cols[0])))
      && o.spec.axes == AxesFor(cols)
  {
  }

  /** The result of the recommendation loop: the charts appended, in order,
      and whether a call threw (which ends the `forEach`). */
  datatype Run = Run(charts: seq<GeneratedChart>, threw: bool)

  /** `recommendations.forEach(chartType => generateChart(chartType, columns))`:
      one call per tag, in order, each appending what it builds, until one
      throws. */
  function RunAll(tags: seq<string>, data: Option<seq<Record>>, cols: seq<string>, fmt: NumberFormat): (r: Run)
    ensures |r.charts| <= |tags|
  {
    if tags == [] then Run([], false)
    else
      var prev := RunAll(tags[..|tags| - 1], data, cols, fmt);
      var tag := tags[|tags| - 1];
      if prev.threw then prev
      else
        match ChartFor(tag, data, cols, fmt)
        case Built(s) => Run(prev.charts + [GeneratedChart(s, tag)], false)
        case NoChart => prev
        case Threw => Run(prev.charts, true)
  }

  /** The loop throws exactly when a radar chart is recommended for a
      non-empty selection over loaded but empty data. */
  lemma {:induction false} RunAllThrows(tags: seq<string>, data: Option<seq<Record>>, cols: seq<string>, fmt: NumberFormat)
    ensures RunAll(tags, data, cols, fmt).threw <==>
      data.Some? && |data.value| == 0 && |cols| > 0 && "radar" in tags
  {
    if tags != [] {
      var init := tags[..|tags| - 1];
      RunAllThrows(init, data, cols, fmt);
      assert tags == init + [tags[|tags| - 1]];
      assert "radar" in tags <==> "radar" in init || tags[|tags| - 1] == "radar";
    }
  }

  /** Running two lists of recommendations one after the other, when the
      first does not throw, appends the charts of the second to those of
      the first: every call is independent of the calls before it. */
  lemma {:induction false} RunAllAppend(a: seq<string>, b: seq<string>, data: Option<seq<Record>>, cols: seq<string>, fmt: NumberFormat)
    requires !RunAll(a, data, cols, fmt).threw
    ensures RunAll(a + b, data, cols, fmt)
      == Run(RunAll(a, data, cols, fmt).charts + RunAll(b, data, cols, fmt).charts, RunAll(b, data, cols, fmt).threw)
  {
    if b == [] {
      assert a + b == a;
    } else {
      var init := b[..|b| - 1];
      RunAllAppend(a, init, data, cols, fmt);
      assert (a + b)[..|a + b| - 1] == a + init;
      assert (a + b)[|a + b| - 1] == b[|b| - 1];
    }
  }
}
