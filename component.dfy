/** The state of the `DataUpload` component of
    src/components/DataUpload.tsx and the handlers that change it: loading
    data, generating a chart, taking in an analysis with its
    recommendations, and laying out the report. */
module Component {
  import opened Seqs
  import opened Records
  import opened Charts
  import opened Columns
  import opened Report

  /** What `onAnalysisComplete` delivers: the analysis text, and optionally
      the columns and chart types it suggests. */
  datatype Analysis = Analysis(
    text: string,
    suggestedColumns: Option<seq<string>>,
    recommendations: Option<seq<string>>)

  /** What a download comes to: nothing (no charts and no analysis), a
      failure before anything is drawn, or a saved report. */
  datatype Export = Skipped | Failed | Saved(plan: ReportPlan)

  class DataUpload {
    /** The number semantics the CSV parser and the pie count rely on. */
    const fmt: NumberFormat
    /** `data`: `None` while null or undefined. */
    var data: Option<seq<Record>>
    var columns: seq<string>
    var selected: seq<string>
    /** `generatedCharts`, which only ever grows. */
    var charts: seq<GeneratedChart>
    /** `aiAnalysis`. */
    var analysis: Option<Analysis>

    /** The initial state of the hooks. */
    constructor(fmt: NumberFormat)
      ensures this.fmt == fmt
      ensures data == None && columns == [] && selected == []
      ensures charts == [] && analysis == None
    {
      this.fmt := fmt;
      data := None;
      columns := [];
      selected := [];
      charts := [];
      analysis := None;
    }

    /** `setData(parsedData)` followed by the column-discovery effect. The
        generated charts and the analysis are kept. */
    method Upload(parsed: Option<seq<Record>>)
      modifies this
      ensures data == parsed
      ensures ColumnState(columns, selected) == Discover(parsed, ColumnState(old(columns), old(selected)))
      ensures charts == old(charts) && analysis == old(analysis)
    {
      data := parsed;
      if data.Some? && |data.value| > 0 {
        var available := Keys(data.value[0]);
        columns := available;
        selected := available[..Min(2, |available|)];
      }
    }

    /** `generateChart(type, cols)`: appends the chart it builds, if any,
        and reports whether it threw. Nothing else changes. */
    method GenerateChart(tag: string, cols: seq<string>) returns (threw: bool)
      modifies this
      ensures threw <==> ChartFor(tag, data, cols, fmt).Threw?
      ensures charts == old(charts) +
        if ChartFor(tag, data, cols, fmt).Built? then [GeneratedChart(ChartFor(tag, data, cols, fmt).spec, tag)] else []
      ensures data == old(data) && columns == old(columns) && selected == old(selected)
      ensures analysis == old(analysis)
    {
      threw := false;
      if data.None? || |cols| == 0 {
        return;
      }
      var rows := data.value;
      var kind := KindOf(tag);
      if kind == Some(Pie) {
        var labels, counts := CountByKey(PieKeys(rows, cols[0], fmt));
        charts := charts + [GeneratedChart(PieChart(labels, counts), tag)];
      } else if kind.Some? {
        var o := Build(kind.value, rows, cols, fmt);
        if o.Built? {
          charts := charts + [GeneratedChart(o.spec, tag)];
        }
        threw := o.Threw?;
      }
    }

    /** `handleAnalysisComplete`: records the analysis, then, when it
        recommends chart types, generates one chart per recommendation in
        order, on the suggested columns or else the current selection,
        until a call throws. */
    method HandleAnalysisComplete(a: Analysis) returns (threw: bool)
      modifies this
      ensures analysis == Some(a)
      ensures data == old(data) && columns == old(columns) && selected == old(selected)
      ensures a.recommendations.None? || |a.recommendations.value| == 0 ==> charts == old(charts) && !threw
      ensures a.recommendations.Some? && |a.recommendations.value| > 0 ==>
        var cols := if a.suggestedColumns.Some? then a.suggestedColumns.value else old(selected);
        var run := RunAll(a.recommendations.value, old(data), cols, fmt);
        charts == old(charts) + run.charts && threw == run.threw
    {
      analysis := Some(a);
      threw := false;
      if a.recommendations.Some? && |a.recommendations.value| > 0 {
        var cols := if a.suggestedColumns.Some? then a.suggestedColumns.value else selected;
        threw := GenerateAll(a.recommendations.value, cols);
      }
    }

    /** `recommendations.forEach(type => generateChart(type, cols))`: one
        call per recommendation, in order, until a call throws. */
    method GenerateAll(recs: seq<string>, cols: seq<string>) returns (threw: bool)
      modifies this
      ensures charts == old(charts) + RunAll(recs, data, cols, fmt).charts
      ensures threw == RunAll(recs, data, cols, fmt).threw
      ensures data == old(data) && columns == old(columns) && selected == old(selected)
      ensures analysis == old(analysis)
    {
      threw := false;
      var i := 0;
      while i < |recs| && !threw
        invariant 0 <= i <= |recs|
        invariant charts == old(charts) + RunAll(recs[..i], data, cols, fmt).charts
        invariant threw == RunAll(recs[..i], data, cols, fmt).threw
        invariant data == old(data) && columns == old(columns) && selected == old(selected)
        invariant analysis == old(analysis)
      {
        assert recs[..i + 1][..i] == recs[..i];
        threw := GenerateChart(recs[i], cols);
        i := i + 1;
      }
      if threw {
        RunAllStopped(recs[..i], recs[i..], data, cols, fmt);
        assert recs[..i] + recs[i..] == recs;
      } else {
        assert recs[..i] == recs;
      }
    }

    /** `downloadReport`, without capturing and drawing: skipped when there
        is neither a chart nor an analysis; failed when no data is loaded,
        since the chart container is then not rendered (the download button
        is rendered under the same condition, so the page never offers this
        case); otherwise the layout of the analysis text (`lines` wrapped
        lines) and of one image per generated chart. */
    method DownloadReport(pageHeight: int, lines: nat) returns (e: Export)
      ensures e.Skipped? <==> |charts| == 0 && analysis.None?
      ensures e.Failed? <==> !(|charts| == 0 && analysis.None?) && data.None?
      ensures e.Saved? ==> e.plan == Layout(analysis.Some?, lines, |charts|, pageHeight)
    {
      if |charts| == 0 && analysis.None? {
        return Skipped;
      }
      if data.None? {
        return Failed;
      }
      var plan := PlanReport(analysis.Some?, lines, |charts|, pageHeight);
      e := Saved(plan.value);
    }
  }

  /** Once a call has thrown, later recommendations add nothing. */
  lemma {:induction false} RunAllStopped(a: seq<string>, b: seq<string>, data: Option<seq<Record>>, cols: seq<string>, fmt: NumberFormat)
    requires RunAll(a, data, cols, fmt).threw
    ensures RunAll(a + b, data, cols, fmt) == RunAll(a, data, cols, fmt)
  {
    if b == [] {
      assert a + b == a;
    } else {
      RunAllStopped(a, b[..|b| - 1], data, cols, fmt);
      assert (a + b)[..|a + b| - 1] == a + b[..|b| - 1];
    }
  }
}
