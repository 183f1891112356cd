/** The layout arithmetic of `downloadReport` in
    src/components/DataUpload.tsx: a vertical cursor that starts at 10, is
    moved past the analysis text, and then places one 100-unit chart image
    after another, 110 units apart, starting a new page whenever the next
    image would end below the page height. Offsets are whole numbers; the
    page height is the floor of jsPDF's, which gives the same comparisons
    for whole-number offsets. */
module Report {
  import opened Seqs

  /** Where something is drawn: the page (0 is the first) and the offset
      from the top of the page. */
  datatype Placement = Placement(page: nat, y: int)

  /** The laid-out report: the analysis title and text when there is an
      analysis, one placement per chart image, and the number of pages. */
  datatype ReportPlan = ReportPlan(
    title: Option<Placement>,
    text: Option<Placement>,
    images: seq<Placement>,
    pages: nat)

  /** The cursor once the analysis block is written: the title at 10, the
      text at 20, then `splitText.length * 7 + 10` further down. */
  function StartY(hasAnalysis: bool, lines: nat): int {
    if hasAnalysis then 20 + lines * 7 + 10 else 10
  }

  /** Where the next image goes from the cursor `c`: on a new page at 10
      when `y + 100 > pageHeight`, at the cursor otherwise. */
  function Place(c: Placement, pageHeight: int): Placement {
    if c.y + 100 > pageHeight then Placement(c.page + 1, 10) else c
  }

  /** The cursor after an image placed at `p`: `yOffset += 110`. */
  function Advance(p: Placement): Placement {
    Placement(p.page, p.y + 110)
  }

  /** The cursor before image `n`. */
  function Cursor(start: Placement, n: nat, pageHeight: int): Placement {
    if n == 0 then start else Advance(Place(Cursor(start, n - 1, pageHeight), pageHeight))
  }

  /** The placements of the first `n` images. */
  function Images(start: Placement, n: nat, pageHeight: int): (r: seq<Placement>)
    ensures |r| == n
  {
    if n == 0 then [] else Images(start, n - 1, pageHeight) + [Place(Cursor(start, n - 1, pageHeight), pageHeight)]
  }

  /** The whole report for an analysis of `lines` wrapped lines (if any)
      and `chartCount` chart images. */
  function Layout(hasAnalysis: bool, lines: nat, chartCount: nat, pageHeight: int): ReportPlan {
    var start := Placement(0, StartY(hasAnalysis, lines));
    ReportPlan(
      if hasAnalysis then Some(Placement(0, 10)) else None,
      if hasAnalysis then Some(Placement(0, 20)) else None,
      Images(start, chartCount, pageHeight),
      Cursor(start, chartCount, pageHeight).page + 1)
  }

  /** `downloadReport` without the drawing: nothing when there are no
      charts and no analysis, otherwise the plan its loop lays out. */
  method PlanReport(hasAnalysis: bool, lines: nat, chartCount: nat, pageHeight: int) returns (plan: Option<ReportPlan>)
    ensures plan.None? <==> chartCount == 0 && !hasAnalysis
    ensures plan.Some? ==> plan.value == Layout(hasAnalysis, lines, chartCount, pageHeight)
  {
    if chartCount == 0 && !hasAnalysis {
      return None;
    }
    var page: nat := 0;
    var y := 10;
    var title: Option<Placement> := None;
    var text: Option<Placement> := None;
    if hasAnalysis {
      title := Some(Placement(page, y));
      y := y + 10;
      text := Some(Placement(page, y));
      y := y + lines * 7 + 10;
    }
    var start := Placement(page, y);
    var images: seq<Placement> := [];
    for i := 0 to chartCount
      invariant Placement(page, y) == Cursor(start, i, pageHeight)
      invariant images == Images(start, i, pageHeight)
    {
      if y + 100 > pageHeight {
        page := page + 1;
        y := 10;
      }
      images := images + [Placement(page, y)];
      y := y + 110;
    }
    plan := Some(ReportPlan(title, text, images, page + 1));
  }

  /** Image `i` goes where the cursor before it says. */
  lemma {:induction false} ImagesAt(start: Placement, n: nat, pageHeight: int)
    ensures forall i :: 0 <= i < n ==>
      Images(start, n, pageHeight)[i] == Place(Cursor(start, i, pageHeight), pageHeight)
  {
    if n > 0 {
      ImagesAt(start, n - 1, pageHeight);
    }
  }

  /** From one image to the next: the next one goes 110 further down the
      same page exactly when it still ends within the page
      (`y + 110 + 100 <= pageHeight`), and otherwise at 10 on the next page. */
  lemma {:induction false} ImagesConsecutive(start: Placement, n: nat, pageHeight: int)
    ensures var r := Images(start, n, pageHeight);
      forall i :: 0 < i < n ==>
        if r[i - 1].y + 210 <= pageHeight then r[i] == Placement(r[i - 1].page, r[i - 1].y + 110)
        else r[i] == Placement(r[i - 1].page + 1, 10)
  {
    ImagesAt(start, n, pageHeight);
  }

  /** The first image stays at the cursor left by the analysis block exactly
      when it ends within the page; the text block itself is never checked
      against the page height. */
  lemma FirstImage(hasAnalysis: bool, lines: nat, chartCount: nat, pageHeight: int)
    requires chartCount > 0
    ensures var p := Layout(hasAnalysis, lines, chartCount, pageHeight);
      var y := StartY(hasAnalysis, lines);
      && (hasAnalysis ==> p.text == Some(Placement(0, 20)))
      && (y + 100 <= pageHeight ==> p.images[0] == Placement(0, y))
      && (y + 100 > pageHeight ==> p.images[0] == Placement(1, 10))
  {
    ImagesAt(Placement(0, StartY(hasAnalysis, lines)), chartCount, pageHeight);
  }

  /** The cursor never rises above 10. */
  lemma {:induction false} CursorBelowMargin(start: Placement, n: nat, pageHeight: int)
    requires start.y >= 10
    ensures Cursor(start, n, pageHeight).y >= 10
  {
    if n > 0 {
      CursorBelowMargin(start, n - 1, pageHeight);
    }
  }

  /** On a page at least 110 high every image lies wholly on its page:
      it starts at 10 or lower and ends at the page height or higher up. */
  lemma ImagesFit(start: Placement, n: nat, pageHeight: int)
    requires pageHeight >= 110
    requires start.y >= 10
    ensures forall i :: 0 <= i < n ==>
      10 <= Images(start, n, pageHeight)[i].y && Images(start, n, pageHeight)[i].y + 100 <= pageHeight
  {
    ImagesAt(start, n, pageHeight);
    forall i | 0 <= i < n ensures Cursor(start, i, pageHeight).y >= 10 {
      CursorBelowMargin(start, i, pageHeight);
    }
  }

  /** Images are placed in order: each is on the page of the one before or
      on the next page, and the report ends on the page of the last image. */
  lemma {:induction false} ImagesInOrder(start: Placement, n: nat, pageHeight: int)
    ensures var r := Images(start, n, pageHeight);
      && (forall i :: 0 < i < n ==> r[i - 1].page <= r[i].page <= r[i - 1].page + 1)
      && (n > 0 ==> Cursor(start, n, pageHeight).page == r[n - 1].page)
  {
    var r := Images(start, n, pageHeight);
    ImagesAt(start, n, pageHeight);
    forall i | 0 < i < n ensures r[i - 1].page <= r[i].page <= r[i - 1].page + 1 {
      CursorAfter(start, n, pageHeight, i);
    }
    if n > 0 {
      CursorAfter(start, n, pageHeight, n);
    }
  }

  /** The cursor before image `i` is 110 below image `i - 1`. */
  lemma CursorAfter(start: Placement, n: nat, pageHeight: int, i: nat)
    requires 0 < i <= n
    ensures Cursor(start, i, pageHeight) == Advance(Images(start, n, pageHeight)[i - 1])
  {
    ImagesAt(start, n, pageHeight);
  }

  /** Thirty wrapped lines and three charts on a page 280 high: the text
      ends at 240, so the first chart already starts page 2, the second
      follows it there, and the third starts page 3. */
  lemma ThirtyLinesThreeCharts()
    ensures Layout(true, 30, 3, 280).images == [Placement(1, 10), Placement(1, 120), Placement(2, 10)]
    ensures Layout(true, 30, 3, 280).pages == 3
  {
  }

  /** The threshold is strict: an image ending exactly at the page height
      stays on the page, one unit more moves it to the next. */
  lemma ThresholdIsStrict()
    ensures Layout(false, 0, 2, 220).images == [Placement(0, 10), Placement(0, 120)]
    ensures Layout(false, 0, 2, 219).images == [Placement(0, 10), Placement(1, 10)]
  {
  }
}
