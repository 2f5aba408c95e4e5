/** The horizontal axis: resolving its ticks (the caller's, or generated to
    fit the canvas) and drawing its baseline and labels on a renderer. */
module Chart {
  import opened Backend
  import opened ChartTypes
  import opened TickLayout
  import opened TickOrder
  import opened AxisTrace

  /** The label the tick count is estimated from: the longer formatted end
      of the range. */
  function WidestEndLabel(ra: Range, vf: real -> string): string {
    WidestLabel(vf(ra.min), vf(ra.max))
  }

  /** The tick count estimated from the widest end label measured at the
      label font size, converted to pixels, plus the minimum spacing. */
  function EstimatedTickCount(style: Style, ra: Range, vf: real -> string, dpi: real, metrics: (real, string) -> nat, ext: Externals): int
    requires ext.Valid() && dpi >= 0.0
  {
    var points := metrics(LabelFontSize(style, ext), WidestEndLabel(ra, vf)) as real;
    TickCount(ra.domain, ext.pointsToPixels(dpi, points), ext.defaultMinimumTickHorizontalSpacing)
  }

  /** The calls made on the renderer while estimating the tick count. */
  function MeasureCommands(style: Style, ra: Range, vf: real -> string, ext: Externals): seq<Command> {
    [SetFontSize(LabelFontSize(style, ext)), MeasureText(WidestEndLabel(ra, vf)), GetDPI]
  }

  /** The step that spreads the estimated number of ticks over the range. */
  function EstimatedStep(style: Style, ra: Range, vf: real -> string, dpi: real, metrics: (real, string) -> nat, ext: Externals): real
    requires ext.Valid() && dpi >= 0.0 && ra.domain > 0
  {
    TickStep(ra.Delta(), EstimatedTickCount(style, ra, vf, dpi, metrics, ext))
  }

  /** The caller's ticks when there are any, handed back as the axis's own
      array rather than a copy; otherwise ticks generated to fit the canvas,
      in a new array. Only generation touches the renderer. */
  method GetTicks(xa: XAxis, r: Renderer, ra: Range, vf: real -> string, ext: Externals) returns (ticks: array<Tick>)
    requires xa.ticks.Length == 0 ==> ext.Valid() && r.dpi >= 0.0 && ra.domain > 0
    modifies r
    ensures xa.ticks.Length > 0 ==> ticks == xa.ticks && unchanged(r)
    ensures xa.ticks.Length == 0 ==>
      && fresh(ticks)
      && ticks[..] == GeneratedTicks(ra.min, ra.max, EstimatedStep(xa.style, ra, vf, r.dpi, r.metrics, ext), vf)
      && r.trace == old(r.trace) + MeasureCommands(xa.style, ra, vf, ext)
      && r.fontSize == LabelFontSize(xa.style, ext)
  {
    if xa.ticks.Length > 0 {
      return xa.ticks;
    }
    var generated := GenerateTicks(xa, r, ra, vf, ext);
    ticks := new Tick[|generated|](i requires 0 <= i < |generated| => generated[i]);
    assert ticks[..] == generated;
  }

  method GenerateTicks(xa: XAxis, r: Renderer, ra: Range, vf: real -> string, ext: Externals) returns (ticks: seq<Tick>)
    requires ext.Valid() && r.dpi >= 0.0 && ra.domain > 0
    modifies r
    ensures ticks == GeneratedTicks(ra.min, ra.max, EstimatedStep(xa.style, ra, vf, r.dpi, r.metrics, ext), vf)
    ensures r.trace == old(r.trace) + MeasureCommands(xa.style, ra, vf, ext)
    ensures r.fontSize == LabelFontSize(xa.style, ext)
  {
    var step := GetTickStep(xa, r, ra, vf, ext);
    ticks := GenerateTicksWithStep(ra, step, vf);
  }

  /** Estimates how many labels fit the canvas side by side. Sets the
      renderer's font size first, so that the measurement uses it. */
  method GetTickCount(xa: XAxis, r: Renderer, ra: Range, vf: real -> string, ext: Externals) returns (count: int)
    requires ext.Valid() && r.dpi >= 0.0
    modifies r
    ensures count == EstimatedTickCount(xa.style, ra, vf, r.dpi, r.metrics, ext)
    ensures r.trace == old(r.trace) + MeasureCommands(xa.style, ra, vf, ext)
    ensures r.fontSize == LabelFontSize(xa.style, ext)
  {
    var fontSize := xa.style.GetFontSize(ext.defaultFontSize);
    r.SetFontSize(fontSize);

    var l0 := vf(ra.min);
    var ln := vf(ra.max);
    var ll := l0;
    if Utf8Length(ln) > Utf8Length(l0) {
      ll := ln;
    }
    var llw := r.MeasureText(ll);
    var dpi := r.GetDPI();
    var textWidth := ext.pointsToPixels(dpi, llw as real);
    var width := textWidth + ext.defaultMinimumTickHorizontalSpacing;
    count := Ceil(ra.domain as real / width);
  }

  method GetTickStep(xa: XAxis, r: Renderer, ra: Range, vf: real -> string, ext: Externals) returns (step: real)
    requires ext.Valid() && r.dpi >= 0.0 && ra.domain > 0
    modifies r
    ensures step == EstimatedStep(xa.style, ra, vf, r.dpi, r.metrics, ext)
    ensures r.trace == old(r.trace) + MeasureCommands(xa.style, ra, vf, ext)
    ensures r.fontSize == LabelFontSize(xa.style, ext)
  {
    var tickCount := GetTickCount(xa, r, ra, vf, ext);
    step := ra.Delta() / tickCount as real;
  }

  /** Walks a cursor from the range minimum by `step` while it is below the
      maximum, emitting a tick labelled by the formatter at each stop. */
  method GenerateTicksWithStep(ra: Range, step: real, vf: real -> string) returns (ticks: seq<Tick>)
    requires ra.min < ra.max ==> step > 0.0
    ensures ticks == GeneratedTicks(ra.min, ra.max, step, vf)
  {
    ghost var all := GeneratedTicks(ra.min, ra.max, step, vf);
    ticks := [];
    var cursor := ra.min;
    while cursor < ra.max
      invariant |ticks| <= |all|
      invariant cursor == CursorAt(ra.min, step, |ticks|)
      invariant ticks == all[..|ticks|]
      decreases |all| - |ticks|
    {
      BelowMaxIffBeforeTotal(ra.min, ra.max, step, |ticks|);
      ticks := ticks + [Tick(cursor, vf(cursor))];
      cursor := cursor + step;
    }
    if ra.min < ra.max {
      BelowMaxIffBeforeTotal(ra.min, ra.max, step, |ticks|);
    }
  }

  /** Draws the baseline and then every label, after sorting the caller's
      ticks in place by ascending value. */
  method Render(xa: XAxis, r: Renderer, canvasBox: Box, ra: Range, ticks: array<Tick>, ext: Externals)
    modifies r, ticks
    ensures SortedByValue(ticks[..])
    ensures multiset(ticks[..]) == old(multiset(ticks[..]))
    ensures r.trace == old(r.trace) + RenderCommands(xa.style, canvasBox, ra, ticks[..], r.dpi, ext)
    ensures r.fontSize == LabelFontSize(xa.style, ext)
  {
    ghost var original := ticks[..];
    var tickFontSize := xa.style.GetFontSize(ext.defaultFontSize);
    var dpi := r.GetDPI();
    var tickHeight := ext.pointsToPixels(dpi, tickFontSize);
    var ty := canvasBox.bottom + ext.defaultXAxisMargin + Trunc(tickHeight);

    DrawBaseline(r, canvasBox, xa.style, ext);

    r.SetFontColor(xa.style.GetFontColor(ext.defaultAxisColor));
    r.SetFontSize(tickFontSize);

    assert ty == LabelY(xa.style, canvasBox, r.dpi, ext);
    ghost var prologue := PrologueCommands(xa.style, canvasBox, ext);
    assert r.trace == old(r.trace) + prologue;
    assert ticks[..] == original;
    ghost var beforeSort := r.trace;
    SortTicks(ticks);
    assert r.trace == beforeSort;
    DrawLabels(r, canvasBox, ra, ticks, ty);
    ghost var labels := LabelCommands(ticks[..], canvasBox, ra, ty);
    assert RenderCommands(xa.style, canvasBox, ra, ticks[..], r.dpi, ext) == prologue + labels;
    assert (old(r.trace) + prologue) + labels == old(r.trace) + (prologue + labels);
  }

  /** How a chart draws the axis: resolve the ticks, then render them. When
      the axis has ticks of its own, `GetTicks` hands back the axis's own
      array, so rendering leaves the axis's ticks sorted in place. */
  method ResolveAndRender(xa: XAxis, r: Renderer, canvasBox: Box, ra: Range, vf: real -> string, ext: Externals)
    returns (ticks: array<Tick>)
    requires xa.ticks.Length == 0 ==> ext.Valid() && r.dpi >= 0.0 && ra.domain > 0
    modifies r, xa.ticks
    ensures xa.ticks.Length > 0 ==>
      && ticks == xa.ticks
      && multiset(xa.ticks[..]) == old(multiset(xa.ticks[..]))
      && r.trace == old(r.trace) + RenderCommands(xa.style, canvasBox, ra, ticks[..], r.dpi, ext)
    ensures xa.ticks.Length == 0 ==>
      && fresh(ticks)
      && ticks[..] == GeneratedTicks(ra.min, ra.max, EstimatedStep(xa.style, ra, vf, r.dpi, r.metrics, ext), vf)
      && r.trace == old(r.trace) + MeasureCommands(xa.style, ra, vf, ext)
                    + RenderCommands(xa.style, canvasBox, ra, ticks[..], r.dpi, ext)
    ensures SortedByValue(ticks[..])
    ensures r.fontSize == LabelFontSize(xa.style, ext)
  {
    ticks := GetTicks(xa, r, ra, vf, ext);
    ghost var resolved := r.trace;
    ghost var unsorted := ticks[..];
    Render(xa, r, canvasBox, ra, ticks, ext);
    assert r.trace == resolved + RenderCommands(xa.style, canvasBox, ra, ticks[..], r.dpi, ext);
    if xa.ticks.Length == 0 {
      // Generated ticks are already strictly increasing, so sorting keeps them.
      ghost var step := EstimatedStep(xa.style, ra, vf, r.dpi, r.metrics, ext);
      if ra.min < ra.max {
        GeneratedIncreasing(ra.min, ra.max, step, vf);
        SortedPermutationsEqual(unsorted, ticks[..]);
      } else {
        assert |multiset(ticks[..])| == 0;
      }
    }
  }

  /** The baseline step of `Render`: set the stroke, then stroke a line
      along the bottom of the canvas. */
  method DrawBaseline(r: Renderer, canvasBox: Box, style: Style, ext: Externals)
    modifies r`trace
    ensures r.trace == old(r.trace) + BaselineCommands(style, canvasBox, ext)
  {
    r.SetStrokeColor(style.GetStrokeColor(ext.defaultAxisColor));
    r.SetStrokeWidth(style.GetStrokeWidth(ext.defaultAxisLineWidth));

    r.MoveTo(canvasBox.left, canvasBox.bottom);
    r.LineTo(canvasBox.right, canvasBox.bottom);
    r.Stroke();
  }

  /** The label loop of `Render`: one `Text` call per tick, in array order,
      at the tick's mirrored x and the common label line `ty`. */
  method DrawLabels(r: Renderer, canvasBox: Box, ra: Range, ticks: array<Tick>, ty: int)
    modifies r`trace
    ensures r.trace == old(r.trace) + LabelCommands(ticks[..], canvasBox, ra, ty)
  {
    var i := 0;
    while i < ticks.Length
      invariant 0 <= i <= ticks.Length
      invariant r.trace == old(r.trace) + LabelCommands(ticks[..i], canvasBox, ra, ty)
    {
      var t := ticks[i];
      var v := t.value;
      var x := ra.translate(v);
      var tx := canvasBox.right - x;
      r.Text(t.text, tx, ty);
      assert ticks[..i + 1][..i] == ticks[..i];
      i := i + 1;
    }
    assert ticks[..ticks.Length] == ticks[..];
  }

  /** Without overrides, the generated ticks number exactly the estimated
      count whenever the range is non-empty. */
  lemma GeneratedCountIsEstimate(style: Style, ra: Range, vf: real -> string, dpi: real, metrics: (real, string) -> nat, ext: Externals)
    requires ext.Valid() && dpi >= 0.0 && ra.domain > 0 && ra.min < ra.max
    ensures |GeneratedTicks(ra.min, ra.max, EstimatedStep(style, ra, vf, dpi, metrics, ext), vf)|
         == EstimatedTickCount(style, ra, vf, dpi, metrics, ext) >= 1
  {
    GeneratedCountMatches(ra.min, ra.max, EstimatedTickCount(style, ra, vf, dpi, metrics, ext), vf);
  }
}
