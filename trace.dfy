/** The renderer calls the horizontal axis makes when it draws, as a
    sequence of commands, and what that sequence promises. */
module AxisTrace {
  import opened Backend
  import opened ChartTypes
  import opened TickLayout
  import opened TickOrder

  /** The y of every tick label: the canvas bottom, the axis margin, and the
      label font size converted to whole pixels. */
  function LabelY(style: Style, canvasBox: Box, dpi: real, ext: Externals): int {
    canvasBox.bottom + ext.defaultXAxisMargin + Trunc(ext.pointsToPixels(dpi, LabelFontSize(style, ext)))
  }

  /** The x of a label, measured leftwards from the canvas's right edge by
      the range's projection of the value. */
  function LabelX(canvasBox: Box, ra: Range, value: real): int {
    canvasBox.right - ra.translate(value)
  }

  /** One `Text` call per tick, in the given order, all on the line `y`;
      defined as the drawing loop builds it, one call appended per tick. */
  function LabelCommands(ticks: seq<Tick>, canvasBox: Box, ra: Range, y: int): (cmds: seq<Command>)
    ensures |cmds| == |ticks|
    ensures forall k :: 0 <= k < |ticks| ==>
      cmds[k] == Text(ticks[k].text, LabelX(canvasBox, ra, ticks[k].value), y)
  {
    if ticks == [] then []
    else
      var last := ticks[|ticks| - 1];
      LabelCommands(ticks[..|ticks| - 1], canvasBox, ra, y) + [Text(last.text, LabelX(canvasBox, ra, last.value), y)]
  }

  /** The baseline along the canvas bottom, stroked with the style's stroke
      colour and width. */
  function BaselineCommands(style: Style, canvasBox: Box, ext: Externals): seq<Command> {
    [ SetStrokeColor(style.GetStrokeColor(ext.defaultAxisColor)),
      SetStrokeWidth(style.GetStrokeWidth(ext.defaultAxisLineWidth)),
      MoveTo(canvasBox.left, canvasBox.bottom),
      LineTo(canvasBox.right, canvasBox.bottom),
      Stroke ]
  }

  /** What the axis sends to the renderer before its first label: the DPI
      query, the baseline, and the label font colour and size. */
  function PrologueCommands(style: Style, canvasBox: Box, ext: Externals): seq<Command> {
    [GetDPI]
    + BaselineCommands(style, canvasBox, ext)
    + [SetFontColor(style.GetFontColor(ext.defaultAxisColor)), SetFontSize(LabelFontSize(style, ext))]
  }

  /** Everything the axis sends to the renderer when it draws the (already
      sorted) `ticks`. */
  function RenderCommands(style: Style, canvasBox: Box, ra: Range, ticks: seq<Tick>, dpi: real, ext: Externals): seq<Command> {
    PrologueCommands(style, canvasBox, ext) + LabelCommands(ticks, canvasBox, ra, LabelY(style, canvasBox, dpi, ext))
  }

  /** The number of `Text` calls in a trace. */
  function TextCount(cmds: seq<Command>): nat {
    if cmds == [] then 0 else (if cmds[0].Text? then 1 else 0) + TextCount(cmds[1..])
  }

  lemma {:induction false} TextCountAppend(a: seq<Command>, b: seq<Command>)
    ensures TextCount(a + b) == TextCount(a) + TextCount(b)
  {
    if a == [] {
      assert a + b == b;
    } else {
      assert (a + b)[1..] == a[1..] + b;
      TextCountAppend(a[1..], b);
    }
  }

  lemma {:induction false} TextCountAllText(cmds: seq<Command>)
    requires forall i :: 0 <= i < |cmds| ==> cmds[i].Text?
    ensures TextCount(cmds) == |cmds|
  {
    if cmds != [] {
      TextCountAllText(cmds[1..]);
    }
  }

  lemma {:induction false} TextCountNoText(cmds: seq<Command>)
    requires forall i :: 0 <= i < |cmds| ==> !cmds[i].Text?
    ensures TextCount(cmds) == 0
  {
    if cmds != [] {
      TextCountNoText(cmds[1..]);
    }
  }

  /** Drawing strokes exactly one line, from the canvas's bottom-left to its
      bottom-right corner, after setting the stroke colour and width and
      before any label is drawn. */
  lemma RenderStrokesBaselineOnce(style: Style, canvasBox: Box, ra: Range, ticks: seq<Tick>, dpi: real, ext: Externals)
    ensures var cmds := RenderCommands(style, canvasBox, ra, ticks, dpi, ext);
      && (forall i :: 0 <= i < |cmds| ==> (cmds[i].Stroke? <==> i == 5))
      && cmds[3] == MoveTo(canvasBox.left, canvasBox.bottom)
      && cmds[4] == LineTo(canvasBox.right, canvasBox.bottom)
      && cmds[1] == SetStrokeColor(style.GetStrokeColor(ext.defaultAxisColor))
      && cmds[2] == SetStrokeWidth(style.GetStrokeWidth(ext.defaultAxisLineWidth))
      && (forall i :: 0 <= i < |cmds| && cmds[i].Text? ==> 5 < i)
  {
    var cmds := RenderCommands(style, canvasBox, ra, ticks, dpi, ext);
    var labels := LabelCommands(ticks, canvasBox, ra, LabelY(style, canvasBox, dpi, ext));
    forall i | 8 <= i < |cmds| ensures cmds[i] == labels[i - 8] {
    }
  }

  /** Drawing emits one `Text` call per tick, and nothing else draws text:
      the k-th is the k-th tick's label at that tick's x, on the common label
      line, after the font colour and size are set. */
  lemma RenderLabelsOnePerTick(style: Style, canvasBox: Box, ra: Range, ticks: seq<Tick>, dpi: real, ext: Externals)
    ensures var cmds := RenderCommands(style, canvasBox, ra, ticks, dpi, ext);
      && TextCount(cmds) == |ticks|
      && |cmds| == 8 + |ticks|
      && cmds[6] == SetFontColor(style.GetFontColor(ext.defaultAxisColor))
      && cmds[7] == SetFontSize(LabelFontSize(style, ext))
      && (forall i :: 0 <= i < |cmds| ==> (cmds[i].Text? <==> 8 <= i))
      && (forall i :: 0 <= i < |cmds| && cmds[i].Text? ==> cmds[i].y == LabelY(style, canvasBox, dpi, ext))
      && (forall k :: 0 <= k < |ticks| ==>
            cmds[8 + k] == Text(ticks[k].text, LabelX(canvasBox, ra, ticks[k].value), LabelY(style, canvasBox, dpi, ext)))
  {
    var y := LabelY(style, canvasBox, dpi, ext);
    var prefix := PrologueCommands(style, canvasBox, ext);
    var labels := LabelCommands(ticks, canvasBox, ra, y);
    var cmds := RenderCommands(style, canvasBox, ra, ticks, dpi, ext);
    assert cmds == prefix + labels;
    TextCountAppend(prefix, labels);
    TextCountAllText(labels);
    TextCountNoText(prefix);
    forall i | 8 <= i < |cmds| ensures cmds[i] == labels[i - 8] {
    }
  }

  /** Drawing does not depend on the order the ticks arrive in: two sorted
      arrangements of the same ticks put labels at the same positions, and
      when no two ticks share a value they produce the same trace. */
  lemma RenderOrderIndependent(style: Style, canvasBox: Box, ra: Range, a: seq<Tick>, b: seq<Tick>, dpi: real, ext: Externals)
    requires SortedByValue(a) && SortedByValue(b) && multiset(a) == multiset(b)
    ensures var ca := RenderCommands(style, canvasBox, ra, a, dpi, ext);
      var cb := RenderCommands(style, canvasBox, ra, b, dpi, ext);
      && |ca| == |cb|
      && (forall i :: 0 <= i < |ca| && ca[i].Text? ==> cb[i].Text? && ca[i].x == cb[i].x && ca[i].y == cb[i].y)
      && (StrictlySortedByValue(a) ==> ca == cb)
  {
    SortedPermutationsAgreeOnValues(a, b);
    var y := LabelY(style, canvasBox, dpi, ext);
    var prefix := PrologueCommands(style, canvasBox, ext);
    var la := LabelCommands(a, canvasBox, ra, y);
    var lb := LabelCommands(b, canvasBox, ra, y);
    var ca := prefix + la;
    var cb := prefix + lb;
    forall i | 0 <= i < |ca| && ca[i].Text? ensures cb[i].Text? && ca[i].x == cb[i].x && ca[i].y == cb[i].y {
      assert 8 <= i;
      assert ca[i] == la[i - 8] && cb[i] == lb[i - 8];
    }
    if StrictlySortedByValue(a) {
      SortedPermutationsEqual(a, b);
    }
  }

  /** A tick at 3 on a 0..10 range projected at 10 pixels per unit onto a
      canvas whose right edge is 100 is labelled at x = 70. */
  lemma LabelXExample()
    ensures LabelX(Box(0, 0, 100, 50), Range(0.0, 10.0, 100, (v: real) => (v * 10.0).Floor), 3.0) == 70
  {
  }
}
