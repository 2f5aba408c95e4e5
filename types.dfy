/** The values the horizontal axis works on: ticks, ranges, boxes, styles,
    the axis itself, and the package-level constants and conversions that are
    defined outside the axis. */
module ChartTypes {
  import opened Backend

  datatype Option<T> = None | Some(value: T)

  /** A labelled reference point on an axis (`text` is the label). */
  datatype Tick = Tick(value: real, text: string)

  /** A data interval [min, max] shown on `domain` pixels. `translate` is the
      caller's data-to-pixel projection; its formula is not part of this model. */
  datatype Range = Range(min: real, max: real, domain: int, translate: real -> int)
  {
    function Delta(): real { max - min }
  }

  /** A pixel rectangle. */
  datatype Box = Box(top: int, left: int, right: int, bottom: int)

  /** Visual attributes; an attribute that is `None` is unset and resolves to
      the fallback the caller passes. */
  datatype Style = Style(
    strokeColor: Option<Color>,
    strokeWidth: Option<real>,
    fontSize: Option<real>,
    fontColor: Option<Color>)
  {
    function GetStrokeColor(default: Color): Color {
      if strokeColor.Some? then strokeColor.value else default
    }
    function GetStrokeWidth(default: real): real {
      if strokeWidth.Some? then strokeWidth.value else default
    }
    function GetFontSize(default: real): real {
      if fontSize.Some? then fontSize.value else default
    }
    function GetFontColor(default: Color): Color {
      if fontColor.Some? then fontColor.value else default
    }
  }

  /** The horizontal axis. `ticks`, when non-empty, overrides tick generation.
      It is the backing array of the axis's `Ticks` slice: copies of the axis
      share it, and so does every slice handed out from it. */
  datatype XAxis = XAxis(
    name: string,
    style: Style,
    valueFormatter: real -> string,
    range: Range,
    ticks: array<Tick>)

  /** The package defaults the axis falls back on and the drawing package's
      point-to-pixel conversion `pointsToPixels(dpi, points)`; all are defined
      outside the axis and enter the model as values. */
  datatype Externals = Externals(
    defaultFontSize: real,
    defaultAxisColor: Color,
    defaultAxisLineWidth: real,
    defaultXAxisMargin: int,
    defaultMinimumTickHorizontalSpacing: real,
    pointsToPixels: (real, real) -> real)
  {
    /** A positive tick spacing and a conversion that keeps non-negative
        sizes non-negative: together they make every per-tick width positive. */
    ghost predicate Valid() {
      && defaultMinimumTickHorizontalSpacing > 0.0
      && forall dpi: real, points: real :: dpi >= 0.0 && points >= 0.0 ==> pointsToPixels(dpi, points) >= 0.0
    }
  }

  /** The font size used for tick labels, both when measuring and when drawing. */
  function LabelFontSize(style: Style, ext: Externals): real {
    style.GetFontSize(ext.defaultFontSize)
  }
}
