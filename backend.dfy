/** The drawing backend as the axis sees it: a stateful renderer whose every
    call is recorded, so that what the axis does to it is a statable trace. */
module Backend {

  /** An RGBA colour of the drawing package. */
  datatype Color = Color(r: nat, g: nat, b: nat, a: nat)

  /** One call made on the renderer, with its arguments. The two queries
      (MeasureText, GetDPI) are recorded too, so that "no call was made" is
      visible in the trace. */
  datatype Command =
    | SetFontSize(size: real)
    | SetFontColor(color: Color)
    | SetStrokeColor(color: Color)
    | SetStrokeWidth(width: real)
    | MoveTo(x: int, y: int)
    | LineTo(x: int, y: int)
    | Stroke
    | Text(body: string, x: int, y: int)
    | MeasureText(body: string)
    | GetDPI

  /** A renderer whose device resolution and font metrics are fixed by the
      backend (they are outside this model), whose current font size is the
      only state a query depends on, and whose calls are appended to `trace`. */
  class Renderer {
    const dpi: real
    /** Width, in points, of a text set at a font size. */
    const metrics: (real, string) -> nat
    var fontSize: real
    var trace: seq<Command>

    constructor (dpi: real, metrics: (real, string) -> nat, fontSize: real)
      ensures this.dpi == dpi && this.fontSize == fontSize && trace == []
      ensures forall size, body :: this.metrics(size, body) == metrics(size, body)
    {
      this.dpi := dpi;
      this.metrics := metrics;
      this.fontSize := fontSize;
      trace := [];
    }

    method SetFontSize(size: real)
      modifies this`fontSize, this`trace
      ensures fontSize == size
      ensures trace == old(trace) + [Command.SetFontSize(size)]
    {
      fontSize := size;
      trace := trace + [Command.SetFontSize(size)];
    }

    /** Measures a text at the current font size. */
    method MeasureText(body: string) returns (width: nat)
      modifies this`trace
      ensures width == metrics(fontSize, body)
      ensures trace == old(trace) + [Command.MeasureText(body)]
    {
      width := metrics(fontSize, body);
      trace := trace + [Command.MeasureText(body)];
    }

    method GetDPI() returns (resolution: real)
      modifies this`trace
      ensures resolution == dpi
      ensures trace == old(trace) + [Command.GetDPI]
    {
      resolution := dpi;
      trace := trace + [Command.GetDPI];
    }

    method SetFontColor(color: Color)
      modifies this`trace
      ensures trace == old(trace) + [Command.SetFontColor(color)]
    {
      trace := trace + [Command.SetFontColor(color)];
    }

    method SetStrokeColor(color: Color)
      modifies this`trace
      ensures trace == old(trace) + [Command.SetStrokeColor(color)]
    {
      trace := trace + [Command.SetStrokeColor(color)];
    }

    method SetStrokeWidth(width: real)
      modifies this`trace
      ensures trace == old(trace) + [Command.SetStrokeWidth(width)]
    {
      trace := trace + [Command.SetStrokeWidth(width)];
    }

    method MoveTo(x: int, y: int)
      modifies this`trace
      ensures trace == old(trace) + [Command.MoveTo(x, y)]
    {
      trace := trace + [Command.MoveTo(x, y)];
    }

    method LineTo(x: int, y: int)
      modifies this`trace
      ensures trace == old(trace) + [Command.LineTo(x, y)]
    {
      trace := trace + [Command.LineTo(x, y)];
    }

    method Stroke()
      modifies this`trace
      ensures trace == old(trace) + [Command.Stroke]
    {
      trace := trace + [Command.Stroke];
    }

    method Text(body: string, x: int, y: int)
      modifies this`trace
      ensures trace == old(trace) + [Command.Text(body, x, y)]
    {
      trace := trace + [Command.Text(body, x, y)];
    }
  }
}
