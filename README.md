# Horizontal axis of go-chart, in Dafny

This project models the horizontal axis (`XAxis`) of the go-chart library.
The axis does two things:

- It resolves its ticks. Ticks the caller put on the axis win verbatim.
  Otherwise ticks are generated. The widest end label is measured to estimate
  how many labels fit side by side on the canvas. The data range is divided
  into that many steps. A cursor then walks from `Min` by that step while it
  stays below `Max`.
- It draws itself on a stateful renderer. It strokes a baseline along the
  canvas bottom. It sorts the ticks in place by value. It draws each label at
  `canvasBox.Right - Translate(value)`, on one common label line.

Layout of the project:

- `types.dfy` (module `ChartTypes`): ticks, ranges, boxes, styles, the axis
  record, and `Externals`. `Externals` carries the package defaults and the
  point-to-pixel conversion, which are defined outside the axis.
- `backend.dfy` (module `Backend`): the renderer, as a class that appends
  every call it receives to a `trace` of `Command`s. The queries
  `MeasureText` and `GetDPI` are recorded too.
- `ticks.dfy` (module `TickLayout`): the arithmetic of tick generation on
  exact reals. This covers the widest label, `math.Ceil`, the tick count, the
  step, and the closed form of the generating loop, with its lemmas.
- `order.dfy` (module `TickOrder`): the ascending-by-value order, the in-place
  sort, and the uniqueness of sorted arrangements.
- `trace.dfy` (module `AxisTrace`): the command sequence `Render` emits, and
  what it promises.
- `xaxis.dfy` (module `Chart`): the axis operations as methods over the
  renderer. These are `GetTicks`, `GenerateTicks`, `GetTickCount`,
  `GetTickStep`, `GenerateTicksWithStep` and `Render`.

`float64` is modelled as `real`, so the loop's cursor after `k` steps is
exactly `Min + k * step`. Integer pixel coordinates are `int`. Go's
float-to-int conversions are written out: `Ceil` for `int(math.Ceil(..))`,
and `Trunc` (toward zero) for `int(tickHeight)`. A tick's `Label` field is
called `text` because `label` is a reserved word in Dafny.

Two details of the code shape the model:

- The code does not clamp a zero tick count (xaxis.go:57, 63). The model
  requires a positive canvas domain wherever ticks are generated.
- The end labels are compared with Go's `len`, which counts UTF-8 bytes, not
  characters (xaxis.go:51). The model compares `Utf8Length`, and proves that
  it equals the character count for ASCII labels.

A tick slice is modelled by its backing array, `array<Tick>`. The axis's
own `Ticks` is such an array, shared by every copy of the axis value.
`GetTicks` hands that same array back when it is non-empty, and `Render`
sorts the array it is given in place. So rendering the resolved ticks
reorders the axis's own ticks, and `ResolveAndRender` states this.

## Model

| member | source | states |
|---|---|---|
| `TickLayout.Utf8Length` | xaxis.go:51 | a label's length as `len` counts it lies between its character count and four times that, and equals the character count for ASCII text |
| `TickLayout.WidestLabel` | xaxis.go:48-53 | the chosen label is one of the two end labels and is at least as long as both; when the max label is not strictly longer, the min label is kept (ties keep the min label) |
| `TickLayout.Ceil` | xaxis.go:57 | `math.Ceil` yields the least integer not below its argument |
| `TickLayout.Trunc` | xaxis.go:82 | converting the label height to `int` truncates toward zero, for both signs |
| `TickLayout.TickCount` | xaxis.go:54-58 | the count is the least integer `n` with `n * (textWidth + spacing) >= Domain`, which is `ceil(Domain / width)`; it is at least 1 on a positive domain |
| `TickLayout.TickCountExample` | xaxis.go:56-57 | a 40-pixel label plus 20 pixels of spacing on a 200-pixel domain gives 4 ticks |
| `TickLayout.TickStep` | xaxis.go:61-65 | the step times the tick count is the range delta, and the step is positive for a positive delta and count |
| `TickLayout.TickTotal` | xaxis.go:69 | the number of loop iterations is 0 for an empty range, and otherwise the least `n` whose cursor `Min + n * step` reaches `Max` |
| `TickLayout.GeneratedTicks` | xaxis.go:67-76 | generation yields no tick when `Min >= Max`, whatever the step; every generated tick's label is the formatter applied to its value |
| `TickLayout.BelowMaxIffBeforeTotal` | xaxis.go:69 | index `k` is generated if and only if the cursor after `k` steps is still below `Max` |
| `TickLayout.GeneratedStart` | xaxis.go:69-73 | the sequence is non-empty exactly when `Min < Max`, and its first tick is `(Min, vf(Min))` |
| `TickLayout.GeneratedValueAt` | xaxis.go:69-73 | the i-th generated tick has value `Min + i * step` and label `vf(Min + i * step)` |
| `TickLayout.GeneratedBelowMax` | xaxis.go:69 | every generated value is strictly below `Max` |
| `TickLayout.GeneratedArithmetic` | xaxis.go:69 | consecutive generated values differ by exactly `step` |
| `TickLayout.GeneratedIncreasing` | xaxis.go:69 | generated values strictly increase |
| `TickLayout.GeneratedLengthIsLeast` | xaxis.go:69 | the number of ticks is the least `n` with `Min + n * step >= Max`: that cursor reaches `Max` and every earlier one is below it, so the loop terminates on exact reals |
| `TickLayout.GeneratedUnfold` | xaxis.go:69-75 | the closed form satisfies the loop's one-iteration recurrence: below `Max`, emit `(cursor, vf(cursor))` and continue from `cursor + step`; otherwise stop |
| `TickLayout.GeneratedCountMatches` | xaxis.go:61-76 | stepping by `Delta / count` over a non-empty range yields exactly `count` ticks, on exact reals |
| `TickOrder.SortTicks` | xaxis.go:94 | the in-place sort leaves the ticks ascending by value and a permutation of the input |
| `TickOrder.SortedPermutationsAgreeOnValues` | xaxis.go:94-100 | two sorted arrangements of the same ticks have the same length and the same value at every position |
| `TickOrder.SortedPermutationsEqual` | xaxis.go:94-100 | when the values are distinct, the sorted arrangement of a set of ticks is unique |
| `AxisTrace.LabelCommands` | xaxis.go:95-100 | the label loop emits one `Text` per tick in the given order: the k-th is the k-th tick's label at `Right - Translate(value)` and the common y |
| `AxisTrace.RenderStrokesBaselineOnce` | xaxis.go:84-92 | drawing strokes exactly one path, from `(Left, Bottom)` to `(Right, Bottom)`, after the style's stroke colour and width are set and before any label text |
| `AxisTrace.RenderLabelsOnePerTick` | xaxis.go:80-100 | the number of `Text` calls equals the number of ticks; every one is at y = `Bottom + DefaultXAxisMargin + int(tickHeight)`; the k-th draws the k-th sorted tick at `Right - Translate(value)`; the font colour and size are set before them |
| `AxisTrace.RenderOrderIndependent` | xaxis.go:94-100 | sorted arrangements of the same ticks put every label at the same position, and give the identical trace when values are distinct |
| `AxisTrace.LabelXExample` | xaxis.go:97-98 | with right edge 100 and `Translate(v) = v * 10`, a tick at 3 is drawn at x = 70 |
| `Chart.GetTicks` | xaxis.go:31-36 | non-empty caller ticks are returned as the axis's own array, not a copy, with the renderer untouched; otherwise the result is a new array holding the generated sequence for the estimated step, and the renderer saw exactly the measuring calls |
| `Chart.GenerateTicks` | xaxis.go:38-41 | generation is the step estimate followed by the stepping loop |
| `Chart.GetTickCount` | xaxis.go:43-59 | the font size is set before measuring; the widest end label is measured at that size and converted at the renderer's DPI; the count is `TickCount` of the domain, that width and the minimum spacing; the renderer sees SetFontSize, MeasureText, GetDPI in that order |
| `Chart.GetTickStep` | xaxis.go:61-65 | the step is the range delta divided by the estimated count |
| `Chart.GenerateTicksWithStep` | xaxis.go:67-76 | the accumulating `cursor += step` loop produces exactly the closed-form sequence `GeneratedTicks` |
| `Chart.Render` | xaxis.go:79-101 | the caller's array ends up sorted ascending by value and a permutation of what it was; the renderer's trace grows by exactly `RenderCommands` of the sorted ticks; the font size left set is the label font size |
| `Chart.ResolveAndRender` | xaxis.go:31-101 | resolving and then rendering leaves the axis's own ticks, when it has any, sorted in place and a permutation of what they were, because `GetTicks` returned that very array; generated ticks are rendered in a new array after the measuring calls and stay exactly the generated sequence, which sorting leaves as it is; the trace is the measuring calls, if any, followed by `RenderCommands` of the sorted ticks |
| `Chart.DrawBaseline` | xaxis.go:84-89 | the stroke colour and width are set, then a move to the bottom-left, a line to the bottom-right, and one stroke |
| `Chart.DrawLabels` | xaxis.go:95-100 | one `Text` call per tick in array order, at the tick's mirrored x and the common y |
| `Chart.GeneratedCountIsEstimate` | xaxis.go:43-76 | without overrides, on a positive domain and a non-empty range, the number of generated ticks equals the estimated tick count, which is at least 1, on exact reals |

## Left out

- Floating point: values are exact reals. The rounding of `cursor += step`, NaN and the infinities are not modelled. Two proved properties hold only on exact reals:
  - The tick count. `GeneratedCountMatches` and `GeneratedCountIsEstimate` promise exactly `count` ticks. In float64, `Min` 0, `Max` 1 and count 10 give a step of 0.1, ten additions of 0.1 give 0.9999999999999999, still below `Max`, and the loop emits 11 ticks.
  - Termination. `GeneratedLengthIsLeast` and `GenerateTicksWithStep` rely on every positive step moving the cursor. In float64, `Min` = 2^60, `Max` = 2^60 + 1024 and count 17 give a step of about 60.2, less than half the float spacing at 2^60 (128), so `cursor += step` leaves the cursor at `Min` and the loop never ends.
- Zero tick count: in the source, a zero tick count gives a `+Inf` step and exactly one tick when `Min < Max`; when `Min == Max` the step is NaN and no tick is generated.
- Go's `int(..)` of a float outside the `int` range is implementation-defined. `Ceil` and `Trunc` are exact.
- Chart.GetTicks: requires a positive canvas domain when the axis has no ticks of its own. In the source, a domain above `-width` but not positive (`width` being the label width plus the spacing) gives a zero count, with the outcomes of a zero count given above. A domain of at most `-width` gives a negative count; when `Min < Max` the step is then negative and the loop does not terminate, and otherwise no tick is generated.
- Chart.GenerateTicks: requires a positive domain, for the reason given for GetTicks.
- Chart.GetTickStep: requires a positive domain, for the reason given for GetTicks.
- Chart.GetTickCount: requires a positive minimum spacing, a conversion that keeps non-negative sizes non-negative, and a non-negative DPI. Together these guarantee a positive per-tick width. The source divides whatever width it gets.
- Chart.GenerateTicksWithStep: requires a positive step when `Min < Max`. The source's loop does not terminate on any other step, and in float64 it can also fail to terminate on a positive step too small to move the cursor (see the floating-point line).
- The renderer's text measurement, its DPI, `drawing.PointsToPixels`, `Range.Translate`, the `Style` default resolution and the `Default*` constants are defined outside the axis. They enter as parameters: the renderer's `metrics` and `dpi`, `Externals`, `Range.translate`, and `Style` with optional fields. A `None` field stands for Go's zero value, which the source treats as unset: an explicit 0 in Go resolves to the default, while the model's `Some(0.0)` resolves to 0.0.
- `MeasureText` returns a second value that the source ignores. Backend errors are not modelled.
- The formatter is a pure function. "No formatter call" on the override path is therefore expressed as a result that does not depend on it.
- The `Ticks` sort order is defined in a file that is not part of this model. It is taken as ascending by value. `sort.Sort` is not stable, so `SortTicks` (an insertion sort) promises only a sorted permutation. Labels of equal-valued ticks may come out in either order; only their positions are proved order-independent.
- `Render`'s baseline and label-loop steps are written as the helper methods `DrawBaseline` and `DrawLabels`. The call order is unchanged.
- `GetName` and `GetStyle` are plain field accessors and are not modelled.
- Actual pixels, fonts and colours are out of scope. Only the sequence of renderer calls is modelled.
