/** Tick generation, stated on exact reals: how many ticks fit the canvas,
    the step between them, and the arithmetic sequence the generating loop
    walks. */
module TickLayout {
  import opened ChartTypes

  /** The number of bytes a character takes in UTF-8. */
  function Utf8Width(c: char): (n: nat)
    ensures 1 <= n <= 4
  {
    if c as int < 0x80 then 1
    else if c as int < 0x800 then 2
    else if c as int < 0x1_0000 then 3
    else 4
  }

  /** The length of a label as the source's `len` counts it: bytes of its
      UTF-8 encoding, which equals the character count exactly when every
      character is ASCII. */
  function Utf8Length(s: string): (n: nat)
    ensures |s| <= n <= 4 * |s|
    ensures (forall i :: 0 <= i < |s| ==> s[i] as int < 0x80) ==> n == |s|
  {
    if s == [] then 0 else Utf8Width(s[0]) + Utf8Length(s[1..])
  }

  /** The longer of the two end labels, by encoded length; on a tie the
      label of the minimum. */
  function WidestLabel(first: string, last: string): (widest: string)
    ensures widest == first || widest == last
    ensures Utf8Length(widest) >= Utf8Length(first) && Utf8Length(widest) >= Utf8Length(last)
    ensures Utf8Length(last) <= Utf8Length(first) ==> widest == first
  {
    if Utf8Length(last) > Utf8Length(first) then last else first
  }

  /** `math.Ceil`: the least integer not below `x`. */
  function Ceil(x: real): (c: int)
    ensures x <= c as real < x + 1.0
  {
    var f := x.Floor;
    if f as real == x then f else f + 1
  }

  /** The conversion of a float to an integer, which truncates toward zero. */
  function Trunc(x: real): (n: int)
    ensures x >= 0.0 ==> n as real <= x < n as real + 1.0
    ensures x < 0.0 ==> n as real - 1.0 < x <= n as real
  {
    if x >= 0.0 then x.Floor else -((-x).Floor)
  }

  /** Scaling `q <= c < q + 1` by a positive `w`. */
  lemma ScaledCeilBounds(q: real, w: real, c: int)
    requires w > 0.0 && q <= c as real < q + 1.0
    ensures c as real * w >= q * w
    ensures (c - 1) as real * w < q * w
  {
    assert c as real * w - q * w == (c as real - q) * w;
    assert q * w - (c - 1) as real * w == (q - (c - 1) as real) * w;
  }

  /** `Ceil(x / w)` is the least integer `c` with `c * w >= x`. */
  lemma CeilQuotient(x: real, w: real)
    requires w > 0.0
    ensures Ceil(x / w) as real * w >= x
    ensures (Ceil(x / w) - 1) as real * w < x
  {
    var q := x / w;
    var c := Ceil(q);
    assert q * w == x;
    ScaledCeilBounds(q, w, c);
    var lo := (c - 1) as real * w;
    assert lo < q * w == x;
  }

  /** The number of ticks that fit on `domain` pixels when each one needs
      `textWidth` pixels of label plus `spacing` pixels of gap. */
  function TickCount(domain: int, textWidth: real, spacing: real): (count: int)
    requires textWidth + spacing > 0.0
    ensures count as real * (textWidth + spacing) >= domain as real
    ensures (count - 1) as real * (textWidth + spacing) < domain as real
    ensures domain > 0 ==> count >= 1
  {
    CeilQuotient(domain as real, textWidth + spacing);
    Ceil(domain as real / (textWidth + spacing))
  }

  /** A spacing of 20 pixels and a 40-pixel label on a 200-pixel canvas
      leave room for 4 ticks. */
  lemma TickCountExample()
    ensures TickCount(200, 40.0, 20.0) == 4
  {
  }

  /** The distance between ticks when `count` of them share `delta`. */
  function TickStep(delta: real, count: int): (step: real)
    requires count != 0
    ensures step * count as real == delta
    ensures delta > 0.0 && count > 0 ==> step > 0.0
  {
    delta / count as real
  }

  /** The cursor after `k` iterations of `cursor += step` from `min`, on
      exact reals. */
  function CursorAt(min: real, step: real, k: nat): real {
    min + k as real * step
  }

  /** How many ticks the loop `for cursor := min; cursor < max; cursor += step`
      emits: none for an empty range, otherwise the least `n` with
      `min + n * step >= max`. */
  function TickTotal(min: real, max: real, step: real): (n: nat)
    requires min < max ==> step > 0.0
    ensures CursorAt(min, step, n) >= max
    ensures n > 0 ==> CursorAt(min, step, n - 1) < max
  {
    if min >= max then 0
    else
      CeilQuotient(max - min, step);
      Ceil((max - min) / step)
  }

  /** The ticks generated from `min` by `step` below `max`: the i-th has value
      `min + i * step` and is labelled by the formatter. */
  function GeneratedTicks(min: real, max: real, step: real, vf: real -> string): (ticks: seq<Tick>)
    requires min < max ==> step > 0.0
    ensures min >= max ==> ticks == []
    ensures forall i :: 0 <= i < |ticks| ==> ticks[i].text == vf(ticks[i].value)
  {
    seq(TickTotal(min, max, step), (i: int) requires 0 <= i => Tick(CursorAt(min, step, i), vf(CursorAt(min, step, i))))
  }

  /** With a positive step the cursor only moves forward. */
  lemma CursorMonotone(min: real, step: real, a: nat, b: nat)
    requires step > 0.0 && a <= b
    ensures CursorAt(min, step, a) <= CursorAt(min, step, b)
    ensures a < b ==> CursorAt(min, step, a) < CursorAt(min, step, b)
  {
    var lo := a as real * step;
    var hi := b as real * step;
    assert hi - lo == (b - a) as real * step;
  }

  /** An index lies inside the generated sequence exactly when the cursor
      value it stands for is still below `max`. */
  lemma BelowMaxIffBeforeTotal(min: real, max: real, step: real, k: nat)
    requires step > 0.0
    ensures k < TickTotal(min, max, step) <==> CursorAt(min, step, k) < max
  {
    var n := TickTotal(min, max, step);
    if k < n {
      CursorMonotone(min, step, k, n - 1);
    } else {
      CursorMonotone(min, step, n, k);
    }
  }

  /** Tick generation yields nothing exactly for an empty range, and otherwise
      starts at `min`. */
  lemma GeneratedStart(min: real, max: real, step: real, vf: real -> string)
    requires step > 0.0
    ensures var ticks := GeneratedTicks(min, max, step, vf);
      && (min < max <==> |ticks| > 0)
      && (|ticks| > 0 ==> ticks[0] == Tick(min, vf(min)))
  {
    BelowMaxIffBeforeTotal(min, max, step, 0);
  }

  /** The i-th generated tick sits `i` steps past `min` and carries the
      formatted value as its label. */
  lemma GeneratedValueAt(min: real, max: real, step: real, vf: real -> string)
    requires min < max ==> step > 0.0
    ensures var ticks := GeneratedTicks(min, max, step, vf);
      forall i :: 0 <= i < |ticks| ==>
        ticks[i] == Tick(min + i as real * step, vf(min + i as real * step))
  {
  }

  /** Every generated value lies below `max`. */
  lemma GeneratedBelowMax(min: real, max: real, step: real, vf: real -> string)
    requires step > 0.0
    ensures var ticks := GeneratedTicks(min, max, step, vf);
      forall i :: 0 <= i < |ticks| ==> ticks[i].value < max
  {
    var ticks := GeneratedTicks(min, max, step, vf);
    forall i | 0 <= i < |ticks| ensures ticks[i].value < max {
      BelowMaxIffBeforeTotal(min, max, step, i);
    }
  }

  /** Consecutive generated values differ by exactly `step`. */
  lemma GeneratedArithmetic(min: real, max: real, step: real, vf: real -> string)
    requires step > 0.0
    ensures var ticks := GeneratedTicks(min, max, step, vf);
      forall i :: 0 < i < |ticks| ==> ticks[i].value == ticks[i - 1].value + step
  {
    var ticks := GeneratedTicks(min, max, step, vf);
    forall i | 0 < i < |ticks| ensures ticks[i].value == ticks[i - 1].value + step {
      assert CursorAt(min, step, i) == CursorAt(min, step, i - 1) + step;
    }
  }

  /** The generated values strictly increase. */
  lemma GeneratedIncreasing(min: real, max: real, step: real, vf: real -> string)
    requires step > 0.0
    ensures var ticks := GeneratedTicks(min, max, step, vf);
      forall i, j :: 0 <= i < j < |ticks| ==> ticks[i].value < ticks[j].value
  {
    var ticks := GeneratedTicks(min, max, step, vf);
    forall i, j | 0 <= i < j < |ticks| ensures ticks[i].value < ticks[j].value {
      CursorMonotone(min, step, i, j);
    }
  }

  /** The generated length is the least `n` whose cursor reaches `max`:
      every earlier cursor is still below it. */
  lemma GeneratedLengthIsLeast(min: real, max: real, step: real, vf: real -> string)
    requires step > 0.0
    ensures var n := |GeneratedTicks(min, max, step, vf)|;
      && CursorAt(min, step, n) >= max
      && forall k: nat :: k < n ==> CursorAt(min, step, k) < max
  {
    var n := |GeneratedTicks(min, max, step, vf)|;
    forall k: nat | k < n ensures CursorAt(min, step, k) < max {
      BelowMaxIffBeforeTotal(min, max, step, k);
    }
  }

  /** The closed form agrees with the loop taken one iteration at a time:
      emit the cursor when it is below `max`, then continue from
      `cursor + step`. */
  lemma {:induction false} GeneratedUnfold(min: real, max: real, step: real, vf: real -> string)
    requires step > 0.0
    ensures GeneratedTicks(min, max, step, vf)
         == if min < max then [Tick(min, vf(min))] + GeneratedTicks(min + step, max, step, vf) else []
  {
    if min < max {
      var n := TickTotal(min, max, step);
      var m := TickTotal(min + step, max, step);
      BelowMaxIffBeforeTotal(min, max, step, 0);
      // m is n - 1: the cursor at m from min + step is the cursor at m + 1 from min.
      assert CursorAt(min + step, step, m) == CursorAt(min, step, m + 1);
      BelowMaxIffBeforeTotal(min, max, step, m + 1);
      if m > 0 {
        assert CursorAt(min + step, step, m - 1) == CursorAt(min, step, m);
        BelowMaxIffBeforeTotal(min, max, step, m);
      }
      assert m == n - 1;
      var ticks := GeneratedTicks(min, max, step, vf);
      var rest := GeneratedTicks(min + step, max, step, vf);
      assert |ticks| == |[Tick(min, vf(min))] + rest|;
      forall i | 0 <= i < |ticks| ensures ticks[i] == ([Tick(min, vf(min))] + rest)[i] {
        if i > 0 {
          assert CursorAt(min + step, step, i - 1) == CursorAt(min, step, i);
        }
      }
    }
  }

  /** Stepping by `delta / count` over a range of width `delta` yields
      exactly `count` ticks. */
  lemma GeneratedCountMatches(min: real, max: real, count: int, vf: real -> string)
    requires min < max && count >= 1
    ensures TickStep(max - min, count) > 0.0
    ensures |GeneratedTicks(min, max, TickStep(max - min, count), vf)| == count
  {
    var step := TickStep(max - min, count);
    var q := (max - min) / step;
    assert q * step == max - min;
    assert count as real * step == max - min;
    assert q == count as real by {
      assert (q - count as real) * step == 0.0;
    }
  }
}
