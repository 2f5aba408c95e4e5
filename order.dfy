/** The canonical order of ticks: ascending by value, the order the `Ticks`
    sort interface imposes before labels are drawn. */
module TickOrder {
  import opened ChartTypes

  predicate SortedByValue(s: seq<Tick>) {
    forall i, j :: 0 <= i < j < |s| ==> s[i].value <= s[j].value
  }

  predicate StrictlySortedByValue(s: seq<Tick>) {
    forall i, j :: 0 <= i < j < |s| ==> s[i].value < s[j].value
  }

  /** The in-place sort of the ticks by ascending value (an insertion sort;
      only its outcome, sorted and a permutation, is promised, as an unstable
      sort would promise). */
  method SortTicks(a: array<Tick>)
    modifies a
    ensures SortedByValue(a[..])
    ensures multiset(a[..]) == old(multiset(a[..]))
  {
    var i := 0;
    while i < a.Length
      invariant 0 <= i <= a.Length
      invariant SortedByValue(a[..i])
      invariant multiset(a[..]) == old(multiset(a[..]))
    {
      InsertAt(a, i);
      i := i + 1;
    }
    assert a[..a.Length] == a[..];
  }

  /** Everything in `s[..n + 1]` is in order except around position `j`, and
      the tick at `j` is no greater than those after it. */
  ghost predicate SortedAround(s: seq<Tick>, n: int, j: int)
    requires 0 <= j <= n < |s|
  {
    && (forall p, q :: 0 <= p < q <= n && p != j && q != j ==> s[p].value <= s[q].value)
    && (forall q :: j < q <= n ==> s[j].value <= s[q].value)
  }

  /** Moves `a[i]` left into the sorted prefix `a[..i]`. */
  method InsertAt(a: array<Tick>, i: int)
    requires 0 <= i < a.Length && SortedByValue(a[..i])
    modifies a
    ensures SortedByValue(a[..i + 1])
    ensures multiset(a[..]) == old(multiset(a[..]))
  {
    var j := i;
    while j > 0 && a[j - 1].value > a[j].value
      invariant 0 <= j <= i
      invariant SortedAround(a[..], i, j)
      invariant multiset(a[..]) == old(multiset(a[..]))
    {
      ghost var before := a[..];
      a[j - 1], a[j] := a[j], a[j - 1];
      SwapKeepsSortedAround(before, a[..], i, j);
      j := j - 1;
    }
    SettledIsSorted(a[..], i, j);
  }

  /** Once the moving tick is no smaller than its left neighbour, the prefix
      up to `n` is sorted. */
  lemma SettledIsSorted(s: seq<Tick>, n: int, j: int)
    requires 0 <= j <= n < |s| && SortedAround(s, n, j)
    requires j == 0 || s[j - 1].value <= s[j].value
    ensures SortedByValue(s[..n + 1])
  {
    forall p, q | 0 <= p < q <= n ensures s[p].value <= s[q].value {
      if q == j && p < j - 1 {
        assert s[p].value <= s[j - 1].value;
      }
    }
  }

  lemma SwapKeepsSortedAround(before: seq<Tick>, after: seq<Tick>, n: int, j: int)
    requires 0 < j <= n < |before| && SortedAround(before, n, j)
    requires before[j - 1].value > before[j].value
    requires after == before[j - 1 := before[j]][j := before[j - 1]]
    ensures SortedAround(after, n, j - 1)
  {
  }

  /** Removing one element keeps a sorted sequence sorted. */
  lemma SortedWithout(s: seq<Tick>, j: int)
    requires SortedByValue(s) && 0 <= j < |s|
    ensures SortedByValue(s[..j] + s[j + 1..])
  {
    var t := s[..j] + s[j + 1..];
    forall p, q | 0 <= p < q < |t| ensures t[p].value <= t[q].value {
      var p' := if p < j then p else p + 1;
      var q' := if q < j then q else q + 1;
      assert t[p] == s[p'] && t[q] == s[q'];
    }
  }

  /** The first ticks of two sorted arrangements of the same ticks share a
      value, and so does any copy of the first tick of `a` found in `b`. */
  lemma SortedHeadsAgree(a: seq<Tick>, b: seq<Tick>, j: int)
    requires SortedByValue(a) && SortedByValue(b)
    requires multiset(a) == multiset(b)
    requires 0 <= j < |b| && 0 < |a| && b[j] == a[0]
    ensures a[0].value == b[0].value == b[j].value
  {
    assert b[0] in multiset(a);
    var i :| 0 <= i < |a| && a[i] == b[0];
  }

  /** Dropping the same tick from both sides of a multiset equality. */
  lemma MultisetWithout(a: seq<Tick>, b: seq<Tick>, j: int)
    requires multiset(a) == multiset(b)
    requires 0 <= j < |b| && 0 < |a| && b[j] == a[0]
    ensures multiset(b[..j] + b[j + 1..]) == multiset(a[1..])
  {
    assert b == b[..j] + [b[j]] + b[j + 1..];
    assert multiset(b) == multiset(b[..j] + b[j + 1..]) + multiset{b[j]};
    assert a == [a[0]] + a[1..];
    assert multiset(a) == multiset{a[0]} + multiset(a[1..]);
    calc {
      multiset(b[..j] + b[j + 1..]);
      multiset(b) - multiset{b[j]};
      multiset(a) - multiset{a[0]};
      multiset(a[1..]);
    }
  }

  /** Two sorted arrangements of the same ticks carry the same value at every
      position: sorting fixes where each value is drawn, whatever order the
      ticks came in. */
  lemma {:induction false} SortedPermutationsAgreeOnValues(a: seq<Tick>, b: seq<Tick>)
    requires SortedByValue(a) && SortedByValue(b)
    requires multiset(a) == multiset(b)
    ensures |a| == |b|
    ensures forall i :: 0 <= i < |a| ==> a[i].value == b[i].value
    decreases |a|
  {
    assert |a| == |multiset(a)| == |multiset(b)| == |b|;
    if |a| > 0 {
      assert a[0] in multiset(b);
      var j :| 0 <= j < |b| && b[j] == a[0];
      SortedHeadsAgree(a, b, j);
      var rest := b[..j] + b[j + 1..];
      MultisetWithout(a, b, j);
      SortedWithout(b, j);
      SortedWithout(a, 0);
      assert a[1..] == a[..0] + a[1..];
      SortedPermutationsAgreeOnValues(a[1..], rest);
      ReinsertedValuesAgree(a, b, j);
    }
  }

  /** If `a`'s tail agrees in value with `b` minus its `j`-th tick, and the
      ticks `b[0..j]` all share `a[0]`'s value, then `a` agrees with `b`. */
  lemma ReinsertedValuesAgree(a: seq<Tick>, b: seq<Tick>, j: int)
    requires SortedByValue(b) && 0 <= j < |b| && |a| == |b|
    requires a[0].value == b[0].value == b[j].value
    requires var rest := b[..j] + b[j + 1..];
      forall k :: 0 <= k < |rest| ==> a[k + 1].value == rest[k].value
    ensures forall i :: 0 <= i < |a| ==> a[i].value == b[i].value
  {
    var rest := b[..j] + b[j + 1..];
    forall k | 0 <= k < |a| ensures a[k].value == b[k].value {
      if 0 < k <= j {
        assert rest[k - 1] == b[k - 1];
        assert b[0].value <= b[k - 1].value <= b[k].value <= b[j].value;
      } else if k > j {
        assert rest[k - 1] == b[k];
      }
    }
  }

  /** When no two ticks share a value, the sorted arrangement is unique. */
  lemma SortedPermutationsEqual(a: seq<Tick>, b: seq<Tick>)
    requires StrictlySortedByValue(a) && SortedByValue(b)
    requires multiset(a) == multiset(b)
    ensures a == b
  {
    SortedPermutationsAgreeOnValues(a, b);
    forall i | 0 <= i < |a| ensures a[i] == b[i] {
      assert b[i] in multiset(a);
      var k :| 0 <= k < |a| && a[k] == b[i];
      assert a[k].value == a[i].value;
    }
  }
}
