/** The menu bar's eight-level sparkline (`_make_sparkline`). */
module Sparkline {

  /** The eight block characters, lowest first. */
  const Blocks: string := "\U{2581}\U{2582}\U{2583}\U{2584}\U{2585}\U{2586}\U{2587}\U{2588}"

  lemma BlocksAscending(a: int, b: int)
    requires 0 <= a <= b < 8
    ensures |Blocks| == 8 && Blocks[a] <= Blocks[b]
  {
  }

  function SeqMin(s: seq<real>): (m: real)
    requires |s| > 0
    ensures m in s && forall x :: x in s ==> m <= x
  {
    if |s| == 1 then s[0]
    else
      var rest := SeqMin(s[1..]);
      assert s == [s[0]] + s[1..];
      if s[0] <= rest then s[0] else rest
  }

  function SeqMax(s: seq<real>): (m: real)
    requires |s| > 0
    ensures m in s && forall x :: x in s ==> x <= m
  {
    if |s| == 1 then s[0]
    else
      var rest := SeqMax(s[1..]);
      assert s == [s[0]] + s[1..];
      if s[0] >= rest then s[0] else rest
  }

  /** Python's `int(x)`: truncation toward zero. */
  function Trunc(x: real): (n: int)
    ensures x >= 0.0 ==> n as real <= x < n as real + 1.0
    ensures x < 0.0 ==> n as real - 1.0 < x <= n as real
  {
    if x >= 0.0 then x.Floor else -((-x).Floor)
  }

  /** The block index of `v` on the scale `lo..hi`; a flat scale has range 1. */
  function Level(v: real, lo: real, hi: real): (k: int)
    requires lo <= v <= hi
    ensures 0 <= k < 8
  {
    var range := if hi > lo then hi - lo else 1.0;
    var scaled := Trunc((v - lo) / range * 7.0);
    assert 0.0 <= (v - lo) / range * 7.0 <= 7.0 by {
      assert (v - lo) / range <= 1.0;
    }
    if scaled < 7 then scaled else 7
  }

  lemma LevelMonotone(v: real, w: real, lo: real, hi: real)
    requires lo <= v <= w <= hi
    ensures Level(v, lo, hi) <= Level(w, lo, hi)
  {
    var range := if hi > lo then hi - lo else 1.0;
    assert (v - lo) / range <= (w - lo) / range;
  }

  /** `values[-width:]` when there are more than `width` values; `-0` slices the whole list. */
  function Window(values: seq<real>, width: nat): (w: seq<real>)
    ensures |w| == if 0 < width < |values| then width else |values|
    ensures forall k :: 0 <= k < |w| ==> w[k] == values[|values| - |w| + k]
  {
    if |values| > width && width > 0 then values[|values| - width..] else values
  }

  /** The sparkline of `values`: one block per value of the window, scaled between the minimum
      and the maximum of all values, truncation included. */
  function Sparkline(values: seq<real>, width: nat): (r: string)
    ensures values == [] ==> r == ""
    ensures |r| == |Window(values, width)|
  {
    if values == [] then ""
    else
      var lo, hi := SeqMin(values), SeqMax(values);
      var w := Window(values, width);
      assert forall k :: 0 <= k < |w| ==> w[k] in values;
      seq(|w|, i requires 0 <= i < |w| => Blocks[Level(w[i], lo, hi)])
  }

  /** Every character of a sparkline is one of the eight blocks. */
  lemma SparklineBlocks(values: seq<real>, width: nat, i: int)
    requires 0 <= i < |Window(values, width)|
    ensures |Sparkline(values, width)| == |Window(values, width)|
    ensures Sparkline(values, width)[i] in Blocks
  {
    var w := Window(values, width);
    assert w[i] in values;
    assert Sparkline(values, width)[i] == Blocks[Level(w[i], SeqMin(values), SeqMax(values))];
  }

  /** A value no larger than another never gets a higher block. */
  lemma SparklineMonotone(values: seq<real>, width: nat, i: int, j: int)
    requires 0 <= i < |Window(values, width)| && 0 <= j < |Window(values, width)|
    requires Window(values, width)[i] <= Window(values, width)[j]
    ensures |Sparkline(values, width)| == |Window(values, width)|
    ensures Sparkline(values, width)[i] <= Sparkline(values, width)[j]
  {
    var w := Window(values, width);
    var lo, hi := SeqMin(values), SeqMax(values);
    assert w[i] in values && w[j] in values;
    LevelMonotone(w[i], w[j], lo, hi);
    BlocksAscending(Level(w[i], lo, hi), Level(w[j], lo, hi));
  }

  /** Values that are all equal give the lowest block throughout. */
  lemma SparklineFlat(values: seq<real>, width: nat, i: int)
    requires forall a, b :: 0 <= a < |values| && 0 <= b < |values| ==> values[a] == values[b]
    requires 0 <= i < |Window(values, width)|
    ensures |Sparkline(values, width)| == |Window(values, width)|
    ensures Sparkline(values, width)[i] == Blocks[0]
  {
    var w := Window(values, width);
    var lo, hi := SeqMin(values), SeqMax(values);
    assert w[i] in values;
    assert lo == w[i] == hi;
    assert Sparkline(values, width)[i] == Blocks[Level(w[i], lo, hi)];
  }

  /** One character of a sparkline: the block of that window value on the scale of all values. */
  lemma SparklineAt(values: seq<real>, width: nat, k: int)
    requires 0 <= k < |Window(values, width)|
    ensures values[|values| - |Window(values, width)| + k] in values
    ensures Sparkline(values, width)[k]
         == Blocks[Level(values[|values| - |Window(values, width)| + k], SeqMin(values), SeqMax(values))]
  {
    var w := Window(values, width);
    assert w[k] == values[|values| - |w| + k];
  }

  /** The scale is set by every value, not only by those the window keeps: each block of a
      narrow sparkline is the block the same value gets in the sparkline of all values. */
  lemma WindowKeepsWholeScale(values: seq<real>, width: nat, k: int)
    requires 0 <= k < |Window(values, width)|
    ensures |Sparkline(values, 0)| == |values|
    ensures Sparkline(values, width)[k] == Sparkline(values, 0)[|values| - |Window(values, width)| + k]
  {
    var j := |values| - |Window(values, width)| + k;
    SparklineAt(values, width, k);
    SparklineAt(values, 0, j);
  }

  /** `_make_sparkline`: builds the same string one block at a time. */
  method MakeSparkline(values: seq<real>, width: nat) returns (r: string)
    ensures r == Sparkline(values, width)
  {
    if values == [] {
      return "";
    }
    var lo, hi := SeqMin(values), SeqMax(values);
    var w := Window(values, width);
    r := "";
    var i := 0;
    while i < |w|
      invariant 0 <= i <= |w|
      invariant |r| == i
      invariant forall k :: 0 <= k < i ==> lo <= w[k] <= hi && r[k] == Blocks[Level(w[k], lo, hi)]
    {
      assert w[i] in values;
      r := r + [Blocks[Level(w[i], lo, hi)]];
      i := i + 1;
    }
    forall k | 0 <= k < |w|
      ensures r[k] == Sparkline(values, width)[k]
    {
      SparklineAt(values, width, k);
    }
  }
}
