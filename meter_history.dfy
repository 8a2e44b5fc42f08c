/** The peak-level history behind the scrolling meter: a ring of 64 levels and the
    index of the slot the next timer tick overwrites, which is also the oldest slot. */
module MeterHistory {

  const Size: nat := 64

  datatype Ring = Ring(levels: seq<real>, writeIndex: nat)

  ghost predicate Valid(r: Ring) {
    |r.levels| == Size && r.writeIndex < Size
  }

  /** The history the component starts with: every level 0, writing at slot 0. */
  function Empty(): (r: Ring)
    ensures Valid(r)
    ensures r.writeIndex == 0 && forall k :: 0 <= k < Size ==> r.levels[k] == 0.0
  {
    Ring(seq(Size, _ => 0.0), 0)
  }

  /** One timer tick: store `level` in the write slot, then advance the index modulo the size. */
  function Push(r: Ring, level: real): (r': Ring)
    requires Valid(r)
    ensures Valid(r')
    ensures r'.levels[r.writeIndex] == level
    ensures forall k :: 0 <= k < Size && k != r.writeIndex ==> r'.levels[k] == r.levels[k]
    ensures r'.writeIndex == if r.writeIndex == Size - 1 then 0 else r.writeIndex + 1
  {
    Ring(r.levels[r.writeIndex := level], (r.writeIndex + 1) % Size)
  }

  /** jlimit (0, 1, x): the level a bar is drawn with. */
  function Clamp01(x: real): (r: real)
    ensures 0.0 <= r <= 1.0
    ensures 0.0 <= x <= 1.0 ==> r == x
    ensures x < 0.0 ==> r == 0.0
    ensures 1.0 < x ==> r == 1.0
  {
    if x < 0.0 then 0.0 else if 1.0 < x then 1.0 else x
  }

  /** The bar heights paint draws, left to right: slot (writeIndex + i) % Size for bar i, clamped. */
  function Bars(r: Ring): (bars: seq<real>)
    requires Valid(r)
    ensures |bars| == Size
    ensures forall i :: 0 <= i < Size ==> 0.0 <= bars[i] <= 1.0
  {
    var bars := seq(Size, i requires 0 <= i < Size => Clamp01(r.levels[(r.writeIndex + i) % Size]));
    assert forall i :: 0 <= i < Size ==> bars[i] == Clamp01(r.levels[(r.writeIndex + i) % Size]);
    bars
  }

  /** After a tick the display scrolls left by one bar and the new level appears at the right. */
  lemma BarsScroll(r: Ring, level: real)
    requires Valid(r)
    ensures Bars(Push(r, level)) == Bars(r)[1..] + [Clamp01(level)]
  {
    var r' := Push(r, level);
    var w := r.writeIndex;
    forall i | 0 <= i < Size
      ensures Bars(r')[i] == (Bars(r)[1..] + [Clamp01(level)])[i]
    {
      if i < Size - 1 {
        var k := (w + i + 1) % Size;
        assert (r'.writeIndex + i) % Size == k;
        assert k != w;
      } else {
        assert (r'.writeIndex + i) % Size == w;
      }
    }
  }

  /** The ticks `levels`, oldest first, applied one after another. */
  function PushAll(r: Ring, levels: seq<real>): (r': Ring)
    requires Valid(r)
    ensures Valid(r')
  {
    if levels == [] then r else Push(PushAll(r, levels[..|levels| - 1]), levels[|levels| - 1])
  }

  function ClampAll(levels: seq<real>): (c: seq<real>)
    ensures |c| == |levels|
    ensures forall i :: 0 <= i < |levels| ==> c[i] == Clamp01(levels[i])
  {
    if levels == [] then [] else ClampAll(levels[..|levels| - 1]) + [Clamp01(levels[|levels| - 1])]
  }

  /** The meter always shows the last 64 levels pushed, oldest first: after any run of ticks
      the bars are the tail of the earlier bars followed by the new levels. */
  lemma {:induction false} BarsShowLatest(r: Ring, levels: seq<real>)
    requires Valid(r)
    ensures Bars(PushAll(r, levels)) == (Bars(r) + ClampAll(levels))[|levels|..]
  {
    if levels != [] {
      var n := |levels|;
      var front := levels[..n - 1];
      var x := levels[n - 1];
      BarsShowLatest(r, front);
      BarsScroll(PushAll(r, front), x);
      assert ClampAll(levels) == ClampAll(front) + [Clamp01(x)];
      calc {
        Bars(PushAll(r, levels));
        Bars(PushAll(r, front))[1..] + [Clamp01(x)];
        (Bars(r) + ClampAll(front))[n - 1..][1..] + [Clamp01(x)];
        { assert (Bars(r) + ClampAll(front))[n - 1..][1..] == (Bars(r) + ClampAll(front))[n..]; }
        (Bars(r) + ClampAll(front))[n..] + [Clamp01(x)];
        (Bars(r) + ClampAll(front) + [Clamp01(x)])[n..];
        (Bars(r) + ClampAll(levels))[n..];
      }
    }
  }
}
