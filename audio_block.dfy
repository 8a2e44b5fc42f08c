/** The audio buffer a render callback fills: `b[ch, i]` is sample `i` of channel `ch`.
    The active region of a call is samples startSample .. startSample + numSamples - 1 of
    every channel. Samples and gains are reals (float rounding is not modelled). */
module AudioBlock {

  function Abs(x: real): (r: real)
    ensures 0.0 <= r && (r == x || r == -x)
  {
    if x < 0.0 then -x else x
  }

  /** `peak` is the largest magnitude in the active region, or 0 when the region is empty:
      no sample exceeds it and, unless it is 0, some sample reaches it. */
  ghost predicate IsPeak(b: array2<real>, start: nat, num: nat, peak: real)
    reads b
  {
    0.0 <= peak
    && (forall ch, i :: 0 <= ch < b.Length0 && start <= i < start + num && i < b.Length1 ==>
          Abs(b[ch, i]) <= peak)
    && (peak == 0.0 ||
        exists ch, i :: 0 <= ch < b.Length0 && start <= i < start + num && i < b.Length1 && Abs(b[ch, i]) == peak)
  }

  /** Since the earlier state, every sample of the active region became 0 and every other
      sample kept its value. */
  twostate predicate RegionCleared(b: array2<real>, start: nat, num: nat)
    reads b
  {
    forall ch, i :: 0 <= ch < b.Length0 && 0 <= i < b.Length1 ==>
      b[ch, i] == if start <= i < start + num then 0.0 else old(b[ch, i])
  }

  /** Since the earlier state, every sample of the active region was multiplied by `gain` and
      every other sample kept its value. */
  twostate predicate RegionScaled(b: array2<real>, start: nat, num: nat, gain: real)
    reads b
  {
    forall ch, i :: 0 <= ch < b.Length0 && 0 <= i < b.Length1 ==>
      b[ch, i] == if start <= i < start + num then old(b[ch, i]) * gain else old(b[ch, i])
  }

  /** clearActiveBufferRegion: every sample of the active region becomes 0, nothing else changes. */
  method ClearRegion(b: array2<real>, start: nat, num: nat)
    requires start + num <= b.Length1
    modifies b
    ensures RegionCleared(b, start, num)
  {
    var ch := 0;
    while ch < b.Length0
      invariant 0 <= ch <= b.Length0
      invariant forall c, i :: 0 <= c < b.Length0 && 0 <= i < b.Length1 ==>
                  b[c, i] == if c < ch && start <= i < start + num then 0.0 else old(b[c, i])
    {
      var i := 0;
      while i < num
        invariant 0 <= i <= num
        invariant forall c, j :: 0 <= c < b.Length0 && 0 <= j < b.Length1 ==>
                    b[c, j] == if (c < ch || (c == ch && j < start + i)) && start <= j < start + num
                               then 0.0 else old(b[c, j])
      {
        b[ch, start + i] := 0.0;
        i := i + 1;
      }
      ch := ch + 1;
    }
  }

  /** applyGain: every sample of the active region is multiplied by `gain`, nothing else changes. */
  method ApplyGain(b: array2<real>, start: nat, num: nat, gain: real)
    requires start + num <= b.Length1
    modifies b
    ensures RegionScaled(b, start, num, gain)
  {
    var ch := 0;
    while ch < b.Length0
      invariant 0 <= ch <= b.Length0
      invariant forall c, i :: 0 <= c < b.Length0 && 0 <= i < b.Length1 ==>
                  b[c, i] == if c < ch && start <= i < start + num then old(b[c, i]) * gain else old(b[c, i])
    {
      var i := 0;
      while i < num
        invariant 0 <= i <= num
        invariant forall c, j :: 0 <= c < b.Length0 && 0 <= j < b.Length1 ==>
                    b[c, j] == if (c < ch || (c == ch && j < start + i)) && start <= j < start + num
                               then old(b[c, j]) * gain else old(b[c, j])
      {
        b[ch, start + i] := b[ch, start + i] * gain;
        i := i + 1;
      }
      ch := ch + 1;
    }
  }

  /** The meter's peak scan: the maximum of |sample| over every channel and every sample
      of the active region, starting from 0. */
  method ScanPeak(b: array2<real>, start: nat, num: nat) returns (maxSample: real)
    requires start + num <= b.Length1
    ensures IsPeak(b, start, num, maxSample)
  {
    maxSample := 0.0;
    var ch := 0;
    while ch < b.Length0
      invariant 0 <= ch <= b.Length0
      invariant 0.0 <= maxSample
      invariant forall c, i :: 0 <= c < ch && start <= i < start + num ==> Abs(b[c, i]) <= maxSample
      invariant maxSample == 0.0 ||
                exists c, i :: 0 <= c < ch && start <= i < start + num && Abs(b[c, i]) == maxSample
    {
      var i := 0;
      while i < num
        invariant 0 <= i <= num
        invariant 0.0 <= maxSample
        invariant forall c, j :: 0 <= c < ch && start <= j < start + num ==> Abs(b[c, j]) <= maxSample
        invariant forall j :: start <= j < start + i ==> Abs(b[ch, j]) <= maxSample
        invariant maxSample == 0.0 ||
                  exists c, j :: 0 <= c <= ch && start <= j < start + num && Abs(b[c, j]) == maxSample
      {
        var s := Abs(b[ch, start + i]);
        if s > maxSample {
          maxSample := s;
        }
        i := i + 1;
      }
      ch := ch + 1;
    }
  }

  /** The peak of a region is determined: two values that are both its peak are equal. */
  lemma PeakUnique(b: array2<real>, start: nat, num: nat, p: real, q: real)
    requires IsPeak(b, start, num, p) && IsPeak(b, start, num, q)
    ensures p == q
  {
    if p != 0.0 {
      var ch, i :| 0 <= ch < b.Length0 && start <= i < start + num && i < b.Length1 && Abs(b[ch, i]) == p;
      assert p <= q;
    }
    if q != 0.0 {
      var ch, i :| 0 <= ch < b.Length0 && start <= i < start + num && i < b.Length1 && Abs(b[ch, i]) == q;
      assert q <= p;
    }
  }

  /** A silent region (for instance one multiplied by a gain of 0) has peak 0. */
  lemma SilencePeak(b: array2<real>, start: nat, num: nat, p: real)
    requires forall ch, i :: 0 <= ch < b.Length0 && start <= i < start + num && i < b.Length1 ==> b[ch, i] == 0.0
    requires IsPeak(b, start, num, p)
    ensures p == 0.0
  {
  }

  /** A non-empty region whose every sample is +1 or -1 has peak exactly 1. */
  lemma FullScalePeak(b: array2<real>, start: nat, num: nat, p: real)
    requires 0 < b.Length0 && 0 < num && start + num <= b.Length1
    requires forall ch, i :: 0 <= ch < b.Length0 && start <= i < start + num ==> Abs(b[ch, i]) == 1.0
    requires IsPeak(b, start, num, p)
    ensures p == 1.0
  {
    assert Abs(b[0, start]) <= p;
    var ch, i :| 0 <= ch < b.Length0 && start <= i < start + num && i < b.Length1 && Abs(b[ch, i]) == p;
  }
}
