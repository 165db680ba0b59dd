/**
 The integer audio compressor (src/AudioCompress/compress.c): a history of block peaks, a
 gain with inertia, and a ramp from the old gain to the new one over the block.

 All values are C `int`; the lemmas show that no intermediate result leaves 32 bits.
 */
module Compressor {
  import opened Common

  predicate Int16(x: int) { -32768 <= x <= 32767 }

  function Abs(x: int): nat { if x < 0 then -x else x }

  /** Division as in C: towards zero. */
  function CDiv(a: int, b: int): int
    requires b > 0
  {
    if a >= 0 then a / b else -((-a) / b)
  }

  function Pow2(k: nat): (p: nat)
    ensures p >= 1
  {
    if k == 0 then 1 else 2 * Pow2(k - 1)
  }

  // ---------------------------------------------------------------------------------------
  // Peaks

  /** `m` is the loudest of the samples, and at least 1. */
  ghost predicate IsPeak(s: seq<int>, m: int) {
    && 1 <= m && (forall k :: 0 <= k < |s| ==> Abs(s[k]) <= m)
    && (m > 1 ==> exists k :: 0 <= k < |s| && Abs(s[k]) == m)
  }

  /** `p` is the first place of the loudest sample, or 0 if there is none above 1. */
  ghost predicate IsFirstPeak(s: seq<int>, m: int, p: nat) {
    if m == 1 then p == 0
    else p < |s| && Abs(s[p]) == m && forall k :: 0 <= k < p ==> Abs(s[k]) < m
  }

  /** `m` is the largest of `own` and the recorded peaks. */
  ghost predicate IsMaximum(peaks: seq<int>, own: int, m: int) {
    own <= m && (forall k :: 0 <= k < |peaks| ==> peaks[k] <= m) && (m == own || m in peaks)
  }

  // ---------------------------------------------------------------------------------------
  // Gain

  /** The target gain, smoothed and limited, before the clipping test. */
  function Wanted(target: nat, maxGain: nat, smooth: nat, cur: nat, peak: int): nat
    requires peak > 0
  {
    var p := Pow2(smooth);
    var smoothed := (cur * (p - 1) + 1024 * target / peak) / p;
    var limited := if smoothed > maxGain * 1024 then maxGain * 1024 else smoothed;
    if limited < 1024 then 1024 else limited
  }

  predicate WouldClip(gain: int, peak: int) {
    peak * gain / 1024 > 32767
  }

  function NewGain(wanted: nat, peak: int): int
    requires peak > 0
  {
    if WouldClip(wanted, peak) then 32767 * 1024 / peak else wanted
  }

  /** The gain of sample `i`: a ramp of `ramp` equal steps, then the new gain. */
  function GainAt(cur: int, new': int, ramp: nat, i: nat): int
    requires ramp > 0
  {
    if i <= ramp then cur + i * CDiv(new' - cur, ramp) else new'
  }

  function Amplify(sample: int, gain: int): int {
    sample * gain / 1024
  }

  function Clamp(x: int): int {
    if x < -32768 then -32768 else if x > 32767 then 32767 else x
  }

  /** The configuration is in range. */
  predicate ValidConfig(target: nat, maxGain: nat, smooth: nat) {
    target <= 32767 && 1 <= maxGain <= 32 && smooth <= 8
  }

  /** A gain that was recorded: in range, and the given peak does not clip under it. */
  predicate ValidGain(maxGain: nat, gain: int, peak: int) {
    1023 <= gain <= maxGain * 1024 && peak * gain / 1024 <= 32767
  }

  lemma MulMono(a: int, b: int, c: int)
    requires a <= b && c >= 0
    ensures a * c <= b * c
  {
  }

  lemma {:induction false} Pow2Bound(k: nat)
    requires k <= 8
    ensures Pow2(k) <= 256
    decreases 8 - k
  {
    if k < 8 { Pow2Bound(k + 1); }
    assert Pow2(8) == 256 by { assert Pow2(4) == 16; }
  }

  /** The gain stays in range, and no recorded peak clips under it. */
  lemma GainIsSafe(wanted: nat, maxGain: nat, peak: int)
    requires 1024 <= wanted <= maxGain * 1024 && maxGain <= 32 && 1 <= peak <= 32768
    ensures Int32(peak * wanted) && ValidGain(maxGain, NewGain(wanted, peak), peak)
    ensures NewGain(wanted, peak) == wanted || Quotient(32767 * 1024, peak, NewGain(wanted, peak))
    ensures NewGain(wanted, peak) == wanted <==> peak * wanted / 1024 <= 32767
  {
    MulMono(peak, 32768, wanted);
    if WouldClip(wanted, peak) {
      ClippedGain(wanted, peak);
    }
  }

  lemma ClippedGain(wanted: nat, peak: int)
    requires 1 <= peak <= 32768 && WouldClip(wanted, peak)
    ensures 1023 <= 32767 * 1024 / peak < wanted
    ensures peak * (32767 * 1024 / peak) / 1024 <= 32767 && Quotient(32767 * 1024, peak, 32767 * 1024 / peak)
  {
    hide Pow2, Wanted;
    var g := 32767 * 1024 / peak;
    DivisionIsExact(32767 * 1024, peak);
    if g >= wanted { MulMono(wanted, g, peak); }
    if g < 1023 {
      MulMono(g + 1, 1023, peak);
    }
  }

  lemma WantedInRange(target: nat, maxGain: nat, smooth: nat, cur: nat, peak: int)
    requires ValidConfig(target, maxGain, smooth) && peak > 0
    ensures 1024 <= Wanted(target, maxGain, smooth, cur, peak) <= maxGain * 1024
  {
    hide Pow2;
  }

  /** `q` is the quotient of `a` by `b`, rounded down. */
  predicate Quotient(a: int, b: int, q: int) {
    q * b <= a < (q + 1) * b
  }

  /**
   `wanted` is what the gain should be: the gain that takes the peak to the target counts for
   1 / 2^smooth, the gain so far for the rest, and the result is kept between 1 and the maximum.
   */
  ghost predicate IsWanted(target: nat, maxGain: nat, smooth: nat, cur: int, peak: int, wanted: int) {
    exists ideal, smoothed ::
      Quotient(1024 * target, peak, ideal) && Averaged(cur, ideal, Pow2(smooth), smoothed) &&
      wanted == Limited(smoothed, 1024, maxGain * 1024)
  }

  /** `g` is the average of `p - 1` times `cur` and `ideal`, rounded down. */
  predicate Averaged(cur: int, ideal: int, p: int, g: int) {
    p * g <= cur * (p - 1) + ideal < p * g + p
  }

  predicate Between(x: int, a: int, b: int) {
    a <= x <= b || b <= x <= a
  }

  function Limited(x: int, low: int, high: int): int {
    if x > high then high else if x < low then low else x
  }

  lemma WantedIs(target: nat, maxGain: nat, smooth: nat, cur: nat, peak: int)
    requires ValidConfig(target, maxGain, smooth) && peak > 0
    ensures IsWanted(target, maxGain, smooth, cur, peak, Wanted(target, maxGain, smooth, cur, peak))
  {
    Pow2Bound(smooth);
    var p, ideal := Pow2(smooth), 1024 * target / peak;
    hide Pow2;
    DivisionIsExact(1024 * target, peak);
    assert Quotient(1024 * target, peak, ideal);
    QuotientIsSmaller(1024 * target, peak);
    MulMono(0, cur, p - 1);
    var sum := cur * (p - 1) + ideal;
    DivisionIsExact(sum, p);
    assert Averaged(cur, ideal, p, sum / p);
  }

  /** The gain moves from where it is towards the one that takes the peak to the target. */
  lemma GainMovesTowardsTarget(cur: int, ideal: int, p: int, g: int)
    requires p >= 1 && Averaged(cur, ideal, p, g)
    ensures Between(g, cur, ideal)
  {
    var low, high := if cur < ideal then cur else ideal, if cur < ideal then ideal else cur;
    var sum := cur * (p - 1) + ideal;
    MulMono(low, cur, p - 1);
    MulMono(cur, high, p - 1);
    AverageIsBetween(low, high, sum, p, g);
  }

  lemma AverageIsBetween(low: int, high: int, sum: int, p: int, g: int)
    requires p >= 1 && low * (p - 1) + low <= sum <= high * (p - 1) + high && p * g <= sum < p * g + p
    ensures low <= g <= high
  {
    assert low * (p - 1) + low == low * p && high * (p - 1) + high == high * p && p * g == g * p;
    if g < low {
      MulMono(g + 1, low, p);
    } else if g > high {
      MulMono(high + 1, g, p);
    }
  }

  /** A louder peak never gets a greater gain. */
  lemma GainFallsWithPeak(target: nat, maxGain: nat, smooth: nat, cur: nat, a: int, b: int)
    requires ValidConfig(target, maxGain, smooth) && 0 < a <= b
    ensures Wanted(target, maxGain, smooth, cur, b) <= Wanted(target, maxGain, smooth, cur, a)
  {
    DivisorShrinks(1024 * target, a, b);
    QuotientIsSmaller(1024 * target, b);
    SmoothedGrows(Kept(smooth, cur), 1024 * target / b, 1024 * target / a, Pow2(smooth));
    WantedIsLimited(target, maxGain, smooth, cur, a);
    WantedIsLimited(target, maxGain, smooth, cur, b);
    hide *;
    LimitedGrows(Smoothed(Kept(smooth, cur), 1024 * target / b, Pow2(smooth)),
                 Smoothed(Kept(smooth, cur), 1024 * target / a, Pow2(smooth)), 1024, maxGain * 1024);
  }

  lemma LimitedGrows(x: int, y: int, low: int, high: int)
    requires x <= y && low <= high
    ensures Limited(x, low, high) <= Limited(y, low, high)
  {
  }

  /** The part of the gain so far. */
  function Kept(smooth: nat, cur: nat): nat {
    cur * (Pow2(smooth) - 1)
  }

  function Smoothed(kept: nat, ideal: nat, p: nat): nat
    requires p > 0
  {
    (kept + ideal) / p
  }

  lemma SmoothedGrows(kept: nat, x: nat, y: nat, p: nat)
    requires x <= y && p > 0
    ensures Smoothed(kept, x, p) <= Smoothed(kept, y, p)
  {
    DividendGrows(kept + x, kept + y, p);
  }

  lemma WantedIsLimited(target: nat, maxGain: nat, smooth: nat, cur: nat, peak: int)
    requires ValidConfig(target, maxGain, smooth) && peak > 0
    ensures 1024 * target / peak >= 0
    ensures Wanted(target, maxGain, smooth, cur, peak) ==
            Limited(Smoothed(Kept(smooth, cur), 1024 * target / peak, Pow2(smooth)), 1024, maxGain * 1024)
  {
    hide Pow2;
    QuotientIsSmaller(1024 * target, peak);
  }

  lemma DivisorShrinks(t: nat, a: int, b: int)
    requires 0 < a <= b
    ensures t / b <= t / a
  {
    var x, y := t / a, t / b;
    DivisionIsExact(t, a);
    DivisionIsExact(t, b);
    QuotientIsSmaller(t, b);
    if y > x {
      MulMono(x + 1, y, a);
      MulMono(a, b, y);
    }
  }

  lemma DividendGrows(m: nat, n: nat, p: int)
    requires m <= n && p > 0
    ensures m / p <= n / p
  {
    var x, y := m / p, n / p;
    DivisionIsExact(m, p);
    DivisionIsExact(n, p);
    if x > y {
      MulMono(y + 1, x, p);
    }
  }

  /** The intermediate results of the gain computation fit 32 bits. */
  ghost predicate GainComputationFits(target: nat, smooth: nat, cur: int, peak: int)
    requires peak > 0
  {
    Int32(1024 * target) && Int32(cur * (Pow2(smooth) - 1)) &&
    Int32(cur * (Pow2(smooth) - 1) + 1024 * target / peak)
  }

  lemma GainFits(target: nat, maxGain: nat, smooth: nat, cur: nat, peak: int)
    requires ValidConfig(target, maxGain, smooth) && cur <= 32768 && 1 <= peak <= 32768
    ensures GainComputationFits(target, smooth, cur, peak)
  {
    hide Wanted;
    Pow2Bound(smooth);
    hide Pow2;
    SmoothingFits(cur, Pow2(smooth), 1024 * target, peak);
  }

  lemma SmoothingFits(cur: nat, p: nat, t: nat, peak: int)
    requires cur <= 32768 && 1 <= p <= 256 && t <= 32767 * 1024 && peak >= 1
    ensures Int32(cur * (p - 1)) && Int32(cur * (p - 1) + t / peak)
  {
    MulMono(cur, 32768, p - 1);
    QuotientIsSmaller(t, peak);
    var q := t / peak;
    assert 0 <= cur * (p - 1) <= 32768 * 255;
    assert 0 <= q <= 32767 * 1024;
  }

  lemma QuotientIsSmaller(a: nat, b: int)
    requires b >= 1
    ensures 0 <= a / b <= a
  {
    var q := a / b;
    DivisionIsExact(a, b);
    if q < 0 {
      MulMono(q + 1, 0, b);
    } else {
      MulMono(1, b, q);
    }
  }

  lemma DivisionIsExact(a: int, b: int)
    requires a >= 0 && b > 0
    ensures b * (a / b) <= a < b * (a / b + 1)
  {
  }

  /** The ramp never leaves the interval between the two gains. */
  lemma RampStaysBetween(cur: int, new': int, ramp: nat, i: nat)
    requires ramp > 0
    ensures (if cur <= new' then cur <= GainAt(cur, new', ramp, i) <= new'
             else new' <= GainAt(cur, new', ramp, i) <= cur)
  {
    var d := CDiv(new' - cur, ramp);
    if i <= ramp {
      if cur <= new' {
        MulMono(i, ramp, d);
        DivisionIsExact(new' - cur, ramp);
      } else {
        MulMono(i, ramp, -d);
        DivisionIsExact(cur - new', ramp);
      }
    }
  }

  /** A sample no louder than a peak that does not clip does not clip either. */
  lemma QuieterDoesNotSaturate(sample: int, peak: int, gain: int)
    requires Abs(sample) <= peak && gain >= 0 && peak * gain / 1024 <= 32767
    ensures Clamp(Amplify(sample, gain)) == Amplify(sample, gain)
  {
    MulMono(sample, peak, gain);
    MulMono(-sample, peak, gain);
    var p, q := sample * gain, peak * gain;
    assert (-sample) * gain == -p;
    InRange(p, q);
  }

  lemma InRange(p: int, q: int)
    requires p <= q && -p <= q && q / 1024 <= 32767
    ensures -32768 <= p / 1024 <= 32767
  {
  }

  /** Every product of a sample and a ramp gain fits 32 bits, and every output fits 16. */
  lemma SamplesFit(sample: int, cur: int, new': int, ramp: nat, i: nat)
    requires Int16(sample) && 0 <= cur <= 32768 && 0 <= new' <= 32768 && ramp > 0
    ensures Int32(sample * GainAt(cur, new', ramp, i))
    ensures Int16(Clamp(Amplify(sample, GainAt(cur, new', ramp, i))))
  {
    RampStaysBetween(cur, new', ramp, i);
    var g := GainAt(cur, new', ramp, i);
    MulMono(sample, 32768, g);
    MulMono(-32768, sample, g);
  }

  /** No sample behind the ramp saturates. */
  lemma NoClipBehindRamp(sample: int, peak: int, maxGain: nat, cur: int, new': int, ramp: nat, i: nat)
    requires Abs(sample) <= peak && ValidGain(maxGain, new', peak) && ramp > 0 && i > ramp
    ensures Clamp(Amplify(sample, GainAt(cur, new', ramp, i))) == Amplify(sample, new')
  {
    QuieterDoesNotSaturate(sample, peak, new');
  }

  /** While the gain rises, no sample of the block saturates at all. */
  lemma NoClipWhileRising(sample: int, peak: int, maxGain: nat, cur: int, new': int, ramp: nat, i: nat)
    requires Abs(sample) <= peak && ValidGain(maxGain, new', peak) && ramp > 0 && 0 <= cur <= new'
    ensures Clamp(Amplify(sample, GainAt(cur, new', ramp, i))) == Amplify(sample, GainAt(cur, new', ramp, i))
  {
    RampStaysBetween(cur, new', ramp, i);
    MulMono(GainAt(cur, new', ramp, i), new', peak);
    QuieterDoesNotSaturate(sample, peak, GainAt(cur, new', ramp, i));
  }

  /** The falling ramp ends above the new gain by what the division has left over. */
  lemma GainAtEndOfRamp(cur: int, new': int, ramp: nat)
    requires ramp > 0 && cur >= new'
    ensures GainAt(cur, new', ramp, ramp) == new' + (cur - new') % ramp
  {
    var q := (cur - new') / ramp;
    assert ramp * q + (cur - new') % ramp == cur - new';
    assert ramp * -q == -(ramp * q);
    assert CDiv(new' - cur, ramp) == -q;
  }

  /** The amplified sample does not fit 16 bits; there is room for one more below zero. */
  predicate CutOff(sample: int, gain: int) {
    if sample >= 0 then WouldClip(gain, sample) else -sample * gain > 32768 * 1024
  }

  lemma SampleIsKeptExactly(sample: int, gain: int)
    requires gain >= 0
    ensures Clamp(Amplify(sample, gain)) == Amplify(sample, gain) <==> !CutOff(sample, gain)
  {
    var p := sample * gain;
    if sample >= 0 {
      MulMono(0, sample, gain);
    } else {
      MulMono(sample, 0, gain);
      assert -sample * gain == -p;
    }
  }

  /**
   While the gain falls, the sample for which the ramp was cut short, of either sign, stays
   unchanged by the clamping exactly if the new gain and the remainder of the ramp's division
   together do not make it clip.
   */
  lemma PeakSaturatesExactly(cur: int, new': int, ramp: nat, sample: int)
    requires ramp > 0 && cur >= new' >= 0
    ensures var amplified := Amplify(sample, GainAt(cur, new', ramp, ramp));
            Clamp(amplified) == amplified <==> !CutOff(sample, new' + (cur - new') % ramp)
  {
    GainAtEndOfRamp(cur, new', ramp);
    SampleIsKeptExactly(sample, new' + (cur - new') % ramp);
  }

  /** Nothing overflows in the block, and only the samples of a falling ramp may saturate. */
  ghost predicate BlockFits(was: seq<int>, now: seq<int>, cur: int, new': int, ramp: nat)
    requires |was| == |now| && ramp > 0
  {
    forall k :: 0 <= k < |was| ==>
      && Int32(was[k] * GainAt(cur, new', ramp, k)) && Int16(now[k])
      && (k > ramp ==> now[k] == Amplify(was[k], new'))
      && (cur <= new' ==> now[k] == Amplify(was[k], GainAt(cur, new', ramp, k)))
  }

  lemma AmplifiedFits(was: seq<int>, now: seq<int>, cur: int, new': int, ramp: nat, maxGain: nat, peak: int)
    requires |was| == |now| && ramp > 0 && 0 <= cur <= 32768 && maxGain <= 32 && ValidGain(maxGain, new', peak)
    requires forall k :: 0 <= k < |was| ==> Int16(was[k]) && Abs(was[k]) <= peak
    requires forall k :: 0 <= k < |was| ==> now[k] == Clamp(Amplify(was[k], GainAt(cur, new', ramp, k)))
    ensures BlockFits(was, now, cur, new', ramp)
  {
    forall k | 0 <= k < |was|
      ensures Int32(was[k] * GainAt(cur, new', ramp, k)) && Int16(now[k])
      ensures k > ramp ==> now[k] == Amplify(was[k], new')
      ensures cur <= new' ==> now[k] == Amplify(was[k], GainAt(cur, new', ramp, k))
    {
      SampleFits(was[k], cur, new', ramp, maxGain, peak, k);
    }
  }

  lemma SampleFits(sample: int, cur: int, new': int, ramp: nat, maxGain: nat, peak: int, k: nat)
    requires ramp > 0 && 0 <= cur <= 32768 && maxGain <= 32 && ValidGain(maxGain, new', peak)
    requires Int16(sample) && Abs(sample) <= peak
    ensures Int32(sample * GainAt(cur, new', ramp, k))
    ensures Int16(Clamp(Amplify(sample, GainAt(cur, new', ramp, k))))
    ensures k > ramp ==> Clamp(Amplify(sample, GainAt(cur, new', ramp, k))) == Amplify(sample, new')
    ensures cur <= new' ==>
              Clamp(Amplify(sample, GainAt(cur, new', ramp, k))) == Amplify(sample, GainAt(cur, new', ramp, k))
  {
    assert 0 <= new' <= 32768;
    hide Clamp, Amplify, GainAt, ValidGain;
    SamplesFit(sample, cur, new', ramp, k);
    if k > ramp {
      NoClipBehindRamp(sample, peak, maxGain, cur, new', ramp, k);
    }
    if cur <= new' {
      NoClipWhileRising(sample, peak, maxGain, cur, new', ramp, k);
    }
  }

  // ---------------------------------------------------------------------------------------
  // The compressor

  /** The loudest sample, at least 1, and the first place where it is. */
  method FindPeak(audio: array<int>) returns (peak: int, place: nat)
    requires forall k :: 0 <= k < audio.Length ==> Int16(audio[k])
    ensures IsPeak(audio[..], peak) && peak <= 32768 && IsFirstPeak(audio[..], peak, place)
  {
    peak, place := 1, 0;
    var i := 0;
    while i < audio.Length
      invariant 0 <= i <= audio.Length && 1 <= peak <= 32768
      invariant forall k :: 0 <= k < i ==> Abs(audio[k]) <= peak
      invariant if peak == 1 then place == 0
                else place < i && Abs(audio[place]) == peak && forall k :: 0 <= k < place ==> Abs(audio[k]) < peak
    {
      var val := Abs(audio[i]);
      if val > peak {
        peak, place := val, i;
      }
      i := i + 1;
    }
    if peak > 1 {
      assert Abs(audio[..][place]) == peak;
    }
  }

  /** The largest of the block's own peak and the history; a larger one counts as at place 0. */
  method HistoryPeak(peaks: array<int>, own: int, ownPlace: nat) returns (peak: int, place: nat)
    ensures IsMaximum(peaks[..], own, peak)
    ensures place == if peak > own then 0 else ownPlace
  {
    peak, place := own, ownPlace;
    var i := 0;
    while i < peaks.Length
      invariant 0 <= i <= peaks.Length && own <= peak
      invariant forall k :: 0 <= k < i ==> peaks[k] <= peak
      invariant peak == own || peak in peaks[..]
      invariant place == if peak > own then 0 else ownPlace
    {
      if peaks[i] > peak {
        peak, place := peaks[i], 0;
        assert peaks[..][i] == peak;
      }
      i := i + 1;
    }
  }

  /** The first place of the block's peak. */
  function FirstPlace(s: seq<int>, m: int): nat {
    if s == [] || Abs(s[0]) == m then 0 else 1 + FirstPlace(s[1..], m)
  }

  /**
   How far the ramp reaches: to the first place of the peak if it would clip (to the start
   of the block if that peak is an older one), else to the end; never nowhere.
   */
  function RampLength(clips: bool, block: seq<int>, own: int, peak: int): nat {
    var r := if !clips then |block| else if peak > own || own == 1 then 0 else FirstPlace(block, own);
    if r == 0 then 1 else r
  }

  lemma {:induction false} FirstPlaceIsFirst(s: seq<int>, m: int, p: nat)
    requires p < |s| && Abs(s[p]) == m && forall k :: 0 <= k < p ==> Abs(s[k]) < m
    ensures FirstPlace(s, m) == p
  {
    if p > 0 {
      assert forall k :: 0 <= k < p - 1 ==> s[1..][k] == s[k + 1];
      FirstPlaceIsFirst(s[1..], m, p - 1);
    }
  }

  /** Amplifies the block in place. */
  method AmplifyBlock(audio: array<int>, cur: int, new': int, ramp: nat)
    requires ramp > 0
    modifies audio
    ensures forall k :: 0 <= k < audio.Length ==>
              audio[k] == Clamp(Amplify(old(audio[k]), GainAt(cur, new', ramp, k)))
  {
    var gain := cur;
    var delta := CDiv(new' - cur, ramp);
    var i := 0;
    while i < audio.Length
      invariant 0 <= i <= audio.Length
      invariant gain == GainAt(cur, new', ramp, i)
      invariant forall k :: 0 <= k < i ==>
                  audio[k] == Clamp(Amplify(old(audio[k]), GainAt(cur, new', ramp, k)))
      invariant forall k :: i <= k < audio.Length ==> audio[k] == old(audio[k])
    {
      audio[i] := Clamp(Amplify(audio[i], gain));
      if i < ramp {
        assert (i + 1) * delta == i * delta + delta;
        gain := gain + delta;
      } else {
        gain := new';
      }
      i := i + 1;
    }
  }

  class Compressor {
    const target: nat
    const maxGain: nat
    const smooth: nat
    const peaks: array<int>
    const gain: array<int>
    var pos: nat

    /**
     Every recorded peak is a peak of 16 bit samples; the current gain is 0 (nothing recorded
     yet) or a valid gain under which none of the recorded peaks clips.
     */
    ghost predicate Valid()
      reads this, peaks, gain
    {
      && ValidConfig(target, maxGain, smooth)
      && peaks != gain && peaks.Length == gain.Length && pos < gain.Length
      && (forall k :: 0 <= k < peaks.Length ==> 0 <= peaks[k] <= 32768)
      && (gain[pos] == 0 || Safe(gain[pos]))
    }

    ghost predicate Safe(g: int)
      reads peaks
    {
      1023 <= g <= maxGain * 1024 && forall k :: 0 <= k < peaks.Length ==> ValidGain(maxGain, g, peaks[k])
    }

    constructor (target: nat, maxGain: nat, smooth: nat, history: nat)
      requires ValidConfig(target, maxGain, smooth) && history > 0
      ensures Valid() && fresh(peaks) && fresh(gain) && peaks.Length == history
      ensures gain[pos] == 0
      ensures this.target == target && this.maxGain == maxGain && this.smooth == smooth
    {
      this.target, this.maxGain, this.smooth := target, maxGain, smooth;
      pos := 0;
      var p := new int[history](_ => 0);
      var g := new int[history](_ => 0);
      peaks, gain := p, g;
    }

    /**
     One block. The returned values are the gain before and after it, the loudest peak and
     the length of the ramp.
     */
    method Process(audio: array<int>) returns (cur: int, new': int, peak: int, ramp: nat)
      requires Valid() && audio != peaks && audio != gain
      requires forall k :: 0 <= k < audio.Length ==> Int16(audio[k])
      modifies this`pos, peaks, gain, audio
      ensures Valid() && gain[pos] == new' && Safe(new') && ValidGain(maxGain, new', peak)
      ensures pos == (old(pos) + 1) % gain.Length
      ensures IsPeak(old(audio[..]), peaks[pos]) && IsMaximum(peaks[..], 1, peak)
      ensures forall k :: 0 <= k < peaks.Length && k != pos ==> peaks[k] == old(peaks[k]) && gain[k] == old(gain[k])
      ensures cur == if old(gain[pos]) == 0 then 1024 else old(gain[pos])
      ensures new' == NewGain(Wanted(target, maxGain, smooth, old(gain[pos]), peak), peak)
      ensures 0 < ramp
      ensures forall k :: 0 <= k < audio.Length ==>
                audio[k] == Clamp(Amplify(old(audio[k]), GainAt(cur, new', ramp, k)))
      ensures forall k :: 0 <= k < audio.Length ==> Abs(old(audio[k])) <= peak
      ensures BlockFits(old(audio[..]), audio[..], cur, new', ramp)
      ensures GainComputationFits(target, smooth, old(gain[pos]), peak)
      ensures Int32(peak * Wanted(target, maxGain, smooth, old(gain[pos]), peak))
      ensures ramp == RampLength(WouldClip(Wanted(target, maxGain, smooth, old(gain[pos]), peak), peak),
                                 old(audio[..]), peaks[pos], peak)
    {
      hide Wanted, NewGain, GainAt, WouldClip, ValidGain, BlockFits, GainComputationFits;
      cur := gain[pos];
      assert 0 <= cur <= 32768;
      var slot := (pos + 1) % gain.Length;
      var own, place := FindPeak(audio);
      if own > 1 { FirstPlaceIsFirst(audio[..], own, place); }
      peaks[slot] := own;
      peak, place := HistoryPeak(peaks, own, place);
      var wanted := Wanted(target, maxGain, smooth, cur, peak);
      WantedInRange(target, maxGain, smooth, cur, peak);
      GainFits(target, maxGain, smooth, cur, peak);
      GainIsSafe(wanted, maxGain, peak);
      new' := NewGain(wanted, peak);
      ramp := if WouldClip(wanted, peak) then place else audio.Length;
      if ramp == 0 { ramp := 1; }
      if cur == 0 { cur := 1024; }
      gain[slot] := new';
      pos := slot;
      AllSafe(new', peak);
      ghost var was := audio[..];
      AmplifyBlock(audio, cur, new', ramp);
      AmplifiedFits(was, audio[..], cur, new', ramp, maxGain, peak);
    }

    lemma AllSafe(g: int, peak: int)
      requires forall k :: 0 <= k < peaks.Length ==> peaks[k] <= peak
      requires ValidGain(maxGain, g, peak)
      ensures Safe(g)
    {
      forall k | 0 <= k < peaks.Length
        ensures ValidGain(maxGain, g, peaks[k])
      {
        MulMono(peaks[k], peak, g);
      }
    }
  }

  /** A block of silence takes the gain to its maximum. */
  method AfterSilence() returns (c: Compressor)
    ensures fresh(c) && fresh(c.peaks) && fresh(c.gain) && c.Valid() && c.peaks.Length == 1
    ensures c.target == 16384 && c.maxGain == 32 && c.smooth == 8 && c.gain[c.pos] == 32768
  {
    hide Wanted, NewGain;
    c := new Compressor(16384, 32, 8, 1);
    var silence := new int[1](_ => 0);
    var _, new', peak, _ := c.Process(silence);
    OnlyPeak(c.peaks[..], peak);
    FirstGain();
  }

  lemma OnlyPeak(peaks: seq<int>, peak: int)
    requires |peaks| == 1 && peaks[0] >= 1 && IsMaximum(peaks, 1, peak)
    ensures peak == peaks[0]
  {
  }

  /** Silence, then a peak at the fourth sample: the peak itself is cut off. */
  method PeakCanSaturate() returns (audio: array<int>, cur: int, new': int, ramp: nat)
    ensures audio.Length == 4 && ramp == 3
    ensures var amplified := Amplify(32767, GainAt(cur, new', ramp, ramp));
            audio[3] == Clamp(amplified) && Clamp(amplified) < amplified
  {
    hide Wanted, NewGain, WouldClip, RampLength;
    var c := AfterSilence();
    audio := new int[4](k => if k == 3 then 32767 else 0);
    assert audio[..] == [0, 0, 0, 32767];
    var peak;
    cur, new', peak, ramp := c.Process(audio);
    PeakOfBlock(c.peaks[0]);
    OnlyPeak(c.peaks[..], peak);
    SecondGain();
    LastGain();
  }

  lemma FirstGain()
    ensures NewGain(Wanted(16384, 32, 8, 0, 1), 1) == 32768
  {
    assert Pow2(8) == 256 by { assert Pow2(4) == 16; }
  }

  lemma SecondGain()
    ensures WouldClip(Wanted(16384, 32, 8, 32768, 32767), 32767)
    ensures NewGain(Wanted(16384, 32, 8, 32768, 32767), 32767) == 1024
    ensures RampLength(true, [0, 0, 0, 32767], 32767, 32767) == 3
  {
    assert Pow2(8) == 256 by { assert Pow2(4) == 16; }
    FirstPlaceIsFirst([0, 0, 0, 32767], 32767, 3);
  }

  lemma LastGain()
    ensures GainAt(32768, 1024, 3, 3) == 1025 && Clamp(Amplify(32767, 1025)) == 32767 < Amplify(32767, 1025)
  {
  }

  lemma PeakOfBlock(m: int)
    requires IsPeak([0, 0, 0, 32767], m)
    ensures m == 32767
  {
    assert Abs([0, 0, 0, 32767][3]) <= m;
  }
}
