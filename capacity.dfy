/** The capacity stabiliser: how the CAPACITY property turns the chip's SOC
    (0.1 %) into the whole percent the battery service sees. The driver
    rescales into the platform's window, clamps to [0, 1000], truncates
    to whole percent, and then either latches the first reading or
    smooths it against the last one reported (`capacity_old`). Also the
    dynamic rescale of `capacity_max` done at full charge. */
module Capacity {
  import opened CInt
  import opened Config

  /** `sec_fg_get_scaled_capacity`: the position of `v` in the window
      [`min`, `cmax`] in per mille, 0 below the window. */
  function Scaled(v: int, min: int, cmax: int): (r: int)
    requires cmax != min
    ensures v < min ==> r == 0
    ensures v >= min && cmax > min ==>
      r >= 0 && r * (cmax - min) <= (v - min) * 1000 < (r + 1) * (cmax - min)
  {
    if v < min then 0
    else
      var x, d := (v - min) * 1000, cmax - min;
      if d > 0 then TDivNonNegative(x, d); TDiv(x, d)
      else TDiv(x, d)
  }

  /** Inside a proper window a higher SOC never scales lower. */
  lemma ScaledMonotone(v1: int, v2: int, min: int, cmax: int)
    requires cmax > min && v1 <= v2
    ensures Scaled(v1, min, cmax) <= Scaled(v2, min, cmax)
  {
    if v1 >= min {
      MulMonotone(v1 - min, v2 - min, 1000);
      DivMonotone((v1 - min) * 1000, (v2 - min) * 1000, cmax - min);
      TDivNonNegative((v1 - min) * 1000, cmax - min);
      TDivNonNegative((v2 - min) * 1000, cmax - min);
    }
  }

  /** The top of the window scales to exactly 100.0 %. */
  lemma ScaledTop(min: int, cmax: int)
    requires cmax > min
    ensures Scaled(cmax, min, cmax) == 1000
  {
    var r, d := Scaled(cmax, min, cmax), cmax - min;
    if r > 1000 {
      MulMonotone(1001, r, d);
    } else if r < 1000 {
      MulMonotone(r + 1, 1000, d);
    }
  }

  /** The clamp to [0, 1000] and the truncation to whole percent. */
  function Percent(v: int): (p: int)
    ensures 0 <= p <= 100
    ensures 0 <= v <= 1000 ==> p * 10 <= v < p * 10 + 10
    ensures v >= 1000 ==> p == 100
    ensures v < 10 ==> p == 0
  {
    (if v > 1000 then 1000 else if v < 0 then 0 else v) / 10
  }

  /** `sec_fg_get_atomic_capacity`'s result: with ATOMIC the report moves
      one percent towards the new value; with SKIP_ABNORMAL, while not
      charging, it never rises above the last one. */
  function Smoothed(types: set<CapType>, last: int, v: int, charging: bool): (r: int)
    ensures Min(last, v) <= r <= Max(last, v)
    ensures Atomic in types ==> Abs(r - last) <= 1
    ensures SkipAbnormal in types && !charging ==> r <= last
    ensures Atomic in types && !(SkipAbnormal in types && !charging && last < v) && last != v ==> Abs(r - last) == 1
    ensures Atomic !in types && !(SkipAbnormal in types && !charging && last < v) ==> r == v
  {
    var a := if Atomic in types then (if last < v then last + 1 else if last > v then last - 1 else v) else v;
    if SkipAbnormal in types && !charging && last < a then last else a
  }

  /** What one non-raw CAPACITY read reports, and the values it leaves in
      `capacity_old` and `initial_update_of_soc`. */
  datatype Reading = Reading(percent: int, capacityOld: int, initial: bool)

  /** Whether the window rescale applies. */
  predicate Scales(types: set<CapType>)
  {
    Scale in types || DynamicScale in types
  }

  /** The reported capacity before smoothing: rescaled when the platform
      asks for it, clamped and truncated to whole percent. */
  function RawPercent(types: set<CapType>, v: int, min: int, cmax: int): (p: int)
    requires Scales(types) ==> cmax != min
    ensures 0 <= p <= 100
  {
    Percent(if Scales(types) then Scaled(v, min, cmax) else v)
  }

  /** The CAPACITY branch of `sm5703_fg_get_property` for a non-raw
      request, from the SOC `v` the chip reported: rescale, clamp and
      truncate, then latch the first reading or smooth against the last. */
  function Report(types: set<CapType>, v: int, min: int, cmax: int, initial: bool, last: int, charging: bool): (r: Reading)
    requires Scales(types) ==> cmax != min
    ensures (initial || 0 <= last <= 100) ==> 0 <= r.percent <= 100
    ensures 0 <= last <= 100 ==> 0 <= r.capacityOld <= 100
    ensures !r.initial
    ensures initial ==> r.capacityOld == r.percent
    ensures !initial && Atomic in types ==> Abs(r.percent - last) <= 1
    ensures !initial && SkipAbnormal in types && !charging ==> r.percent <= last
    ensures !initial && (Atomic in types || SkipAbnormal in types) ==> r.capacityOld == r.percent
    ensures !initial && Atomic !in types && SkipAbnormal !in types ==> r.capacityOld == last
    ensures initial || (Atomic !in types && SkipAbnormal !in types) ==> r.percent == RawPercent(types, v, min, cmax)
    ensures !initial && (Atomic in types || SkipAbnormal in types) ==>
      r.percent == Smoothed(types, last, RawPercent(types, v, min, cmax), charging)
  {
    var p := RawPercent(types, v, min, cmax);
    if initial then Reading(p, p, false)
    else if Atomic in types || SkipAbnormal in types then
      var q := Smoothed(types, last, p, charging);
      Reading(q, q, false)
    else Reading(p, last, false)
  }

  /** One CAPACITY read: the chip's SOC and whether the battery was
      charging at the time. */
  datatype Sample = Sample(soc: int, charging: bool)

  /** The percentages a run of CAPACITY reads reports, with nothing else
      touching the stabiliser's state in between. A run ends at any event
      that resets that state: `CalculateDynamicScale` (capacity_old := 100),
      an ENERGY_FULL_DESIGN write or a CAPACITY reset (latch re-armed); the
      step and non-increasing results do not extend across those. */
  function Trail(types: set<CapType>, samples: seq<Sample>, min: int, cmax: int, initial: bool, last: int): (outs: seq<int>)
    requires Scales(types) ==> cmax != min
    ensures |outs| == |samples|
    decreases |samples|
  {
    if samples == [] then []
    else
      var r := Report(types, samples[0].soc, min, cmax, initial, last, samples[0].charging);
      [r.percent] + Trail(types, samples[1..], min, cmax, r.initial, r.capacityOld)
  }

  /** Every report is a percentage. */
  lemma {:induction false} TrailInRange(types: set<CapType>, samples: seq<Sample>, min: int, cmax: int, initial: bool, last: int)
    requires Scales(types) ==> cmax != min
    requires initial || 0 <= last <= 100
    ensures forall k | 0 <= k < |samples| :: 0 <= Trail(types, samples, min, cmax, initial, last)[k] <= 100
    decreases |samples|
  {
    if samples != [] {
      var r := Report(types, samples[0].soc, min, cmax, initial, last, samples[0].charging);
      TrailInRange(types, samples[1..], min, cmax, r.initial, r.capacityOld);
    }
  }

  /** Consecutive reports differ by at most one percent. */
  predicate Gentle(outs: seq<int>)
  {
    forall k | 1 <= k < |outs| :: Abs(outs[k] - outs[k - 1]) <= 1
  }

  /** No report is above the one before it. */
  predicate NonIncreasing(outs: seq<int>)
  {
    forall k | 1 <= k < |outs| :: outs[k] <= outs[k - 1]
  }

  /** With ATOMIC, after the first read the report moves by at most one
      percent per read. */
  lemma {:induction false} TrailSteps(types: set<CapType>, samples: seq<Sample>, min: int, cmax: int, initial: bool, last: int)
    requires Scales(types) ==> cmax != min
    requires Atomic in types
    requires initial || 0 <= last <= 100
    ensures Gentle(Trail(types, samples, min, cmax, initial, last))
    decreases |samples|
  {
    if samples != [] {
      var r := Report(types, samples[0].soc, min, cmax, initial, last, samples[0].charging);
      var rest := Trail(types, samples[1..], min, cmax, r.initial, r.capacityOld);
      TrailSteps(types, samples[1..], min, cmax, r.initial, r.capacityOld);
      var outs := Trail(types, samples, min, cmax, initial, last);
      assert outs == [r.percent] + rest;
      forall k | 1 <= k < |outs|
        ensures Abs(outs[k] - outs[k - 1]) <= 1
      {
        if k == 1 {
          var r1 := Report(types, samples[1].soc, min, cmax, r.initial, r.capacityOld, samples[1].charging);
          assert samples[1..][0] == samples[1];
          assert rest[0] == r1.percent;
          assert !r.initial && r.capacityOld == r.percent;
          assert Abs(r1.percent - r.capacityOld) <= 1;
          assert outs[1] == rest[0] && outs[0] == r.percent;
        } else {
          var i := k - 1;
          assert outs[k] == rest[i] && outs[k - 1] == rest[i - 1];
        }
      }
    }
  }

  /** With SKIP_ABNORMAL, while the battery is not charging, the report
      never rises after the first read. */
  lemma {:induction false} TrailDischarging(types: set<CapType>, samples: seq<Sample>, min: int, cmax: int, initial: bool, last: int)
    requires Scales(types) ==> cmax != min
    requires SkipAbnormal in types
    requires forall k | 0 <= k < |samples| :: !samples[k].charging
    ensures NonIncreasing(Trail(types, samples, min, cmax, initial, last))
    decreases |samples|
  {
    if samples != [] {
      var r := Report(types, samples[0].soc, min, cmax, initial, last, samples[0].charging);
      var rest := Trail(types, samples[1..], min, cmax, r.initial, r.capacityOld);
      assert forall k | 0 <= k < |samples[1..]| :: samples[1..][k] == samples[k + 1];
      TrailDischarging(types, samples[1..], min, cmax, r.initial, r.capacityOld);
      var outs := Trail(types, samples, min, cmax, initial, last);
      assert outs == [r.percent] + rest;
      forall k | 1 <= k < |outs|
        ensures outs[k] <= outs[k - 1]
      {
        if k == 1 {
          var r1 := Report(types, samples[1].soc, min, cmax, r.initial, r.capacityOld, samples[1].charging);
          assert samples[1..][0] == samples[1];
          assert rest[0] == r1.percent;
        } else {
          var i := k - 1;
          assert outs[k] == rest[i] && outs[k - 1] == rest[i - 1];
        }
      }
    }
  }

  /** The clamp of `sec_fg_calculate_dynamic_scale`, in the source's order:
      below `lo` gives `lo`, else above `hi` gives `hi`. */
  function Window(soc: int, lo: int, hi: int): (w: int)
    ensures lo <= hi ==> lo <= w <= hi
    ensures lo <= soc <= hi ==> w == soc
    ensures lo > hi ==> w == (if soc < lo then lo else hi)
  {
    if soc < lo then lo else if soc > hi then hi else soc
  }

  /** The new `capacity_max`: 99 % of the SOC clamped to within the margin
      of the platform's maximum. */
  function DynamicMax(soc: int, pmax: int, margin: int): (r: int)
    ensures var w := Window(soc, pmax - margin, pmax + margin);
      w >= 0 ==> r * 100 <= w * 99 < r * 100 + 100
  {
    var w := Window(soc, pmax - margin, pmax + margin);
    if w >= 0 then TDivNonNegative(w * 99, 100); TDiv(w * 99, 100)
    else TDiv(w * 99, 100)
  }

  /** A platform maximum of 95.0 % with a 5.0 % margin and a full chip
      (100.0 %) gives a new maximum of 99.0 %. */
  lemma DynamicMaxExample()
    ensures DynamicMax(1000, 950, 50) == 990
  {
    assert Window(1000, 900, 1000) == 1000;
    TDivNonNegative(99000, 100);
  }

  /** With a non-negative margin and window, the new maximum lies between
      99 % of the window's ends, and never above the platform maximum plus
      the margin. */
  lemma DynamicMaxBounds(soc: int, pmax: int, margin: int)
    requires 0 <= margin <= pmax
    ensures TDiv((pmax - margin) * 99, 100) <= DynamicMax(soc, pmax, margin) <= TDiv((pmax + margin) * 99, 100)
    ensures DynamicMax(soc, pmax, margin) <= pmax + margin
  {
    var w := Window(soc, pmax - margin, pmax + margin);
    MulMonotone(pmax - margin, w, 99);
    MulMonotone(w, pmax + margin, 99);
    TDivMonotone((pmax - margin) * 99, w * 99, 100);
    TDivMonotone(w * 99, (pmax + margin) * 99, 100);
  }
}
