/** The register codec: how the SM5703's fixed-point words become mV, mA,
    0.1 degC and 0.1 % of state of charge, the default each reader uses
    when the transfer fails, the encoders they invert, and the 1/5-weight
    running average the driver keeps of voltage and current.

    The source extracts fields with masks and shifts on a word that arrived
    as a non-negative `int`; on such a word `(w & 0x0700) >> 8` is
    `(w / 256) % 8`, `(w & 0x7F00) >> 8` is `(w / 256) % 128`,
    `(w & 0xFF00) >> 8` is `w / 256`, `w & 0x00FF` is `w % 256` and
    `w & 0x8000` is set exactly when `w >= 0x8000`, which is how they are
    written here. */
module Codec {
  import opened CInt

  // ---------------------------------------------------------------- decoders

  /** The 3.8 fixed-point format of VOLTAGE, OCV and the magnitude of
      CURRENT: bits 10..8 count whole units of 1000, bits 7..0 add
      `f * 1000 / 256`. */
  function MilliOf(w: Word16): (m: int)
    ensures 0 <= m <= 7996
  {
    ((w / 256) % 8) * 1000 + (w % 256) * 1000 / 256
  }

  /** The 7.8 fixed-point magnitude of TEMPERATURE, in 0.1 degC. */
  function DeciOf(w: Word16): (t: int)
    ensures 0 <= t <= 1279
  {
    ((w / 256) % 128) * 10 + (w % 256) * 10 / 256
  }

  /** The 8.8 fixed-point SOC word, in 0.1 %. */
  function SocOf(w: Word16): (s: int)
    ensures 0 <= s <= 2559
  {
    (w / 256) * 10 + (w % 256) * 10 / 256
  }

  /** Bit 15, the sign of CURRENT and TEMPERATURE. */
  predicate Negative(w: Word16)
  {
    w >= 0x8000
  }

  /** `fg_get_vbat` and `fg_get_ocv` (same format): mV, or 4000 mV when the
      read `ret` failed. */
  function Voltage(ret: int): (mv: int)
    requires ret < 0x1_0000
    ensures 0 <= mv <= 7996
    ensures ret < 0 ==> mv == 4000
    ensures ret >= 0 ==> mv == MilliOf(ret)
  {
    if ret < 0 then 4000 else MilliOf(ret)
  }

  /** `fg_get_curr`: signed mA, or 0 when the read failed. */
  function Current(ret: int): (ma: int)
    requires ret < 0x1_0000
    ensures -7996 <= ma <= 7996
    ensures ret < 0 ==> ma == 0
    ensures ret >= 0 ==> Abs(ma) == MilliOf(ret)
    ensures ret >= 0 ==> (Negative(ret) ==> ma <= 0) && (!Negative(ret) ==> ma >= 0)
  {
    if ret < 0 then 0
    else if Negative(ret) then -MilliOf(ret)
    else MilliOf(ret)
  }

  /** `fg_get_temp`: signed 0.1 degC, or 0 when the read failed. */
  function Temperature(ret: int): (t: int)
    requires ret < 0x1_0000
    ensures -1279 <= t <= 1279
    ensures ret < 0 ==> t == 0
    ensures ret >= 0 ==> Abs(t) == DeciOf(ret)
    ensures ret >= 0 ==> (Negative(ret) ==> t <= 0) && (!Negative(ret) ==> t >= 0)
  {
    if ret < 0 then 0
    else if Negative(ret) then -DeciOf(ret)
    else DeciOf(ret)
  }

  /** The SOC decode of `fg_get_soc`: 0.1 %, or 500 (50.0 %) when the read
      failed. */
  function Soc(ret: int): (s: int)
    requires ret < 0x1_0000
    ensures 0 <= s <= 2559
    ensures ret < 0 ==> s == 500
    ensures ret >= 0 ==> s == SocOf(ret)
  {
    if ret < 0 then 500 else SocOf(ret)
  }

  // ---------------------------------------------------------------- encoders

  function CeilDiv(x: nat, d: nat): nat
    requires d > 0
  {
    (x + d - 1) / d
  }

  /** A value in the 3.8 format: whole thousands in bits 10..8 and the
      smallest fraction byte that decodes to at least the remainder (the
      largest one, 255, for remainders above 996, which no byte reaches). */
  function EncodeMilli(m: int): (w: Word16)
    requires 0 <= m <= 7999
    ensures w < 0x800
  {
    (m / 1000) * 256 + Min(255, CeilDiv((m % 1000) * 256, 1000))
  }

  /** A signed temperature in the 7.8 format with bit 15 as its sign. */
  function EncodeTemperature(t: int): (w: Word16)
    requires -1279 <= t <= 1279
  {
    var m := Abs(t);
    var w0 := (m / 10) * 256 + CeilDiv((m % 10) * 256, 10);
    if t < 0 then w0 + 0x8000 else w0
  }

  /** A state of charge in the 8.8 format. */
  function EncodeSoc(s: int): (w: Word16)
    requires 0 <= s <= 2559
  {
    (s / 10) * 256 + CeilDiv((s % 10) * 256, 10)
  }

  /** The 3.8 decode loses nothing of the eleven bits it reads: encoding
      the decoded value gives those bits back. */
  lemma MilliRoundTrip(w: Word16)
    ensures EncodeMilli(MilliOf(w)) == w % 0x800
  {
    var i, f := (w / 256) % 8, w % 256;
    var d := f * 1000 / 256;
    assert 256 * d <= f * 1000 < 256 * d + 256;
    assert 0 <= d <= 996;
    var m := MilliOf(w);
    assert m == i * 1000 + d;
    assert m / 1000 == i && m % 1000 == d;
    assert CeilDiv(d * 256, 1000) == f;
    assert w % 0x800 == i * 256 + f;
  }

  /** Decoding an encoded value is off by at most 3 mV, less than one step
      (1000/256 mV) of the format. */
  lemma MilliEncodeClose(m: int)
    requires 0 <= m <= 7999
    ensures Abs(MilliOf(EncodeMilli(m)) - m) <= 3
  {
    var r := m % 1000;
    var f := Min(255, CeilDiv(r * 256, 1000));
    MilliFields(m / 1000, f);
    assert MilliOf(EncodeMilli(m)) == (m / 1000) * 1000 + f * 1000 / 256;
    FractionClose(r);
  }

  /** A voltage register holding an encoded voltage reads back within
      3 mV of it. */
  lemma VoltageEncodeClose(m: int)
    requires 0 <= m <= 7999
    ensures Abs(Voltage(EncodeMilli(m)) - m) <= 3
  {
    MilliEncodeClose(m);
  }

  /** A word built from a whole part below 8 and a fraction byte decodes
      to those two parts. */
  lemma MilliFields(i: int, f: int)
    requires 0 <= i < 8 && 0 <= f < 256
    ensures MilliOf(i * 256 + f) == i * 1000 + f * 1000 / 256
  {
    var w := i * 256 + f;
    assert w / 256 == i && w % 256 == f;
  }

  /** The fraction byte chosen for a remainder `r` decodes to within 3 of it. */
  lemma FractionClose(r: int)
    requires 0 <= r < 1000
    ensures var f := Min(255, CeilDiv(r * 256, 1000)); r <= f * 1000 / 256 + 3 && f * 1000 / 256 <= r + 3
  {
    var c := CeilDiv(r * 256, 1000);
    assert r * 256 <= c * 1000 < r * 256 + 1000;
    if c <= 255 {
      var d := c * 1000 / 256;
      assert 256 * d <= c * 1000 < 256 * d + 256;
    } else {
      assert 997 <= r;
      assert 255 * 1000 / 256 == 996;
    }
  }

  /** Every temperature the format can carry survives encoding and
      decoding unchanged. */
  lemma TemperatureRoundTrip(t: int)
    requires -1279 <= t <= 1279
    ensures Temperature(EncodeTemperature(t)) == t
  {
    var m := Abs(t);
    var d := m % 10;
    var f := CeilDiv(d * 256, 10);
    assert d * 256 <= f * 10 < d * 256 + 10;
    assert f * 10 / 256 == d;
    DeciFields(m / 10, f, t < 0);
  }

  /** A word built from a whole part below 128, a fraction byte and a sign
      bit decodes to those parts. */
  lemma DeciFields(i: int, f: int, neg: bool)
    requires 0 <= i < 128 && 0 <= f < 256
    ensures var w := i * 256 + f + (if neg then 0x8000 else 0);
      DeciOf(w) == i * 10 + f * 10 / 256 && (Negative(w) <==> neg)
  {
    var w := i * 256 + f + (if neg then 0x8000 else 0);
    assert w / 256 == i + (if neg then 128 else 0) && w % 256 == f;
  }

  /** Every state of charge the format can carry survives encoding and
      decoding unchanged. */
  lemma SocRoundTrip(s: int)
    requires 0 <= s <= 2559
    ensures Soc(EncodeSoc(s)) == s
  {
    var i, d := s / 10, s % 10;
    var f := CeilDiv(d * 256, 10);
    assert d * 256 <= f * 10 < d * 256 + 10;
    assert f * 10 / 256 == d;
    var w := i * 256 + f;
    assert w / 256 == i && w % 256 == f;
  }

  // --------------------------------------------------------- running average

  /** `avg = (avg + 4 * sample) / 5` with C's truncating division, as
      `fg_get_vbat` and `fg_get_curr` update `batt_avgvoltage` and
      `batt_avgcurrent`. (For the voltage the operands are unsigned and
      non-negative, where the two divisions agree.) */
  function Average(avg: int, sample: int): (r: int)
    ensures Min(avg, sample) <= r <= Max(avg, sample)
    ensures avg == sample ==> r == sample
  {
    var x := avg + 4 * sample;
    TDivBetween(x, Min(avg, sample), Max(avg, sample));
    TDiv(x, 5)
  }

  lemma TDivBetween(x: int, lo: int, hi: int)
    requires 5 * lo <= x <= 5 * hi
    ensures lo <= TDiv(x, 5) <= hi
  {
    if x >= 0 {
      TDivNonNegative(x, 5);
    } else {
      TDivNonNegative(-x, 5);
      assert TDiv(x, 5) == -((-x) / 5);
    }
  }

  /** Each update takes the average at least four fifths of the way to the
      sample (rounded against it). */
  lemma AverageContracts(avg: int, v: int)
    ensures Abs(Average(avg, v) - v) <= (Abs(avg - v) + 4) / 5
  {
    var d := avg - v;
    var x := avg + 4 * v;
    assert x == 5 * v + d;
    var q := Average(avg, v);
    if x >= 0 {
      assert q == x / 5;
      assert q == v + d / 5;
    } else {
      assert q == -((-x) / 5);
      assert q == v - (-d) / 5;
    }
  }

  function Pow5(n: nat): (p: nat)
    ensures p >= 1
  {
    if n == 0 then 1 else 5 * Pow5(n - 1)
  }

  /** The average after `n` identical samples `v`. */
  function Repeat(avg: int, v: int, n: nat): int
    decreases n
  {
    if n == 0 then avg else Repeat(Average(avg, v), v, n - 1)
  }

  /** After `n` identical samples an average that started within `5^n` of
      the sample is within 1 of it. */
  lemma {:induction false} AverageSettles(avg: int, v: int, n: nat)
    requires Abs(avg - v) <= Pow5(n)
    ensures Abs(Repeat(avg, v, n) - v) <= 1
    decreases n
  {
    if n > 0 {
      AverageContracts(avg, v);
      assert (Pow5(n) + 4) / 5 == Pow5(n - 1);
      AverageSettles(Average(avg, v), v, n - 1);
    }
  }

  /** The settling is to within 1 and no better: a non-negative average one
      below the sample never moves. */
  lemma AverageStaysBelow(v: int)
    requires v >= 1
    ensures Average(v - 1, v) == v - 1
  {
    assert (v - 1) + 4 * v == 5 * v - 1;
  }
}
