/** The words the driver writes into the SM5703 and the order it writes
    them in: the register initialisation of `sm5703_fg_reg_init`, the
    choice `sm5703_fg_init` makes between it and a bare re-lock, the
    current-calibration word written before each SOC read, and the soft
    reset with which `fg_get_soc` recovers a chip that lost its
    configuration. Each sequence is a pure function here; the driver's
    methods issue exactly these writes (see `Driver`). */
module ChipWrites {
  import opened CInt
  import opened Bits
  import opened Registers
  import opened Config
  import Codec

  // ------------------------------------------------------------ the words

  /** PARAM_CTRL carrying a code and the table length. */
  function ParamWord(code: Word16, d: Defs): (w: Word16)
    ensures forall i: nat :: Bit(w, i) <==> Bit(code, i) || Bit(d.tableLen, i)
  {
    Or16(code, d.tableLen)
  }

  /** The word that locks the parameter registers again. */
  function LockWord(d: Defs): Word16
  {
    ParamWord(d.paramLockCode, d)
  }

  /** The CNTL word of the register init: mix mode and temperature
      measurement always, top-off SOC when the calibration enables it
      (its flag shifted to bit 13 and masked), manual OCV on request. */
  function CntlWord(cal: Calibration, d: Defs, manual: bool): (w: Word16)
    ensures forall i: nat :: Bit(w, i) <==>
      Bit(d.enableMixMode, i) || Bit(d.enableTempMeasure, i) ||
      (Bit(U16(cal.enableTopoffSoc * 0x2000), i) && Bit(d.enableTopoffSoc, i)) ||
      (manual && Bit(d.enableManualOcv, i))
  {
    var v := Or16(Or16(d.enableMixMode, d.enableTempMeasure),
                  And16(U16(cal.enableTopoffSoc * 0x2000), d.enableTopoffSoc));
    if manual then Or16(v, d.enableManualOcv) else v
  }

  /** When ENABLE_MANUAL_OCV is a single bit that no other CNTL mask uses,
      that bit of the CNTL word is set exactly when manual OCV was
      requested. */
  lemma CntlManualBit(cal: Calibration, d: Defs, manual: bool, k: nat)
    requires d.enableManualOcv == Pow2(k)
    requires !Bit(d.enableMixMode, k) && !Bit(d.enableTempMeasure, k) && !Bit(d.enableTopoffSoc, k)
    ensures Bit(CntlWord(cal, d, manual), k) <==> manual
  {
    Pow2Bit(k, k);
  }

  /** IOCV_MAN: the last OCV in mV as `(ocv << 8) / 125`, a count of
      125/256 mV steps. */
  function IocvWord(ocv: int): (w: Word16)
    ensures 0 <= ocv <= 7996 ==> w * 125 <= ocv * 256 < w * 125 + 125
  {
    if ocv >= 0 then TDivNonNegative(ocv * 256, 125); U16(TDiv(ocv * 256, 125))
    else U16(TDiv(ocv * 256, 125))
  }

  // ------------------------------------------------- sm5703_fg_reg_init

  /** The first `n` RCE writes: RCE word `k` to register RCE0 + k. */
  function RceWrites(cal: Calibration, n: nat): (ws: seq<Write>)
    requires n <= |cal.rceValue|
    ensures |ws| == n
  {
    if n == 0 then [] else RceWrites(cal, n - 1) + [Write(Rce(n - 1), U16(cal.rceValue[n - 1]))]
  }

  /** The first `n` writes of battery table `i`: entry `j` to register
      TABLE_START + 16 * i + j. */
  function RowWrites(cal: Calibration, i: nat, n: nat): (ws: seq<Write>)
    requires i < |cal.batteryTable| && n <= |cal.batteryTable[i]|
    ensures |ws| == n
  {
    if n == 0 then []
    else RowWrites(cal, i, n - 1) + [Write(TableEntry(16 * i + n - 1), U16(cal.batteryTable[i][n - 1]))]
  }

  /** The RCE loop writes `rce_value[k]` to RCE `k`, in order. */
  lemma {:induction false} RceWritesAt(cal: Calibration, n: nat)
    requires n <= |cal.rceValue|
    ensures forall k | 0 <= k < n :: RceWrites(cal, n)[k] == Write(Rce(k), U16(cal.rceValue[k]))
  {
    if n > 0 {
      RceWritesAt(cal, n - 1);
    }
  }

  /** Entry `j` of table `i` goes to table register `16 * i + j`, in
      order. */
  lemma {:induction false} RowWritesAt(cal: Calibration, i: nat, n: nat)
    requires i < |cal.batteryTable| && n <= |cal.batteryTable[i]|
    ensures forall j | 0 <= j < n :: RowWrites(cal, i, n)[j] == Write(TableEntry(16 * i + j), U16(cal.batteryTable[i][j]))
  {
    if n > 0 {
      RowWritesAt(cal, i, n - 1);
    }
  }

  /** The writes of the first `m` battery tables, `len + 1` entries each. */
  function TableWrites(cal: Calibration, len: nat, m: nat): (ws: seq<Write>)
    requires cal.Shaped(len) && m <= 3
  {
    if m == 0 then [] else TableWrites(cal, len, m - 1) + RowWrites(cal, m - 1, len + 1)
  }

  /** The table loop writes table entries only. */
  lemma {:induction false} TableWritesOnlyTable(cal: Calibration, len: nat, m: nat, r: Reg)
    requires cal.Shaped(len) && m <= 3 && !r.TableEntry?
    ensures forall k | 0 <= k < |TableWrites(cal, len, m)| :: TableWrites(cal, len, m)[k].reg != r
  {
    if m > 0 {
      var a, b := TableWrites(cal, len, m - 1), RowWrites(cal, m - 1, len + 1);
      TableWritesOnlyTable(cal, len, m - 1, r);
      RowWritesAt(cal, m - 1, len + 1);
      assert forall k | 0 <= k < |a + b| :: (a + b)[k] == if k < |a| then a[k] else b[k - |a|];
    }
  }

  /** Writes before the tables: unlock, RCE0..2, DTCD, RS, VIT_PERIOD, and
      unlock again with the table length. */
  function Prologue(cal: Calibration, d: Defs): seq<Write>
    requires cal.Shaped(d.tableLen)
  {
    [Write(ParamCtrl, d.paramUnlockCode)] + RceWrites(cal, 3) +
    [Write(Dtcd, U16(cal.dtcdValue)), Write(Rs, U16(cal.rsValue[0])),
     Write(VitPeriod, U16(cal.vitPeriod)), Write(ParamCtrl, ParamWord(d.paramUnlockCode, d))]
  }

  /** Writes after the tables, first part: mix-mode parameters, voltage
      and current calibration, and top-off SOC. */
  function CalWrites(cal: Calibration): seq<Write>
    requires |cal.rsValue| == 4 && |cal.mixValue| == 2
  {
    [Write(RsMixFactor, U16(cal.rsValue[1])), Write(RsMax, U16(cal.rsValue[2])),
     Write(RsMin, U16(cal.rsValue[3])), Write(MixRate, U16(cal.mixValue[0])),
     Write(MixInitBlank, U16(cal.mixValue[1])), Write(VoltCal, U16(cal.voltCal)),
     Write(CurrCal, U16(cal.currCal)), Write(TopoffSoc, U16(cal.topoffSoc))]
  }

  /** Writes after the tables, last part: CNTL, the lock, and IOCV_MAN
      last when manual OCV is requested. */
  function ControlWrites(cal: Calibration, d: Defs, ocv: int, manual: bool): seq<Write>
  {
    [Write(Cntl, CntlWord(cal, d, manual)), Write(ParamCtrl, LockWord(d))] +
    (if manual then [Write(IocvMan, IocvWord(ocv))] else [])
  }

  /** Writes after the tables. */
  function Epilogue(cal: Calibration, d: Defs, ocv: int, manual: bool): seq<Write>
    requires cal.Shaped(d.tableLen)
  {
    CalWrites(cal) + ControlWrites(cal, d, ocv, manual)
  }

  /** The whole write trace of `sm5703_fg_reg_init(client, manual)` when
      the last OCV read was `ocv`. */
  function RegInitWrites(cal: Calibration, d: Defs, ocv: int, manual: bool): seq<Write>
    requires cal.Shaped(d.tableLen)
  {
    Prologue(cal, d) + TableWrites(cal, d.tableLen, 3) + Epilogue(cal, d, ocv, manual)
  }

  /** The number of table writes. */
  lemma {:induction false} TableWritesLength(cal: Calibration, len: nat, m: nat)
    requires cal.Shaped(len) && m <= 3
    ensures |TableWrites(cal, len, m)| == m * (len + 1)
  {
    if m > 0 {
      TableWritesLength(cal, len, m - 1);
    }
  }

  /** The register init issues 18 fixed writes, `TABLE_LEN + 1` per table,
      and one more with manual OCV. */
  lemma RegInitLength(cal: Calibration, d: Defs, ocv: int, manual: bool)
    requires cal.Shaped(d.tableLen)
    ensures |RegInitWrites(cal, d, ocv, manual)| == 18 + 3 * (d.tableLen + 1) + (if manual then 1 else 0)
  {
    TableWritesLength(cal, d.tableLen, 3);
  }

  /** Table `i` leaves entry `j < n` holding its word. */
  lemma {:induction false} RowFinal(cal: Calibration, i: nat, n: nat, j: nat)
    requires i < |cal.batteryTable| && n <= |cal.batteryTable[i]| && j < n
    ensures Final(RowWrites(cal, i, n), TableEntry(16 * i + j)) == Some(U16(cal.batteryTable[i][j]))
  {
    FinalLast(RowWrites(cal, i, n - 1), Write(TableEntry(16 * i + n - 1), U16(cal.batteryTable[i][n - 1])), TableEntry(16 * i + j));
    if j < n - 1 {
      RowFinal(cal, i, n - 1, j);
    }
  }

  /** Table `i` does not touch entries outside its `n` consecutive ones. */
  lemma RowUntouched(cal: Calibration, i: nat, n: nat, r: Reg)
    requires i < |cal.batteryTable| && n <= |cal.batteryTable[i]|
    requires !(r.TableEntry? && 16 * i <= r.offset < 16 * i + n)
    ensures Final(RowWrites(cal, i, n), r) == None
  {
    RowWritesAt(cal, i, n);
    FinalUntouched(RowWrites(cal, i, n), r);
  }

  /** With at most 16 entries per table the tables do not overlap, and
      every entry ends up holding its own word. */
  lemma {:induction false} TableFinal(cal: Calibration, len: nat, m: nat, i: nat, j: nat)
    requires cal.Shaped(len) && len < 16 && m <= 3 && i < m && j <= len
    ensures Final(TableWrites(cal, len, m), TableEntry(16 * i + j)) == Some(U16(cal.batteryTable[i][j]))
  {
    var r := TableEntry(16 * i + j);
    if i == m - 1 {
      RowFinal(cal, i, len + 1, j);
      FinalLaterWins(TableWrites(cal, len, m - 1), RowWrites(cal, m - 1, len + 1), r);
    } else {
      RowUntouched(cal, m - 1, len + 1, r);
      FinalEarlierStays(TableWrites(cal, len, m - 1), RowWrites(cal, m - 1, len + 1), r);
      TableFinal(cal, len, m - 1, i, j);
    }
  }

  /** With more than 16 entries per table the tables overlap: entry 16 of
      table 0 is overwritten by entry 0 of table 1. */
  lemma TableOverlap(cal: Calibration, len: nat)
    requires cal.Shaped(len) && len >= 16
    ensures Final(TableWrites(cal, len, 3), TableEntry(16)) == Some(U16(cal.batteryTable[1][0]))
  {
    var r := TableEntry(16);
    RowUntouched(cal, 2, len + 1, r);
    FinalEarlierStays(TableWrites(cal, len, 2), RowWrites(cal, 2, len + 1), r);
    RowFinal(cal, 1, len + 1, 0);
    FinalLaterWins(TableWrites(cal, len, 1), RowWrites(cal, 1, len + 1), r);
  }

  /** The register init ends with the parameter registers locked. */
  lemma RegInitLocks(cal: Calibration, d: Defs, ocv: int, manual: bool)
    requires cal.Shaped(d.tableLen)
    ensures Final(RegInitWrites(cal, d, ocv, manual), ParamCtrl) == Some(LockWord(d))
  {
    ControlFinal(cal, d, ocv, manual);
    FinalLaterWins(CalWrites(cal), ControlWrites(cal, d, ocv, manual), ParamCtrl);
    FinalLaterWins(Prologue(cal, d) + TableWrites(cal, d.tableLen, 3), Epilogue(cal, d, ocv, manual), ParamCtrl);
  }

  /** Nothing before the epilogue writes IOCV_MAN. */
  lemma TablesNoManualOcv(cal: Calibration, d: Defs)
    requires cal.Shaped(d.tableLen)
    ensures Final(Prologue(cal, d) + TableWrites(cal, d.tableLen, 3), IocvMan) == None
  {
    RceWritesAt(cal, 3);
    FinalUntouched(Prologue(cal, d), IocvMan);
    TableWritesOnlyTable(cal, d.tableLen, 3, IocvMan);
    FinalUntouched(TableWrites(cal, d.tableLen, 3), IocvMan);
    FinalEarlierStays(Prologue(cal, d), TableWrites(cal, d.tableLen, 3), IocvMan);
  }

  /** IOCV_MAN is written, with the last OCV, exactly when manual OCV is
      requested. */
  lemma RegInitManualOcv(cal: Calibration, d: Defs, ocv: int, manual: bool)
    requires cal.Shaped(d.tableLen)
    ensures Final(RegInitWrites(cal, d, ocv, manual), IocvMan) ==
      if manual then Some(IocvWord(ocv)) else None
  {
    var p, t, e := Prologue(cal, d), TableWrites(cal, d.tableLen, 3), Epilogue(cal, d, ocv, manual);
    var c := ControlWrites(cal, d, ocv, manual);
    ControlFinal(cal, d, ocv, manual);
    if manual {
      FinalLaterWins(CalWrites(cal), c, IocvMan);
      FinalLaterWins(p + t, e, IocvMan);
    } else {
      TablesNoManualOcv(cal, d);
      FinalUntouched(CalWrites(cal), IocvMan);
      FinalEarlierStays(CalWrites(cal), c, IocvMan);
      FinalEarlierStays(p + t, e, IocvMan);
    }
  }

  /** The control writes leave CNTL holding the control word and the
      parameter registers locked, and IOCV_MAN holding the OCV word exactly
      when manual OCV is requested. */
  lemma ControlFinal(cal: Calibration, d: Defs, ocv: int, manual: bool)
    ensures Final(ControlWrites(cal, d, ocv, manual), Cntl) == Some(CntlWord(cal, d, manual))
    ensures Final(ControlWrites(cal, d, ocv, manual), ParamCtrl) == Some(LockWord(d))
    ensures Final(ControlWrites(cal, d, ocv, manual), IocvMan) == if manual then Some(IocvWord(ocv)) else None
  {
    var w0, w1 := Write(Cntl, CntlWord(cal, d, manual)), Write(ParamCtrl, LockWord(d));
    assert [w0] == [] + [w0];
    FinalLast([], w0, Cntl);
    FinalLast([], w0, ParamCtrl);
    FinalLast([], w0, IocvMan);
    FinalLast([w0], w1, Cntl);
    FinalLast([w0], w1, ParamCtrl);
    FinalLast([w0], w1, IocvMan);
    assert [w0] + [w1] == [w0, w1];
    if manual {
      var w2 := Write(IocvMan, IocvWord(ocv));
      assert ControlWrites(cal, d, ocv, manual) == [w0, w1] + [w2];
      FinalLast([w0, w1], w2, Cntl);
      FinalLast([w0, w1], w2, ParamCtrl);
      FinalLast([w0, w1], w2, IocvMan);
    } else {
      assert ControlWrites(cal, d, ocv, manual) == [w0] + [w1];
    }
  }

  /** CNTL ends up holding the control word. */
  lemma RegInitCntl(cal: Calibration, d: Defs, ocv: int, manual: bool)
    requires cal.Shaped(d.tableLen)
    ensures Final(RegInitWrites(cal, d, ocv, manual), Cntl) == Some(CntlWord(cal, d, manual))
  {
    ControlFinal(cal, d, ocv, manual);
    FinalLaterWins(CalWrites(cal), ControlWrites(cal, d, ocv, manual), Cntl);
    FinalLaterWins(Prologue(cal, d) + TableWrites(cal, d.tableLen, 3), Epilogue(cal, d, ocv, manual), Cntl);
  }

  /** The first `n` RCE writes leave RCE `k < n` holding its word. */
  lemma {:induction false} RceFinal(cal: Calibration, n: nat, k: nat)
    requires n <= |cal.rceValue| && k < n
    ensures Final(RceWrites(cal, n), Rce(k)) == Some(U16(cal.rceValue[k]))
  {
    FinalLast(RceWrites(cal, n - 1), Write(Rce(n - 1), U16(cal.rceValue[n - 1])), Rce(k));
    if k < n - 1 {
      RceFinal(cal, n - 1, k);
    }
  }

  /** Each RCE register ends up holding its calibration word. */
  lemma RegInitRce(cal: Calibration, d: Defs, ocv: int, manual: bool, k: nat)
    requires cal.Shaped(d.tableLen) && k < 3
    ensures Final(RegInitWrites(cal, d, ocv, manual), Rce(k)) == Some(U16(cal.rceValue[k]))
  {
    var r := Rce(k);
    var p, t, e := Prologue(cal, d), TableWrites(cal, d.tableLen, 3), Epilogue(cal, d, ocv, manual);
    PrologueRce(cal, d, k);
    TableWritesOnlyTable(cal, d.tableLen, 3, r);
    FinalUntouched(t, r);
    FinalEarlierStays(p, t, r);
    FinalUntouched(e, r);
    FinalEarlierStays(p + t, e, r);
  }

  /** The prologue leaves RCE `k` holding its calibration word. */
  lemma PrologueRce(cal: Calibration, d: Defs, k: nat)
    requires cal.Shaped(d.tableLen) && k < 3
    ensures Final(Prologue(cal, d), Rce(k)) == Some(U16(cal.rceValue[k]))
  {
    var r := Rce(k);
    var unlock := [Write(ParamCtrl, d.paramUnlockCode)];
    var rce := RceWrites(cal, 3);
    var tail := [Write(Dtcd, U16(cal.dtcdValue)), Write(Rs, U16(cal.rsValue[0])),
                 Write(VitPeriod, U16(cal.vitPeriod)), Write(ParamCtrl, ParamWord(d.paramUnlockCode, d))];
    assert Prologue(cal, d) == (unlock + rce) + tail;
    FinalUntouched(tail, r);
    FinalEarlierStays(unlock + rce, tail, r);
    RceFinal(cal, 3, k);
    FinalLaterWins(unlock, rce, r);
  }

  /** With at most 16 entries per table, each table entry ends up holding
      its word from the calibration record. */
  lemma RegInitTable(cal: Calibration, d: Defs, ocv: int, manual: bool, i: nat, j: nat)
    requires cal.Shaped(d.tableLen) && d.tableLen < 16 && i < 3 && j <= d.tableLen
    ensures Final(RegInitWrites(cal, d, ocv, manual), TableEntry(16 * i + j)) ==
      Some(U16(cal.batteryTable[i][j]))
  {
    var r := TableEntry(16 * i + j);
    var p, t, e := Prologue(cal, d), TableWrites(cal, d.tableLen, 3), Epilogue(cal, d, ocv, manual);
    FinalUntouched(e, r);
    FinalEarlierStays(p + t, e, r);
    TableFinal(cal, d.tableLen, 3, i, j);
    FinalLaterWins(p, t, r);
  }

  // ------------------------------------------------------ sm5703_fg_init

  /** `sm5703_fg_check_reg_init_need`: the low byte of FG_OP_STATUS (of
      the error code, when the read fails) differs from DISABLE_RE_INIT. */
  predicate NeedsRegInit(f: RegFile, d: Defs)
  {
    f.Read(FgOpStatus) % 256 != d.disableReInit
  }

  /** The writes of `sm5703_fg_init`: none when the device ID cannot be
      read, the full register init when the chip needs one, and otherwise
      the lock word alone. */
  function InitWrites(f: RegFile, cal: Calibration, d: Defs, ocv: int, manual: bool): seq<Write>
    requires cal.Shaped(d.tableLen)
  {
    if f.Read(DeviceId) < 0 then []
    else if NeedsRegInit(f, d) then RegInitWrites(cal, d, ocv, manual)
    else [Write(ParamCtrl, LockWord(d))]
  }

  /** Whenever init gets past the device-ID read, the parameter registers
      are left locked; when it does not, nothing is written. */
  lemma InitLocks(f: RegFile, cal: Calibration, d: Defs, ocv: int, manual: bool)
    requires cal.Shaped(d.tableLen)
    ensures f.Read(DeviceId) >= 0 ==> Final(InitWrites(f, cal, d, ocv, manual), ParamCtrl) == Some(LockWord(d))
    ensures f.Read(DeviceId) < 0 ==> InitWrites(f, cal, d, ocv, manual) == []
  {
    if f.Read(DeviceId) >= 0 && NeedsRegInit(f, d) {
      RegInitLocks(cal, d, ocv, manual);
    }
  }

  /** The soft reset: 0x0008 to register 0x90. */
  const SoftReset: Write := Write(Literal(0x90), 0x0008)

  /** The writes of `sec_hal_fg_reset`: the soft reset, then init without
      manual OCV. */
  function ResetWrites(f: RegFile, cal: Calibration, d: Defs, ocv: int): seq<Write>
    requires cal.Shaped(d.tableLen)
  {
    [SoftReset] + InitWrites(f, cal, d, ocv, false)
  }

  /** A reset never writes IOCV_MAN. */
  lemma ResetNoManualOcv(f: RegFile, cal: Calibration, d: Defs, ocv: int)
    requires cal.Shaped(d.tableLen)
    ensures Final(ResetWrites(f, cal, d, ocv), IocvMan) == None
  {
    if f.Read(DeviceId) >= 0 && NeedsRegInit(f, d) {
      RegInitManualOcv(cal, d, ocv, false);
    } else {
      FinalUntouched(InitWrites(f, cal, d, ocv, false), IocvMan);
    }
    FinalEarlierStays([SoftReset], InitWrites(f, cal, d, ocv, false), IocvMan);
    FinalUntouched([SoftReset], IocvMan);
  }

  // ---------------------------------------------------------- fg_get_soc

  /** The temperature term of the current calibration:
      `(temp_std - temperature / 10) / temp_offset * temp_offset_cal`, with
      C's truncating division. */
  function TempFactor(cal: Calibration, temperature: int): int
    requires cal.tempOffset != 0
  {
    TDiv(cal.tempStd - TDiv(temperature, 10), cal.tempOffset) * cal.tempOffsetCal
  }

  /** The value `fg_get_soc` writes to CURR_CAL: the base, plus the charge
      offset (in the high byte) when a charger is present, plus the
      temperature term (in the high byte). */
  function CurrCalWord(cal: Calibration, taExist: bool, temperature: int): int
    requires cal.tempOffset != 0
  {
    (if taExist then cal.currCal + cal.chargeOffsetCal * 256 else cal.currCal) +
    TempFactor(cal, temperature) * 256
  }

  /** A charger adds exactly the charge offset, shifted into the high byte. */
  lemma ChargerOffset(cal: Calibration, temperature: int)
    requires cal.tempOffset != 0
    ensures CurrCalWord(cal, true, temperature) == CurrCalWord(cal, false, temperature) + cal.chargeOffsetCal * 256
  {
  }

  /** Within one `temp_offset` step of `temp_std` (in whole degrees) the
      temperature term vanishes and the base value is written unchanged. */
  lemma TemperatureDeadBand(cal: Calibration, temperature: int)
    requires cal.tempOffset != 0
    requires Abs(cal.tempStd - TDiv(temperature, 10)) < Abs(cal.tempOffset)
    ensures CurrCalWord(cal, false, temperature) == cal.currCal
  {
    var q := TDiv(cal.tempStd - TDiv(temperature, 10), cal.tempOffset);
    assert Abs(q) == 0;
  }

  /** With a positive step and a non-negative gain, a colder battery never
      gets a smaller correction. */
  lemma TemperatureMonotone(cal: Calibration, ta: bool, t1: int, t2: int)
    requires cal.tempOffset > 0 && cal.tempOffsetCal >= 0 && t1 <= t2
    ensures CurrCalWord(cal, ta, t1) >= CurrCalWord(cal, ta, t2)
  {
    TDivMonotone(t1, t2, 10);
    var a1 := cal.tempStd - TDiv(t1, 10);
    var a2 := cal.tempStd - TDiv(t2, 10);
    TDivMonotone(a2, a1, cal.tempOffset);
    MulMonotone(TDiv(a2, cal.tempOffset), TDiv(a1, cal.tempOffset), cal.tempOffsetCal);
  }

  /** `fg_get_soc`'s abnormal case: the op status says the chip needs its
      init, the driver believes it initialised it, and CNTL reads 0x2008. */
  predicate Abnormal(f: RegFile, d: Defs, initialised: int)
  {
    NeedsRegInit(f, d) && initialised == 1 && f.Read(Cntl) == 0x2008
  }

  /** The writes of `fg_get_soc`: in the abnormal case the soft reset and
      init with manual OCV, then always the calibration word computed from
      the temperature just read. */
  function SocWrites(f: RegFile, cal: Calibration, d: Defs, initialised: int, ocv: int, taExist: bool): seq<Write>
    requires cal.Shaped(d.tableLen) && cal.tempOffset != 0
  {
    (if Abnormal(f, d, initialised) then [SoftReset] + InitWrites(f, cal, d, ocv, true) else []) +
    [Write(CurrCal, U16(CurrCalWord(cal, taExist, Codec.Temperature(f.Read(Temperature)))))]
  }

  /** The recovery runs the full register init, with manual OCV (the OCV
      read before the reset is written back), after the soft reset; and
      CURR_CAL ends with the SOC read's calibration word, not the base value
      the init wrote. */
  lemma RecoveryRunsFullInit(f: RegFile, cal: Calibration, d: Defs, initialised: int, ocv: int, taExist: bool)
    requires cal.Shaped(d.tableLen) && cal.tempOffset != 0
    requires Abnormal(f, d, initialised) && f.Read(DeviceId) >= 0
    ensures SocWrites(f, cal, d, initialised, ocv, taExist)[0] == SoftReset
    ensures Final(SocWrites(f, cal, d, initialised, ocv, taExist), IocvMan) == Some(IocvWord(ocv))
    ensures Final(SocWrites(f, cal, d, initialised, ocv, taExist), ParamCtrl) == Some(LockWord(d))
    ensures Final(SocWrites(f, cal, d, initialised, ocv, taExist), CurrCal) ==
      Some(U16(CurrCalWord(cal, taExist, Codec.Temperature(f.Read(Temperature)))))
  {
    var init := RegInitWrites(cal, d, ocv, true);
    var last := [Write(CurrCal, U16(CurrCalWord(cal, taExist, Codec.Temperature(f.Read(Temperature)))))];
    var ws := SocWrites(f, cal, d, initialised, ocv, taExist);
    assert ws == [SoftReset] + init + last;
    FinalLast([SoftReset] + init, last[0], IocvMan);
    FinalLast([SoftReset] + init, last[0], ParamCtrl);
    RegInitManualOcv(cal, d, ocv, true);
    RegInitLocks(cal, d, ocv, true);
    FinalLaterWins([SoftReset], init, IocvMan);
    FinalLaterWins([SoftReset], init, ParamCtrl);
  }

  /** Whatever the recovery did, each SOC read leaves CURR_CAL holding
      the calibration word for the temperature it read. */
  lemma SocCalibrationLast(f: RegFile, cal: Calibration, d: Defs, initialised: int, ocv: int, taExist: bool)
    requires cal.Shaped(d.tableLen) && cal.tempOffset != 0
    ensures Final(SocWrites(f, cal, d, initialised, ocv, taExist), CurrCal) ==
      Some(U16(CurrCalWord(cal, taExist, Codec.Temperature(f.Read(Temperature)))))
  {
  }

  /** Without the driver's own initialised flag there is no recovery: the
      calibration word is the only write. */
  lemma NoRecoveryUninitialised(f: RegFile, cal: Calibration, d: Defs, initialised: int, ocv: int, taExist: bool)
    requires cal.Shaped(d.tableLen) && cal.tempOffset != 0 && initialised != 1
    ensures SocWrites(f, cal, d, initialised, ocv, taExist) ==
      [Write(CurrCal, U16(CurrCalWord(cal, taExist, Codec.Temperature(f.Read(Temperature)))))]
  {
  }
}
