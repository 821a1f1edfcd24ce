/** The SM5703 fuel-gauge driver's own state and its entry points: the
    measurement fields it keeps in `fuelgauge->info`, the stabiliser's
    `capacity_old`, `capacity_max` and `initial_update_of_soc`, the charger
    state set through ONLINE, and the fuel-alert latch.

    The charger's answers (`psy_do_property("sm5703-charger", ...)`) are
    parameters of the methods that ask for them. In `fg_get_soc` the
    charger-health value is read without having been queried, so it is a
    parameter (`staleHealthGood`) that may be anything. Wake locks, the
    200 ms sleep and the scheduling of the alert work are recorded as
    events. */
module Driver {
  import opened CInt
  import opened Bits
  import opened Registers
  import Codec
  import opened Config
  import opened ChipWrites
  import opened Capacity

  /** The measurement and status fields of `fuelgauge->info`. */
  datatype Info = Info(
    battVoltage: int,
    battAvgVoltage: int,
    battOcv: int,
    battCurrent: int,
    battAvgCurrent: int,
    temperature: int,
    battSoc: int,
    isFgInitialised: int,
    irqCtrl: int,
    socAlertFlag: bool,
    voltAlertFlag: bool,
    flagFullCharge: int,
    flagChgStatus: int)

  /** The fields as `kzalloc` leaves them. */
  const ZeroInfo: Info := Info(0, 0, 0, 0, 0, 0, 0, 0, 0, false, false, 0, 0)

  /** The ranges the decoders keep the fields in. */
  predicate InfoValid(i: Info)
  {
    0 <= i.battVoltage <= 7996 && 0 <= i.battAvgVoltage <= 7996 && 0 <= i.battOcv <= 7996 &&
    -7996 <= i.battCurrent <= 7996 && -7996 <= i.battAvgCurrent <= 7996 &&
    -1279 <= i.temperature <= 1279 &&
    (i.isFgInitialised == 0 || i.isFgInitialised == 1)
  }

  /** What the driver does besides register I/O. */
  datatype Event = Sleep200ms | WakeLock | WakeUnlock | ScheduleIsrWork

  /** The power-supply properties the driver distinguishes
      (`POWER_SUPPLY_PROP_*`); `PropOther` is any other one. */
  datatype Prop =
    | PropStatus | PropChargeFull | PropOnline | PropPresent
    | PropVoltageNow | PropVoltageAvg | PropCurrentNow | PropCurrentAvg
    | PropEnergyNow | PropCapacity | PropTemp | PropTempAmbient
    | PropEnergyFullDesign | PropOther

  /** The properties `sm5703_fg_get_property` hands to `sec_hal_fg_get_property`. */
  predicate HalProp(p: Prop)
  {
    p in {PropPresent, PropVoltageNow, PropVoltageAvg, PropCurrentNow, PropCurrentAvg,
          PropEnergyNow, PropCapacity, PropTemp, PropTempAmbient}
  }

  /** The properties `sec_hal_fg_get_property` answers. */
  predicate HalAnswers(p: Prop)
  {
    p in {PropVoltageNow, PropVoltageAvg, PropPresent, PropCurrentNow, PropCurrentAvg,
          PropChargeFull, PropCapacity, PropTemp, PropTempAmbient}
  }

  /** `sec_hal_fg_set_property`: only the two temperature properties are
      accepted, and nothing is done with them. */
  function HalSetProperty(p: Prop): bool
  {
    p == PropTemp || p == PropTempAmbient
  }

  /** `sec_hal_fg_is_fuelalerted`. */
  function IsFuelAlerted(): bool
  {
    false
  }

  // ------------------------------------------------ effects on the fields

  /** The fields after `sm5703_fg_init`: the initialised flag is cleared
      and, when the device ID can be read, the first voltage sample seeds
      the average, the temperature is read and the flag is set. */
  function AfterInit(f: RegFile, i: Info): Info
  {
    if f.Read(DeviceId) < 0 then i.(isFgInitialised := 0)
    else
      var v := Codec.Voltage(f.Read(Voltage));
      i.(battVoltage := v, battAvgVoltage := v,
         temperature := Codec.Temperature(f.Read(Temperature)), isFgInitialised := 1)
  }

  /** The fields after `fg_get_soc`: the recovery's init in the abnormal
      case, then a fresh temperature and OCV. */
  function AfterSoc(f: RegFile, d: Defs, i: Info): Info
  {
    (if Abnormal(f, d, i.isFgInitialised) then AfterInit(f, i) else i)
      .(temperature := Codec.Temperature(f.Read(Temperature)), battOcv := Codec.Voltage(f.Read(Ocv)))
  }

  /** The charger's status as `sec_hal_fg_get_property` records it. */
  function WithStatus(d: Defs, i: Info, status: int): Info
  {
    i.(flagFullCharge := if status == d.statusFull then 1 else 0,
       flagChgStatus := if status == d.statusCharging then 1 else 0)
  }

  /** The fields after the measurements `sec_hal_fg_get_property` takes
      to answer `psp`. */
  function AfterSample(f: RegFile, d: Defs, i: Info, psp: Prop, val: int): Info
  {
    var v := Codec.Voltage(f.Read(Voltage));
    var c := Codec.Current(f.Read(Current));
    match psp
    case PropVoltageNow => i.(battVoltage := v, battAvgVoltage := Codec.Average(i.battAvgVoltage, v))
    case PropVoltageAvg =>
      if val == d.voltageAverage then i.(battVoltage := v, battAvgVoltage := Codec.Average(i.battAvgVoltage, v))
      else if val == d.voltageOcv then i.(battOcv := Codec.Voltage(f.Read(Ocv)))
      else i
    case PropCurrentNow =>
      i.(battCurrent := c, battAvgCurrent := Codec.Average(Codec.Average(i.battAvgCurrent, c), c))
    case PropCurrentAvg => i.(battCurrent := c, battAvgCurrent := Codec.Average(i.battAvgCurrent, c))
    case PropCapacity => AfterSoc(f, d, i)
    case PropTemp => i.(temperature := Codec.Temperature(f.Read(Temperature)))
    case PropTempAmbient => i.(temperature := Codec.Temperature(f.Read(Temperature)))
    case _ => i
  }

  /** The fields after `sec_hal_fg_get_property(psp, val)` when the charger
      reports `status`. */
  function AfterHalGet(f: RegFile, d: Defs, i: Info, psp: Prop, val: int, status: int): Info
  {
    AfterSample(f, d, WithStatus(d, i, status), psp, val)
  }

  /** The value `sec_hal_fg_get_property(psp, val)` reports, from the
      fields as they were before the call; `val` itself when it answers
      nothing. */
  function HalOut(f: RegFile, d: Defs, i: Info, psp: Prop, val: int): int
  {
    var c := Codec.Current(f.Read(Current));
    var s := Codec.Soc(f.Read(Soc));
    match psp
    case PropVoltageNow => Codec.Voltage(f.Read(Voltage))
    case PropVoltageAvg =>
      if val == d.voltageAverage then Codec.Average(i.battAvgVoltage, Codec.Voltage(f.Read(Voltage)))
      else if val == d.voltageOcv then Codec.Voltage(f.Read(Ocv))
      else val
    case PropCurrentNow => Codec.Average(Codec.Average(i.battAvgCurrent, c), c)
    case PropCurrentAvg => Codec.Average(i.battAvgCurrent, c)
    case PropChargeFull => if i.battSoc >= 1000 then 1 else 0
    case PropCapacity => if val == d.capacityTypeRaw then s * 10 else s
    case PropTemp => Codec.Temperature(f.Read(Temperature))
    case PropTempAmbient => Codec.Temperature(f.Read(Temperature))
    case _ => val
  }

  /** The interrupt mask `sec_hal_fg_fuelalert_init` enables and records. */
  function AlertMask(d: Defs): (w: Word16)
    ensures forall i: nat :: Bit(w, i) <==> Bit(d.enableLSocInt, i) || Bit(d.enableLVolInt, i)
  {
    Or16(d.enableLSocInt, d.enableLVolInt)
  }

  /** The writes of `sec_hal_fg_fuelalert_init`: all interrupts unmasked,
      then only the low-SOC and low-voltage ones, and the thresholds
      3000 mV and 1.00 %. */
  function AlertInitWrites(d: Defs): seq<Write>
  {
    [Write(IntFgMask, 0x0000), Write(IntFgMask, AlertMask(d)),
     Write(VAlarm, 0x0300), Write(SocAlarm, 0x0100)]
  }

  /** The fields after `sec_hal_fg_fuelalert_init`. */
  function AfterAlertInit(d: Defs, i: Info): Info
  {
    i.(irqCtrl := AlertMask(d), socAlertFlag := false)
  }

  /** `ret & mask` is non-zero for the INTFG read `ret` (a negative error
      code included, in two's complement). */
  predicate Raised(ret: int, mask: Word16)
  {
    And16(U16(ret), mask) != 0
  }

  // ---------------------------------------------------------------- lemmas

  /** The charger status the HAL records first changes neither what it
      reports nor anything the recovery and calibration depend on. */
  lemma StatusUnseen(f: RegFile, d: Defs, i: Info, psp: Prop, val: int, status: int)
    ensures HalOut(f, d, WithStatus(d, i, status), psp, val) == HalOut(f, d, i, psp, val)
    ensures WithStatus(d, i, status).isFgInitialised == i.isFgInitialised
    ensures WithStatus(d, i, status).battOcv == i.battOcv
    ensures InfoValid(WithStatus(d, i, status)) == InfoValid(i)
  {
  }

  /** CURRENT_NOW reports what CURRENT_AVG would report after one more
      sample, and leaves the fields as two CURRENT_AVG reads would: the
      switch falls through. */
  lemma CurrentNowFallsThrough(f: RegFile, d: Defs, i: Info, val: int)
    ensures HalOut(f, d, i, PropCurrentNow, val) ==
      HalOut(f, d, AfterSample(f, d, i, PropCurrentAvg, val), PropCurrentAvg, val)
    ensures AfterSample(f, d, i, PropCurrentNow, val) ==
      AfterSample(f, d, AfterSample(f, d, i, PropCurrentAvg, val), PropCurrentAvg, val)
  {
  }

  /** So CURRENT_NOW is not the current just measured: from an average of
      0 mA, a steady 1000 mA reads as 960 mA. */
  lemma CurrentNowNotInstant(d: Defs)
    ensures var f := RegFile(map[Current := 0x0100], {}, -5);
      Codec.Current(f.Read(Current)) == 1000 && HalOut(f, d, ZeroInfo, PropCurrentNow, 0) == 960
  {
    var f := RegFile(map[Current := 0x0100], {}, -5);
    assert Codec.MilliOf(0x0100) == 1000;
    TDivNonNegative(4000, 5);
    TDivNonNegative(4800, 5);
  }

  /** With a single-bit mask, an alert flag is raised exactly when the
      INTFG value as read has that bit; a failed read counts too, through
      its two's-complement bits. */
  lemma RaisedSingleBit(ret: int, k: nat)
    requires Pow2(k) < 0x1_0000
    ensures Raised(ret, Pow2(k)) <==> Bit(U16(ret), k)
  {
    var r := And16(U16(ret), Pow2(k));
    Pow2Bit(k, k);
    if r != 0 {
      var i := NonZeroHasBit(r);
      Pow2Bit(k, i);
    } else {
      ZeroHasNoBits(k);
    }
  }

  /** For instance an INTFG read failing with -EIO raises the alerts on
      bits 0 and 1, but not the one on bit 2. */
  lemma FailedReadRaises()
    ensures Raised(-5, Pow2(0)) && Raised(-5, Pow2(1)) && !Raised(-5, Pow2(2))
  {
    assert U16(-5) == 0xFFFB;
    RaisedSingleBit(-5, 0);
    RaisedSingleBit(-5, 1);
    RaisedSingleBit(-5, 2);
  }

  /** A recovery whose device-ID read fails leaves the driver
      uninitialised, so the next SOC read does not recover again. */
  lemma FailedRecoveryNotRetried(f: RegFile, d: Defs, i: Info)
    requires Abnormal(f, d, i.isFgInitialised) && f.Read(DeviceId) < 0
    ensures AfterSoc(f, d, i).isFgInitialised == 0
    ensures !Abnormal(f, d, AfterSoc(f, d, i).isFgInitialised)
  {
  }

  // ------------------------------------------------------------ the driver

  class FuelGauge {
    const chip: Chip
    const cal: Calibration
    const defs: Defs
    const pdata: PlatformData
    var info: Info
    var capacityOld: int
    var capacityMax: int
    var initialUpdateOfSoc: bool
    var isCharging: bool
    var cableType: int
    var isFuelAlerted: bool
    var events: seq<Event>

    ghost predicate Valid()
      reads this
    {
      cal.Shaped(defs.tableLen) && cal.tempOffset != 0 &&
      InfoValid(info) && 0 <= capacityOld <= 100
    }

    /** The state `sm5703_fuelgauge_probe` starts from: the zeroed
        allocation plus probe's direct assignments of the platform's
        `capacity_max`, the armed first-read latch and no fuel alert. Probe
        itself is this followed by `HalInit`, a raw CAPACITY read through
        `HalGetProperty`, `CalculateDynamicScale` when that read divided by
        ten exceeds the platform's `capacity_max`, and `FuelAlertInit`. */
    constructor (chip: Chip, cal: Calibration, defs: Defs, pdata: PlatformData)
      requires cal.Shaped(defs.tableLen) && cal.tempOffset != 0
      ensures Valid()
      ensures this.chip == chip && this.cal == cal && this.defs == defs && this.pdata == pdata
      ensures info == ZeroInfo && capacityOld == 0 && capacityMax == pdata.capacityMax
      ensures initialUpdateOfSoc && !isCharging && cableType == 0 && !isFuelAlerted && events == []
    {
      this.chip := chip;
      this.cal := cal;
      this.defs := defs;
      this.pdata := pdata;
      info := ZeroInfo;
      capacityOld := 0;
      capacityMax := pdata.capacityMax;
      initialUpdateOfSoc := true;
      isCharging := false;
      cableType := 0;
      isFuelAlerted := false;
      events := [];
    }

    // ---------------------------------------------------------- readers

    /** `fg_get_ocv`. */
    method GetOcv() returns (ocv: int)
      requires Valid()
      modifies this`info
      ensures Valid()
      ensures ocv == Codec.Voltage(chip.file.Read(Ocv))
      ensures info == old(info).(battOcv := ocv)
    {
      var ret := chip.file.Read(Ocv);
      ocv := Codec.Voltage(ret);
      info := info.(battOcv := ocv);
    }

    /** `fg_get_vbat`: the sample, and the running average updated with it. */
    method GetVbat() returns (vbat: int)
      requires Valid()
      modifies this`info
      ensures Valid()
      ensures vbat == Codec.Voltage(chip.file.Read(Voltage))
      ensures info == old(info).(battVoltage := vbat, battAvgVoltage := Codec.Average(old(info).battAvgVoltage, vbat))
    {
      var ret := chip.file.Read(Voltage);
      vbat := Codec.Voltage(ret);
      info := info.(battVoltage := vbat);
      info := info.(battAvgVoltage := Codec.Average(info.battAvgVoltage, vbat));
    }

    /** `fg_get_curr`: the sample, and the running average updated with it. */
    method GetCurr() returns (curr: int)
      requires Valid()
      modifies this`info
      ensures Valid()
      ensures curr == Codec.Current(chip.file.Read(Current))
      ensures info == old(info).(battCurrent := curr, battAvgCurrent := Codec.Average(old(info).battAvgCurrent, curr))
    {
      var ret := chip.file.Read(Current);
      curr := Codec.Current(ret);
      info := info.(battCurrent := curr);
      info := info.(battAvgCurrent := Codec.Average(info.battAvgCurrent, curr));
    }

    /** `fg_get_temp`. */
    method GetTemp() returns (temp: int)
      requires Valid()
      modifies this`info
      ensures Valid()
      ensures temp == Codec.Temperature(chip.file.Read(Temperature))
      ensures info == old(info).(temperature := temp)
    {
      var ret := chip.file.Read(Temperature);
      temp := Codec.Temperature(ret);
      info := info.(temperature := temp);
    }

    // ------------------------------------------------------------- init

    /** `sm5703_fg_reg_init`: the prologue, the three battery tables and
        the epilogue, in that order. */
    method RegInit(manual: bool)
      requires Valid()
      modifies chip`trace
      ensures chip.trace == old(chip.trace) + RegInitWrites(cal, defs, info.battOcv, manual)
    {
      ghost var t0 := chip.trace;
      WritePrologue();
      WriteTables();
      WriteEpilogue(manual);
      AppendThree(t0, Prologue(cal, defs), TableWrites(cal, defs.tableLen, 3), Epilogue(cal, defs, info.battOcv, manual));
    }

    /** The unlock, the RCE loop, DTCD, RS, VIT_PERIOD and the unlock with
        the table length. */
    method WritePrologue()
      requires Valid()
      modifies chip`trace
      ensures chip.trace == old(chip.trace) + Prologue(cal, defs)
    {
      ghost var t0 := chip.trace;
      chip.WriteWord(ParamCtrl, defs.paramUnlockCode);
      var i := 0;
      while i < 3
        invariant 0 <= i <= 3
        invariant chip.trace == t0 + [Write(ParamCtrl, defs.paramUnlockCode)] + RceWrites(cal, i)
      {
        chip.WriteWord(Rce(i), cal.rceValue[i]);
        i := i + 1;
      }
      chip.WriteWord(Dtcd, cal.dtcdValue);
      chip.WriteWord(Rs, cal.rsValue[0]);
      chip.WriteWord(VitPeriod, cal.vitPeriod);
      chip.WriteWord(ParamCtrl, ParamWord(defs.paramUnlockCode, defs));
    }

    /** The nested loop over the three battery tables, `TABLE_LEN + 1`
        entries each. */
    method WriteTables()
      requires Valid()
      modifies chip`trace
      ensures chip.trace == old(chip.trace) + TableWrites(cal, defs.tableLen, 3)
    {
      ghost var t1 := chip.trace;
      var i := 0;
      while i < 3
        invariant 0 <= i <= 3
        invariant chip.trace == t1 + TableWrites(cal, defs.tableLen, i)
      {
        var j := 0;
        while j <= defs.tableLen
          invariant 0 <= j <= defs.tableLen + 1
          invariant chip.trace == t1 + TableWrites(cal, defs.tableLen, i) + RowWrites(cal, i, j)
        {
          chip.WriteWord(TableEntry(16 * i + j), cal.batteryTable[i][j]);
          j := j + 1;
        }
        i := i + 1;
      }
    }

    /** The mix-mode and calibration words, CNTL, the lock, and IOCV_MAN
        from the last OCV when manual OCV is requested. */
    method WriteEpilogue(manual: bool)
      requires Valid()
      modifies chip`trace
      ensures chip.trace == old(chip.trace) + Epilogue(cal, defs, info.battOcv, manual)
    {
      WriteCalibration();
      WriteControl(manual);
    }

    /** The mix-mode parameters, the calibration words and top-off SOC. */
    method WriteCalibration()
      requires Valid()
      modifies chip`trace
      ensures chip.trace == old(chip.trace) + CalWrites(cal)
    {
      chip.WriteWord(RsMixFactor, cal.rsValue[1]);
      chip.WriteWord(RsMax, cal.rsValue[2]);
      chip.WriteWord(RsMin, cal.rsValue[3]);
      chip.WriteWord(MixRate, cal.mixValue[0]);
      chip.WriteWord(MixInitBlank, cal.mixValue[1]);
      chip.WriteWord(VoltCal, cal.voltCal);
      chip.WriteWord(CurrCal, cal.currCal);
      chip.WriteWord(TopoffSoc, cal.topoffSoc);
    }

    /** CNTL, with manual OCV on request; the lock; and IOCV_MAN from the
        last OCV when manual OCV is requested. */
    method WriteControl(manual: bool)
      requires Valid()
      modifies chip`trace
      ensures chip.trace == old(chip.trace) + ControlWrites(cal, defs, info.battOcv, manual)
    {
      var value := Or16(Or16(defs.enableMixMode, defs.enableTempMeasure),
                        And16(U16(cal.enableTopoffSoc * 0x2000), defs.enableTopoffSoc));
      if manual {
        value := Or16(value, defs.enableManualOcv);
      }
      chip.WriteWord(Cntl, value);
      value := LockWord(defs);
      chip.WriteWord(ParamCtrl, value);
      if manual {
        chip.WriteWord(IocvMan, TDiv(info.battOcv * 256, 125));
      }
    }

    /** `sm5703_fg_init`: fails, having written nothing, when the device ID
        cannot be read; otherwise initialises the registers (or only
        re-locks them) and takes the first voltage and temperature. */
    method Init(manual: bool) returns (ok: bool)
      requires Valid()
      modifies this`info, chip`trace
      ensures Valid()
      ensures ok <==> chip.file.Read(DeviceId) >= 0
      ensures chip.trace == old(chip.trace) + InitWrites(chip.file, cal, defs, old(info).battOcv, manual)
      ensures info == AfterInit(chip.file, old(info))
    {
      info := info.(isFgInitialised := 0);
      var ret := chip.file.Read(DeviceId);
      if ret < 0 {
        return false;
      }
      if NeedsRegInit(chip.file, defs) {
        RegInit(manual);
      } else {
        chip.WriteWord(ParamCtrl, LockWord(defs));
      }
      var vbat := GetVbat();
      info := info.(battAvgVoltage := vbat);
      var temp := GetTemp();
      info := info.(temperature := temp);
      info := info.(isFgInitialised := 1);
      ok := true;
    }

    /** `sec_hal_fg_init`: init without manual OCV, then the temperature
        is set to 25.0 degC. */
    method HalInit() returns (ok: bool)
      requires Valid()
      modifies this`info, chip`trace
      ensures Valid() && ok
      ensures chip.trace == old(chip.trace) + InitWrites(chip.file, cal, defs, old(info).battOcv, false)
      ensures info == AfterInit(chip.file, old(info)).(temperature := 250)
    {
      var _ := Init(false);
      info := info.(temperature := 250);
      ok := true;
    }

    /** `sec_hal_fg_reset`: the soft reset, 200 ms, and init without manual
        OCV. */
    method Reset() returns (ok: bool)
      requires Valid()
      modifies this`info, this`events, chip`trace
      ensures Valid() && ok
      ensures chip.trace == old(chip.trace) + ResetWrites(chip.file, cal, defs, old(info).battOcv)
      ensures events == old(events) + [Sleep200ms]
      ensures info == AfterInit(chip.file, old(info))
    {
      chip.WriteWord(Literal(0x90), 0x0008);
      events := events + [Sleep200ms];
      var _ := Init(false);
      ok := true;
    }

    // -------------------------------------------------------------- SOC

    /** The abnormal case of `fg_get_soc`: when the op status asks for an
        init, the driver believes it has done one, and CNTL reads 0x2008,
        the soft reset, 200 ms, and init with manual OCV. */
    method Recover()
      requires Valid()
      modifies this`info, this`events, chip`trace
      ensures Valid()
      ensures chip.trace == old(chip.trace) +
        (if Abnormal(chip.file, defs, old(info).isFgInitialised)
         then [SoftReset] + InitWrites(chip.file, cal, defs, old(info).battOcv, true) else [])
      ensures events == old(events) + (if Abnormal(chip.file, defs, old(info).isFgInitialised) then [Sleep200ms] else [])
      ensures info == if Abnormal(chip.file, defs, old(info).isFgInitialised) then AfterInit(chip.file, old(info)) else old(info)
    {
      var ret := chip.file.Read(FgOpStatus);
      if ret % 256 != defs.disableReInit && info.isFgInitialised == 1 {
        ret := chip.file.Read(Cntl);
        if ret == 0x2008 {
          chip.WriteWord(Literal(0x90), 0x0008);
          events := events + [Sleep200ms];
          var _ := Init(true);
        }
      }
    }

    /** `fg_get_soc`: recover the chip in the abnormal case, write the
        current calibration for the temperature just read, and read the
        SOC. */
    method GetSoc(staleHealthGood: bool) returns (soc: int)
      requires Valid()
      modifies this`info, this`events, chip`trace
      ensures Valid()
      ensures soc == Codec.Soc(chip.file.Read(Soc))
      ensures chip.trace == old(chip.trace) +
        SocWrites(chip.file, cal, defs, old(info).isFgInitialised, old(info).battOcv, staleHealthGood || isCharging)
      ensures events == old(events) + (if Abnormal(chip.file, defs, old(info).isFgInitialised) then [Sleep200ms] else [])
      ensures info == AfterSoc(chip.file, defs, old(info))
    {
      Recover();
      var taExist := staleHealthGood || isCharging;
      var currCal := if taExist then cal.currCal + cal.chargeOffsetCal * 256 else cal.currCal;
      var temp := GetTemp();
      var ocv := GetOcv();
      var tempCalFact := cal.tempStd - TDiv(info.temperature, 10);
      tempCalFact := TDiv(tempCalFact, cal.tempOffset);
      tempCalFact := tempCalFact * cal.tempOffsetCal;
      currCal := currCal + tempCalFact * 256;
      chip.WriteWord(CurrCal, currCal);
      var ret := chip.file.Read(Soc);
      soc := Codec.Soc(ret);
    }

    // ------------------------------------------------------- properties

    /** `sec_hal_fg_get_property`: records the charger status, then answers
        `psp`. CURRENT_NOW falls through into CURRENT_AVG: it samples the
        current twice and reports the average. */
    method HalGetProperty(psp: Prop, val: int, status: int, staleHealthGood: bool) returns (ok: bool, out: int)
      requires Valid()
      modifies this`info, this`events, chip`trace
      ensures Valid()
      ensures ok <==> HalAnswers(psp)
      ensures out == HalOut(chip.file, defs, old(info), psp, val)
      ensures info == AfterHalGet(chip.file, defs, old(info), psp, val, status)
      ensures psp == PropCapacity ==>
        chip.trace == old(chip.trace) +
          SocWrites(chip.file, cal, defs, old(info).isFgInitialised, old(info).battOcv, staleHealthGood || isCharging) &&
        events == old(events) + (if Abnormal(chip.file, defs, old(info).isFgInitialised) then [Sleep200ms] else [])
      ensures psp != PropCapacity ==> chip.trace == old(chip.trace) && events == old(events)
    {
      info := info.(flagFullCharge := if status == defs.statusFull then 1 else 0);
      info := info.(flagChgStatus := if status == defs.statusCharging then 1 else 0);
      assert info == WithStatus(defs, old(info), status);
      StatusUnseen(chip.file, defs, old(info), psp, val, status);
      if psp == PropCapacity {
        ok := true;
        out := AnswerCapacity(val, staleHealthGood);
      } else {
        ok, out := AnswerMeasure(psp, val);
      }
    }

    /** The cases of `sec_hal_fg_get_property` other than CAPACITY: they
        read the chip but write nothing to it. */
    method AnswerMeasure(psp: Prop, val: int) returns (ok: bool, out: int)
      requires Valid() && psp != PropCapacity
      modifies this`info
      ensures Valid()
      ensures ok <==> HalAnswers(psp)
      ensures out == HalOut(chip.file, defs, old(info), psp, val)
      ensures info == AfterSample(chip.file, defs, old(info), psp, val)
    {
      out := val;
      ok := true;
      match psp {
        case PropVoltageNow =>
          out := AnswerVoltage(psp, val);
        case PropVoltageAvg =>
          out := AnswerVoltage(psp, val);
        case PropPresent =>
        case PropCurrentNow =>
          out := AnswerCurrent(psp);
        case PropCurrentAvg =>
          out := AnswerCurrent(psp);
        case PropChargeFull =>
          out := if info.battSoc >= 1000 then 1 else 0;
        case PropTemp =>
          out := GetTemp();
        case PropTempAmbient =>
          out := GetTemp();
        case _ =>
          ok := false;
      }
    }

    /** The VOLTAGE_NOW and VOLTAGE_AVG cases of `sec_hal_fg_get_property`. */
    method AnswerVoltage(psp: Prop, val: int) returns (out: int)
      requires Valid() && (psp == PropVoltageNow || psp == PropVoltageAvg)
      modifies this`info
      ensures Valid()
      ensures out == HalOut(chip.file, defs, old(info), psp, val)
      ensures info == AfterSample(chip.file, defs, old(info), psp, val)
    {
      out := val;
      if psp == PropVoltageNow {
        out := GetVbat();
      } else if val == defs.voltageAverage {
        var _ := GetVbat();
        out := info.battAvgVoltage;
      } else if val == defs.voltageOcv {
        out := GetOcv();
      }
    }

    /** The CURRENT_NOW and CURRENT_AVG cases of `sec_hal_fg_get_property`:
        CURRENT_NOW samples once and falls through into CURRENT_AVG. */
    method AnswerCurrent(psp: Prop) returns (out: int)
      requires Valid() && (psp == PropCurrentNow || psp == PropCurrentAvg)
      modifies this`info
      ensures Valid()
      ensures out == HalOut(chip.file, defs, old(info), psp, 0)
      ensures info == AfterSample(chip.file, defs, old(info), psp, 0)
    {
      if psp == PropCurrentNow {
        out := GetCurr();
      }
      var _ := GetCurr();
      out := info.battAvgCurrent;
    }

    /** The CAPACITY case of `sec_hal_fg_get_property`: the SOC in 0.1 %,
        times ten for a raw request. */
    method AnswerCapacity(val: int, staleHealthGood: bool) returns (out: int)
      requires Valid()
      modifies this`info, this`events, chip`trace
      ensures Valid()
      ensures out == HalOut(chip.file, defs, old(info), PropCapacity, val)
      ensures info == AfterSample(chip.file, defs, old(info), PropCapacity, val)
      ensures chip.trace == old(chip.trace) +
        SocWrites(chip.file, cal, defs, old(info).isFgInitialised, old(info).battOcv, staleHealthGood || isCharging)
      ensures events == old(events) + (if Abnormal(chip.file, defs, old(info).isFgInitialised) then [Sleep200ms] else [])
    {
      var soc := GetSoc(staleHealthGood);
      out := if val == defs.capacityTypeRaw then soc * 10 else soc;
    }

    /** `sec_fg_get_atomic_capacity`, on the whole percent `v`. */
    method GetAtomicCapacity(v: int) returns (r: int)
      requires Valid()
      modifies this`capacityOld
      ensures 0 <= v <= 100 ==> Valid()
      ensures r == Smoothed(pdata.capacityCalculationType, old(capacityOld), v, isCharging)
      ensures capacityOld == r
    {
      r := v;
      if Atomic in pdata.capacityCalculationType {
        if capacityOld < r {
          r := capacityOld + 1;
        } else if capacityOld > r {
          r := capacityOld - 1;
        }
      }
      if SkipAbnormal in pdata.capacityCalculationType {
        if !isCharging && capacityOld < r {
          r := capacityOld;
        }
      }
      capacityOld := r;
    }

    /** What `sm5703_fg_get_property` does with the SOC `soc` of a non-raw
        CAPACITY read: rescale, clamp and truncate; release a pending fuel
        alert once that is above the alert level; then latch the first
        reading or smooth against the last. */
    method StabiliseCapacity(soc: int) returns (out: int)
      requires Valid()
      requires Scales(pdata.capacityCalculationType) ==> capacityMax != pdata.capacityMin
      modifies this`info, this`events, this`capacityOld, this`initialUpdateOfSoc, chip`trace
      ensures Valid()
      ensures var r := Report(pdata.capacityCalculationType, soc, pdata.capacityMin, capacityMax,
                              old(initialUpdateOfSoc), old(capacityOld), isCharging);
        out == r.percent && capacityOld == r.capacityOld && initialUpdateOfSoc == r.initial
      ensures var release := old(isFuelAlerted) &&
          RawPercent(pdata.capacityCalculationType, soc, pdata.capacityMin, capacityMax) > pdata.fuelAlertSoc;
        info == (if release then AfterAlertInit(defs, old(info)) else old(info)) &&
        chip.trace == old(chip.trace) + (if release then AlertInitWrites(defs) else []) &&
        events == old(events) + (if release then [WakeUnlock] else [])
    {
      var types := pdata.capacityCalculationType;
      out := soc;
      if Scales(types) {
        out := Scaled(out, pdata.capacityMin, capacityMax);
      }
      out := Percent(out);
      assert out == RawPercent(types, soc, pdata.capacityMin, capacityMax);
      if out > pdata.fuelAlertSoc && isFuelAlerted {
        events := events + [WakeUnlock];
        var _ := FuelAlertInit();
      }
      if initialUpdateOfSoc {
        capacityOld := out;
        initialUpdateOfSoc := false;
        return;
      }
      if Atomic in types || SkipAbnormal in types {
        out := GetAtomicCapacity(out);
      }
    }

    /** `sm5703_fg_get_property`. The window rescale of a non-raw CAPACITY
        read divides by `capacity_max - capacity_min`, which the caller must
        keep non-zero. */
    method GetProperty(psp: Prop, val: int, status: int, staleHealthGood: bool) returns (ret: int, out: int)
      requires Valid()
      requires psp == PropCapacity && val != defs.capacityTypeRaw && Scales(pdata.capacityCalculationType) ==>
        capacityMax != pdata.capacityMin
      modifies this`info, this`events, this`capacityOld, this`initialUpdateOfSoc, chip`trace
      ensures Valid()
      ensures ret == (if HalProp(psp) then (if psp == PropEnergyNow then -EINVAL else 0)
                      else if psp == PropEnergyFullDesign then 0
                      else if psp == PropStatus || psp == PropChargeFull then -ENODATA
                      else -EINVAL)
      ensures psp == PropEnergyFullDesign ==> out == capacityMax
      ensures !HalProp(psp) ==> info == old(info) && chip.trace == old(chip.trace) && events == old(events)
      ensures HalProp(psp) && psp != PropCapacity ==>
        out == HalOut(chip.file, defs, old(info), psp, val) &&
        info == AfterHalGet(chip.file, defs, old(info), psp, val, status) &&
        chip.trace == old(chip.trace) && events == old(events)
      ensures psp != PropCapacity || val == defs.capacityTypeRaw ==>
        capacityOld == old(capacityOld) && initialUpdateOfSoc == old(initialUpdateOfSoc)
      ensures psp == PropCapacity && val == defs.capacityTypeRaw ==> out == Codec.Soc(chip.file.Read(Soc)) * 10
      ensures psp == PropCapacity && val != defs.capacityTypeRaw ==>
        var r := Report(pdata.capacityCalculationType, Codec.Soc(chip.file.Read(Soc)), pdata.capacityMin,
                        capacityMax, old(initialUpdateOfSoc), old(capacityOld), isCharging);
        out == r.percent && capacityOld == r.capacityOld && initialUpdateOfSoc == r.initial
      ensures psp == PropCapacity ==>
        var release := val != defs.capacityTypeRaw && old(isFuelAlerted) &&
          RawPercent(pdata.capacityCalculationType, Codec.Soc(chip.file.Read(Soc)), pdata.capacityMin, capacityMax) > pdata.fuelAlertSoc;
        var i1 := AfterHalGet(chip.file, defs, old(info), psp, val, status);
        var w1 := SocWrites(chip.file, cal, defs, old(info).isFgInitialised, old(info).battOcv, staleHealthGood || isCharging);
        var e1 := if Abnormal(chip.file, defs, old(info).isFgInitialised) then [Sleep200ms] else [];
        info == (if release then AfterAlertInit(defs, i1) else i1) &&
        chip.trace == old(chip.trace) + w1 + (if release then AlertInitWrites(defs) else []) &&
        events == old(events) + e1 + (if release then [WakeUnlock] else [])
    {
      var socType := val;
      out := val;
      if HalProp(psp) {
        var ok;
        ok, out := HalGetProperty(psp, val, status, staleHealthGood);
        if !ok {
          return -EINVAL, out;
        }
        if psp == PropCapacity && socType != defs.capacityTypeRaw {
          out := StabiliseCapacity(out);
        }
        ret := 0;
      } else if psp == PropEnergyFullDesign {
        out := capacityMax;
        ret := 0;
      } else if psp == PropStatus || psp == PropChargeFull {
        ret := -ENODATA;
      } else {
        ret := -EINVAL;
      }
    }

    /** `sec_fg_calculate_dynamic_scale`: a raw CAPACITY read, whose SOC
        sets the new `capacity_max`, and `capacity_old` pinned at 100. (The
        raw read always succeeds, so its failure branch is never taken.) */
    method CalculateDynamicScale(status: int, staleHealthGood: bool) returns (r: int)
      requires Valid()
      modifies this`info, this`events, this`capacityOld, this`capacityMax, chip`trace
      ensures Valid()
      ensures r == capacityMax == DynamicMax(Codec.Soc(chip.file.Read(Soc)), pdata.capacityMax, pdata.capacityMaxMargin)
      ensures capacityOld == 100
      ensures info == AfterHalGet(chip.file, defs, old(info), PropCapacity, defs.capacityTypeRaw, status)
      ensures chip.trace == old(chip.trace) +
        SocWrites(chip.file, cal, defs, old(info).isFgInitialised, old(info).battOcv, staleHealthGood || isCharging)
      ensures events == old(events) + (if Abnormal(chip.file, defs, old(info).isFgInitialised) then [Sleep200ms] else [])
    {
      var ok, raw := HalGetProperty(PropCapacity, defs.capacityTypeRaw, status, staleHealthGood);
      assert ok;
      ghost var soc := Codec.Soc(chip.file.Read(Soc));
      assert raw == soc * 10;
      TDivTenExact(soc);
      raw := TDiv(raw, 10);
      var lo, hi := pdata.capacityMax - pdata.capacityMaxMargin, pdata.capacityMax + pdata.capacityMaxMargin;
      if raw < lo {
        capacityMax := lo;
      } else {
        capacityMax := if raw > hi then hi else raw;
      }
      capacityMax := TDiv(capacityMax * 99, 100);
      capacityOld := 100;
      r := capacityMax;
    }

    /** `sec_hal_fg_full_charged`. */
    method FullCharged() returns (ok: bool)
      requires Valid()
      modifies this`info
      ensures Valid()
      ensures ok
      ensures info == old(info).(flagFullCharge := 1)
    {
      info := info.(flagFullCharge := 1);
      ok := true;
    }

    /** `sm5703_fg_set_property`. A CAPACITY write other than RESET falls
        through to the temperature case and is refused there. */
    method SetProperty(psp: Prop, val: int, status: int, staleHealthGood: bool) returns (ret: int)
      requires Valid()
      modifies this`info, this`events, this`capacityOld, this`capacityMax, this`initialUpdateOfSoc,
               this`isCharging, this`cableType, chip`trace
      ensures Valid()
      ensures ret == (if psp in {PropStatus, PropChargeFull, PropOnline, PropTemp, PropTempAmbient, PropEnergyFullDesign} then 0
                      else if psp == PropCapacity && val == defs.capacityTypeReset then 0
                      else -EINVAL)
      ensures psp != PropOnline ==> isCharging == old(isCharging) && cableType == old(cableType)
      ensures psp == PropOnline ==> cableType == val && (isCharging <==> val != defs.typeBattery)
      ensures psp == PropStatus ==> info == (if val == defs.statusFull then old(info).(flagFullCharge := 1) else old(info))
      ensures psp == PropEnergyFullDesign ==> capacityMax == val && initialUpdateOfSoc
      ensures psp != PropEnergyFullDesign && psp != PropChargeFull ==> capacityMax == old(capacityMax)
      ensures psp == PropCapacity && val == defs.capacityTypeReset ==>
        initialUpdateOfSoc && info == AfterInit(chip.file, old(info)) &&
        chip.trace == old(chip.trace) + ResetWrites(chip.file, cal, defs, old(info).battOcv) &&
        events == old(events) + [Sleep200ms]
      ensures psp == PropChargeFull ==>
        if val == defs.typeBattery && DynamicScale in pdata.capacityCalculationType then
          capacityMax == DynamicMax(Codec.Soc(chip.file.Read(Soc)), pdata.capacityMax, pdata.capacityMaxMargin) &&
          capacityOld == 100
        else
          capacityMax == old(capacityMax) && capacityOld == old(capacityOld) &&
          chip.trace == old(chip.trace) && events == old(events)
      ensures psp !in {PropChargeFull, PropCapacity} ==>
        chip.trace == old(chip.trace) && events == old(events) && capacityOld == old(capacityOld)
      ensures psp == PropCapacity && val != defs.capacityTypeReset ==>
        chip.trace == old(chip.trace) && info == old(info) && initialUpdateOfSoc == old(initialUpdateOfSoc) &&
        events == old(events)
      ensures psp !in {PropCapacity, PropEnergyFullDesign} ==> initialUpdateOfSoc == old(initialUpdateOfSoc)
      ensures psp !in {PropStatus, PropCapacity, PropChargeFull} ==> info == old(info)
      ensures psp == PropCapacity ==> capacityOld == old(capacityOld)
      ensures psp == PropChargeFull ==>
        if val == defs.typeBattery && DynamicScale in pdata.capacityCalculationType then
          info == AfterHalGet(chip.file, defs, old(info), PropCapacity, defs.capacityTypeRaw, status) &&
          chip.trace == old(chip.trace) +
            SocWrites(chip.file, cal, defs, old(info).isFgInitialised, old(info).battOcv, staleHealthGood || isCharging) &&
          events == old(events) + (if Abnormal(chip.file, defs, old(info).isFgInitialised) then [Sleep200ms] else [])
        else
          info == old(info)
    {
      ret := 0;
      match psp {
        case PropStatus =>
          if val == defs.statusFull {
            var _ := FullCharged();
          }
        case PropChargeFull =>
          if val == defs.typeBattery {
            if DynamicScale in pdata.capacityCalculationType {
              var _ := CalculateDynamicScale(status, staleHealthGood);
            }
          }
        case PropOnline =>
          cableType := val;
          if val == defs.typeBattery {
            isCharging := false;
          } else {
            isCharging := true;
          }
        case PropCapacity =>
          if val == defs.capacityTypeReset {
            initialUpdateOfSoc := true;
            var ok := Reset();
            if !ok {
              ret := -EINVAL;
            }
          } else if !HalSetProperty(psp) {
            ret := -EINVAL;
          }
        case PropTemp =>
          if !HalSetProperty(psp) {
            ret := -EINVAL;
          }
        case PropTempAmbient =>
          if !HalSetProperty(psp) {
            ret := -EINVAL;
          }
        case PropEnergyFullDesign =>
          capacityMax := val;
          initialUpdateOfSoc := true;
        case _ =>
          ret := -EINVAL;
      }
    }

    // ----------------------------------------------------------- alerts

    /** `sec_hal_fg_fuelalert_init`: reads INTFG and STATUS (the values are
        not used), programs the mask and the thresholds, records the mask
        and clears the SOC alert flag. */
    method FuelAlertInit() returns (ok: bool)
      requires Valid()
      modifies this`info, chip`trace
      ensures Valid()
      ensures ok
      ensures chip.trace == old(chip.trace) + AlertInitWrites(defs)
      ensures info == AfterAlertInit(defs, old(info))
    {
      var ret := chip.file.Read(IntFg);
      ret := chip.file.Read(Status);
      chip.WriteWord(IntFgMask, 0x0000);
      ret := Or16(defs.enableLSocInt, defs.enableLVolInt);
      chip.WriteWord(IntFgMask, ret);
      info := info.(irqCtrl := ret);
      ret := 0x0300;
      chip.WriteWord(VAlarm, ret);
      ret := 0x0100;
      chip.WriteWord(SocAlarm, ret);
      info := info.(socAlertFlag := false);
      ok := true;
    }

    /** `sec_hal_fg_fuelalert_process`: latches the SOC and voltage alert
        flags whose bits INTFG shows; it never clears one. */
    method FuelAlertProcess() returns (ok: bool)
      requires Valid()
      modifies this`info
      ensures Valid()
      ensures ok
      ensures info == old(info).(
        socAlertFlag := old(info).socAlertFlag || Raised(chip.file.Read(IntFg), defs.enableLSocInt),
        voltAlertFlag := old(info).voltAlertFlag || Raised(chip.file.Read(IntFg), defs.enableLVolInt))
    {
      var ret := info.irqCtrl;
      ret := chip.file.Read(IntFg);
      if And16(U16(ret), defs.enableLSocInt) != 0 {
        info := info.(socAlertFlag := true);
      }
      if And16(U16(ret), defs.enableLVolInt) != 0 {
        info := info.(voltAlertFlag := true);
      }
      ok := true;
    }

    /** `sec_fg_isr_work`, for the fuel-gauge part. */
    method IsrWork()
      requires Valid()
      modifies this`info
      ensures Valid()
      ensures info == old(info).(
        socAlertFlag := old(info).socAlertFlag || Raised(chip.file.Read(IntFg), defs.enableLSocInt),
        voltAlertFlag := old(info).voltAlertFlag || Raised(chip.file.Read(IntFg), defs.enableLVolInt))
    {
      var _ := FuelAlertProcess();
    }

    /** `sec_fg_irq_thread`. The chip never reports itself alerted, so the
        latch only ever goes to false; and when the latch is already false
        and repeated alerts are off, an interrupt changes nothing at all. */
    method IrqThread()
      requires Valid()
      modifies this`isFuelAlerted, this`events
      ensures Valid()
      ensures pdata.fuelAlertSoc < 0 ==> isFuelAlerted == old(isFuelAlerted) && events == old(events)
      ensures pdata.fuelAlertSoc >= 0 ==> !isFuelAlerted
      ensures pdata.fuelAlertSoc >= 0 && !old(isFuelAlerted) && !pdata.repeatedFuelalert ==> events == old(events)
      ensures pdata.fuelAlertSoc >= 0 && (old(isFuelAlerted) || pdata.repeatedFuelalert) ==>
        events == old(events) + [WakeUnlock, ScheduleIsrWork]
    {
      if pdata.fuelAlertSoc >= 0 {
        var fuelAlerted := IsFuelAlerted();
        if fuelAlerted == isFuelAlerted && !pdata.repeatedFuelalert {
          return;
        }
        events := events + [if fuelAlerted then WakeLock else WakeUnlock];
        events := events + [ScheduleIsrWork];
        isFuelAlerted := fuelAlerted;
      }
    }
  }
}
