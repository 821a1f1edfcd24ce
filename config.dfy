/** What the driver is given rather than computes: the per-battery
    calibration record (parsed from the device tree into
    `fuelgauge->info`), the platform data (`fuelgauge->pdata`), and the
    constants of headers that are not part of this model. The constants
    carry no invented values: every member that depends on one takes a
    `Defs` record, so each property holds for every choice of them. */
module Config {
  import opened CInt

  /** The calibration fields of `fuelgauge->info` that the register
      initialisation and the SOC read write to the chip. */
  datatype Calibration = Calibration(
    rceValue: seq<int>,             // rce_value[3]
    dtcdValue: int,
    rsValue: seq<int>,              // rs_value[4]
    vitPeriod: int,
    mixValue: seq<int>,             // mix_value[2]
    batteryTable: seq<seq<int>>,    // battery_table[3][...]
    voltCal: int,
    currCal: int,
    topoffSoc: int,
    enableTopoffSoc: int,
    tempStd: int,
    tempOffset: int,
    tempOffsetCal: int,
    chargeOffsetCal: int)
  {
    /** The array shapes the source declares: three RCE words, four RS
        words, two mix words and three battery tables, each long enough
        for the `TABLE_LEN + 1` entries the register init writes. */
    predicate Shaped(tableLen: nat)
    {
      |rceValue| == 3 && |rsValue| == 4 && |mixValue| == 2 &&
      |batteryTable| == 3 &&
      forall i | 0 <= i < 3 :: |batteryTable[i]| > tableLen
    }
  }

  /** The constants the source takes from headers that are not part of
      this model: chip-specific codes and masks, and the power-supply
      class constants. */
  datatype Defs = Defs(
    disableReInit: int,          // DISABLE_RE_INIT
    paramUnlockCode: Word16,     // SM5703_FG_PARAM_UNLOCK_CODE
    paramLockCode: Word16,       // SM5703_FG_PARAM_LOCK_CODE
    tableLen: Word16,            // SM5703_FG_TABLE_LEN
    enableMixMode: Word16,       // ENABLE_MIX_MODE
    enableTempMeasure: Word16,   // ENABLE_TEMP_MEASURE
    enableTopoffSoc: Word16,     // ENABLE_TOPOFF_SOC
    enableManualOcv: Word16,     // ENABLE_MANUAL_OCV
    enableLSocInt: Word16,       // ENABLE_L_SOC_INT
    enableLVolInt: Word16,       // ENABLE_L_VOL_INT
    capacityTypeRaw: int,        // SEC_FUELGAUGE_CAPACITY_TYPE_RAW
    capacityTypeReset: int,      // SEC_FUELGAUGE_CAPACITY_TYPE_RESET
    voltageAverage: int,         // SEC_BATTEY_VOLTAGE_AVERAGE
    voltageOcv: int,             // SEC_BATTEY_VOLTAGE_OCV
    typeBattery: int,            // POWER_SUPPLY_TYPE_BATTERY
    statusFull: int,             // POWER_SUPPLY_STATUS_FULL
    statusCharging: int)         // POWER_SUPPLY_STATUS_CHARGING

  /** The bits of `capacity_calculation_type`. */
  datatype CapType = Scale | DynamicScale | Atomic | SkipAbnormal

  /** The fields of `fuelgauge->pdata` the core reads. */
  datatype PlatformData = PlatformData(
    capacityMin: int,
    capacityMax: int,
    capacityMaxMargin: int,
    capacityCalculationType: set<CapType>,
    fuelAlertSoc: int,
    repeatedFuelalert: bool)

  const EINVAL: int := 22
  const ENODATA: int := 61
}
