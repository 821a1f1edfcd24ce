# SM5703 fuel gauge: a Dafny model of the driver core

The SM5703 is an I2C coulomb-counting fuel-gauge chip. Its Linux driver
(`drivers/battery/sm5703_fuelgauge.c`) reads voltage, current, temperature,
open-circuit voltage (OCV) and state of charge (SOC) from 16-bit fixed-point
registers. It loads the chip's calibration tables at init, and recovers a chip
that silently reset. It rewrites the current-calibration word before every SOC
read. It turns the chip's SOC (0.1 % units) into the whole percent that the
battery service sees. This project models that core and proves what it
promises.

Modules, leaves first:

- `CInt` — C integer semantics the driver relies on: `uint16_t` words, the
  16-bit truncation of every written value (`U16`), and C's division, which
  truncates toward zero (`TDiv`).
- `Bits` — `|` and `&` on register words, defined bit by bit, with per-bit
  lemmas. The driver combines header masks whose values are not part of this
  model, so CNTL and PARAM_CTRL words are characterised bit by bit.
- `Registers` — the chip as the driver sees it. `RegFile` answers word reads,
  and any register's reads may fail with a negative error code. Each entry
  point reads one `RegFile`, so repeated reads of a register within a call
  agree (see "## Left out"). `Chip` records the
  ordered trace of word writes. `Final` gives the value the last write to a
  register leaves there.
- `Config` — given inputs: the calibration record, the platform data, and a
  `Defs` record holding the header constants (`DISABLE_RE_INIT`, the
  `ENABLE_*` masks, the lock and unlock codes, `SM5703_FG_TABLE_LEN`,
  `SEC_FUELGAUGE_CAPACITY_TYPE_*`, and so on). Every property holds for every
  choice of these constants.
- `Codec` — the five decoders with their failed-read defaults, encoders that
  they invert, and the 1/5-weight running average.
- `ChipWrites` — the write sequences as pure functions: `sm5703_fg_reg_init`,
  the init/re-lock choice of `sm5703_fg_init`, the soft reset, and the
  CURR_CAL word of `fg_get_soc` with its abnormal-state recovery.
- `Capacity` — the capacity stabiliser (rescale, clamp, truncate, first-read
  latch, ATOMIC step, SKIP_ABNORMAL rule) and the dynamic rescale of
  `capacity_max`. It includes lemmas over whole runs of CAPACITY reads.
- `Driver` — class `FuelGauge`. It holds the `info` fields, `capacity_old`,
  `capacity_max`, `initial_update_of_soc`, `is_charging`, `cable_type` and
  `is_fuel_alerted`. Its methods are the driver's entry points. Each method's
  `ensures` ties the new state, the write trace and the event log to the pure
  functions above.

Wake locks, the 200 ms sleep and the scheduling of the alert work are
recorded as `Event`s. Charger answers from `psy_do_property` are parameters.
In `fg_get_soc` the charger-health value is read without being queried first
(lines 396 and 418), so it is an arbitrary boolean (`staleHealthGood`).

## Model

| member | source | states |
|---|---|---|
| `CInt.U16` | drivers/battery/sm5703_fuelgauge.c:90-103 | a written value is reduced to its low 16 bits: unchanged when already in range, otherwise congruent modulo 2^16 |
| `CInt.TDiv` | drivers/battery/sm5703_fuelgauge.c:181 | C division: the magnitude of the quotient is the quotient of the magnitudes, and its sign is the product of the operands' signs |
| `CInt.TDivMonotone` | drivers/battery/sm5703_fuelgauge.c:431-432 | truncating division by a positive divisor preserves order |
| `Registers.RegFile.Read` | drivers/battery/sm5703_fuelgauge.c:73-88 | a word read returns a value in [0, 0xFFFF] exactly when the register answers, otherwise a negative error code |
| `Registers.Chip.WriteWord` | drivers/battery/sm5703_fuelgauge.c:90-103 | a write appends (register, value mod 2^16) to the trace |
| `Codec.MilliOf` | drivers/battery/sm5703_fuelgauge.c:126-127 | the 3.8 fixed-point decode lies in [0, 7996] mV |
| `Codec.DeciOf` | drivers/battery/sm5703_fuelgauge.c:200-201 | the 7.8 temperature magnitude lies in [0, 1279] (0.1 degC) |
| `Codec.SocOf` | drivers/battery/sm5703_fuelgauge.c:445-446 | the 8.8 SOC decode lies in [0, 2559] (0.1 %) |
| `Codec.Voltage` | drivers/battery/sm5703_fuelgauge.c:142-149 | a successful VOLTAGE/OCV read decodes as the 3.8 format (`MilliOf`), in [0, 7996] mV; a failed read gives 4000 |
| `Codec.Current` | drivers/battery/sm5703_fuelgauge.c:167-177 | current has the 3.8 magnitude, with sign non-positive when bit 15 is set and non-negative otherwise; a failed read gives 0 |
| `Codec.Temperature` | drivers/battery/sm5703_fuelgauge.c:195-205 | temperature has the 7.8 magnitude, so abs(t) <= 1279, with sign non-positive when bit 15 is set and non-negative otherwise; a failed read gives 0 |
| `Codec.Soc` | drivers/battery/sm5703_fuelgauge.c:440-447 | a successful SOC read decodes as the 8.8 format (`SocOf`), in [0, 2559]; a failed read gives 500 (50.0 %) |
| `Codec.MilliRoundTrip` | drivers/battery/sm5703_fuelgauge.c:147-148 | encoding a decoded voltage returns the eleven bits the decode read |
| `Codec.MilliEncodeClose` | drivers/battery/sm5703_fuelgauge.c:147-148 | decoding an encoded voltage is within 3 mV of it, less than one 1000/256 step |
| `Codec.VoltageEncodeClose` | drivers/battery/sm5703_fuelgauge.c:142-149 | a voltage register holding an encoded voltage reads back within 3 mV of it |
| `Codec.TemperatureRoundTrip` | drivers/battery/sm5703_fuelgauge.c:200-204 | every temperature in [-1279, 1279] survives encode then decode exactly |
| `Codec.SocRoundTrip` | drivers/battery/sm5703_fuelgauge.c:445-446 | every SOC in [0, 2559] survives encode then decode exactly |
| `Codec.Average` | drivers/battery/sm5703_fuelgauge.c:153 | `(avg + 4*v)/5` lies between avg and v inclusive, and equals v when avg == v |
| `Codec.AverageContracts` | drivers/battery/sm5703_fuelgauge.c:181 | one update shrinks the distance to the sample to at most (d + 4)/5 |
| `Codec.AverageSettles` | drivers/battery/sm5703_fuelgauge.c:153 | after n identical samples, an average that started within 5^n of them is within 1 |
| `Codec.AverageStaysBelow` | drivers/battery/sm5703_fuelgauge.c:153 | the settling is to within 1 and no better: for a positive sample, an average one below it never moves |
| `Capacity.Scaled` | drivers/battery/sm5703_fuelgauge.c:745-747 | below capacity_min the result is 0; inside a proper window it is floor((v-min)*1000/(max-min)) |
| `Capacity.ScaledMonotone` | drivers/battery/sm5703_fuelgauge.c:745-747 | in a proper window a higher SOC never scales lower |
| `Capacity.ScaledTop` | drivers/battery/sm5703_fuelgauge.c:745-747 | capacity_max scales to exactly 1000 |
| `Capacity.Percent` | drivers/battery/sm5703_fuelgauge.c:954-960 | clamping to [0, 1000] and truncating gives a whole percent in [0, 100], floor(v/10) inside the range |
| `Capacity.RawPercent` | drivers/battery/sm5703_fuelgauge.c:946-960 | the rescaled (when SCALE or DYNAMIC_SCALE) clamped percent lies in [0, 100] |
| `Capacity.Smoothed` | drivers/battery/sm5703_fuelgauge.c:759-777 | the result lies between the old and new values; ATOMIC moves by at most 1, and by exactly 1 toward a different value unless that step is upward and SKIP_ABNORMAL blocks it while not charging; SKIP_ABNORMAL while not charging never rises |
| `Capacity.Report` | drivers/battery/sm5703_fuelgauge.c:942-988 | the first read, and every read without ATOMIC or SKIP_ABNORMAL, reports the rescaled, clamped, truncated SOC; otherwise the report is that value smoothed against capacity_old; the output is in [0, 100]; the first read latches capacity_old and clears the flag; with smoothing capacity_old becomes the output, without it capacity_old is kept |
| `Capacity.TrailInRange` | drivers/battery/sm5703_fuelgauge.c:954-960 | across any run of CAPACITY reads every report lies in [0, 100] |
| `Capacity.TrailSteps` | drivers/battery/sm5703_fuelgauge.c:759-765 | with ATOMIC, consecutive reports in any run differ by at most 1 |
| `Capacity.TrailDischarging` | drivers/battery/sm5703_fuelgauge.c:767-777 | with SKIP_ABNORMAL and no charging, reports in any run never increase |
| `Capacity.Window` | drivers/battery/sm5703_fuelgauge.c:795-813 | the clamp puts soc into [pmax-margin, pmax+margin] and leaves a soc already inside unchanged |
| `Capacity.DynamicMax` | drivers/battery/sm5703_fuelgauge.c:815-816 | the new capacity_max is floor(99 % of the clamped SOC) |
| `Capacity.DynamicMaxExample` | drivers/battery/sm5703_fuelgauge.c:795-816 | with pmax 950, margin 50 and SOC 1000 the new capacity_max is 990 |
| `Capacity.DynamicMaxBounds` | drivers/battery/sm5703_fuelgauge.c:795-816 | the new capacity_max lies between 99 % of the window's ends and never above pmax + margin |
| `ChipWrites.ParamWord` | drivers/battery/sm5703_fuelgauge.c:283 | each bit of the PARAM_CTRL word is set iff it is set in the code or in TABLE_LEN |
| `ChipWrites.CntlWord` | drivers/battery/sm5703_fuelgauge.c:316-322 | each CNTL bit is set iff it is in MIX_MODE, TEMP_MEASURE, (topoff<<13)&TOPOFF_SOC, or MANUAL_OCV when manual OCV is requested |
| `ChipWrites.CntlManualBit` | drivers/battery/sm5703_fuelgauge.c:318-322 | a MANUAL_OCV bit that no other mask uses is set in CNTL exactly when manual OCV is requested |
| `ChipWrites.IocvWord` | drivers/battery/sm5703_fuelgauge.c:337 | IOCV_MAN is floor(ocv*256/125) for every OCV the decoder can produce |
| `ChipWrites.RceWritesAt` | drivers/battery/sm5703_fuelgauge.c:263-267 | the RCE loop writes rce_value[k] to RCE0+k, in order |
| `ChipWrites.RowWritesAt` | drivers/battery/sm5703_fuelgauge.c:287-292 | the inner loop writes battery_table[i][j] to TABLE_START+16i+j, in order |
| `ChipWrites.TableWritesOnlyTable` | drivers/battery/sm5703_fuelgauge.c:285-293 | the nested table loop writes only table registers |
| `ChipWrites.TableWritesLength` | drivers/battery/sm5703_fuelgauge.c:285-293 | m tables make m*(TABLE_LEN+1) writes |
| `ChipWrites.RegInitLength` | drivers/battery/sm5703_fuelgauge.c:251-343 | register init makes 18 + 3*(TABLE_LEN+1) writes, plus 1 with manual OCV |
| `ChipWrites.RowFinal` | drivers/battery/sm5703_fuelgauge.c:288-291 | after table i's loop each of its entries holds its word |
| `ChipWrites.RowUntouched` | drivers/battery/sm5703_fuelgauge.c:288-291 | table i's loop writes nothing outside its own entries |
| `ChipWrites.TableFinal` | drivers/battery/sm5703_fuelgauge.c:285-293 | with TABLE_LEN < 16 the tables do not overlap, and every entry holds its calibration word |
| `ChipWrites.TableOverlap` | drivers/battery/sm5703_fuelgauge.c:287-290 | with TABLE_LEN >= 16 the tables overlap: register TABLE_START+16 ends holding entry 0 of table 1, so entry 16 of table 0 is lost |
| `ChipWrites.RceFinal` | drivers/battery/sm5703_fuelgauge.c:263-267 | after the RCE loop each RCE register holds its word |
| `ChipWrites.RegInitRce` | drivers/battery/sm5703_fuelgauge.c:263-267 | after register init each RCE register holds its calibration word |
| `ChipWrites.RegInitTable` | drivers/battery/sm5703_fuelgauge.c:285-293 | after register init, with TABLE_LEN < 16, every table entry holds its calibration word |
| `ChipWrites.RegInitLocks` | drivers/battery/sm5703_fuelgauge.c:329-331 | register init leaves PARAM_CTRL holding LOCK or TABLE_LEN |
| `ChipWrites.RegInitManualOcv` | drivers/battery/sm5703_fuelgauge.c:334-340 | IOCV_MAN is written, with the OCV word, exactly when manual OCV is requested |
| `ChipWrites.ControlFinal` | drivers/battery/sm5703_fuelgauge.c:315-340 | the closing writes leave CNTL holding the control word and PARAM_CTRL locked, and IOCV_MAN holding the OCV word exactly when manual OCV is requested |
| `ChipWrites.RegInitCntl` | drivers/battery/sm5703_fuelgauge.c:315-324 | register init leaves CNTL holding the control word |
| `ChipWrites.InitLocks` | drivers/battery/sm5703_fuelgauge.c:357-367 | init writes nothing when the device-ID read fails, and otherwise leaves PARAM_CTRL locked on both branches |
| `ChipWrites.ResetNoManualOcv` | drivers/battery/sm5703_fuelgauge.c:837-849 | a CAPACITY reset never writes IOCV_MAN |
| `ChipWrites.ChargerOffset` | drivers/battery/sm5703_fuelgauge.c:422-425 | a charger adds exactly charge_offset_cal<<8 to the CURR_CAL value |
| `ChipWrites.TemperatureDeadBand` | drivers/battery/sm5703_fuelgauge.c:431-434 | within one temp_offset step of temp_std the base curr_cal is written unchanged |
| `ChipWrites.TemperatureMonotone` | drivers/battery/sm5703_fuelgauge.c:431-434 | with a positive step and a non-negative gain, a colder battery never gets a smaller CURR_CAL value |
| `ChipWrites.RecoveryRunsFullInit` | drivers/battery/sm5703_fuelgauge.c:399-438 | in the abnormal case the first write is the soft reset; the full init with manual OCV follows; PARAM_CTRL ends locked; IOCV_MAN holds the OCV word; CURR_CAL ends with the SOC read's word |
| `ChipWrites.SocCalibrationLast` | drivers/battery/sm5703_fuelgauge.c:418-438 | every SOC read leaves CURR_CAL holding the word computed from the temperature just read |
| `ChipWrites.NoRecoveryUninitialised` | drivers/battery/sm5703_fuelgauge.c:399-416 | when is_FG_initialised is not 1, the CURR_CAL word is the only write |
| `Driver.AlertMask` | drivers/battery/sm5703_fuelgauge.c:692 | each bit of the armed mask is set iff it is in L_SOC_INT or L_VOL_INT |
| `Driver.CurrentNowFallsThrough` | drivers/battery/sm5703_fuelgauge.c:891-897 | CURRENT_NOW reports, and leaves the fields, as two CURRENT_AVG samples would |
| `Driver.CurrentNowNotInstant` | drivers/battery/sm5703_fuelgauge.c:891-897 | from a zero average, a steady 1000 mA reads as 960 mA through CURRENT_NOW |
| `Driver.RaisedSingleBit` | drivers/battery/sm5703_fuelgauge.c:729-735 | with a single-bit mask, an alert is raised exactly when that bit of the INTFG value is set |
| `Driver.FailedReadRaises` | drivers/battery/sm5703_fuelgauge.c:727-735 | an INTFG read failing with -EIO sets the alerts on bits 0 and 1 through its two's-complement bits |
| `Driver.FailedRecoveryNotRetried` | drivers/battery/sm5703_fuelgauge.c:352-362 | a recovery whose device-ID read fails leaves is_FG_initialised 0, so the next SOC read does not recover |
| `Driver.FuelGauge.constructor` | drivers/battery/sm5703_fuelgauge.c:1296-1411 | the state probe starts from: the zeroed (kzalloc'd) fields plus probe's direct assignments of the platform's capacity_max, the armed first-read latch and no fuel alert (lines 1351, 1366, 1411) |
| `Driver.FuelGauge.GetOcv` | drivers/battery/sm5703_fuelgauge.c:115-134 | returns the decoded OCV and stores it in batt_ocv, and changes nothing else |
| `Driver.FuelGauge.GetVbat` | drivers/battery/sm5703_fuelgauge.c:136-159 | returns the decoded voltage, stores it, and folds it into batt_avgvoltage |
| `Driver.FuelGauge.GetCurr` | drivers/battery/sm5703_fuelgauge.c:161-187 | returns the decoded current, stores it, and folds it into batt_avgcurrent |
| `Driver.FuelGauge.GetTemp` | drivers/battery/sm5703_fuelgauge.c:189-211 | returns the decoded temperature and stores it |
| `Driver.FuelGauge.RegInit` | drivers/battery/sm5703_fuelgauge.c:251-343 | appends exactly the register-init write sequence to the trace |
| `Driver.FuelGauge.WritePrologue` | drivers/battery/sm5703_fuelgauge.c:259-283 | appends the unlock, the RCE loop, DTCD, RS, VIT_PERIOD and the table-length unlock |
| `Driver.FuelGauge.WriteTables` | drivers/battery/sm5703_fuelgauge.c:285-293 | the nested loop appends the three tables' writes |
| `Driver.FuelGauge.WriteEpilogue` | drivers/battery/sm5703_fuelgauge.c:295-342 | appends the mix, calibration, top-off, CNTL and lock writes, then IOCV_MAN with manual OCV |
| `Driver.FuelGauge.WriteCalibration` | drivers/battery/sm5703_fuelgauge.c:295-313 | appends the mix-mode, VOLT_CAL, CURR_CAL and TOPOFFSOC writes in source order |
| `Driver.FuelGauge.WriteControl` | drivers/battery/sm5703_fuelgauge.c:315-340 | appends CNTL (with MANUAL_OCV on request), the lock word, and IOCV_MAN only with manual OCV |
| `Driver.FuelGauge.Init` | drivers/battery/sm5703_fuelgauge.c:345-387 | succeeds iff the device ID reads; writes nothing on failure; otherwise does the full init iff the op status needs one, else only the lock write; the first vbat seeds the average and is_FG_initialised becomes 1 |
| `Driver.FuelGauge.HalInit` | drivers/battery/sm5703_fuelgauge.c:630-659 | runs init without manual OCV and then sets the temperature to 25.0 degC |
| `Driver.FuelGauge.Reset` | drivers/battery/sm5703_fuelgauge.c:837-849 | writes the soft reset, sleeps 200 ms, and runs init without manual OCV |
| `Driver.FuelGauge.Recover` | drivers/battery/sm5703_fuelgauge.c:399-416 | soft reset, 200 ms and init with manual OCV happen iff the op status needs init, is_FG_initialised is 1, and CNTL reads 0x2008; otherwise nothing changes |
| `Driver.FuelGauge.GetSoc` | drivers/battery/sm5703_fuelgauge.c:389-452 | returns the decoded SOC after the recovery check and the CURR_CAL write built from the charger state and the temperature just read |
| `Driver.FuelGauge.HalGetProperty` | drivers/battery/sm5703_fuelgauge.c:851-920 | records the charger status, answers exactly the HAL's properties, and writes to the chip only for CAPACITY |
| `Driver.FuelGauge.AnswerMeasure` | drivers/battery/sm5703_fuelgauge.c:868-918 | the non-CAPACITY cases of the HAL dispatch read the chip and write nothing |
| `Driver.FuelGauge.AnswerVoltage` | drivers/battery/sm5703_fuelgauge.c:870-884 | VOLTAGE_NOW gives a sample; VOLTAGE_AVG gives the updated average or the OCV by request type |
| `Driver.FuelGauge.AnswerCurrent` | drivers/battery/sm5703_fuelgauge.c:891-897 | CURRENT_NOW samples twice and reports the average, because it falls through into CURRENT_AVG |
| `Driver.FuelGauge.AnswerCapacity` | drivers/battery/sm5703_fuelgauge.c:903-909 | CAPACITY reports soc*10 for a raw request and soc otherwise |
| `Driver.FuelGauge.GetAtomicCapacity` | drivers/battery/sm5703_fuelgauge.c:755-781 | the result is the smoothed value and capacity_old becomes it |
| `Driver.FuelGauge.StabiliseCapacity` | drivers/battery/sm5703_fuelgauge.c:942-988 | the output, capacity_old and the latch follow `Report`; a pending fuel alert is released, with the alert re-armed, once the percent exceeds fuel_alert_soc |
| `Driver.FuelGauge.GetProperty` | drivers/battery/sm5703_fuelgauge.c:922-1000 | return codes per property (0, -EINVAL, or -ENODATA for STATUS and CHARGE_FULL); a raw CAPACITY read leaves the stabiliser untouched; ENERGY_FULL_DESIGN gives capacity_max |
| `Driver.FuelGauge.CalculateDynamicScale` | drivers/battery/sm5703_fuelgauge.c:783-825 | capacity_max becomes 99 % of the clamped raw SOC and capacity_old becomes 100 |
| `Driver.FuelGauge.FullCharged` | drivers/battery/sm5703_fuelgauge.c:827-835 | sets flag_full_charge |
| `Driver.FuelGauge.SetProperty` | drivers/battery/sm5703_fuelgauge.c:1066-1116 | ONLINE sets cable_type and is_charging; ENERGY_FULL_DESIGN sets capacity_max and the latch; CAPACITY RESET sets the latch and resets the chip; any other CAPACITY value gives -EINVAL and changes nothing; CHARGE_FULL on battery with DYNAMIC_SCALE rescales, with the raw read's field, trace and event effects, and otherwise changes nothing; fields a case does not touch (info, the latch, capacity_old, the trace, the events) stay as they were |
| `Driver.FuelGauge.FuelAlertInit` | drivers/battery/sm5703_fuelgauge.c:675-706 | writes the mask clear, the L_SOC or L_VOL mask and the two thresholds; records irq_ctrl; clears only soc_alert_flag |
| `Driver.FuelGauge.FuelAlertProcess` | drivers/battery/sm5703_fuelgauge.c:715-738 | only sets soc_alert_flag and volt_alert_flag, each when its bit is set in INTFG, and never clears one |
| `Driver.FuelGauge.IsrWork` | drivers/battery/sm5703_fuelgauge.c:1118-1129 | the deferred work latches the alert flags as fuelalert_process does |
| `Driver.FuelGauge.IrqThread` | drivers/battery/sm5703_fuelgauge.c:1131-1164 | with the alert enabled, the latch becomes false; an unchanged latch without repeated alerts changes nothing; otherwise it wakes-unlocks and schedules the work |

## Left out

- I2C transport (lines 57-103): it is the `RegFile` read function and the `Chip` write trace. The chip's reaction to a write is not modelled: a write never changes what later reads return, including after the soft reset. Reads do not appear in the trace.
- `Registers.RegFile` is one snapshot per entry point: two reads of the same register within one call return the same word, or both fail. The source reads the chip each time, so the model does not capture two different answers within a call. This affects `Driver.HalOut` / `Driver.FuelGauge.AnswerCurrent` for CURRENT_NOW, whose two `fg_get_curr` calls (lines 892 and 895) are modelled as two samples of the same current c, giving `Average(Average(avg, c), c)` rather than two samples c1 and c2. It also affects the second FG_OP_STATUS read in the recovery and the repeated TEMPERATURE reads in init and `fg_get_soc`.
- Write status codes: the driver only logs them, so `WriteWord` returns nothing.
- Register addresses: the header that defines them is not part of this model. Each register is a distinct constructor. `TABLE_START + 16*i + j` is `TableEntry(16*i + j)`, without the 8-bit truncation of `table_reg`.
- Device-tree parsing (lines 468-628) and the platform-data copy: the calibration record and `pdata` are given inputs.
- `board_fuelgauge_init` (line 354): a foreign call, left out.
- The probe sequence (lines 1280-1420) as one operation: the constructor is the zeroed allocation plus probe's direct field assignments (lines 1351, 1366, 1411), and probe is that followed by `HalInit` (line 1338), `HalGetProperty` for a raw CAPACITY read, `CalculateDynamicScale` when the raw value divided by ten exceeds the platform's capacity_max (lines 1352-1357) and `FuelAlertInit` (line 1368) when the platform's fuel_alert_soc is non-negative (line 1367), all modelled methods a caller can call in that order; the GPIO, IRQ and wake-lock set-up between them is not modelled. Remove, suspend, resume, sysfs attributes (lines 1020-1064, 1166-1223) and module registration are left out.
- Mutexes, and the concurrency between the IRQ thread and property calls: each method is one atomic step.
- Wake locks, `msleep(200)` and `schedule_delayed_work`: these are recorded only as `Event`s.
- `pdata->fuelalert_process` callback in the alert work (line 1127): a foreign call, left out.
- The charger queries (`psy_do_property`) are parameters. The charger-health value in `fg_get_soc` is read uninitialised, so it is an arbitrary boolean.
- C `int` overflow in the calibration arithmetic (`curr_cal + (charge_offset_cal<<8)`, `temp_cal_fact<<8` on a negative value): it is computed on unbounded integers, and `<<8` is `* 256`. Only the final `uint16_t` conversion of the written word is modelled.
- `temp_offset == 0` and `capacity_max == capacity_min` divide by zero in the source. `temp_offset != 0` is part of `FuelGauge.Valid`, and `GetProperty` requires a non-empty window when scaling applies.
- Driver.FuelGauge.GetSoc: the contract does not state that the CURR_CAL write comes before the SOC read, because reads are not in the trace. The method body does them in that order.
- Driver.FuelGauge.CalculateDynamicScale: the `-EINVAL` return when the raw read fails is not modelled, because the raw CAPACITY read in this driver always succeeds.
- `sec_hal_fg_suspend`, `sec_hal_fg_resume` and `sm5703_fg_get_batt_present` are constant functions with no state effect, so they are left out.
