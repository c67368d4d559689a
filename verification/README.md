# Load-cell driver model

A Dafny model of the load-cell driver of the Aeronavics load-cell controller
firmware: the `Loadcell_driver` class, which samples one ADC channel by DMA,
keeps the last ten raw readings in a ring, turns their mean into a weight by
an affine calibration, and publishes it as a `com.aeronavics.LoadcellInfo`
record on the CAN bus at 10 Hz. A 1 Hz housekeeping state machine
(UNKNOWN, INIT, NORMAL, ERROR) brings the ADC up and gates the faster hooks.

Files and modules:

- `loadcell_config.dfy` (`LoadcellConfig`): the `#define`s of the driver
  header and the C widths `u8` and `u32`.
- `calibration.dfy` (`Calibration`): `map_loadcell_weight` as a pure function
  over `real`, with its clamp from below and no clamp from above.
- `housekeeping.dfy` (`Housekeeping`): the driver states, one housekeeping
  step as a function `Step`, runs of several ticks, and lemmas about them.
- `sample_window.dfy` (`SampleWindow`): the sum and truncated mean of a
  window. Also the rotation that lists the ring's slots oldest first, and
  `Latest`, the readings the ring should hold after a given history of
  conversions.
- `loadcell_driver.dfy` (`LoadcellDriver`): the class `Loadcell`. Its fields
  are the state, the ring (`rawValues`, an array of ten `u32`), the ring
  index, the weight and a `halted` flag. It has two ghost fields: `received`
  holds every reading delivered, and `outbox` every record broadcast. Its
  methods are the hooks, the callback and the private helpers, each updating
  the fields in place.

`Valid()` is the object invariant. It says the ring has ten slots and the
index stays below ten. It also says the ring, read from the index round to
just before it, equals the last ten readings received, with zeros in front
while fewer than ten have arrived. Last, it says the weight is never below
`WeightMin`. Every method keeps it. So `Sync10Hz` is stated against the
readings themselves: the published weight is the calibrated truncated mean
of the latest ten conversions.

`sync_update_unthrottled` and `sync_update_100Hz` are `SyncUnthrottled` and
`Sync100Hz`. They keep the source's state gate, and their contracts state
that they change no field and no slot in any state.

The ring, its index and the weight start at zero not because the
constructor sets them (it sets only `prev_state`) but because `get_driver`
(Core/Src/loadcell_driver.cpp:14-21) keeps the one driver in a function-local
static object, whose storage is zero-initialised before construction.

The doc comment of `map_loadcell_weight` says the output stays between the
two weight bounds, but the code clamps only the lower one. The model follows
the code: `MapLoadcellWeight` states that any reading above `AdcMax` gives a
weight above `WeightMax`.

## Model

| member | source | states |
|---|---|---|
| `LoadcellConfig.ConfigurationWellFormed` | Core/Inc/loadcell_driver.hpp:28-37 | The ADC range and the weight range are both non-empty, so the map never divides by zero. The window size fits in a `uint8_t`. |
| `Calibration.MapLoadcellWeight` | Core/Src/loadcell_driver.cpp:223-235 | The result is never below `WeightMin`. Any reading at or below `AdcMin` gives exactly `WeightMin`. From `AdcMin` up, the result is the affine line. Readings in [`AdcMin`, `AdcMax`] give at most `WeightMax`. Readings above `AdcMax` give more than `WeightMax` (no upper clamp). |
| `Calibration.MapMonotone` | Core/Src/loadcell_driver.cpp:223-235 | The map is non-decreasing over its whole domain, clamp included. |
| `Calibration.MapStrictlyIncreasing` | Core/Src/loadcell_driver.cpp:225 | From `AdcMin` upward, the map is strictly increasing. |
| `Calibration.MapEndpoints` | Core/Src/loadcell_driver.cpp:225 | `AdcMin` maps to `WeightMin` and `AdcMax` maps to `WeightMax`. |
| `Housekeeping.Step` | Core/Src/loadcell_driver.cpp:92-141 | A tick halts (enters `Error_Handler`) exactly when the state is INIT and peripheral initialisation, calibration or DMA start fails. Otherwise the next state is INIT or NORMAL, never ERROR or UNKNOWN. It is NORMAL exactly when leaving INIT or NORMAL. |
| `Housekeeping.NormalIsAbsorbing` | Core/Src/loadcell_driver.cpp:124-127 | From NORMAL, any number of ticks leaves the driver in NORMAL. |
| `Housekeeping.RecoveryReachesNormal` | Core/Src/loadcell_driver.cpp:97-133 | From UNKNOWN or ERROR, one tick gives INIT whatever the hardware reports. A second tick with a successful bring-up gives NORMAL, and every later tick keeps it. |
| `Housekeeping.NeverEntersError` | Core/Src/loadcell_driver.cpp:95-141 | No run of ticks starting outside ERROR ends in ERROR. |
| `Housekeeping.HaltNeedsFailedBringUp` | Core/Src/loadcell_driver.cpp:103-118 | A run that halts contains a tick whose peripheral initialisation, calibration or DMA start failed. |
| `SampleWindow.MeanBounds` | Core/Src/loadcell_driver.cpp:243-250 | The truncated mean of readings in [lo, hi] lies in [lo, hi]. So the mean of `uint32_t` readings fits the `uint32_t` result. |
| `SampleWindow.MeanOfConstant` | Core/Src/loadcell_driver.cpp:243-250 | A window holding one value throughout averages to that value. |
| `SampleWindow.SumRotate` | Core/Src/loadcell_driver.cpp:210 | Summing the ring from slot 0 gives the same total as summing it in arrival order. |
| `SampleWindow.WriteAdvancesWindow` | Core/Src/loadcell_driver.cpp:261-262 | Writing the slot at the index and advancing the index modulo the size drops the oldest reading from the arrival-ordered window and appends the new one. |
| `SampleWindow.LatestPush` | Core/Src/loadcell_driver.cpp:261-262 | One more conversion removes the oldest of the latest readings and appends the new one. |
| `SampleWindow.LatestAfterFill` | Core/Src/loadcell_driver.cpp:261-262 | Once at least N readings have arrived, the window is exactly the last N of them, with no zero seed left. |
| `SampleWindow.LatestInitial` | Core/Src/loadcell_driver.cpp:14-21 | Before any conversion, the window is all zeros, as the zero-initialised static singleton holds it. |
| `LoadcellDriver.FilledRingScenarios` | Core/Src/loadcell_driver.cpp:207-213 | A ring of ten `AdcMin` readings gives weight 0.0. Ten `AdcMax` readings give 7.5. Ten readings of 2050 give 3.75. |
| `LoadcellDriver.MidpointScenario` | Core/Src/loadcell_driver.cpp:66-80 | A new driver given two successful 1 Hz ticks is in NORMAL. After ten conversions of 2050 and one 10 Hz tick, it has published exactly one record, `(sensorId, 3.75)`. |
| `LoadcellDriver.Loadcell.constructor` | Core/Src/loadcell_driver.cpp:265-271 | The driver starts in UNKNOWN with `prev_state` UNKNOWN, not halted. The ring is all zeros with index 0, the weight is `WeightMin`, and nothing has been received or sent; these zeros come from the static singleton of `get_driver`. |
| `LoadcellDriver.Loadcell.SyncUnthrottled` | Core/Src/loadcell_driver.cpp:36-44 | No field and no ring slot changes, in any state, and nothing is published. |
| `LoadcellDriver.Loadcell.Sync100Hz` | Core/Src/loadcell_driver.cpp:50-59 | No field and no ring slot changes, in any state, and nothing is published. |
| `LoadcellDriver.Loadcell.Sync10Hz` | Core/Src/loadcell_driver.cpp:66-80 | Outside NORMAL, the weight and the outbox are unchanged. In NORMAL, the weight becomes the calibrated mean of the latest ten readings. Then exactly one record carrying that new weight and the sensor identifier is appended to the outbox. |
| `LoadcellDriver.Loadcell.Sync1Hz` | Core/Src/loadcell_driver.cpp:87-150 | On a halting step, the flag is set and both state fields are unchanged. Otherwise `prev_state` becomes the state left and `this_state` the one `Step` computes. |
| `LoadcellDriver.Loadcell.TransmitTelemetry` | Core/Src/loadcell_driver.cpp:175-199 | Exactly one record `(sensorId, measuredWeight)` is appended to the outbox. |
| `LoadcellDriver.Loadcell.CalculateWeight` | Core/Src/loadcell_driver.cpp:207-213 | The weight becomes the calibrated truncated mean of the latest ten readings. The invariant, including weight ≥ `WeightMin`, is kept. |
| `LoadcellDriver.Loadcell.CalculateAverage` | Core/Src/loadcell_driver.cpp:243-250 | The loop returns the truncated mean of the first `size` entries, `floor(sum / size)`. |
| `LoadcellDriver.Loadcell.AdcCallback` | Core/Src/loadcell_driver.cpp:259-263 | The reading lands in slot `array_index` and every other slot is unchanged. The index becomes `(old + 1) % 10`, so it stays below 10. The reading is appended to the received history, and the ring still holds the latest ten readings. |

## Left out

- Peripheral bring-up: the bodies of `MX_DMA_Init` and `MX_ADC1_Init` are not part of this model. They return nothing; following the convention of generated initialisers, a failure inside them is taken to enter `Error_Handler`, and is the `initOk` flag of `BringUp`. The results of `HAL_ADCEx_Calibration_Start` and `HAL_ADC_Start_DMA` are its other two flags.
- `Error_Handler` is outside this code and does not return. It is modelled as setting `halted`, and every hook and the conversion callback require that the driver has not halted.
- The `adc_reading` register is written by DMA. Its value becomes the `reading` parameter of `AdcCallback`, and the unused ADC handle is dropped.
- Telemetry encoding and broadcast are external (`com_aeronavics_LoadcellInfo_encode`, `driverhost_broadcast_can`, transfer id, priority). Publication is modelled as appending the record to the ghost `outbox`.
- The parameter store (`get_can_param_by_id`) is external. The sensor identifier is an argument of `Sync10Hz`.
- Interrupt concurrency is not modelled. The conversion callback and the 10 Hz computation run as atomic sequential steps, so a read of a slot that is being overwritten is not modelled.
- `LoadcellDriver.Loadcell.CalculateAverage`: the sum and the division are exact integer arithmetic, while the source accumulates in `float`. The two agree for 12-bit ADC readings, whose sum of ten (at most 40950) is exact in a `float`. They can differ for larger `uint32_t` values, which are rounded in the source.
- `Calibration.MapLoadcellWeight` is computed over `real`, not IEEE-754 `float`/`double`, so rounding of the calibration is not modelled.
- `handle_rx_can` has an empty body and is not modelled.
- The singleton accessor `get_driver`, the empty destructor, and the poisoned copy constructor and assignment (which keep a single instance) have no behaviour to model. The model does not enforce that only one instance exists.
- The `default:` branch of the state switch cannot be reached with a closed enumeration.
- `this_state` is initialised in the `Driver_module` base class, which is not part of this model. It is taken to start as UNKNOWN.
- Entry into ERROR: no code in the driver sets it. ERROR is modelled as a state that can be given to `Step` and recovers, and `NeverEntersError` records that nothing reaches it.
