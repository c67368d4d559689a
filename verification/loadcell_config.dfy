/** Compile-time configuration of the load-cell driver and the C integer
    widths it stores its readings in. */
module LoadcellConfig {

  /** C `uint8_t`. */
  type u8 = x: int | 0 <= x < 0x100

  /** C `uint32_t`. */
  type u32 = x: int | 0 <= x < 0x1_0000_0000

  /** Number of slots in the moving-average ring (TELEM_MOVING_AVERAGE_BINS). */
  const MovingAverageBins: nat := 10

  /** Raw ADC reading that calibrates to the lowest weight. */
  const AdcMin: int := 100

  /** Raw ADC reading that calibrates to the highest weight. */
  const AdcMax: int := 4000

  /** Weight reported for a raw reading of AdcMin. */
  const WeightMin: real := 0.0

  /** Weight reported for a raw reading of AdcMax. */
  const WeightMax: real := 7.5

  /** The calibration ranges are not degenerate (the map never divides by
      zero and rises on its linear part), and the ring index, a `uint8_t`
      kept below the window size, cannot overflow its type. */
  lemma ConfigurationWellFormed()
    ensures AdcMin < AdcMax
    ensures WeightMin < WeightMax
    ensures 0 < MovingAverageBins < 0x100
  {
  }
}
