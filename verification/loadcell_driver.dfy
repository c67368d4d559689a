/** The load-cell driver object: its housekeeping state, the moving-average
    ring filled by the ADC conversion callback, the calibrated weight, and
    the telemetry it publishes. */
module LoadcellDriver {
  import opened LoadcellConfig
  import opened Calibration
  import opened SampleWindow
  import opened Housekeeping

  /** The com.aeronavics.LoadcellInfo record handed to the bus. */
  datatype LoadcellInfo = LoadcellInfo(sensorId: int, weight: real)

  /** A ring filled with one reading calibrates as follows: the bottom of
      the ADC range to the bottom weight, the top to the top weight, and the
      midpoint to half the weight range. */
  lemma FilledRingScenarios()
    ensures MapLoadcellWeight(Mean(seq(MovingAverageBins, _ => AdcMin)) as real) == WeightMin
    ensures MapLoadcellWeight(Mean(seq(MovingAverageBins, _ => AdcMax)) as real) == WeightMax
    ensures MapLoadcellWeight(Mean(seq(MovingAverageBins, _ => 2050)) as real) == 3.75
  {
    MeanOfConstant(MovingAverageBins, AdcMin);
    MeanOfConstant(MovingAverageBins, AdcMax);
    MeanOfConstant(MovingAverageBins, 2050);
  }

  class Loadcell {
    var thisState: DriverState
    var prevState: DriverState
    /** Set once Error_Handler has been entered; it never returns, so no
        hook and no callback runs afterwards. */
    var halted: bool
    var measuredWeight: real
    /** telemBase_t: the next slot to overwrite and the ring of raw readings. */
    var arrayIndex: u8
    const rawValues: array<u32>

    /** Every reading the conversion callback has delivered, in order. */
    ghost var received: seq<u32>
    /** Every telemetry record broadcast, in order. */
    ghost var outbox: seq<LoadcellInfo>

    /** The ring in arrival order, oldest slot first. */
    ghost function Window(): seq<int>
      reads this, rawValues
      requires arrayIndex as int <= rawValues.Length
    {
      Rotate(rawValues[..], arrayIndex as nat)
    }

    /** The ring has one slot per bin, its index stays inside it, it holds
        the latest readings, and the calibrated weight is never below the
        bottom of the weight range. */
    ghost predicate Valid()
      reads this, rawValues
    {
      && rawValues.Length == MovingAverageBins
      && arrayIndex as int < MovingAverageBins
      && Window() == Latest(MovingAverageBins, received)
      && measuredWeight >= WeightMin
    }

    /** The driver as it starts: the singleton lives in zero-initialised
        static storage, and the state (set by the base class) is UNKNOWN. */
    constructor ()
      ensures Valid() && fresh(rawValues)
      ensures thisState == Unknown && prevState == Unknown && !halted
      ensures arrayIndex == 0 && rawValues[..] == seq(MovingAverageBins, _ => 0)
      ensures measuredWeight == WeightMin
      ensures received == [] && outbox == []
    {
      thisState := Unknown;
      prevState := Unknown;
      halted := false;
      measuredWeight := 0.0;
      arrayIndex := 0;
      rawValues := new u32[MovingAverageBins](_ => 0);
      received := [];
      outbox := [];
      new;
      assert rawValues[..] == seq(MovingAverageBins, _ => 0);
      LatestInitial(MovingAverageBins);
    }

    /** sync_update_unthrottled: reserved for high-rate work; outside NORMAL
        it returns at once, and in NORMAL it has nothing to do yet. */
    method SyncUnthrottled()
      requires !halted
      ensures unchanged(this) && unchanged(rawValues)
    {
      if thisState != Normal {
        return;
      }
    }

    /** sync_update_100Hz: the same gate, and likewise nothing behind it. */
    method Sync100Hz()
      requires !halted
      ensures unchanged(this) && unchanged(rawValues)
    {
      if thisState != Normal {
        return;
      }
    }

    /** sync_update_10Hz: in NORMAL, recompute the weight from the ring and
        publish it once; in any other state change nothing. The sensor
        identifier is what the parameter store holds at this tick. */
    method Sync10Hz(sensorId: int)
      requires Valid() && !halted
      modifies this`measuredWeight, this`outbox
      ensures Valid()
      ensures thisState != Normal ==>
        measuredWeight == old(measuredWeight) && outbox == old(outbox)
      ensures thisState == Normal ==>
        && measuredWeight == MapLoadcellWeight(Mean(Latest(MovingAverageBins, received)) as real)
        && outbox == old(outbox) + [LoadcellInfo(sensorId, measuredWeight)]
    {
      if thisState != Normal {
        return;
      }
      CalculateWeight();
      TransmitTelemetry(sensorId);
    }

    /** sync_update_1Hz: one step of the housekeeping state machine. A
        failed bring-up in INIT enters Error_Handler and no transition is
        taken; otherwise the state left is recorded in prevState. */
    method Sync1Hz(hal: BringUp)
      requires Valid() && !halted
      modifies this`thisState, this`prevState, this`halted
      ensures Valid()
      ensures match Step(old(thisState), hal)
        case Halted =>
          halted && thisState == old(thisState) && prevState == old(prevState)
        case Advance(next) =>
          !halted && prevState == old(thisState) && thisState == next
    {
      var nextState := thisState;
      match thisState {
        case Unknown =>
          nextState := Init;
        case Init =>
          // MX_DMA_Init and MX_ADC1_Init enter Error_Handler themselves on failure.
          if !hal.initOk {
            halted := true;
            return;
          }
          if !hal.calibrationOk {
            halted := true;
            return;
          }
          if !hal.dmaStartOk {
            halted := true;
            return;
          }
          nextState := Normal;
        case Normal =>
        case Error =>
          nextState := Init;
      }
      prevState := thisState;
      thisState := nextState;
    }

    /** transmit_telemetry: broadcast one record of the sensor identifier
        and the current weight. */
    method TransmitTelemetry(sensorId: int)
      modifies this`outbox
      ensures outbox == old(outbox) + [LoadcellInfo(sensorId, measuredWeight)]
    {
      var info := LoadcellInfo(sensorId, measuredWeight);
      outbox := outbox + [info];
    }

    /** calculate_weight: the calibrated mean of the ring, which is the
        calibrated mean of the latest readings. */
    method CalculateWeight()
      requires Valid()
      modifies this`measuredWeight
      ensures Valid()
      ensures measuredWeight == MapLoadcellWeight(Mean(Latest(MovingAverageBins, received)) as real)
    {
      var averageAdc := CalculateAverage(rawValues, MovingAverageBins as u8);
      assert rawValues[..MovingAverageBins] == rawValues[..];
      SumRotate(rawValues[..], arrayIndex as nat);
      measuredWeight := MapLoadcellWeight(averageAdc as real);
    }

    /** calculate_average: the truncated mean of the first `size` entries,
        which always fits the `uint32_t` result. */
    method CalculateAverage(a: array<u32>, size: u8) returns (avg: u32)
      requires 0 < size as int <= a.Length
      ensures avg as int == Mean(a[..size])
    {
      var total := 0;
      var i := 0;
      while i < size as int
        invariant 0 <= i <= size as int
        invariant total == Sum(a[..i])
      {
        assert a[..i + 1][..i] == a[..i];
        total := total + a[i];
        i := i + 1;
      }
      assert a[..i] == a[..size];
      MeanBounds(a[..size], 0, 0xFFFF_FFFF);
      avg := total / size as int;
    }

    /** adc_callback: store the conversion just completed in the slot the
        index names and move the index on, wrapping at the window size. */
    method AdcCallback(reading: u32)
      requires Valid() && !halted
      modifies this`arrayIndex, this`received, rawValues
      ensures Valid()
      ensures rawValues[..] == old(rawValues[..])[old(arrayIndex) as int := reading]
      ensures arrayIndex as int == (old(arrayIndex) as int + 1) % MovingAverageBins
      ensures received == old(received) + [reading]
    {
      ghost var before, slot, history := rawValues[..], arrayIndex as nat, received;
      rawValues[arrayIndex as int % MovingAverageBins] := reading;
      // Pre-increment of a uint8_t wraps at 256 before the modulo.
      arrayIndex := ((arrayIndex as int + 1) % 0x100) % MovingAverageBins;
      received := received + [reading];
      assert rawValues[..] == before[slot := reading];
      assert arrayIndex as int == (slot + 1) % |before|;
      WriteAdvancesWindow(before, slot, reading as int);
      LatestPush(MovingAverageBins, history, reading);
    }
  }

  /** End to end: a driver brought up by two successful 1 Hz ticks and fed
      ten conversions at the ADC midpoint publishes, on its next 10 Hz tick,
      one record whose weight is half the weight range. */
  method MidpointScenario(sensorId: int) returns (d: Loadcell)
    ensures fresh(d) && d.Valid()
    ensures d.thisState == Normal && d.prevState == Init && !d.halted
    ensures d.outbox == [LoadcellInfo(sensorId, 3.75)]
  {
    d := new Loadcell();
    d.Sync1Hz(BringUp(true, true, true));
    d.Sync1Hz(BringUp(true, true, true));
    var n := 0;
    while n < MovingAverageBins
      invariant 0 <= n <= MovingAverageBins
      invariant d.Valid() && !d.halted
      invariant d.thisState == Normal && d.prevState == Init
      invariant d.received == seq(n, _ => 2050) && d.outbox == []
    {
      d.AdcCallback(2050);
      n := n + 1;
    }
    LatestAfterFill(MovingAverageBins, d.received);
    assert d.received[0..] == seq(MovingAverageBins, _ => 2050);
    FilledRingScenarios();
    d.Sync10Hz(sensorId);
  }
}
