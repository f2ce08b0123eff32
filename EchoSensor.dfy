/**
 * The firmware's shared globals as one object, updated in place by the two
 * interrupt handlers and by the foreground loop. Each method is one atomic
 * step and is proved to move the object exactly as the matching function of
 * EchoState moves a `Machine`.
 */
module EchoSensorObject {
  import opened EchoState

  class EchoSensor {
    var measurementInProgress: bool
    var newMeasurementAvailable: bool
    var sensorFailure: bool
    var pulseWidthUs: nat
    var echoRiseTime: Time
    var sensorAlarmId: AlarmId
    // The platform's alarm facility: pending alarms with their deadlines, and
    // the next id it hands out.
    var pending: map<AlarmId, Time>
    var nextAlarmId: AlarmId

    /** The object's fields as a `Machine` value. */
    function State(): Machine
      reads this
    {
      Machine(measurementInProgress, newMeasurementAvailable, sensorFailure, pulseWidthUs,
              echoRiseTime, sensorAlarmId, pending, nextAlarmId)
    }

    ghost predicate Valid()
      reads this
    {
      EchoState.Valid(State())
    }

    /** Program start: globals zero-initialised, no alarm armed. */
    constructor ()
      ensures Valid() && State() == Init()
    {
      measurementInProgress := false;
      newMeasurementAvailable := false;
      sensorFailure := false;
      pulseWidthUs := 0;
      echoRiseTime := 0;
      sensorAlarmId := 0;
      pending := map[];
      nextAlarmId := 1;
    }

    /** The timeout callback's body. */
    method SensorTimeoutCallback() returns (reschedule: int)
      modifies this
      ensures State() == OnTimeout(old(State()))
      ensures reschedule == 0
    {
      if measurementInProgress {
        sensorFailure := true;
        measurementInProgress := false;
        newMeasurementAvailable := true;
      }
      reschedule := 0;
    }

    /**
     * The alarm facility fires alarm `id`: a pending alarm is removed (its
     * callback asks for no re-arming) and its callback runs.
     */
    method AlarmFires(id: AlarmId)
      requires Valid()
      modifies this
      ensures Valid() && State() == OnAlarm(old(State()), id)
    {
      if id in pending {
        pending := pending - {id};
        var reschedule := SensorTimeoutCallback();
      }
    }

    /** Echo-line interrupt, line read high, at time `now`. */
    method EchoRisingEdge(now: Time)
      requires Valid()
      modifies this
      ensures Valid() && State() == OnRise(old(State()), now)
    {
      echoRiseTime := now;
      measurementInProgress := true;
      sensorFailure := false;
      // arming: a fresh id whose deadline is one window ahead
      sensorAlarmId := nextAlarmId;
      pending := pending[nextAlarmId := now + SensorTimeoutUs];
      nextAlarmId := nextAlarmId + 1;
    }

    /** Echo-line interrupt, line read low, at time `now`. */
    method EchoFallingEdge(now: Time)
      requires Valid()
      modifies this
      ensures Valid() && State() == OnFall(old(State()), now)
    {
      if measurementInProgress {
        var echoFallTime := now;
        pending := pending - {sensorAlarmId};
        pulseWidthUs := (echoFallTime - echoRiseTime) % Two32;
        measurementInProgress := false;
        newMeasurementAvailable := true;
      }
    }

    /** The foreground loop's gate before it sends a trigger pulse. */
    method TriggerAllowed() returns (ok: bool)
      ensures ok <==> PhaseOf(State()) == Idle
    {
      ok := !measurementInProgress && !newMeasurementAvailable;
    }

    /**
     * The foreground loop's consume step, reached once a measurement is
     * available: reports failure or the distance, then clears the flag.
     */
    method Consume() returns (reading: Reading)
      requires Valid() && newMeasurementAvailable
      modifies this
      ensures Valid()
      ensures reading == ReadingOf(old(State())) && State() == AfterConsume(old(State()))
    {
      if sensorFailure {
        reading := SensorFailure;
      } else {
        var distanceCm := pulseWidthUs / UsPerCm;
        reading := DistanceCm(distanceCm);
      }
      newMeasurementAvailable := false;
    }
  }

  /**
   * A client of the object: one echo of 1160 microseconds, the fired callback
   * arriving after the falling edge, and the read.
   */
  method EchoThenLateCallback() returns (reading: Reading)
    ensures reading == DistanceCm(20)
  {
    var sensor := new EchoSensor();
    var ok := sensor.TriggerAllowed();
    assert ok;
    sensor.EchoRisingEdge(0);
    sensor.EchoFallingEdge(1160);
    var reschedule := sensor.SensorTimeoutCallback();
    reading := sensor.Consume();
  }

  /**
   * A client of the object: a second rise 10000 microseconds into a
   * measurement, then the first rise's alarm fires at its deadline, 20000
   * microseconds into the new measurement, and ends it as a failure.
   */
  method SpuriousRiseThenStaleAlarm() returns (reading: Reading)
    ensures reading == SensorFailure
  {
    var sensor := new EchoSensor();
    sensor.EchoRisingEdge(0);
    var stale := sensor.sensorAlarmId;
    sensor.EchoRisingEdge(10000);
    assert sensor.pending[stale] == 30000 < sensor.echoRiseTime + SensorTimeoutUs;
    sensor.AlarmFires(stale);
    reading := sensor.Consume();
  }
}
