/**
 * The echo-timing state machine of the ultrasonic range finder, as values.
 *
 * A `Machine` holds the firmware's shared globals (measurement flags, the
 * captured width, the rise timestamp and the stored alarm id) together with an
 * abstract view of the platform's one-shot alarm facility: the set of pending
 * alarms, each with its deadline, and the next id the facility will hand out.
 * Each interrupt handler and each step of the foreground loop is a function
 * from the machine before to the machine after; the class in EchoSensor.dfy
 * runs the same steps in place and is proved equal to these functions.
 */
module EchoState {

  /** Timeout window armed on every rising edge, in microseconds. */
  const SensorTimeoutUs: nat := 30000

  /** Microseconds of round-trip echo per centimetre of distance. */
  const UsPerCm: nat := 58

  /** Modulus of the firmware's 32-bit unsigned pulse width. */
  const Two32: nat := 0x1_0000_0000

  /** Microseconds since boot, as the platform's monotonic clock gives them. */
  type Time = nat

  /** Alarm ids handed out by the alarm facility; valid ids are positive. */
  type AlarmId = nat

  datatype Machine = Machine(
    measurementInProgress: bool,
    newMeasurementAvailable: bool,
    sensorFailure: bool,
    pulseWidthUs: nat,            // a uint32 in the firmware
    echoRiseTime: Time,
    sensorAlarmId: AlarmId,       // the last id returned when arming
    pending: map<AlarmId, Time>,  // alarms armed and not yet fired or cancelled, with deadlines
    nextAlarmId: AlarmId)         // an id not yet handed out

  /** The four-phase view of a measurement: idle, armed, completed or failed. */
  datatype Phase = Idle | Armed | Completed(widthUs: nat) | Failed

  /** What the foreground loop reports for one measurement. */
  datatype Reading = SensorFailure | DistanceCm(cm: nat)

  /** Start-up state: every global zero-initialised, no alarm pending. */
  function Init(): (s: Machine)
    ensures Valid(s) && PhaseOf(s) == Idle
  {
    Machine(false, false, false, 0, 0, 0, map[], 1)
  }

  /** Reads the shared flags as a measurement phase. */
  function PhaseOf(s: Machine): Phase
  {
    if s.measurementInProgress then Armed
    else if !s.newMeasurementAvailable then Idle
    else if s.sensorFailure then Failed
    else Completed(s.pulseWidthUs)
  }

  /**
   * What every reachable state satisfies: an in-progress measurement has not
   * failed and its own timeout is pending with a deadline one window after the
   * rise; alarm ids are positive and fresh ids lie above every id handed out;
   * the width fits in 32 bits.
   */
  ghost predicate Valid(s: Machine)
  {
    && (s.measurementInProgress ==> !s.sensorFailure)
    && (s.measurementInProgress ==>
          s.sensorAlarmId in s.pending &&
          s.pending[s.sensorAlarmId] == s.echoRiseTime + SensorTimeoutUs)
    && 0 < s.nextAlarmId
    && s.sensorAlarmId < s.nextAlarmId
    && (forall id :: id in s.pending ==> 0 < id < s.nextAlarmId)
    && s.pulseWidthUs < Two32
  }

  /** The firmware globals alone, leaving out the alarm facility's bookkeeping. */
  predicate SameGlobals(a: Machine, b: Machine)
  {
    && a.measurementInProgress == b.measurementInProgress
    && a.newMeasurementAvailable == b.newMeasurementAvailable
    && a.sensorFailure == b.sensorFailure
    && a.pulseWidthUs == b.pulseWidthUs
    && a.echoRiseTime == b.echoRiseTime
    && a.sensorAlarmId == b.sensorAlarmId
  }

  /** Conversion of a signed difference to the firmware's uint32 width. */
  function Wrap32(x: int): (r: nat)
    ensures r < Two32
    ensures 0 <= x < Two32 ==> r == x
    ensures (x - r) % Two32 == 0
  {
    x % Two32
  }

  /** Integer distance for a pulse width: the whole centimetres it covers. */
  function Centimetres(widthUs: nat): (cm: nat)
    ensures cm * UsPerCm <= widthUs < (cm + 1) * UsPerCm
  {
    widthUs / UsPerCm
  }

  /**
   * Body of the timeout callback. An in-progress measurement ends as a failure;
   * with none in progress nothing changes. The callback does not look at which
   * alarm called it, and returns 0, so the facility does not re-arm it.
   */
  function OnTimeout(s: Machine): (r: Machine)
    ensures !s.measurementInProgress ==> r == s
    ensures s.measurementInProgress ==> PhaseOf(r) == Failed
    ensures s.measurementInProgress ==>
              r.pulseWidthUs == s.pulseWidthUs && r.echoRiseTime == s.echoRiseTime &&
              r.sensorAlarmId == s.sensorAlarmId && r.pending == s.pending
    ensures Valid(s) ==> Valid(r)
  {
    if s.measurementInProgress then
      s.(sensorFailure := true, measurementInProgress := false, newMeasurementAvailable := true)
    else
      s
  }

  /**
   * The alarm facility fires alarm `id`: a pending alarm leaves the pending set
   * and its callback runs; an id that is not pending fires nothing.
   */
  function OnAlarm(s: Machine, id: AlarmId): (r: Machine)
    ensures r.pending == s.pending - {id}
    ensures id in s.pending && s.measurementInProgress ==> PhaseOf(r) == Failed
    ensures r.pulseWidthUs == s.pulseWidthUs && r.echoRiseTime == s.echoRiseTime
    ensures r.sensorAlarmId == s.sensorAlarmId && r.nextAlarmId == s.nextAlarmId
    ensures !s.measurementInProgress || id !in s.pending ==> SameGlobals(r, s)
    ensures Valid(s) ==> Valid(r)
  {
    if id in s.pending then OnTimeout(s.(pending := s.pending - {id})) else s
  }

  /**
   * Rising edge at time `now`: records the rise, starts a measurement, clears
   * the failure flag and arms a fresh alarm one window ahead. It does so in any
   * phase; an alarm armed before stays pending.
   */
  function OnRise(s: Machine, now: Time): (r: Machine)
    ensures PhaseOf(r) == Armed && r.echoRiseTime == now && !r.sensorFailure
    ensures r.pulseWidthUs == s.pulseWidthUs
    ensures r.newMeasurementAvailable == s.newMeasurementAvailable
    ensures Valid(s) ==> r.sensorAlarmId !in s.pending
    ensures r.pending == s.pending[r.sensorAlarmId := now + SensorTimeoutUs]
    ensures Valid(s) ==> Valid(r)
  {
    var id := s.nextAlarmId;
    s.(echoRiseTime := now,
       measurementInProgress := true,
       sensorFailure := false,
       sensorAlarmId := id,
       pending := s.pending[id := now + SensorTimeoutUs],
       nextAlarmId := id + 1)
  }

  /**
   * Falling edge at time `now`: with no measurement in progress it is ignored;
   * otherwise it cancels the stored alarm, stores the elapsed time since the
   * rise as a 32-bit width and publishes the measurement.
   */
  function OnFall(s: Machine, now: Time): (r: Machine)
    ensures !s.measurementInProgress ==> r == s
    ensures s.measurementInProgress ==>
              && !r.measurementInProgress && r.newMeasurementAvailable
              && r.sensorFailure == s.sensorFailure
              && r.pending == s.pending - {s.sensorAlarmId}
              && r.echoRiseTime == s.echoRiseTime && r.sensorAlarmId == s.sensorAlarmId
    ensures s.measurementInProgress && s.echoRiseTime <= now < s.echoRiseTime + Two32 ==>
              r.pulseWidthUs == now - s.echoRiseTime
    ensures Valid(s) && s.measurementInProgress ==>
              PhaseOf(r) == Completed(Wrap32(now - s.echoRiseTime))
    ensures Valid(s) ==> Valid(r)
  {
    if s.measurementInProgress then
      s.(pending := s.pending - {s.sensorAlarmId},
         pulseWidthUs := Wrap32(now - s.echoRiseTime),
         measurementInProgress := false,
         newMeasurementAvailable := true)
    else
      s
  }

  /** The foreground loop's gate: a trigger pulse is sent only from the idle phase. */
  function CanTrigger(s: Machine): (ok: bool)
    ensures ok <==> PhaseOf(s) == Idle
  {
    !s.measurementInProgress && !s.newMeasurementAvailable
  }

  /** What the foreground loop reports once a measurement is available. */
  function ReadingOf(s: Machine): (r: Reading)
    requires s.newMeasurementAvailable
    ensures r.SensorFailure? <==> s.sensorFailure
    ensures r.DistanceCm? ==> r.cm * UsPerCm <= s.pulseWidthUs < (r.cm + 1) * UsPerCm
    ensures PhaseOf(s) == Failed ==> r == SensorFailure
    ensures PhaseOf(s).Completed? ==> r == DistanceCm(Centimetres(PhaseOf(s).widthUs))
  {
    if s.sensorFailure then SensorFailure else DistanceCm(Centimetres(s.pulseWidthUs))
  }

  /** The state after the foreground loop has consumed a measurement. */
  function AfterConsume(s: Machine): (r: Machine)
    requires s.newMeasurementAvailable
    ensures !r.newMeasurementAvailable
    ensures r.measurementInProgress == s.measurementInProgress
    ensures r.sensorFailure == s.sensorFailure && r.pulseWidthUs == s.pulseWidthUs
    ensures r.pending == s.pending && r.echoRiseTime == s.echoRiseTime
    ensures r.sensorAlarmId == s.sensorAlarmId && r.nextAlarmId == s.nextAlarmId
    ensures !s.measurementInProgress ==> PhaseOf(r) == Idle
    ensures Valid(s) ==> Valid(r)
  {
    s.(newMeasurementAvailable := false)
  }
}
