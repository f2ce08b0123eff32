# Echo-timing state machine of an ultrasonic range finder

The firmware (`main/main.c`) measures distance with a trigger/echo ultrasonic
sensor. A GPIO interrupt on both edges of the echo line timestamps the rising
edge, arms a 30000 µs one-shot alarm, and on the falling edge cancels that
alarm and stores the elapsed time as a 32-bit pulse width. If the alarm fires
first, its callback marks the sensor as failed. The foreground loop sends a
trigger pulse only when no measurement is in progress or waiting. It then
waits for a result, prints "failure" or `width / 58` centimetres, and clears
the "new measurement" flag.

This project models that state machine:

- `EchoState.dfy` (module `EchoState`) holds the globals and an abstract
  alarm facility as a `Machine` value. The facility is a map from pending
  alarm ids to deadlines, plus the next fresh id. Each handler is a function
  from the old machine to the new one. The module also gives the
  four-phase view `Idle | Armed | Completed(width) | Failed` and the
  invariant `Valid` that every reachable state keeps.
- `EchoSensor.dfy` (module `EchoSensorObject`) holds the class `EchoSensor`.
  Its fields are the globals, and its methods update them in place. Each
  method is proved to produce exactly the state that the matching
  `EchoState` function gives. Two client methods drive the object through
  scenarios.
- `EchoProperties.dfy` (module `EchoProperties`) treats an interleaving of
  interrupts and foreground steps as a sequence of atomic events. It
  proves the invariant along every sequence and the race between the
  falling edge and the timeout. It also covers what the unguarded rising
  edge allows, plus three end-to-end scenarios.

Behaviour of the code as written, which the model keeps:

- The rising edge is not guarded. A rise while a measurement is in progress
  moves `echo_rise_time` and arms a second alarm. It does not cancel the
  first alarm, and only the newest id is kept. Nothing in the handler
  ignores such a rise, and the model keeps that
  (`RiseDuringMeasurementRearms`). A rise while a failed result is still
  unread clears `sensor_failure` (main/main.c:32), so the loop then prints
  the previous `pulse_width_us / 58` as a distance instead of the failure
  (`RiseHidesUnreadFailure`).
- The timeout callback ignores the id of the alarm that fired. A stale
  alarm can therefore end a newer measurement as a failure before that
  measurement's own 30000 µs have elapsed. The falling edge cancels only
  the stored id, so it does not remove a stale alarm either
  (`StaleAlarmEndsNewerMeasurement`, `SpuriousRiseThenStaleAlarm`).
- The width is `(fall − rise) mod 2^32`. This is the conversion of the
  64-bit time difference to the `uint32_t` global, written out in
  `Wrap32`. For a monotonic clock and a difference below 2^32, it is
  exactly the elapsed time, and 0 for equal times.

Parameters: the current time is a parameter of each edge handler. Firing
an alarm is an event that names the alarm id.

## Model

| member | source | states |
|---|---|---|
| EchoState.Init | main/main.c:11-16 | start-up state: all flags false, width and rise time 0, no alarm pending; it is valid and idle |
| EchoState.Wrap32 | main/main.c:38 | the stored width is below 2^32, equals the difference when that fits, and is congruent to it modulo 2^32 |
| EchoState.Centimetres | main/main.c:70 | integer division by 58: the result is the whole number of centimetres, `cm*58 <= width < (cm+1)*58` |
| EchoState.OnTimeout | main/main.c:18-25 | with no measurement in progress nothing changes; otherwise the phase becomes Failed while width, rise time, stored id and pending alarms are untouched; keeps the invariant |
| EchoState.OnAlarm | main/main.c:18-25 | a fired alarm leaves the pending set; any pending alarm, not only the stored one, turns an in-progress measurement into Failed; width, rise time, stored id and next id never change; with no measurement in progress or no such alarm the globals do not change; keeps the invariant |
| EchoState.OnRise | main/main.c:29-33 | phase becomes Armed with the given rise time and failure cleared; width and available flag untouched; exactly one fresh alarm is added 30000 µs ahead and none is removed; keeps the invariant |
| EchoState.OnFall | main/main.c:34-42 | with no measurement in progress nothing changes; otherwise the stored alarm is cancelled, the phase becomes Completed with the elapsed time modulo 2^32, the failure flag is unchanged (false), and the width is exactly the elapsed time on a monotonic clock |
| EchoState.CanTrigger | main/main.c:57 | the gate opens exactly in the Idle phase |
| EchoState.ReadingOf | main/main.c:67-72 | failure is reported exactly when the failure flag is set; otherwise the distance is the width in whole centimetres; Failed reads as failure and Completed(w) as `w / 58` cm |
| EchoState.AfterConsume | main/main.c:73 | only the available flag is cleared (progress, failure, width, rise time, stored id, pending alarms and next id are kept); with no measurement in progress the phase returns to Idle; keeps the invariant |
| EchoSensorObject.EchoSensor.constructor | main/main.c:11-16 | the object starts in the start-up state |
| EchoSensorObject.EchoSensor.SensorTimeoutCallback | main/main.c:18-25 | updates the fields in place as `OnTimeout` and returns 0 (no re-arming) |
| EchoSensorObject.EchoSensor.AlarmFires | main/main.c:18-25 | removes a pending alarm and runs the callback on the fields, as `OnAlarm`; keeps the invariant |
| EchoSensorObject.EchoSensor.EchoRisingEdge | main/main.c:29-33 | updates the fields in place as `OnRise`; keeps the invariant |
| EchoSensorObject.EchoSensor.EchoFallingEdge | main/main.c:34-42 | updates the fields in place as `OnFall`; keeps the invariant |
| EchoSensorObject.EchoSensor.TriggerAllowed | main/main.c:57 | answers true exactly in the Idle phase, changing nothing |
| EchoSensorObject.EchoSensor.Consume | main/main.c:67-73 | returns `ReadingOf` the old state and leaves `AfterConsume` of it |
| EchoSensorObject.EchoThenLateCallback | main/main.c:28-73 | on the object: an echo of 1160 µs followed by a late timeout callback reads 20 cm |
| EchoSensorObject.SpuriousRiseThenStaleAlarm | main/main.c:18-37 | on the object: a second rise 10000 µs into a measurement, then the first alarm fires at 30000 µs, and the reading is a failure |
| EchoProperties.StepPreservesValid | main/main.c:18-73 | every single event keeps the invariant |
| EchoProperties.RunPreservesValid | main/main.c:18-73 | every sequence of events from a valid state keeps the invariant |
| EchoProperties.ReachableInProgressNotFailed | main/main.c:19-39 | in every state reachable from start-up, a measurement in progress is not marked failed |
| EchoProperties.QuiescentAbsorbs | main/main.c:19-35 | with no measurement in progress, any sequence of falling edges and alarms leaves every global and the phase unchanged |
| EchoProperties.ResolvedAtMostOnce | main/main.c:18-42 | between rises and reads, at most one event changes a global, and none does when no measurement is in progress |
| EchoProperties.RaceResolvesOnce | main/main.c:19-40 | fall then timeout: Completed with the elapsed width and no failure, and the timeout (callback or cancelled alarm) is a no-op; timeout then fall: Failed with the width untouched, and the fall is a no-op |
| EchoProperties.RiseDuringMeasurementRearms | main/main.c:29-33 | a second rise moves the rise time and leaves two distinct alarms pending |
| EchoProperties.StaleAlarmEndsNewerMeasurement | main/main.c:18-37 | the first rise's alarm has an earlier deadline than the second measurement's window, survives the second fall, and, fired, ends the second measurement as Failed |
| EchoProperties.RiseHidesUnreadFailure | main/main.c:29-71 | a rise while a Failed result is unread makes the read report the previous width in centimetres instead of the failure |
| EchoProperties.WidthIsElapsedTime | main/main.c:29-40 | a rise at t and a fall at t+d (d < 2^32) complete with width exactly d |
| EchoProperties.ReadReopensTrigger | main/main.c:57-73 | after a Completed or Failed measurement is read, the trigger gate is open |
| EchoProperties.ScenarioEcho | main/main.c:28-73 | rise at 0 and fall at 1160 µs give Completed(1160) and read as 20 cm; after the read the gate is open |
| EchoProperties.ScenarioTimeout | main/main.c:18-33 | rise at 0 then the alarm fires: Failed, read as failure, and a later fall is a no-op |
| EchoProperties.ScenarioZeroWidth | main/main.c:29-40 | rise and fall at the same instant give Completed(0), read as 0 cm |

## Left out

- GPIO set-up, pin directions and IRQ registration (main/main.c:46-53): platform configuration with no logic.
- The trigger pulse (main/main.c:58-60) only drives a pin. The echo it causes is an external `RiseAt` event.
- `stdio_init_all` and `printf` (main/main.c:46, 68, 71): output. The model returns a `Reading` instead.
- The `sleep_us`, `sleep_ms` and the polling loop `while (!new_measurement_available)` (main/main.c:59, 63-64, 75): timing only. The read step is enabled only when the available flag holds, and in an event sequence a read with nothing available changes nothing. The endless `while (1)` loop becomes arbitrary sequences of events.
- Preemption, `volatile` and store ordering: each handler is one atomic step, and interleavings are sequences of such steps. An interrupt arriving in the middle of a handler or of the consume step is not modelled.
- Alarm facility internals (`add_alarm_in_us`, `cancel_alarm`, `get_absolute_time`, `absolute_time_diff_us`): abstracted to a map of pending ids and deadlines, a counter of fresh ids, and a time parameter. Arming is assumed to always succeed. An out-of-slots error id is not modelled.
- Timing of alarm firing: the model does not force an alarm to fire at its deadline or after earlier events. The deadline is recorded, and lemmas compare deadlines.
- The 64-bit clock is an unbounded natural number. Its wrap-around after about 584,000 years is not modelled.
