/**
 * Properties of the echo-timing state machine across several steps: the race
 * between the falling edge and the timeout, what the missing guard on the
 * rising edge allows, the invariant kept along every sequence of events, and
 * end-to-end scenarios.
 *
 * Each handler runs as one atomic step; an interleaving of the interrupt
 * handlers and the foreground loop is a sequence of events.
 */
module EchoProperties {
  import opened EchoState

  datatype Event =
    | RiseAt(now: Time)     // echo line read high in the GPIO interrupt
    | FallAt(now: Time)     // echo line read low in the GPIO interrupt
    | Fire(id: AlarmId)     // the alarm facility fires alarm `id`
    | Read                  // the foreground loop consumes an available measurement

  /**
   * One event. An event that cannot happen in the given state (an alarm that
   * is not pending, a read with nothing available: the loop keeps polling)
   * leaves the state as it is.
   */
  function Step(s: Machine, e: Event): Machine
  {
    match e
    case RiseAt(now) => OnRise(s, now)
    case FallAt(now) => OnFall(s, now)
    case Fire(id) => OnAlarm(s, id)
    case Read => if s.newMeasurementAvailable then AfterConsume(s) else s
  }

  function Run(s: Machine, events: seq<Event>): Machine
    decreases |events|
  {
    if events == [] then s else Run(Step(s, events[0]), events[1..])
  }

  /** Number of events of the sequence that change a firmware global. */
  function GlobalChanges(s: Machine, events: seq<Event>): nat
    decreases |events|
  {
    if events == [] then 0
    else
      var t := Step(s, events[0]);
      (if SameGlobals(t, s) then 0 else 1) + GlobalChanges(t, events[1..])
  }

  /** Events that only the echo line's falling edge and the alarms produce. */
  predicate NoRiseNoRead(events: seq<Event>)
  {
    forall i :: 0 <= i < |events| ==> !events[i].RiseAt? && !events[i].Read?
  }

  lemma StepPreservesValid(s: Machine, e: Event)
    requires Valid(s)
    ensures Valid(Step(s, e))
  {
  }

  /** Every state reached by any interleaving of events keeps the invariant. */
  lemma {:induction false} RunPreservesValid(s: Machine, events: seq<Event>)
    requires Valid(s)
    ensures Valid(Run(s, events))
    decreases |events|
  {
    if events != [] {
      StepPreservesValid(s, events[0]);
      RunPreservesValid(Step(s, events[0]), events[1..]);
    }
  }

  /** In particular a measurement in progress never carries the failure flag. */
  lemma ReachableInProgressNotFailed(events: seq<Event>)
    ensures var s := Run(Init(), events);
            s.measurementInProgress ==> !s.sensorFailure
  {
    RunPreservesValid(Init(), events);
  }

  /**
   * With no measurement in progress, falling edges and alarms leave every
   * firmware global as it is: a late fall after a timeout, a spurious fall
   * while idle and a stale alarm are all absorbed.
   */
  lemma {:induction false} QuiescentAbsorbs(s: Machine, events: seq<Event>)
    requires !s.measurementInProgress
    requires NoRiseNoRead(events)
    ensures SameGlobals(Run(s, events), s)
    ensures PhaseOf(Run(s, events)) == PhaseOf(s)
    decreases |events|
  {
    if events != [] {
      var t := Step(s, events[0]);
      assert !events[0].RiseAt? && !events[0].Read?;
      assert SameGlobals(t, s);
      assert NoRiseNoRead(events[1..]) by {
        forall i | 0 <= i < |events[1..]|
          ensures !events[1..][i].RiseAt? && !events[1..][i].Read?
        {
          assert events[1..][i] == events[i + 1];
        }
      }
      QuiescentAbsorbs(t, events[1..]);
    }
  }

  /**
   * Between two rises and before the next read, at most one event resolves a
   * measurement: whichever of the falling edge and the timeout comes second
   * changes nothing.
   */
  lemma {:induction false} ResolvedAtMostOnce(s: Machine, events: seq<Event>)
    requires NoRiseNoRead(events)
    ensures GlobalChanges(s, events) <= 1
    ensures !s.measurementInProgress ==> GlobalChanges(s, events) == 0
    decreases |events|
  {
    if events != [] {
      var t := Step(s, events[0]);
      assert !events[0].RiseAt? && !events[0].Read?;
      assert NoRiseNoRead(events[1..]) by {
        forall i | 0 <= i < |events[1..]|
          ensures !events[1..][i].RiseAt? && !events[1..][i].Read?
        {
          assert events[1..][i] == events[i + 1];
        }
      }
      ResolvedAtMostOnce(t, events[1..]);
      if !SameGlobals(t, s) {
        assert s.measurementInProgress && !t.measurementInProgress;
      }
    }
  }

  /**
   * The race for one measurement, in both orders. Fall first: the width is
   * recorded without failure, and the timeout afterwards (its callback body,
   * or the cancelled alarm) changes nothing. Timeout first: failure, width
   * untouched, and the late fall changes nothing.
   */
  lemma RaceResolvesOnce(s: Machine, fallTime: Time)
    requires Valid(s) && s.measurementInProgress
    ensures var f := OnFall(s, fallTime);
            && PhaseOf(f) == Completed(Wrap32(fallTime - s.echoRiseTime))
            && !f.sensorFailure
            && OnTimeout(f) == f
            && OnAlarm(f, s.sensorAlarmId) == f
    ensures var g := OnTimeout(s);
            && PhaseOf(g) == Failed
            && g.pulseWidthUs == s.pulseWidthUs
            && OnFall(g, fallTime) == g
    ensures var g := OnAlarm(s, s.sensorAlarmId);
            && PhaseOf(g) == Failed
            && g.pulseWidthUs == s.pulseWidthUs
            && OnFall(g, fallTime) == g
  {
  }

  /**
   * A rise during a measurement is not ignored: it moves the rise time and
   * arms a second alarm, while the first one stays pending.
   */
  lemma RiseDuringMeasurementRearms(s: Machine, first: Time, second: Time)
    requires Valid(s)
    ensures var a := OnRise(s, first);
            var b := OnRise(a, second);
            && b.echoRiseTime == second
            && a.sensorAlarmId != b.sensorAlarmId
            && a.sensorAlarmId in b.pending && b.sensorAlarmId in b.pending
  {
  }

  /**
   * The stale alarm of the first rise survives the falling edge of the second
   * (which cancels only the stored id), and, fired while the second
   * measurement is in progress, ends it as a failure although its deadline
   * comes before the second measurement's own window has elapsed.
   */
  lemma StaleAlarmEndsNewerMeasurement(s: Machine, first: Time, second: Time)
    requires Valid(s) && first < second
    ensures var a := OnRise(s, first);
            var b := OnRise(a, second);
            var stale := a.sensorAlarmId;
            && b.pending[stale] < b.echoRiseTime + SensorTimeoutUs
            && PhaseOf(OnAlarm(b, stale)) == Failed
            && stale in OnFall(b, second).pending
  {
  }

  /**
   * A rise while a failed measurement is still unread clears the failure
   * flag, so the pending read reports the previous width as a distance.
   */
  lemma RiseHidesUnreadFailure(s: Machine, now: Time)
    requires Valid(s) && PhaseOf(s) == Failed
    ensures ReadingOf(OnRise(s, now)) == DistanceCm(Centimetres(s.pulseWidthUs))
  {
  }

  /** Rise at t, fall d microseconds later: the completed width is exactly d. */
  lemma WidthIsElapsedTime(s: Machine, t: Time, d: nat)
    requires Valid(s) && d < Two32
    ensures PhaseOf(OnFall(OnRise(s, t), t + d)) == Completed(d)
  {
  }

  /** After reading a resolved measurement the gate lets a new trigger through. */
  lemma ReadReopensTrigger(s: Machine)
    requires Valid(s)
    requires PhaseOf(s) == Failed || PhaseOf(s).Completed?
    ensures CanTrigger(AfterConsume(s))
  {
  }

  /** Rise at 0, fall at 1160 microseconds: 20 cm. */
  lemma ScenarioEcho()
    ensures var s := Run(Init(), [RiseAt(0), FallAt(1160)]);
            && PhaseOf(s) == Completed(1160)
            && ReadingOf(s) == DistanceCm(20)
            && CanTrigger(Run(s, [Read]))
  {
    assert Run(Init(), [RiseAt(0), FallAt(1160)]) == OnFall(OnRise(Init(), 0), 1160);
  }

  /** Rise at 0, no fall, the alarm fires: a failure is reported. */
  lemma ScenarioTimeout()
    ensures var s := Run(Init(), [RiseAt(0), Fire(1)]);
            && PhaseOf(s) == Failed
            && ReadingOf(s) == SensorFailure
            && Run(s, [FallAt(30001)]) == s
  {
    assert Run(Init(), [RiseAt(0), Fire(1)]) == OnAlarm(OnRise(Init(), 0), 1);
  }

  /** Rise and fall at the same instant: a zero width is a valid measurement. */
  lemma ScenarioZeroWidth()
    ensures var s := Run(Init(), [RiseAt(0), FallAt(0)]);
            && PhaseOf(s) == Completed(0)
            && ReadingOf(s) == DistanceCm(0)
  {
    assert Run(Init(), [RiseAt(0), FallAt(0)]) == OnFall(OnRise(Init(), 0), 0);
  }
}
