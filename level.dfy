/**
 * The level detector: a two-state hysteresis machine that decides whether
 * the vehicle is out of level while moving.  Its state is a byte that the
 * firmware keeps in a function-static variable: 0 until the first call,
 * then InitialState (1, "nothing is on") or ThresholdAngleAndSpeed
 * (2, "tripped").
 *
 * The release transition keeps the firmware's guard literally: it asks for
 * the speed to be below the lower bound AND above the upper bound at once,
 * so with an ordered speed band the machine never leaves the tripped state.
 */
module Level {

  /** Value of the static state byte before the first call. */
  const Uninitialised: bv8 := 0
  /** "Nothing is on": the vehicle has not been seen out of level. */
  const InitialState: bv8 := 1
  /** "Tripped": tilt and speed were both in the alarm range. */
  const ThresholdAngleAndSpeed: bv8 := 2

  /** An orientation sample in degrees; the detector ignores z. */
  datatype Vec3 = Vec3(x: real, y: real, z: real)

  /** The compile-time limits: the tilt threshold and the closed speed band. */
  datatype Thresholds = Thresholds(angle: real, lowerSpeed: real, upperSpeed: real)

  /** One poll's inputs: the orientation sample and the last known speed. */
  datatype Sample = Sample(angle: Vec3, speed: real)

  /** The new state byte together with the value the call returns. */
  datatype Decision = Decision(next: bv8, outOfLevel: bool)

  /** The state bytes the firmware ever stores. */
  predicate KnownState(state: bv8)
  {
    state == Uninitialised || state == InitialState || state == ThresholdAngleAndSpeed
  }

  /**
   * "The Euclidean norm of (x, y) is at least t", without a square root:
   * a norm is never negative, so any t <= 0 is met, and for t > 0 both
   * sides may be squared.
   */
  predicate TiltAtLeast(x: real, y: real, t: real)
  {
    t <= 0.0 || x * x + y * y >= t * t
  }

  /** The speed lies in the closed band [lowerSpeed, upperSpeed]. */
  predicate SpeedInBand(speed: real, limits: Thresholds)
  {
    limits.lowerSpeed <= speed <= limits.upperSpeed
  }

  /** The guard that trips the alarm from InitialState. */
  predicate TripGuard(angle: Vec3, speed: real, limits: Thresholds)
  {
    TiltAtLeast(angle.x, angle.y, limits.angle) && SpeedInBand(speed, limits)
  }

  /** The guard that releases the alarm, as the firmware writes it. */
  predicate ReleaseGuard(angle: Vec3, speed: real, limits: Thresholds)
  {
    !TiltAtLeast(angle.x, angle.y, limits.angle) && speed < limits.lowerSpeed && speed > limits.upperSpeed
  }

  /**
   * One call of the detector: the state byte before the call and the
   * inputs determine the new state byte and the returned alarm.
   */
  function Detect(state: bv8, angle: Vec3, speed: real, limits: Thresholds): (d: Decision)
    ensures KnownState(state) ==> d.next == InitialState || d.next == ThresholdAngleAndSpeed
    ensures KnownState(state) ==> (d.outOfLevel <==> d.next == ThresholdAngleAndSpeed)
    ensures !KnownState(state) ==> d == Decision(state, false)
  {
    var current := if state == Uninitialised then InitialState else state;
    if current == InitialState then
      if TripGuard(angle, speed, limits) then Decision(ThresholdAngleAndSpeed, true)
      else Decision(InitialState, false)
    else if current == ThresholdAngleAndSpeed then
      if ReleaseGuard(angle, speed, limits) then Decision(InitialState, false)
      else Decision(ThresholdAngleAndSpeed, true)
    else
      Decision(current, false)
  }

  /** The sqrt-free comparison agrees with comparing the actual norm r. */
  lemma TiltAtLeastIsNormComparison(x: real, y: real, t: real, r: real)
    requires 0.0 <= r && r * r == x * x + y * y
    ensures TiltAtLeast(x, y, t) <==> r >= t
  {
    if t > 0.0 {
      if r >= t {
        assert r * r >= t * r >= t * t;
      } else {
        assert r * r <= r * t by {
          assert r * (t - r) >= 0.0;
        }
        assert r * t < t * t by {
          assert t * (t - r) > 0.0;
        }
      }
    }
  }

  /**
   * From the untripped states (including the very first call), the detector
   * trips and reports an alarm exactly when the tilt reaches the threshold
   * and the speed is in the band; otherwise it stays in InitialState.
   */
  lemma TripsExactlyOnGuard(state: bv8, angle: Vec3, speed: real, limits: Thresholds)
    requires state == Uninitialised || state == InitialState
    ensures Detect(state, angle, speed, limits).outOfLevel <==> TripGuard(angle, speed, limits)
    ensures Detect(state, angle, speed, limits).next ==
              if TripGuard(angle, speed, limits) then ThresholdAngleAndSpeed else InitialState
  {
  }

  /** With an ordered speed band no speed satisfies the release guard. */
  lemma ReleaseGuardUnsatisfiable(angle: Vec3, speed: real, limits: Thresholds)
    requires limits.lowerSpeed <= limits.upperSpeed
    ensures !ReleaseGuard(angle, speed, limits)
  {
  }

  /** Once tripped, one more call keeps the state tripped and reports an alarm. */
  lemma TrippedStaysTripped(angle: Vec3, speed: real, limits: Thresholds)
    requires limits.lowerSpeed <= limits.upperSpeed
    ensures Detect(ThresholdAngleAndSpeed, angle, speed, limits) == Decision(ThresholdAngleAndSpeed, true)
  {
    ReleaseGuardUnsatisfiable(angle, speed, limits);
  }

  /** The decision reads only x, y and speed: the signs of x and y and all of z are irrelevant. */
  lemma DetectIgnoresSignsAndZ(state: bv8, angle: Vec3, z: real, speed: real, limits: Thresholds)
    ensures Detect(state, Vec3(-angle.x, angle.y, z), speed, limits) == Detect(state, angle, speed, limits)
    ensures Detect(state, Vec3(angle.x, -angle.y, z), speed, limits) == Detect(state, angle, speed, limits)
  {
    assert (-angle.x) * (-angle.x) == angle.x * angle.x;
    assert (-angle.y) * (-angle.y) == angle.y * angle.y;
  }

  /** The alarms reported by successive calls, starting from a given state byte. */
  function Alarms(state: bv8, samples: seq<Sample>, limits: Thresholds): (alarms: seq<bool>)
    ensures |alarms| == |samples|
    decreases |samples|
  {
    if samples == [] then []
    else
      var d := Detect(state, samples[0].angle, samples[0].speed, limits);
      [d.outOfLevel] + Alarms(d.next, samples[1..], limits)
  }

  /** The state byte left behind by successive calls. */
  function StateAfter(state: bv8, samples: seq<Sample>, limits: Thresholds): bv8
    decreases |samples|
  {
    if samples == [] then state
    else
      var d := Detect(state, samples[0].angle, samples[0].speed, limits);
      StateAfter(d.next, samples[1..], limits)
  }

  /**
   * From the power-on state the byte is 0 until the first call and 1 or 2
   * after it, so the `default` branch of the firmware's switch never runs.
   */
  lemma {:induction false} ReachableStates(state: bv8, samples: seq<Sample>, limits: Thresholds)
    requires KnownState(state)
    ensures samples == [] ==> StateAfter(state, samples, limits) == state
    ensures samples != [] ==> StateAfter(state, samples, limits) in {InitialState, ThresholdAngleAndSpeed}
    decreases |samples|
  {
    if samples != [] {
      var d := Detect(state, samples[0].angle, samples[0].speed, limits);
      ReachableStates(d.next, samples[1..], limits);
    }
  }

  /** Once tripped, every later call reports an alarm and the state stays tripped. */
  lemma {:induction false} LatchedForever(samples: seq<Sample>, limits: Thresholds)
    requires limits.lowerSpeed <= limits.upperSpeed
    ensures StateAfter(ThresholdAngleAndSpeed, samples, limits) == ThresholdAngleAndSpeed
    ensures forall i :: 0 <= i < |samples| ==> Alarms(ThresholdAngleAndSpeed, samples, limits)[i]
    decreases |samples|
  {
    if samples != [] {
      TrippedStaysTripped(samples[0].angle, samples[0].speed, limits);
      LatchedForever(samples[1..], limits);
    }
  }

  /** In any history of calls, an alarm once reported is reported by every later call. */
  lemma {:induction false} AlarmHistoryLatches(state: bv8, samples: seq<Sample>, limits: Thresholds, i: nat, j: nat)
    requires KnownState(state) && limits.lowerSpeed <= limits.upperSpeed
    requires i <= j < |samples|
    requires Alarms(state, samples, limits)[i]
    ensures Alarms(state, samples, limits)[j]
    decreases |samples|
  {
    var d := Detect(state, samples[0].angle, samples[0].speed, limits);
    var rest := Alarms(d.next, samples[1..], limits);
    assert Alarms(state, samples, limits) == [d.outOfLevel] + rest;
    if i == 0 {
      if j > 0 {
        LatchedForever(samples[1..], limits);
        assert rest[j - 1];
      }
    } else {
      AlarmHistoryLatches(d.next, samples[1..], limits, i - 1, j - 1);
    }
  }

  /**
   * The worked scenario for a threshold of 8 degrees and a band of [3, 10]:
   * a tilt of (10, 0) at 5 trips the alarm, and a level sample at the same
   * speed afterwards leaves it tripped.
   */
  lemma LevelSampleDoesNotRelease()
    ensures var limits := Thresholds(8.0, 3.0, 10.0);
            var first := Detect(Uninitialised, Vec3(10.0, 0.0, 0.0), 5.0, limits);
            var second := Detect(first.next, Vec3(0.0, 0.0, 0.0), 5.0, limits);
            first == Decision(ThresholdAngleAndSpeed, true) && second == Decision(ThresholdAngleAndSpeed, true)
  {
  }

  /**
   * The detector object: the limits are fixed at construction, as the
   * firmware's compile-time parameters are, and `state` is the static byte.
   */
  class LevelDetector {
    const limits: Thresholds
    var state: bv8

    ghost predicate Valid()
      reads this
    {
      KnownState(state)
    }

    /** Static storage starts zeroed. */
    constructor (limits: Thresholds)
      ensures this.limits == limits && state == Uninitialised && Valid()
    {
      this.limits := limits;
      state := Uninitialised;
    }

    /** One call of the detector, performed in place on the static byte. */
    method IsOutOfLevel(angle: Vec3, speed: real) returns (outOfLevel: bool)
      modifies this
      ensures Decision(state, outOfLevel) == Detect(old(state), angle, speed, limits)
      ensures old(Valid()) ==> Valid() && state != Uninitialised
    {
      outOfLevel := false;
      var x, y := angle.x, angle.y;
      var squaredTilt := x * x + y * y;
      var tiltReached := limits.angle <= 0.0 || squaredTilt >= limits.angle * limits.angle;

      if state == Uninitialised {
        state := InitialState;
      }

      if state == InitialState {
        if tiltReached && speed >= limits.lowerSpeed && speed <= limits.upperSpeed {
          state := ThresholdAngleAndSpeed;
          outOfLevel := true;
        } else {
          outOfLevel := false;
        }
      } else if state == ThresholdAngleAndSpeed {
        if !tiltReached && speed < limits.lowerSpeed && speed > limits.upperSpeed {
          state := InitialState;
          outOfLevel := false;
        } else {
          outOfLevel := true;
        }
      } else {
        outOfLevel := false;
      }
    }
  }
}
