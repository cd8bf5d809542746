/**
 * One iteration of the firmware's production poll loop: refresh the duty
 * target from the light sensor while the LED is dark, then feed the
 * orientation sample and the last known speed to the level detector and
 * publish its verdict as the "flashing enabled" flag.
 *
 * The sensor values are parameters: `reading` is what the photoresistor
 * would return if it were sampled in this iteration, `angle` what the
 * inertial sensor returns, `speed` the value the GPS handler last stored.
 */
module Poll {
  import Brightness
  import Level
  import Led

  /** The duty target after one iteration: refreshed only while the LED is reported dark. */
  function RefreshedLedVal(isLedOn: bool, ledOnVal: int, reading: int): (v: int)
    ensures isLedOn ==> v == ledOnVal
    ensures !isLedOn ==> 102 <= v <= Brightness.FullScale
  {
    if isLedOn then ledOnVal else Brightness.RawAdcToLedVal(reading)
  }

  /**
   * Keeping the duty target in the PWM range: it starts at 0 and every
   * refresh leaves it in [0, 1023].
   */
  lemma RefreshKeepsDutyTargetInRange(isLedOn: bool, ledOnVal: int, reading: int)
    requires 0 <= ledOnVal <= Brightness.FullScale
    ensures 0 <= RefreshedLedVal(isLedOn, ledOnVal, reading) <= Brightness.FullScale
  {
  }

  /**
   * A refresh never disturbs the driver's coherence: the light sensor is
   * sampled only while the LED is dark, i.e. while the PWM duty is 0, and
   * while it is lit the duty target is left as the lit duty.
   */
  lemma RefreshKeepsCoherence(duty: int, isLedOn: bool, ledOnVal: int, reading: int)
    requires duty == if isLedOn then ledOnVal else 0
    ensures duty == if isLedOn then RefreshedLedVal(isLedOn, ledOnVal, reading) else 0
    ensures !isLedOn ==> duty == 0
  {
  }

  /**
   * One poll iteration on the shared scalars and the detector.  The ghost
   * `driver` is the timer callback's state, which the iteration does not
   * touch; it is there to state that the iteration keeps it coherent with
   * the shared flags.
   */
  method PollStep(shared: Led.SharedFlags, detector: Level.LevelDetector, ghost driver: Led.FlashDriver,
                  reading: int, angle: Level.Vec3, speed: real)
    modifies shared`ledOnVal, shared`ledOn, detector
    ensures shared.isLedOn == old(shared.isLedOn)
    ensures shared.ledOnVal == RefreshedLedVal(old(shared.isLedOn), old(shared.ledOnVal), reading)
    ensures Level.Decision(detector.state, shared.ledOn)
            == Level.Detect(old(detector.state), angle, speed, detector.limits)
    ensures old(Led.Coherent(shared, driver)) ==> Led.Coherent(shared, driver)
    ensures old(0 <= shared.ledOnVal <= Brightness.FullScale) ==> 0 <= shared.ledOnVal <= Brightness.FullScale
    ensures old(detector.Valid()) ==> detector.Valid()
  {
    if shared.isLedOn == false {
      shared.ledOnVal := Brightness.RawAdcToLedVal(reading);
    }
    shared.ledOn := detector.IsOutOfLevel(angle, speed);
  }
}
