# Level indicator firmware: detector, brightness mapper and flash driver

This project models the decision-making core of an ESP32 firmware that
warns when a moving vehicle is out of level. The firmware reads tilt from
an inertial sensor, speed from a GPS receiver and ambient light from a
photoresistor, and flashes a status LED while the vehicle is tilted beyond
a threshold inside a speed band.

Four modules, one per component:

- `Brightness` (`brightness.dfy`) models `raw_ADC_to_LED_val`. A calibrated
  light reading is shifted by 500 and divided by 2598. The result is clamped
  to [0.1, 1.0], scaled by 1023 and truncated to an int. The arithmetic is
  done on exact reals, and C's float-to-int conversion is written out.
  An integer-only reference definition is proved equal to it on every reading.
  The function's doc comment promises 0 - 1023; the code yields [102, 1023],
  and the model follows the code.
- `Level` (`level.dfy`) models `is_out_of_level`. It is a class
  `LevelDetector` whose `state` field is the function-static byte: 0 before
  the first call, 1 (`initial_state`) and 2 (`threshold_angle_and_speed`).
  The method is proved against the function `Detect`.
  `sqrt(x*x + y*y) >= t` is modelled exactly, without a square root, as
  `t <= 0 || x*x + y*y >= t*t`.
  The release guard is kept exactly as written: `speed < lower_speed &&
  speed > upper_speed`. With `lower_speed <= upper_speed` no speed meets it,
  so once tripped the alarm latches for good. `LatchedForever` and
  `AlarmHistoryLatches` prove this latch. The model does not correct it.
- `Led` (`led.dfy`) models `led_alarm_handler`. It is a class `FlashDriver`
  holding the static `led_toggle` byte (bit 0 "initialised", bit 1 the
  phase) and the PWM channel's duty. The three scalars shared with the main
  loop are the class `SharedFlags`: `is_led_on`, `led_on` and `led_on_val`.
  The handler is proved against the function `Tick`.
  The predicate `Coherent` states that the PWM duty is `led_on_val` while
  `is_led_on` holds and 0 otherwise. Every tick establishes it, and every
  poll iteration preserves it. So the photoresistor is only sampled while
  the PWM duty is 0.
- `Poll` (`poll.dfy`) models one iteration of the production loop in
  `app_main`. It refreshes `led_on_val` only while `is_led_on` is false,
  then stores the detector's verdict in `led_on`.

The thresholds `threshold_angle`, `lower_speed` and `upper_speed` come from
`parameters.h`, which is not part of this model. They are a `Thresholds`
value fixed when the detector is constructed. Lemmas that need an ordered
band take `lowerSpeed <= upperSpeed` as a hypothesis. Sensor values are
inputs to the poll step: the photoresistor reading, the Euler angles and
the speed last stored by the GPS event handler.

## Model

| member | source | states |
|---|---|---|
| `Brightness.TruncateTowardZero` | src/main.c:145 | Returning a float as an int truncates toward zero: the result is the integer part, rounded down for non-negative values and up for non-positive ones. |
| `Brightness.Clamp` | src/main.c:139-143 | The clamped level always lies in [0.1, 1.0]. It equals the input inside that range, 0.1 below it and 1.0 above it. |
| `Brightness.RawAdcToLedVal` | src/main.c:134-146 | Every reading, whatever its value, maps to a duty in [102, 1023], not the 0 - 1023 the doc comment claims. |
| `Brightness.RawAdcToLedValByIntegers` | src/main.c:137-145 | On every reading, the real-valued map equals an integer-only reference: 1023 from 2598 above the offset on, 102 below a tenth of the span, and otherwise the shifted reading times 1023 divided by 2598, rounded down. |
| `Brightness.RawAdcToLedValMonotonic` | src/main.c:137-145 | The map is monotonic non-decreasing in the reading. |
| `Brightness.LowerClampEngages` | src/main.c:142-143 | The 10 % floor clamp takes effect exactly for readings at or below 759. |
| `Brightness.MinimumDutyReadings` | src/main.c:137-145 | The duty is 102 exactly for readings at or below 761. |
| `Brightness.FullScaleReadings` | src/main.c:137-145 | The duty is 1023 exactly for readings at or above 3098. |
| `Level.Detect` | src/main.c:161-197 | From a state byte the firmware stores (0, 1 or 2), the new state is 1 or 2, and the returned alarm is true iff the new state is 2. From any other byte, the default branch leaves the state unchanged and returns false. |
| `Level.TiltAtLeastIsNormComparison` | src/main.c:165-166 | For any non-negative r with r*r = x*x + y*y, the square-root-free comparison holds iff r >= threshold. |
| `Level.TripsExactlyOnGuard` | src/main.c:168-182 | From state 0 or 1, the call returns true and moves to state 2 exactly when the tilt reaches the threshold and the speed is in [lower, upper]. Otherwise it returns false and the state becomes 1. |
| `Level.ReleaseGuardUnsatisfiable` | src/main.c:184 | When lower <= upper, no tilt and speed satisfy the release guard as written. |
| `Level.TrippedStaysTripped` | src/main.c:183-191 | When lower <= upper, a call from state 2 leaves state 2 and returns true, whatever the inputs. |
| `Level.DetectIgnoresSignsAndZ` | src/main.c:165-166 | The decision is the same when x or y changes sign and whatever z is. |
| `Level.Alarms` | src/main.c:92 | Successive calls report exactly one alarm per sample. |
| `Level.ReachableStates` | src/main.c:163-194 | Starting from a stored state byte, the byte is unchanged after no calls and is 1 or 2 after one or more calls, so the default branch is never reached. |
| `Level.LatchedForever` | src/main.c:183-191 | When lower <= upper, every sequence of calls from state 2 reports true each time and ends in state 2. |
| `Level.AlarmHistoryLatches` | src/main.c:172-194 | When lower <= upper, in any history of calls from a stored state byte, an alarm once reported is reported by every later call. |
| `Level.LevelSampleDoesNotRelease` | src/main.c:174-190 | With threshold 8 and band [3, 10], the first call with tilt (10, 0) at speed 5 trips. A later level sample (0, 0) at speed 5 stays tripped and still returns true. |
| `Level.LevelDetector.constructor` | src/main.c:163 | The static state byte starts at 0, and the limits are fixed. |
| `Level.LevelDetector.IsOutOfLevel` | src/main.c:161-197 | The new state byte and the returned value are exactly those of `Detect` on the old byte. A stored byte stays a stored byte, and after the call it is no longer 0. |
| `Led.Tick` | lib/LED/led.c:8-65 | Summary of one tick: (1) it never clears the init bit and sets it on the first call; (2) it flips the phase bit iff the flash is enabled, and leaves bits 2-7 alone; (3) a disabled tick leaves an initialised byte unchanged and reports the LED off; (4) the duty is the target while the LED is reported on, else 0; (5) from a byte the firmware stores, the result is 1 or 3; (6) from such a byte, the LED is on iff the tick is enabled and the phase bit was set. |
| `Led.TickToggleIgnoresDuty` | lib/LED/led.c:25-50 | The new toggle byte and the on/off report do not depend on the duty target. |
| `Led.ToggleCountsEnabledTicks` | lib/LED/led.c:11-51 | After a non-empty run of ticks from a stored byte, the byte is 1 or 3. Its phase equals the starting phase plus the number of enabled ticks, mod 2. |
| `Led.NthTickLights` | lib/LED/led.c:11-51 | Counting from power-on, the tick at position i lights the LED iff it is enabled and an odd number of the earlier ticks were enabled. |
| `Led.DisabledTicksKeepToggle` | lib/LED/led.c:52-62 | Any run of disabled ticks leaves an initialised toggle byte unchanged. |
| `Led.EnabledTicksAlternate` | lib/LED/led.c:25-50 | Take two enabled ticks separated only by disabled ticks. Exactly one of them reports the LED on and applies its duty target. The other applies duty 0. |
| `Led.FirstEnabledTickIsDark` | lib/LED/led.c:11-49 | The first enabled tick after power-on sets duty 0 and reports the LED off, however many disabled ticks came before it. It leaves the byte at 3. |
| `Led.SharedFlags.constructor` | src/main.c:37-39 | The shared scalars start with the LED off, flashing disabled and a duty target of 0. |
| `Led.FlashDriver.constructor` | lib/LED/led.c:144-152 | The toggle byte starts zeroed and the PWM channel starts at duty 0. |
| `Led.FlashDriver.AlarmHandler` | lib/LED/led.c:8-65 | The new toggle byte, the duty and the "LED is on" report are exactly those of `Tick`. The duty is coherent with the report afterwards. A stored byte stays a stored byte and becomes non-zero. The handler always returns true. |
| `Poll.RefreshedLedVal` | src/main.c:88-89 | While the LED is reported on, the duty target is kept. Otherwise it is a freshly mapped value in [102, 1023]. |
| `Poll.RefreshKeepsDutyTargetInRange` | src/main.c:88-89 | A duty target in [0, 1023] stays in [0, 1023] after a refresh. |
| `Poll.RefreshKeepsCoherence` | src/main.c:88-89 | A refresh keeps the PWM duty coherent with the shared report. When the sensor is sampled, the duty is 0. |
| `Poll.PollStep` | src/main.c:88-92 | `is_led_on` is untouched. `led_on_val` is refreshed only when `is_led_on` was false. `led_on` and the detector state become `Detect`'s verdict. Driver coherence, the duty target range and the detector invariant are preserved. |

## Left out

- `led_init` and `led_deinit` are not modelled. They configure the general-purpose timer and the LEDC channel through vendor calls. The tick period and PWM frequency are therefore absent. The timer's `resolution_hz` of `1 * 10e3` is 10 kHz, not the 1 kHz its comment states, so the real tick period is 200 ms, not the 2000 ms `ALARM_TIME` suggests. Only the initial duty 0 of the channel is kept.
- The photoresistor driver is not part of this model. It covers ADC one-shot reads and calibration, and its reading is a parameter of the poll step.
- The NMEA/GPS parser is not part of this model, and neither is its event handler that stores `speed`. Speed is an input value.
- The `app_main` setup and teardown are not modelled. These are power management, driver bring-up and the `goto end_prog` teardown path. The inertial sensor read `bno055_get_euler` is a parameter of the poll step. The commented-out test block in the loop is not modelled.
- The timer callback and the main loop run concurrently with no locking. The model treats each tick and each poll iteration as one atomic step on shared fields. It does not model interleavings inside a step or torn reads.
- `ESP_ERROR_CHECK` aborts, all `ESP_LOG*` output and `vTaskDelay` are not modelled. PWM and ADC calls are taken to succeed.
- Brightness.RawAdcToLedVal: the float arithmetic is modelled on exact reals, so these edges are not reproduced bit for bit: double-to-float rounding of the normalised level, rounding of the float product near an integer result, and the 0.1 and 1.0 clamp edges. The 32-bit overflow of `reading - 500` for readings near `INT_MIN` is also not modelled.
- Level.Detect: the angles and speed are reals. NaN inputs and IEEE rounding of `pow`/`sqrt` are not modelled.
- Led.Tick: the duty target is an unbounded int passed straight to the duty. The conversion of a negative `int` to the peripheral's unsigned duty is not modelled. The poll step keeps the target in [0, 1023], so this never arises.
