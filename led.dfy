/**
 * The flash driver: a periodic timer callback that flashes the LED while
 * the alarm is enabled.  Its only persistent state is a static byte
 * `ledToggle`: bit 0 marks "initialised" and bit 1 is the toggle that
 * decides whether this tick lights the LED.  The PWM peripheral is
 * abstracted as the duty value of its channel.
 *
 * The callback and the main loop communicate through three shared
 * scalars, gathered here in SharedFlags; each callback invocation is
 * treated as one atomic step.
 */
module Led {

  /** Bit 0 of the toggle byte: set once the handler has run. */
  const InitBit: bv8 := 0x01
  /** Bit 1 of the toggle byte: the flashing phase. */
  const ToggleBit: bv8 := 0x02

  /** The toggle byte values the firmware ever stores: zeroed static storage, then 1 or 3. */
  predicate ValidToggle(toggle: bv8)
  {
    toggle == 0 || toggle == 1 || toggle == 3
  }

  /** Whether the phase bit is set. */
  predicate PhaseOn(toggle: bv8)
  {
    toggle & ToggleBit != 0
  }

  /** The phase bit as a number, for counting. */
  function Phase(toggle: bv8): nat
  {
    if PhaseOn(toggle) then 1 else 0
  }

  /** What one tick leaves behind: the toggle byte, the PWM duty and the "LED is on" report. */
  datatype TickOutcome = TickOutcome(toggle: bv8, duty: int, isLedOn: bool)

  /**
   * One timer tick.  The first call marks the byte initialised; then, when
   * enabled, the tick lights the LED at `ledOnVal` if the byte has any bit
   * above bit 0 set (the firmware tests `toggle >> 1`) and darkens it
   * otherwise, and flips the phase bit; when disabled it darkens the LED
   * and leaves the phase alone.
   */
  function Tick(toggle: bv8, ledOn: bool, ledOnVal: int): (r: TickOutcome)
    ensures toggle == 0 || toggle & InitBit == InitBit ==> r.toggle & InitBit == InitBit
    ensures PhaseOn(r.toggle) == (PhaseOn(toggle) != ledOn)
    ensures r.toggle & 0xFC == toggle & 0xFC
    ensures !ledOn && toggle != 0 ==> r.toggle == toggle
    ensures !ledOn ==> !r.isLedOn
    ensures r.duty == if r.isLedOn then ledOnVal else 0
    ensures ValidToggle(toggle) ==> r.toggle == 1 || r.toggle == 3
    ensures ValidToggle(toggle) ==> (r.isLedOn <==> ledOn && PhaseOn(toggle))
  {
    var initialised := if toggle == 0 then InitBit else toggle;
    if ledOn then
      if initialised >> 1 != 0 then TickOutcome(initialised ^ ToggleBit, ledOnVal, true)
      else TickOutcome(initialised ^ ToggleBit, 0, false)
    else
      TickOutcome(initialised, 0, false)
  }

  /** How many of a run of ticks were enabled. */
  function EnabledCount(enables: seq<bool>): (n: nat)
    ensures n <= |enables|
    decreases |enables|
  {
    if enables == [] then 0 else (if enables[0] then 1 else 0) + EnabledCount(enables[1..])
  }

  /** The toggle byte after a run of ticks whose enable flags are `enables`. */
  function ToggleAfter(toggle: bv8, enables: seq<bool>): bv8
    decreases |enables|
  {
    if enables == [] then toggle else ToggleAfter(Tick(toggle, enables[0], 0).toggle, enables[1..])
  }

  /** The toggle does not depend on the duty: one tick's toggle is the same whatever `ledOnVal` is. */
  lemma TickToggleIgnoresDuty(toggle: bv8, ledOn: bool, a: int, b: int)
    ensures Tick(toggle, ledOn, a).toggle == Tick(toggle, ledOn, b).toggle
    ensures Tick(toggle, ledOn, a).isLedOn == Tick(toggle, ledOn, b).isLedOn
  {
  }

  /**
   * After a non-empty run of ticks the byte is 1 or 3, and its phase bit is
   * the starting phase plus the number of enabled ticks, modulo 2.
   */
  lemma {:induction false} ToggleCountsEnabledTicks(toggle: bv8, enables: seq<bool>)
    requires ValidToggle(toggle) && enables != []
    ensures ToggleAfter(toggle, enables) == if (Phase(toggle) + EnabledCount(enables)) % 2 == 1 then 3 else 1
    decreases |enables|
  {
    var next := Tick(toggle, enables[0], 0).toggle;
    assert Phase(next) == (Phase(toggle) + (if enables[0] then 1 else 0)) % 2;
    if enables[1..] != [] {
      ToggleCountsEnabledTicks(next, enables[1..]);
    }
  }

  /**
   * The tick at position i since power-on lights the LED exactly when it is
   * enabled and an odd number of the earlier ticks were enabled: enabled
   * ticks alternate dark, lit, dark, ... starting dark.
   */
  lemma NthTickLights(enables: seq<bool>, i: nat, ledOnVal: int)
    requires i < |enables|
    ensures Tick(ToggleAfter(0, enables[..i]), enables[i], ledOnVal).isLedOn
            <==> enables[i] && EnabledCount(enables[..i]) % 2 == 1
  {
    if i > 0 {
      ToggleCountsEnabledTicks(0, enables[..i]);
    }
  }

  /** Disabled ticks leave an initialised toggle byte exactly as it was. */
  lemma {:induction false} DisabledTicksKeepToggle(toggle: bv8, gap: seq<bool>)
    requires toggle != 0
    requires forall k :: 0 <= k < |gap| ==> !gap[k]
    ensures ToggleAfter(toggle, gap) == toggle
    decreases |gap|
  {
    if gap != [] {
      DisabledTicksKeepToggle(toggle, gap[1..]);
    }
  }

  /**
   * Two enabled ticks with only disabled ticks between them: exactly one of
   * them lights the LED at its duty target and the other sets duty 0.
   */
  lemma EnabledTicksAlternate(toggle: bv8, gap: seq<bool>, firstVal: int, secondVal: int)
    requires ValidToggle(toggle)
    requires forall k :: 0 <= k < |gap| ==> !gap[k]
    ensures var first := Tick(toggle, true, firstVal);
            var second := Tick(ToggleAfter(first.toggle, gap), true, secondVal);
            first.isLedOn != second.isLedOn
            && first.duty == (if first.isLedOn then firstVal else 0)
            && second.duty == (if second.isLedOn then secondVal else 0)
  {
    var first := Tick(toggle, true, firstVal);
    DisabledTicksKeepToggle(first.toggle, gap);
  }

  /** However many disabled ticks come first, the first enabled tick after power-on is dark. */
  lemma FirstEnabledTickIsDark(gap: seq<bool>, ledOnVal: int)
    requires forall k :: 0 <= k < |gap| ==> !gap[k]
    ensures Tick(ToggleAfter(0, gap), true, ledOnVal) == TickOutcome(3, 0, false)
  {
    if gap != [] {
      DisabledTicksKeepToggle(1, gap[1..]);
    }
  }

  /**
   * The three scalars shared by the main loop and the timer callback:
   * "the LED is lit now" (written by the callback), "flashing is enabled"
   * and "the duty of a lit flash" (both written by the main loop).
   */
  class SharedFlags {
    var isLedOn: bool
    var ledOn: bool
    var ledOnVal: int

    /** The main loop's initial values. */
    constructor ()
      ensures !isLedOn && !ledOn && ledOnVal == 0
    {
      isLedOn, ledOn, ledOnVal := false, false, 0;
    }
  }

  /** The timer callback's own state: the static toggle byte and the PWM channel's duty. */
  class FlashDriver {
    var ledToggle: bv8
    var duty: int

    ghost predicate Valid()
      reads this
    {
      ValidToggle(ledToggle)
    }

    /** Zeroed static storage; the PWM channel is configured with duty 0. */
    constructor ()
      ensures ledToggle == 0 && duty == 0 && Valid()
    {
      ledToggle, duty := 0, 0;
    }

    /** One timer alarm: updates the toggle byte, the duty and the shared "LED is on" report. */
    method AlarmHandler(args: SharedFlags) returns (highTaskWoken: bool)
      modifies this, args`isLedOn
      ensures TickOutcome(ledToggle, duty, args.isLedOn) == Tick(old(ledToggle), args.ledOn, args.ledOnVal)
      ensures Coherent(args, this)
      ensures old(Valid()) ==> Valid() && ledToggle != 0
      ensures highTaskWoken
    {
      if ledToggle == 0 {
        ledToggle := InitBit;
      }

      if args.ledOn {
        if ledToggle >> 1 != 0 {
          args.isLedOn := true;
          duty := args.ledOnVal;
        } else {
          args.isLedOn := false;
          duty := 0;
        }
        ledToggle := ledToggle ^ ToggleBit;
      } else {
        args.isLedOn := false;
        duty := 0;
      }

      highTaskWoken := true;
    }
  }

  /**
   * The PWM duty matches the shared report: the target duty while the LED
   * is reported lit, 0 while it is reported dark.
   */
  ghost predicate Coherent(shared: SharedFlags, driver: FlashDriver)
    reads shared, driver
  {
    driver.duty == if shared.isLedOn then shared.ledOnVal else 0
  }
}
