/**
 The button interrupt handler `button_pressed`: a debounce test on a 32-bit
 microsecond timestamp, a dispatch on the pin that fired, and the rule that
 switches both PWM LEDs off whenever joystick control of them is disabled.
 One invocation of the handler is one atomic transition `Step`.
 */
module Buttons {
  import opened Bits
  import opened Device

  /** Minimum gap between two accepted presses, in microseconds. */
  const DEBOUNCE_US: int := 300000

  /** A falling edge on `gpio`, seen when the microsecond clock since boot
      (a 64-bit count) reads `timeUs`. */
  datatype Event = Event(gpio: nat, timeUs: nat)

  /** The handler's `current_time`: the clock reading cut to 32 bits. */
  function Now(e: Event): (r: uint32)
    ensures e.timeUs < TWO_32 ==> r == e.timeUs
    ensures (e.timeUs - r) % TWO_32 == 0
  {
    Truncate32(e.timeUs)
  }

  /** The debounce test: the time since the last accepted press, computed
      with 32-bit wrap-around, exceeds the window. */
  function Accepts(lastEvent: uint32, now: uint32): (r: bool)
    ensures lastEvent <= now ==> (r <==> now - lastEvent > DEBOUNCE_US)
    ensures now < lastEvent ==> (r <==> now + TWO_32 - lastEvent > DEBOUNCE_US)
  {
    WrapSub32(now, lastEvent) > DEBOUNCE_US
  }

  /** The handler runs and its event passes the debounce test. */
  predicate Accepted(s: State, e: Event)
  {
    s.mode == Running && Accepts(s.lastEvent, Now(e))
  }

  /** With joystick control disabled, both PWM LEDs are driven to 0. */
  function DarkenIfDisabled(s: State): (r: State)
    ensures r.pwmLeds == s.pwmLeds
    ensures !s.pwmLeds ==> r.red == 0 && r.blue == 0
    ensures s.pwmLeds ==> r == s
    ensures r == s.(red := r.red, blue := r.blue)
  {
    if !s.pwmLeds then s.(red := 0, blue := 0) else s
  }

  /** One invocation of `button_pressed`. A rejected event, or any event once
      the boot loader has taken over, changes nothing. An accepted event
      records its time and then acts on the pin that fired. Pressing B
      restarts the chip into the boot loader and never returns, so the
      handler writes no LED level after it. */
  function Step(s: State, e: Event): (r: State)
    // the boot loader is terminal, and the debounce window discards events
    ensures s.mode == UsbBoot ==> r == s
    ensures s.mode == Running && !Accepts(s.lastEvent, Now(e)) ==> r == s
    // an accepted event always moves the timestamp, whichever pin fired
    ensures Accepted(s, e) ==> r.lastEvent == Now(e)
    // joystick button: both the border flag and the green LED flip
    ensures Accepted(s, e) && e.gpio == JOYSTICK_BUTTON ==>
      && r.frame == !s.frame && r.green == !s.green
      && r.pwmLeds == s.pwmLeds && r.mode == Running
    // button A: joystick control of the LEDs flips, nothing else does
    ensures Accepted(s, e) && e.gpio == A_BUTTON ==>
      && r.pwmLeds == !s.pwmLeds
      && r.frame == s.frame && r.green == s.green && r.mode == Running
    // button B: the boot loader takes over; every other field of the record
    // keeps its last written value (the restart's effect on the pins is not modelled)
    ensures Accepted(s, e) && e.gpio == B_BUTTON ==>
      r == s.(lastEvent := Now(e), mode := UsbBoot)
    // any other pin: only the timestamp and possibly the LED levels change
    ensures Accepted(s, e) && e.gpio !in {JOYSTICK_BUTTON, A_BUTTON, B_BUTTON} ==>
      && r.pwmLeds == s.pwmLeds && r.frame == s.frame
      && r.green == s.green && r.mode == Running
    // after every accepted press that returns, disabled control means dark LEDs,
    // and enabled control leaves the levels alone
    ensures Accepted(s, e) && e.gpio != B_BUTTON ==>
      if r.pwmLeds then r.red == s.red && r.blue == s.blue
      else r.red == 0 && r.blue == 0
    ensures Consistent(s) ==> Consistent(r)
  {
    if s.mode == UsbBoot then s
    else
      var now := Now(e);
      if !Accepts(s.lastEvent, now) then s
      else
        var t := s.(lastEvent := now);
        if e.gpio == JOYSTICK_BUTTON then
          DarkenIfDisabled(t.(green := !t.green, frame := !t.frame))
        else if e.gpio == B_BUTTON then
          t.(mode := UsbBoot)
        else if e.gpio == A_BUTTON then
          DarkenIfDisabled(t.(pwmLeds := !t.pwmLeds))
        else
          DarkenIfDisabled(t)
  }

  /** Two accepted presses of A restore joystick control to what it was. */
  lemma APressTwiceRestores(s: State, e1: Event, e2: Event)
    requires e1.gpio == A_BUTTON && e2.gpio == A_BUTTON
    requires Accepted(s, e1)
    requires Accepts(Now(e1), Now(e2))
    ensures Step(Step(s, e1), e2).pwmLeds == s.pwmLeds
    ensures Step(Step(s, e1), e2).frame == s.frame
  {
  }

  /** Two accepted presses of the joystick button restore the border flag
      and the green LED. */
  lemma JoystickPressTwiceRestores(s: State, e1: Event, e2: Event)
    requires e1.gpio == JOYSTICK_BUTTON && e2.gpio == JOYSTICK_BUTTON
    requires Accepted(s, e1)
    requires Accepts(Now(e1), Now(e2))
    ensures Step(Step(s, e1), e2).frame == s.frame
    ensures Step(Step(s, e1), e2).green == s.green
  {
  }

  /** A press that follows an accepted one within the debounce window, on
      any pin, is discarded. */
  lemma BounceDiscarded(s: State, e1: Event, e2: Event)
    requires Accepted(s, e1)
    requires WrapSub32(Now(e2), Now(e1)) <= DEBOUNCE_US
    ensures Step(Step(s, e1), e2) == Step(s, e1)
  {
  }

  /** The 32-bit subtraction keeps the debounce correct across a wrap of the
      truncated clock: a press 200 ms after one taken just before the wrap is
      still discarded. */
  lemma BounceDiscardedAcrossWrap(s: State)
    requires s.mode == Running && s.lastEvent == TWO_32 - 100000
    ensures Step(s, Event(A_BUTTON, TWO_32 + 100000)) == s
  {
  }

  /** The timestamp only holds the low 32 bits of the clock and starts at 0,
      so from power-up a press is discarded exactly when the low 32 bits of
      its clock reading are at most the window: every press in the first
      300 ms after power-up, and, as long as no press has been accepted yet,
      every press in the first 300 ms after each wrap of the 32-bit count,
      about every 71.6 minutes. */
  lemma StaleTimestampAliases(e: Event)
    ensures Step(Init, e) == Init <==> e.timeUs % TWO_32 <= DEBOUNCE_US
  {
  }

  /** The first press the handler can accept after power-up is one at
      300 001 microseconds. */
  lemma FirstAcceptedPress(e: Event)
    requires e.gpio == A_BUTTON && e.timeUs == DEBOUNCE_US + 1
    ensures Step(Init, e).pwmLeds == false
    ensures Step(Init, e).lastEvent == DEBOUNCE_US + 1
  {
  }
}
