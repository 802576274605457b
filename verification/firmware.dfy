/**
 The firmware as a whole: an interleaving of button interrupts and main-loop
 passes, each one atomic, applied to the device state in order. The
 properties here hold for every such interleaving.
 */
module Firmware {
  import opened Device
  import opened Buttons
  import opened MainLoop
  import opened Brightness

  /** One thing that can happen to the device: a button interrupt or one pass
      of the main loop with the two samples it read. */
  datatype Input = Press(e: Event) | Tick(x: Adc12, y: Adc12)

  function Apply(s: State, i: Input): State
  {
    match i
    case Press(e) => Step(s, e)
    case Tick(x, y) => Iterate(s, x, y).next
  }

  /** The state after the inputs, in order. Every input keeps a consistent
      state consistent, and once the boot loader has taken over nothing
      changes any more. */
  function Run(s: State, inputs: seq<Input>): (r: State)
    ensures Consistent(s) ==> Consistent(r)
    ensures s.mode == UsbBoot ==> r == s
    decreases |inputs|
  {
    if |inputs| == 0 then s
    else Run(Apply(s, inputs[0]), inputs[1..])
  }

  /** Power-up state followed by any inputs: the LEDs are dark whenever
      joystick control is disabled, whatever the joystick reads, and the
      green LED mirrors the border flag. */
  lemma ReachableConsistent(inputs: seq<Input>)
    ensures Consistent(Run(Init, inputs))
  {
  }

  /** The invariant above needs each loop pass to be atomic. From power-up,
      let a pass read `pwm_leds` as on at line 149, let an accepted press of A
      interrupt it there, and let the pass then finish its writes: the LEDs
      are lit with joystick control off. */
  lemma PreemptedPassLeavesLedsLit()
    ensures var pressed := Step(Init, Event(A_BUTTON, 400000));
      var resumed := WriteLevels(pressed, 0, 0);
      && Init.pwmLeds
      && !resumed.pwmLeds
      && resumed.red == 255 && resumed.blue == 255
      && !Consistent(resumed)
  {
    CalcPwmSamples();
  }

  /** Whether `i` is a press of `pin` that the handler accepts in state `s`. */
  predicate AcceptedPress(s: State, i: Input, pin: nat)
  {
    i.Press? && i.e.gpio == pin && Accepted(s, i.e)
  }

  /** How many of the inputs are accepted presses of `pin`, each judged in
      the state the run has reached when it arrives. */
  function AcceptedPresses(s: State, inputs: seq<Input>, pin: nat): nat
    decreases |inputs|
  {
    if |inputs| == 0 then 0
    else
      (if AcceptedPress(s, inputs[0], pin) then 1 else 0)
      + AcceptedPresses(Apply(s, inputs[0]), inputs[1..], pin)
  }

  /** One input flips the border flag iff it is an accepted joystick-button
      press, and flips joystick control iff it is an accepted press of A. */
  lemma ApplyFlips(s: State, i: Input)
    ensures Apply(s, i).frame == (s.frame != AcceptedPress(s, i, JOYSTICK_BUTTON))
    ensures Apply(s, i).pwmLeds == (s.pwmLeds != AcceptedPress(s, i, A_BUTTON))
  {
  }

  /** The border flag flips exactly once per accepted joystick-button press:
      after a run it differs from its start value iff the count is odd. */
  lemma {:induction false} FrameParity(s: State, inputs: seq<Input>)
    ensures Run(s, inputs).frame == (s.frame != (AcceptedPresses(s, inputs, JOYSTICK_BUTTON) % 2 == 1))
    decreases |inputs|
  {
    if |inputs| > 0 {
      ApplyFlips(s, inputs[0]);
      FrameParity(Apply(s, inputs[0]), inputs[1..]);
    }
  }

  /** Joystick control of the LEDs flips exactly once per accepted press of
      button A. */
  lemma {:induction false} PwmLedsParity(s: State, inputs: seq<Input>)
    ensures Run(s, inputs).pwmLeds == (s.pwmLeds != (AcceptedPresses(s, inputs, A_BUTTON) % 2 == 1))
    decreases |inputs|
  {
    if |inputs| > 0 {
      ApplyFlips(s, inputs[0]);
      PwmLedsParity(Apply(s, inputs[0]), inputs[1..]);
    }
  }

  /** The boot-loader mode is never left: a run that reaches it ends in it. */
  lemma {:induction false} UsbBootPersists(s: State, inputs: seq<Input>, k: nat)
    requires k <= |inputs|
    requires Run(s, inputs[..k]).mode == UsbBoot
    ensures Run(s, inputs).mode == UsbBoot
    decreases k
  {
    if k > 0 {
      assert inputs[..k][1..] == inputs[1..][..k - 1];
      UsbBootPersists(Apply(s, inputs[0]), inputs[1..], k - 1);
    }
  }

  /** An accepted press of B in a running device leads to the boot loader,
      and no input after it has any effect. */
  lemma BPressIsTerminal(s: State, e: Event, rest: seq<Input>)
    requires e.gpio == B_BUTTON && Accepted(s, e)
    ensures Run(s, [Press(e)] + rest) == Step(s, e)
    ensures Step(s, e).mode == UsbBoot
  {
  }

  /** An accepted joystick-button press exchanges the border rectangle's two
      boolean arguments in the next loop pass, whatever the samples. */
  lemma BorderInvertsAfterPress(s: State, e: Event, x: Adc12, y: Adc12)
    requires e.gpio == JOYSTICK_BUTTON && Accepted(s, e)
    ensures Iterate(Step(s, e), x, y).draw[1] == SwapColours(Iterate(s, x, y).draw[1])
  {
  }
}
