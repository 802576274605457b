/**
 The device state of the firmware: the globals shared between the button
 interrupt and the main loop, gathered into one immutable record, together
 with the pin numbers the handler dispatches on.
 */
module Device {
  import opened Bits

  /** Push-button on the joystick: toggles the border colours and the green LED. */
  const JOYSTICK_BUTTON: nat := 22
  /** Button A: toggles joystick control of the red and blue LEDs. */
  const A_BUTTON: nat := 5
  /** Button B: reboots the chip into its USB boot loader. */
  const B_BUTTON: nat := 6

  /** Whether the firmware still runs, or has handed control to the boot
      loader, from which it never returns. */
  datatype Mode = Running | UsbBoot

  /** `lastEvent` is the debounce timestamp, `pwmLeds` and `frame` are the two
      mode flags, `green` the level driven on the green LED, and `red` and
      `blue` the PWM levels last written to those two LEDs. */
  datatype State = State(
    lastEvent: uint32,
    pwmLeds: bool,
    frame: bool,
    green: bool,
    red: nat,
    blue: nat,
    mode: Mode)

  /** The state when the button interrupts are enabled (Embarcatech_U4_C8.c:85,
      before the main loop starts): the globals' initialisers, the
      green LED set up as a low output, and both PWM channels at their reset
      level 0. */
  const Init: State := State(0, true, false, false, 0, 0, Running)

  /** What every state the firmware can reach satisfies: levels fit the
      8-bit PWM range, disabled joystick control means both LEDs are dark,
      and the green LED is lit exactly when the border colours are toggled. */
  predicate Consistent(s: State)
  {
    && s.red <= 255
    && s.blue <= 255
    && (!s.pwmLeds ==> s.red == 0 && s.blue == 0)
    && s.green == s.frame
  }
}
