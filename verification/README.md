# Joystick, LED and display firmware — Dafny model

This project models the logic of a small Raspberry Pi Pico firmware
(`Embarcatech_U4_C8.c`) that reads a two-axis joystick and three buttons,
drives a red and a blue LED by PWM, toggles a green LED, and draws a border
and a square cursor on an SSD1306 OLED display.

What is modelled, in the firmware's own terms:

- **The button interrupt `button_pressed`** as a pure transition
  `Buttons.Step(state, event)`. The state is one record (`Device.State`)
  holding the globals `last_event`, `pwm_leds` and `frame`, the green LED's
  level, the red and blue PWM levels, and whether the chip has handed control
  to the USB boot loader. Debounce uses 32-bit wrap-around subtraction on a
  clock reading cut to 32 bits. Dispatch is by pin: joystick button (22),
  B (6) and A (5). After the dispatch, both LEDs are forced dark whenever
  `pwm_leds` is off.
- **The brightness mapper `calcular_pwm`** (`Brightness.CalcPwm`): the
  truncation of the exact real value `|2048 - a| / 2048 * 255`. It is proved
  equal to the integer expression `|2048 - a| * 255 / 2048`. For a 12-bit
  sample the double arithmetic of the C code is exact: it divides by a power
  of two and multiplies by 255 within 53 bits.
- **One pass of the main loop** (`MainLoop.Iterate`). It scales the samples to
  cursor targets, clamps them to [0, 56] x [0, 120] and truncates them to
  integers. When `pwm_leds` is on it writes the LED levels, including the
  zero overrides. It then issues the display calls: background fill, border
  rectangle, cursor square, transfer. These calls are modelled only by their
  arguments.
- **Runs** (`Firmware.Run`): any interleaving of button interrupts and loop
  passes, each taken as one atomic step. The main invariant is
  `Device.Consistent`: levels in [0, 255], both LEDs dark whenever `pwm_leds`
  is off, and the green LED lit exactly when `frame` is set. It holds from
  power-up at that granularity; a press that interrupts a loop pass midway
  can break it (`Firmware.PreemptedPassLeavesLedsLit`).

## Behaviour of the C code worth knowing

- `calcular_pwm` truncates, so `calcular_pwm(4095)` is 254. The level is 0 on
  the seventeen samples 2040..2056.
- The zero overrides are cross-wired. The red LED is driven by Y and is zeroed
  when X equals 2048. The blue LED is driven by X and is zeroed when Y equals
  2048. With X at 2048 and Y at 0, red stays dark although `calcular_pwm(0)`
  is 255 (`MainLoop.RedOverriddenByX`).
- The darkening rule runs after every accepted press except B, including
  presses of the joystick button and presses on pins that match no branch.
- A press of B records its timestamp and then calls `reset_usb_boot`, which
  restarts the chip into its USB boot loader and never returns. The handler
  writes no LED level after it. The model keeps the last written levels in
  the state record; what the restart does to the pins is not modelled.
- The debounce timestamp holds only the low 32 bits of the microsecond clock
  and wraps about every 71.6 minutes. From power-up, a press is discarded
  exactly when the low 32 bits of its clock reading are at most 300 000, so
  every press in the first 300 ms is discarded. As long as no press has been
  accepted yet, so is every press in the first 300 ms after each wrap
  (`Buttons.StaleTimestampAliases`). After an accepted press, the discarded
  window follows the low 32 bits of that press's time instead.
- The joystick button toggles the border flag and the green LED, and button
  A toggles joystick control of the LEDs.

## Model

| member | source | states |
|---|---|---|
| `Bits.Truncate32` | Embarcatech_U4_C8.c:43 | cutting the 64-bit clock to `uint32_t` keeps it when it fits and otherwise differs from it by a multiple of 2^32 |
| `Bits.WrapSub32` | Embarcatech_U4_C8.c:46 | unsigned 32-bit `now - last` is the plain difference when `last <= now` and the difference plus 2^32 otherwise; adding it back to `last` modulo 2^32 gives `now` |
| `Brightness.Scaled` | Embarcatech_U4_C8.c:69 | the double value before the cast is never negative, is 0 at the centre and is at most 255 on 0..4096 |
| `Brightness.ScaledFloor` | Embarcatech_U4_C8.c:69 | the truncating cast of the exact scaled deviation equals the integer quotient `n * 255 / 2048` |
| `Brightness.CalcPwm` | Embarcatech_U4_C8.c:68-70 | for every 12-bit sample the level is `abs(2048 - a) * 255 / 2048` and lies in [0, 255] |
| `Brightness.CastDefinedIff` | Embarcatech_U4_C8.c:68-69 | over the whole `uint16_t` parameter, the truncated value fits the `uint8_t` result iff the sample is at most 4104 |
| `Brightness.CalcPwmSamples` | Embarcatech_U4_C8.c:68-70 | the level is 0 at 2048, 255 at 0 and 254 at 4095 |
| `Brightness.CalcPwmZeroIff` | Embarcatech_U4_C8.c:69 | the level is 0 iff the sample lies in 2040..2056 |
| `Brightness.CalcPwmMonotone` | Embarcatech_U4_C8.c:69 | a sample farther from the centre never gets a lower level |
| `Brightness.CalcPwmSymmetric` | Embarcatech_U4_C8.c:69 | samples equally far above and below the centre get the same level |
| `Buttons.Now` | Embarcatech_U4_C8.c:43 | `current_time` is the clock reading when it fits in 32 bits and otherwise differs from it by a multiple of 2^32 |
| `Buttons.Accepts` | Embarcatech_U4_C8.c:46 | a press passes the debounce test iff `now - last` exceeds 300 000, where the difference has 2^32 added when `now < last` |
| `Buttons.DarkenIfDisabled` | Embarcatech_U4_C8.c:59-63 | with `pwm_leds` off both levels become 0 and nothing else changes; with it on the state is unchanged |
| `Buttons.Step` | Embarcatech_U4_C8.c:41-65 | rejected events and the boot-loader state leave everything unchanged; an accepted event sets the timestamp whichever pin fired; the joystick button flips `frame` and green and keeps `pwm_leds`; A flips `pwm_leds` and keeps `frame` and green; B enters the terminal boot-loader mode with everything else kept; other pins keep all flags; after an accepted non-B press the LEDs are dark if `pwm_leds` is off and untouched otherwise; consistency is preserved |
| `Buttons.APressTwiceRestores` | Embarcatech_U4_C8.c:55-56 | two accepted presses of A restore `pwm_leds` and leave `frame` as it was |
| `Buttons.JoystickPressTwiceRestores` | Embarcatech_U4_C8.c:50-52 | two accepted joystick-button presses restore `frame` and the green LED |
| `Buttons.BounceDiscarded` | Embarcatech_U4_C8.c:46-47 | a press on any pin within 300 000 µs (mod 2^32) of an accepted press changes nothing |
| `Buttons.BounceDiscardedAcrossWrap` | Embarcatech_U4_C8.c:43-46 | a press 200 ms after one taken just before the 32-bit clock wraps is still discarded |
| `Buttons.StaleTimestampAliases` | Embarcatech_U4_C8.c:27-46 | from power-up, a press changes nothing iff the low 32 bits of its clock reading are at most 300 000 |
| `Buttons.FirstAcceptedPress` | Embarcatech_U4_C8.c:27-56 | from power-up, a press of A at 300 001 µs is accepted: it records its time and turns joystick control off |
| `MainLoop.TargetX` | Embarcatech_U4_C8.c:134 | `target_x` lies in [0, 64]; it is 64 at sample 0 and 0 at sample 4095 |
| `MainLoop.TargetY` | Embarcatech_U4_C8.c:135 | `target_y` lies in [0, 128]; it is 0 at sample 0 and 128 at sample 4095 |
| `MainLoop.TargetGap` | Embarcatech_U4_C8.c:134-135 | apart from samples 0 and 4095, each target lies at least 1/4095 from the nearest whole number |
| `MainLoop.Clamp` | Embarcatech_U4_C8.c:140-143 | the clamped value lies in [0, hi]; it is the input when the input is in range, 0 below and hi above |
| `MainLoop.TruncToInt` | Embarcatech_U4_C8.c:168 | the `(int)` cast drops the fraction toward zero |
| `MainLoop.CursorPos` | Embarcatech_U4_C8.c:134-143 | the cursor is always in [0, 56] x [0, 120]; it is the truncated target when the target is in range and the bound when the target is above it |
| `MainLoop.CursorCorners` | Embarcatech_U4_C8.c:134-143 | samples (0, 0) give the cursor (56, 0), and samples (4095, 4095) give (0, 120) |
| `MainLoop.CursorMonotone` | Embarcatech_U4_C8.c:134-135 | a larger X sample never increases the first coordinate; a larger Y sample never decreases the second |
| `MainLoop.LedUpdate` | Embarcatech_U4_C8.c:149-158 | with `pwm_leds` off nothing changes; with it on, red is `calcular_pwm(y)` unless X is 2048 (then 0), and blue is `calcular_pwm(x)` unless Y is 2048 (then 0); only the two levels change; consistency is preserved |
| `MainLoop.WriteLevels` | Embarcatech_U4_C8.c:150-157 | the writes alone leave red at `calcular_pwm(y)` unless X is 2048 (then 0) and blue at `calcular_pwm(x)` unless Y is 2048 (then 0), whatever `pwm_leds` is, and change nothing else |
| `MainLoop.LedDarkIff` | Embarcatech_U4_C8.c:149-157 | with `pwm_leds` on, red is dark iff X is 2048 or Y is in 2040..2056, and blue is dark iff Y is 2048 or X is in 2040..2056 |
| `MainLoop.RedOverriddenByX` | Embarcatech_U4_C8.c:150-156 | with X at 2048 and Y at 0, red is dark; with X at 0 and Y at 2048, blue is dark; and in both cases the other LED is dark too |
| `MainLoop.BorderRect` | Embarcatech_U4_C8.c:161-165 | the border call covers the 128x64 canvas from (0, 0), with colour argument `frame` and fill argument `!frame` (as `cor` is true) |
| `MainLoop.BorderToggleSwaps` | Embarcatech_U4_C8.c:161-165 | the border call's colour and fill arguments always differ, and flipping `frame` swaps them |
| `MainLoop.Render` | Embarcatech_U4_C8.c:146-169 | a frame is four calls: background fill, the border chosen by `frame`, an 8x8 cursor square at the cursor in colour and fill `cor`, and the transfer; the cursor colour is the opposite of the background |
| `MainLoop.Iterate` | Embarcatech_U4_C8.c:134-169 | a running pass writes only the LED levels, fills the background with `!cor`, draws the border chosen by `frame`, draws the 8x8 cursor square at `CursorPos(x, y)` and ends with the transfer; in boot-loader mode nothing happens; consistency is preserved |
| `MainLoop.CursorInsideBorder` | Embarcatech_U4_C8.c:162-168 | the 8x8 cursor square lies wholly inside the 128x64 canvas of the border call |
| `Firmware.Run` | Embarcatech_U4_C8.c:41-172 | any interleaving of presses and loop passes keeps a consistent state consistent; from the boot-loader state nothing changes |
| `Firmware.ReachableConsistent` | Embarcatech_U4_C8.c:27-29 | from power-up, after any inputs taken as atomic steps, the state is consistent: in particular the LEDs are dark whenever `pwm_leds` is off, whatever the joystick reads |
| `Firmware.PreemptedPassLeavesLedsLit` | Embarcatech_U4_C8.c:149-151 | a loop pass interrupted between its test of `pwm_leds` and its writes by an accepted press of A ends with `pwm_leds` off and both LEDs at 255, an inconsistent state |
| `Firmware.FrameParity` | Embarcatech_U4_C8.c:50-52 | `frame` flips once per accepted joystick-button press: after a run it differs from its start value iff the count is odd |
| `Firmware.PwmLedsParity` | Embarcatech_U4_C8.c:55-56 | `pwm_leds` flips once per accepted press of A |
| `Firmware.UsbBootPersists` | Embarcatech_U4_C8.c:53-54 | once a prefix of a run reaches boot-loader mode, the whole run ends in it |
| `Firmware.BPressIsTerminal` | Embarcatech_U4_C8.c:53-54 | after an accepted press of B, no later input has any effect |
| `Firmware.BorderInvertsAfterPress` | Embarcatech_U4_C8.c:50-52 | after an accepted joystick-button press, the next pass swaps the border call's two boolean arguments |

## Left out

- Hardware set-up and I/O are not modelled: GPIO, ADC and I2C initialisation,
  `adc_select_input`, `printf` and `sleep_ms`. The samples `adc_read` returns
  are inputs of a loop pass. The clock reading is a field of the button event.
- `pwm_setup` and its clock-divider computation are left out. They are float
  arithmetic that only configures a hardware register.
- The SSD1306 library is not part of this model. Only the arguments of
  `ssd1306_fill` and `ssd1306_rect` and the fact that `ssd1306_send_data` is
  called are recorded, not the pixels drawn.
- `reset_usb_boot` is a terminal mode. What the boot loader then does is not
  modelled.
- Interrupt preemption and `volatile` semantics are left out. Each handler
  invocation and each loop pass is one atomic step.
- Firmware.ReachableConsistent: the invariant relies on each loop pass being
  atomic. In the C code an accepted press of A can interrupt a pass after it
  has read `pwm_leds` as on (line 149) and before it writes the levels (lines
  150-151); the pass then writes the `calcular_pwm` levels with `pwm_leds`
  off, and the LEDs stay lit until the next accepted press other than B.
  `Firmware.PreemptedPassLeavesLedsLit` exhibits this interleaving.
- The display library's header is not part of this model. The `Rect` fields
  take `ssd1306_rect`'s arguments after the display to be, in order, top,
  left, width, height, colour and fill; `MainLoop.CursorInsideBorder` relies
  on that order. The clamp bounds 56 = 64 - 8 and 120 = 128 - 8 fit it.
- The handler's `events` argument is not modelled. The handler never reads it.
- The green LED's read-back `gpio_get` is taken to return the level last
  driven on that output pin.
- The cursor targets are computed over exact reals, not single-precision
  floats. This does not change the cursor: a target is a whole number only
  for the samples 0 and 4095, where the float result is exact, and every
  other target lies at least 1/4095 from a whole number
  (`MainLoop.TargetGap`), far more than the float rounding error (below
  2^-17), so `(int)pos_x` and `(int)pos_y` equal the model's truncation.
