/**
 One pass of the firmware's main loop after the two ADC samples are read:
 the joystick position becomes a cursor position clamped to the display's
 interior, the red and blue LEDs follow the joystick when joystick control
 is enabled, and the frame is drawn as a fixed sequence of display-library
 calls whose arguments depend on the border flag and the cursor.
 */
module MainLoop {
  import opened Device
  import opened Brightness

  /** The loop's drawing colour `cor`, set once and never changed. */
  const COR: bool := true

  /** The canvas the border rectangle covers, 128 wide and 64 high. */
  const CANVAS_WIDTH: int := 128
  const CANVAS_HEIGHT: int := 64

  /** Side of the square cursor. */
  const CURSOR_SIDE: int := 8

  /** Largest cursor coordinates: the canvas sides minus the cursor side. */
  const MAX_POS_X: real := 56.0
  const MAX_POS_Y: real := 120.0

  /** A call into the display library, by the arguments the loop passes.
      `Rect` lists `ssd1306_rect`'s arguments in order after the display; the
      field names assume the library's order top, left, width, height. */
  datatype Cmd =
    | Fill(value: bool)
    | Rect(top: int, left: int, width: int, height: int, value: bool, fill: bool)
    | Send

  /** The cursor position handed to the display library. */
  datatype Cursor = Cursor(px: int, py: int)

  /** What one loop pass leaves behind: the next state and the display calls. */
  datatype Pass = Pass(next: State, draw: seq<Cmd>)

  /** `target_x`: the X sample scaled to 64..0, reversed. */
  function TargetX(x: Adc12): (r: real)
    ensures 0.0 <= r <= 64.0
    ensures x == 0 ==> r == 64.0
    ensures x == 4095 ==> r == 0.0
  {
    64.0 - (x as real / 4095.0) * 64.0
  }

  /** `target_y`: the Y sample scaled to 0..128. */
  function TargetY(y: Adc12): (r: real)
    ensures 0.0 <= r <= 128.0
    ensures y == 0 ==> r == 0.0
    ensures y == 4095 ==> r == 128.0
  {
    (y as real / 4095.0) * 128.0
  }

  /** The two clamping tests of the loop, applied in order. */
  function Clamp(v: real, hi: real): (r: real)
    requires 0.0 <= hi
    ensures 0.0 <= r <= hi
    ensures 0.0 <= v <= hi ==> r == v
    ensures v < 0.0 ==> r == 0.0
    ensures hi < v ==> r == hi
  {
    var p := if v < 0.0 then 0.0 else v;
    if p > hi then hi else p
  }

  /** C's conversion of a floating value to `int`, which drops the fraction,
      rounding toward zero. */
  function TruncToInt(v: real): (r: int)
    ensures 0.0 <= v ==> 0 <= r && r as real <= v < r as real + 1.0
    ensures v < 0.0 ==> r <= 0 && r as real - 1.0 < v <= r as real
  {
    if v < 0.0 then -((-v).Floor) else v.Floor
  }

  /** The cursor position passed to the display: the clamped targets with
      their fractions dropped. It always lies in [0, 56] x [0, 120], and it is
      the unclamped target whenever that target is already in range. */
  function CursorPos(x: Adc12, y: Adc12): (c: Cursor)
    ensures 0 <= c.px <= 56 && 0 <= c.py <= 120
    ensures 0.0 <= TargetX(x) <= MAX_POS_X ==> c.px == TargetX(x).Floor
    ensures 0.0 <= TargetY(y) <= MAX_POS_Y ==> c.py == TargetY(y).Floor
    ensures MAX_POS_X < TargetX(x) ==> c.px == 56
    ensures MAX_POS_Y < TargetY(y) ==> c.py == 120
  {
    Cursor(TruncToInt(Clamp(TargetX(x), MAX_POS_X)), TruncToInt(Clamp(TargetY(y), MAX_POS_Y)))
  }

  /** The sample pairs of the corner cases: full left-up puts the cursor at
      (56, 0), full right-down at (0, 120). */
  lemma CursorCorners()
    ensures CursorPos(0, 0) == Cursor(56, 0)
    ensures CursorPos(4095, 4095) == Cursor(0, 120)
  {
  }

  /** Moving the stick along X never moves the cursor's first coordinate the
      same way, and moving it along Y never moves the second one back. */
  lemma CursorMonotone(x1: Adc12, x2: Adc12, y1: Adc12, y2: Adc12)
    requires x1 <= x2 && y1 <= y2
    ensures CursorPos(x2, y1).px <= CursorPos(x1, y1).px
    ensures CursorPos(x1, y1).py <= CursorPos(x1, y2).py
  {
  }

  /** Both targets are multiples of 1/4095. Apart from the samples 0 and
      4095, where they are whole, each lies at least 1/4095 away from the
      nearest whole number, so a rounding error smaller than that cannot
      change its truncation. */
  lemma TargetGap(x: Adc12, y: Adc12)
    ensures x == 0 || x == 4095 || FarFromWhole(TargetX(x))
    ensures y == 0 || y == 4095 || FarFromWhole(TargetY(y))
  {
    if x != 0 && x != 4095 {
      TargetXGap(x);
    }
    if y != 0 && y != 4095 {
      TargetYGap(y);
    }
  }

  lemma TargetXGap(x: Adc12)
    requires x != 0 && x != 4095
    ensures FarFromWhole(TargetX(x))
  {
    var n := 64 * (4095 - x);
    assert TargetX(x) == n as real / 4095.0;
    GapOfMultiple(n);
  }

  lemma TargetYGap(y: Adc12)
    requires y != 0 && y != 4095
    ensures FarFromWhole(TargetY(y))
  {
    var n := 128 * y;
    assert TargetY(y) == n as real / 4095.0;
    GapOfMultiple(n);
  }

  /** `v` is at least 1/4095 from both whole numbers around it. */
  predicate FarFromWhole(v: real)
  {
    v.Floor as real + 1.0 / 4095.0 <= v <= v.Floor as real + 1.0 - 1.0 / 4095.0
  }

  lemma GapOfMultiple(n: nat)
    requires n % 4095 != 0
    ensures FarFromWhole(n as real / 4095.0)
  {
    var q, rem := n / 4095, n % 4095;
    assert n == 4095 * q + rem;
    assert n as real / 4095.0 == q as real + rem as real / 4095.0;
    assert (n as real / 4095.0).Floor == q;
  }

  /** Lines 149-158: with joystick control enabled the red LED gets Y's level
      and the blue LED X's level, written in this order, and then red is
      zeroed when X is exactly centred and blue when Y is. The last write to
      each LED wins; with control disabled nothing is written. */
  function LedUpdate(s: State, x: Adc12, y: Adc12): (r: State)
    ensures !s.pwmLeds ==> r == s
    ensures s.pwmLeds ==>
      && r.red == (if x == CENTER then 0 else CalcPwm(y))
      && r.blue == (if y == CENTER then 0 else CalcPwm(x))
    ensures r == s.(red := r.red, blue := r.blue)
    ensures Consistent(s) ==> Consistent(r)
  {
    if !s.pwmLeds then s else WriteLevels(s, x, y)
  }

  /** The writes of lines 150-157 alone, once the test of line 149 has
      passed: they do not look at `pwm_leds` again. */
  function WriteLevels(s: State, x: Adc12, y: Adc12): (r: State)
    ensures r.red == (if x == CENTER then 0 else CalcPwm(y))
    ensures r.blue == (if y == CENTER then 0 else CalcPwm(x))
    ensures r == s.(red := r.red, blue := r.blue)
  {
    var s1 := s.(red := CalcPwm(y));
    var s2 := s1.(blue := CalcPwm(x));
    var s3 := if x == CENTER then s2.(red := 0) else s2;
    if y == CENTER then s3.(blue := 0) else s3
  }

  /** With control enabled, the red LED is dark exactly when X is centred or
      Y lies in the mapper's dead zone, and the blue LED exactly when Y is
      centred or X lies in it: each LED's override is tied to the other axis. */
  lemma LedDarkIff(s: State, x: Adc12, y: Adc12)
    requires s.pwmLeds
    ensures LedUpdate(s, x, y).red == 0 <==> x == CENTER || 2040 <= y <= 2056
    ensures LedUpdate(s, x, y).blue == 0 <==> y == CENTER || 2040 <= x <= 2056
  {
  }

  /** A concrete case of the cross-wired override: with X centred and Y fully
      deflected, the red LED is driven by Y yet stays dark. */
  lemma RedOverriddenByX(s: State)
    requires s.pwmLeds
    ensures LedUpdate(s, CENTER, 0).red == 0
    ensures LedUpdate(s, CENTER, 0).blue == 0
    ensures LedUpdate(s, 0, CENTER).red == 0
    ensures LedUpdate(s, 0, CENTER).blue == 0
  {
  }

  /** The border rectangle over the whole canvas: colour `cor` unfilled when
      the border flag is set, colour `!cor` filled otherwise. */
  function BorderRect(frame: bool): (r: Cmd)
    ensures r.Rect? && r.top == 0 && r.left == 0
    ensures r.width == CANVAS_WIDTH && r.height == CANVAS_HEIGHT
    ensures r.value == frame && r.fill == !frame
  {
    if frame then Rect(0, 0, CANVAS_WIDTH, CANVAS_HEIGHT, COR, !COR)
    else Rect(0, 0, CANVAS_WIDTH, CANVAS_HEIGHT, !COR, COR)
  }

  /** Exchanges the two boolean arguments of a rectangle call. */
  function SwapColours(c: Cmd): Cmd
  {
    if c.Rect? then c.(value := c.fill, fill := c.value) else c
  }

  /** The border's two boolean arguments always differ, and flipping the
      border flag exchanges them while the geometry stays the whole canvas. */
  lemma BorderToggleSwaps(frame: bool)
    ensures BorderRect(frame).value != BorderRect(frame).fill
    ensures BorderRect(!frame) == SwapColours(BorderRect(frame))
  {
  }

  /** The frame drawn in one pass: background, border, cursor, transfer. */
  function Render(frame: bool, c: Cursor): (r: seq<Cmd>)
    ensures |r| == 4 && r[0].Fill? && r[3] == Send
    ensures r[1] == BorderRect(frame)
    ensures r[2] == Rect(c.px, c.py, CURSOR_SIDE, CURSOR_SIDE, COR, COR)
    // the cursor is drawn in the colour opposite the background
    ensures r[0].value != r[2].value
  {
    [Fill(!COR), BorderRect(frame), Rect(c.px, c.py, CURSOR_SIDE, CURSOR_SIDE, COR, COR), Send]
  }

  /** One pass of the main loop on samples `x` and `y`. Once the boot loader
      has taken over the loop no longer runs. The loop only ever writes the
      LED levels; the flags, the timestamp and the mode are the handler's. */
  function Iterate(s: State, x: Adc12, y: Adc12): (r: Pass)
    ensures s.mode == UsbBoot ==> r.next == s && r.draw == []
    ensures s.mode == Running ==> r.next == LedUpdate(s, x, y)
    ensures r.next == s.(red := r.next.red, blue := r.next.blue)
    ensures s.mode == Running ==> |r.draw| == 4 && r.draw[0] == Fill(false) && r.draw[3] == Send
    ensures s.mode == Running ==> r.draw[1] == BorderRect(s.frame)
    ensures s.mode == Running ==>
      r.draw[2] == Rect(CursorPos(x, y).px, CursorPos(x, y).py, CURSOR_SIDE, CURSOR_SIDE, COR, COR)
    ensures Consistent(s) ==> Consistent(r.next)
  {
    if s.mode == UsbBoot then Pass(s, [])
    else Pass(LedUpdate(s, x, y), Render(s.frame, CursorPos(x, y)))
  }

  /** The cursor square drawn in a pass lies wholly inside the canvas the
      border rectangle of the same pass covers. */
  lemma CursorInsideBorder(s: State, x: Adc12, y: Adc12)
    requires s.mode == Running
    ensures var d := Iterate(s, x, y).draw;
      && d[1].Rect? && d[2].Rect?
      && d[2].width == d[2].height == CURSOR_SIDE
      && d[1].top <= d[2].top && d[2].top + d[2].height <= d[1].top + d[1].height
      && d[1].left <= d[2].left && d[2].left + d[2].width <= d[1].left + d[1].width
  {
  }
}
