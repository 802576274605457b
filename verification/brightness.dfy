/**
 The brightness mapper `calcular_pwm`: a joystick sample is turned into an
 8-bit PWM level that grows with the sample's distance from the centre of the
 12-bit range.

 The C code computes `(uint8_t)((abs(2048 - a) / 2048.0) * 255)` in double
 precision. For a 12-bit sample the quotient has at most 11 significant bits
 and is a multiple of 1/2048, so multiplying it by 255 needs at most 19
 significant bits: both steps are exact, and the real-number value below is
 the value the C program casts.
 */
module Brightness {
  import opened Bits

  /** Centre of the 0..4095 ADC range. */
  const CENTER: int := 2048

  /** Largest level the mapper produces; the PWM wrap value is 255. */
  const MAX_LEVEL: int := 255

  /** What `adc_read` returns: a 12-bit sample. */
  type Adc12 = x: int | 0 <= x < 4096

  function Abs(x: int): nat
  {
    if x < 0 then -x else x
  }

  /** The double value `(abs(2048 - a) / 2048.0) * 255` before the cast. */
  function Scaled(a: int): (r: real)
    ensures 0.0 <= r
    ensures a == CENTER ==> r == 0.0
    ensures 0 <= a <= 2 * CENTER ==> r <= 255.0
  {
    (Abs(CENTER - a) as real / 2048.0) * 255.0
  }

  /** The cast of a non-negative real to an unsigned integer discards the
      fraction: the result is the integer quotient of the exact value. */
  lemma ScaledFloor(n: nat)
    ensures ((n as real / 2048.0) * 255.0).Floor == n * 255 / 2048
  {
  }

  /** `calcular_pwm`: the truncated scaled deviation, which is the integer
      expression `|2048 - a| * 255 / 2048` and never exceeds 255. */
  function CalcPwm(a: Adc12): (r: nat)
    ensures r == Abs(CENTER - a) * MAX_LEVEL / CENTER
    ensures r <= MAX_LEVEL
  {
    ScaledFloor(Abs(CENTER - a));
    Scaled(a).Floor
  }

  /** The C cast to `uint8_t` is defined only when the truncated value fits
      in eight bits. Over the whole `uint16_t` parameter type that happens
      exactly for the samples up to 4104, so the 12-bit ADC range is safe. */
  lemma CastDefinedIff(a: uint16)
    ensures Scaled(a).Floor <= MAX_LEVEL <==> a <= 4104
  {
  }

  /** The values the mapper takes at the centre and at both ends. */
  lemma CalcPwmSamples()
    ensures CalcPwm(2048) == 0
    ensures CalcPwm(0) == 255
    ensures CalcPwm(4095) == 254
  {
  }

  /** The level is zero exactly on the dead zone around the
      centre (seventeen samples), where the deviation times 255 stays below 2048. */
  lemma CalcPwmZeroIff(a: Adc12)
    ensures CalcPwm(a) == 0 <==> 2040 <= a <= 2056
  {
  }

  /** The level depends only on the distance from the centre, and a larger
      distance never gives a smaller level. */
  lemma CalcPwmMonotone(a: Adc12, b: Adc12)
    requires Abs(CENTER - a) <= Abs(CENTER - b)
    ensures CalcPwm(a) <= CalcPwm(b)
  {
  }

  /** Samples the same distance above and below the centre give the same
      level. */
  lemma CalcPwmSymmetric(d: nat)
    requires d <= 2047
    ensures CalcPwm(CENTER + d) == CalcPwm(CENTER - d)
  {
  }
}
