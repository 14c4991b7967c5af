/**
 * The scale constants of main/app_priv.h and the two remapping macros the
 * light setters use. Every operand is non-negative, so Dafny's division
 * coincides with C's truncating integer division here.
 */
module Remap {

  /* Device-side maxima. */
  const STANDARD_BRIGHTNESS := 100
  const STANDARD_HUE := 360
  const STANDARD_SATURATION := 100
  const STANDARD_TEMPERATURE_FACTOR := 1000000

  /* Matter-side maxima. */
  const MATTER_BRIGHTNESS := 254
  const MATTER_HUE := 254
  const MATTER_SATURATION := 254

  /* Defaults used when the light endpoint is created. */
  const DEFAULT_POWER := true
  const DEFAULT_BRIGHTNESS := 64

  /**
   * `REMAP_TO_RANGE(value, from, to)`: multiply, then divide. The result is the
   * largest device value whose image on the Matter scale does not exceed `value`.
   */
  function RemapToRange(value: nat, from: nat, to: nat): (r: nat)
    requires from > 0
    ensures r * from <= value * to < (r + 1) * from
  {
    value * to / from
  }

  /**
   * `REMAP_TO_RANGE_INVERSE(value, factor)`: `factor / value`, with no zero guard,
   * so a zero divisor is excluded here.
   */
  function RemapToRangeInverse(value: nat, factor: nat): (r: nat)
    requires value != 0
    ensures r * value <= factor < (r + 1) * value
  {
    factor / value
  }

  /** Remapping never decreases when its input grows. */
  lemma RemapMonotone(a: nat, b: nat, from: nat, to: nat)
    requires from > 0 && a <= b
    ensures RemapToRange(a, from, to) <= RemapToRange(b, from, to)
  {
    var ra, rb := RemapToRange(a, from, to), RemapToRange(b, from, to);
    MulMonotone(a, b, to);
    MulMonotone(rb + 1, ra, from);
  }

  /** A value inside the Matter range lands inside the device range. */
  lemma RemapBounded(value: nat, from: nat, to: nat)
    requires from > 0
    ensures value <= from ==> RemapToRange(value, from, to) <= to
  {
    var r := RemapToRange(value, from, to);
    MulMonotone(value, from, to);
    MulMonotone(to + 1, r, from);
    assert from * to == to * from;
  }

  /** Both ends of the Matter range map to both ends of the device range. */
  lemma RemapEndpoints(from: nat, to: nat)
    requires from > 0
    ensures RemapToRange(0, from, to) == 0
    ensures RemapToRange(from, from, to) == to
  {
    var r := RemapToRange(from, from, to);
    assert from * to == to * from;
    MulMonotone(r + 1, to, from);
    MulMonotone(to + 1, r, from);
  }

  /** The inverse remap never increases when its divisor grows. */
  lemma InverseAntitone(a: nat, b: nat, factor: nat)
    requires 0 < a <= b
    ensures RemapToRangeInverse(b, factor) <= RemapToRangeInverse(a, factor)
  {
    var ra, rb := RemapToRangeInverse(a, factor), RemapToRangeInverse(b, factor);
    MulMonotone(ra + 1, rb, a);
    MulMonotone(a, b, rb);
    assert a * rb == rb * a && b * rb == rb * b;
  }

  /** Helper: multiplication by a natural number is monotone. */
  lemma MulMonotone(a: nat, b: nat, k: nat)
    ensures a <= b ==> a * k <= b * k
  {
  }

  // ---- the three uses in the light setters ----

  /** CurrentLevel 0..254 becomes a brightness 0..100, monotonically, with 0 and 254 fixed to the ends. */
  lemma BrightnessScale(level: nat, other: nat)
    requires level <= other <= MATTER_BRIGHTNESS
    ensures RemapToRange(level, MATTER_BRIGHTNESS, STANDARD_BRIGHTNESS) <= STANDARD_BRIGHTNESS
    ensures RemapToRange(level, MATTER_BRIGHTNESS, STANDARD_BRIGHTNESS)
         <= RemapToRange(other, MATTER_BRIGHTNESS, STANDARD_BRIGHTNESS)
    ensures RemapToRange(0, MATTER_BRIGHTNESS, STANDARD_BRIGHTNESS) == 0
    ensures RemapToRange(MATTER_BRIGHTNESS, MATTER_BRIGHTNESS, STANDARD_BRIGHTNESS) == STANDARD_BRIGHTNESS
  {
    RemapBounded(level, MATTER_BRIGHTNESS, STANDARD_BRIGHTNESS);
    RemapMonotone(level, other, MATTER_BRIGHTNESS, STANDARD_BRIGHTNESS);
    RemapEndpoints(MATTER_BRIGHTNESS, STANDARD_BRIGHTNESS);
  }

  /** CurrentHue 0..254 becomes a hue 0..360, monotonically, with 0 and 254 fixed to the ends. */
  lemma HueScale(hue: nat, other: nat)
    requires hue <= other <= MATTER_HUE
    ensures RemapToRange(hue, MATTER_HUE, STANDARD_HUE) <= STANDARD_HUE
    ensures RemapToRange(hue, MATTER_HUE, STANDARD_HUE) <= RemapToRange(other, MATTER_HUE, STANDARD_HUE)
    ensures RemapToRange(0, MATTER_HUE, STANDARD_HUE) == 0
    ensures RemapToRange(MATTER_HUE, MATTER_HUE, STANDARD_HUE) == STANDARD_HUE
  {
    RemapBounded(hue, MATTER_HUE, STANDARD_HUE);
    RemapMonotone(hue, other, MATTER_HUE, STANDARD_HUE);
    RemapEndpoints(MATTER_HUE, STANDARD_HUE);
  }

  /**
   * A byte stays within the hue range exactly when it is a valid Matter hue:
   * the one byte above MATTER_HUE, 255, maps to 361.
   */
  lemma HueInRangeIff(hue: nat)
    requires hue < 0x100
    ensures RemapToRange(hue, MATTER_HUE, STANDARD_HUE) <= STANDARD_HUE <==> hue <= MATTER_HUE
  {
    if hue <= MATTER_HUE {
      RemapBounded(hue, MATTER_HUE, STANDARD_HUE);
    } else {
      assert hue == 255;
      assert RemapToRange(255, MATTER_HUE, STANDARD_HUE) == 361;
    }
  }

  /**
   * Saturation is remapped with the hue constants, not with MATTER_SATURATION
   * and STANDARD_SATURATION: full saturation 254 becomes 360, beyond the
   * device's saturation maximum of 100, and results stay within 0..360.
   */
  lemma SaturationUsesHueScale(saturation: nat)
    requires saturation <= MATTER_SATURATION
    ensures RemapToRange(saturation, MATTER_HUE, STANDARD_HUE) <= STANDARD_HUE
    ensures RemapToRange(MATTER_SATURATION, MATTER_HUE, STANDARD_HUE) == 360 > STANDARD_SATURATION
    ensures RemapToRange(MATTER_SATURATION, MATTER_SATURATION, STANDARD_SATURATION) == STANDARD_SATURATION
  {
    RemapBounded(saturation, MATTER_HUE, STANDARD_HUE);
    RemapEndpoints(MATTER_HUE, STANDARD_HUE);
    RemapEndpoints(MATTER_SATURATION, STANDARD_SATURATION);
  }

  /**
   * ColorTemperatureMireds 1..65535 becomes 15..1000000; 1 and 1000000 map to
   * each other, and larger mireds give a smaller device value.
   */
  lemma TemperatureScale(mireds: nat, other: nat)
    requires 0 < mireds <= other < 0x1_0000
    ensures 15 <= RemapToRangeInverse(mireds, STANDARD_TEMPERATURE_FACTOR) <= STANDARD_TEMPERATURE_FACTOR
    ensures RemapToRangeInverse(other, STANDARD_TEMPERATURE_FACTOR)
         <= RemapToRangeInverse(mireds, STANDARD_TEMPERATURE_FACTOR)
    ensures RemapToRangeInverse(1, STANDARD_TEMPERATURE_FACTOR) == STANDARD_TEMPERATURE_FACTOR
    ensures RemapToRangeInverse(STANDARD_TEMPERATURE_FACTOR, STANDARD_TEMPERATURE_FACTOR) == 1
  {
    InverseAntitone(mireds, other, STANDARD_TEMPERATURE_FACTOR);
    InverseAntitone(1, mireds, STANDARD_TEMPERATURE_FACTOR);
    InverseAntitone(mireds, 0xFFFF, STANDARD_TEMPERATURE_FACTOR);
    assert RemapToRangeInverse(0xFFFF, STANDARD_TEMPERATURE_FACTOR) == 15;
  }
}
