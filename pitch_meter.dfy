/**
 * The pitch meter: a needle across a -50..+50 cent scale, with an "in tune"
 * mark and a colour for the needle.
 */
module PitchMeter {
  import opened Numerics

  datatype Colour = Green | Amber | Red

  /** `Math.max(-50, Math.min(50, cents))`. */
  function ClampedCents(cents: real): real
  {
    MaxReal(-50.0, MinReal(50.0, cents))
  }

  /** `((clampedCents + 50) / 100) * 100`: the needle's position as a percentage of the width. */
  function NeedlePercent(cents: real): real
  {
    (ClampedCents(cents) + 50.0) / 100.0 * 100.0
  }

  /** `Math.abs(cents) < 10`, on the unclamped value. */
  predicate InTune(cents: real)
  {
    AbsReal(cents) < 10.0
  }

  function NeedleColour(cents: real): Colour
  {
    if InTune(cents) then Green else if AbsReal(cents) < 25.0 then Amber else Red
  }

  /**
   * The clamped value lies in [-50, 50] and is the value itself inside that
   * range; the needle lies in [0, 100], is at 50 for 0 cents, and never
   * moves left as the cents rise.
   */
  lemma NeedleSpec(cents: real, other: real)
    ensures -50.0 <= ClampedCents(cents) <= 50.0
    ensures -50.0 <= cents <= 50.0 ==> ClampedCents(cents) == cents
    ensures 0.0 <= NeedlePercent(cents) <= 100.0
    ensures NeedlePercent(0.0) == 50.0
    ensures cents <= other ==> NeedlePercent(cents) <= NeedlePercent(other)
  {
  }

  /**
   * Green exactly when in tune (under 10 cents either way), amber from 10 to
   * under 25, red from 25 on; the bands are symmetric in sign.
   */
  lemma ColourBands(cents: real)
    ensures NeedleColour(cents) == Green <==> -10.0 < cents < 10.0
    ensures NeedleColour(cents) == Amber <==> 10.0 <= AbsReal(cents) < 25.0
    ensures NeedleColour(cents) == Red <==> AbsReal(cents) >= 25.0
    ensures NeedleColour(-cents) == NeedleColour(cents)
  {
  }
}
