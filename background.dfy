/**
  The background tint derived from the displayed altitude: the altitude is
  clamped to [0, 4000] metres, scaled to a darkening amount `drop` in
  [0, 140] (truncated, not rounded), and subtracted from a light sky colour,
  twice as fast on the blue channel, each channel floored at 0.
 */
module Background {

  const MaxAltitude: real := 4000.0
  /** The largest darkening amount, reached at MaxAltitude. */
  const MaxDrop: int := 140

  const BaseRed: int := 0xBB
  const BaseGreen: int := 0xDC
  const BaseBlue: int := 0xFE

  /** An RGB colour as three integer channels (packing into ARGB is not modelled). */
  datatype Rgb = Rgb(red: int, green: int, blue: int)

  predicate InGamut(c: Rgb) {
    0 <= c.red <= 255 && 0 <= c.green <= 255 && 0 <= c.blue <= 255
  }

  function Dist(x: real, y: real): real {
    if x < y then y - x else x - y
  }

  /** `coerceIn(0.0, 4000.0)`. */
  function Clamp(altitude: real): (c: real)
    ensures 0.0 <= c <= MaxAltitude
  {
    if altitude < 0.0 then 0.0
    else if altitude > MaxAltitude then MaxAltitude
    else altitude
  }

  /** The clamped altitude is the point of [0, 4000] nearest the altitude. */
  lemma ClampNearest(altitude: real, x: real)
    requires 0.0 <= x <= MaxAltitude
    ensures Dist(Clamp(altitude), altitude) <= Dist(x, altitude)
    ensures Clamp(altitude) == altitude <==> 0.0 <= altitude <= MaxAltitude
  {
  }

  /** `(clamped / 4000 * 140).toInt()`: the scaled value is never negative,
      so truncation toward zero is the floor. */
  function Drop(altitude: real): (d: int)
    ensures 0 <= d <= MaxDrop
    ensures d as real * MaxAltitude <= Clamp(altitude) * MaxDrop as real
    ensures Clamp(altitude) * MaxDrop as real < (d + 1) as real * MaxAltitude
  {
    (Clamp(altitude) / MaxAltitude * MaxDrop as real).Floor
  }

  /** `coerceAtLeast(0)`: the least non-negative value not below x. */
  function AtLeastZero(x: int): (r: int)
    ensures 0 <= r && x <= r
    ensures r == x || r == 0
  {
    if x < 0 then 0 else x
  }

  /** The background colour for an altitude. */
  function Colour(altitude: real): (c: Rgb)
    ensures InGamut(c)
    ensures c.red >= BaseRed - MaxDrop && c.green >= BaseGreen - MaxDrop
  {
    var drop := Drop(altitude);
    Rgb(AtLeastZero(BaseRed - drop), AtLeastZero(BaseGreen - drop), AtLeastZero(BaseBlue - drop * 2))
  }

  /** Drop reaches k exactly from the altitude where the scaled value reaches k. */
  lemma DropThreshold(altitude: real, k: int)
    ensures Drop(altitude) >= k <==> Clamp(altitude) * MaxDrop as real >= k as real * MaxAltitude
  {
  }

  /** Altitudes at or above 4000 m all give the 4000 m colour, (47, 80, 0). */
  lemma ColourSaturatesHigh(altitude: real)
    requires altitude >= MaxAltitude
    ensures Drop(altitude) == MaxDrop
    ensures Colour(altitude) == Colour(MaxAltitude) == Rgb(47, 80, 0)
  {
  }

  /** Altitudes at or below sea level (negative ones included) give the base colour. */
  lemma ColourAtOrBelowSeaLevel(altitude: real)
    requires altitude <= 0.0
    ensures Drop(altitude) == 0
    ensures Colour(altitude) == Rgb(BaseRed, BaseGreen, BaseBlue)
  {
  }

  /** Red and green never reach the floor: they are the base minus drop. */
  lemma RedGreenNeverFloored(altitude: real)
    ensures Colour(altitude).red == BaseRed - Drop(altitude) >= 47
    ensures Colour(altitude).green == BaseGreen - Drop(altitude) >= 80
  {
  }

  /** Blue is floored exactly when drop exceeds 127, and is 0 exactly when drop is at least 127. */
  lemma BlueFloor(altitude: real)
    ensures Colour(altitude).blue == BaseBlue - 2 * Drop(altitude) <==> Drop(altitude) <= 127
    ensures Colour(altitude).blue == 0 <==> Drop(altitude) >= 127
  {
  }

  /** A higher altitude never gives a lighter channel. */
  lemma ColourMonotone(lower: real, higher: real)
    requires lower <= higher
    ensures Drop(lower) <= Drop(higher)
    ensures Colour(higher).red <= Colour(lower).red
    ensures Colour(higher).green <= Colour(lower).green
    ensures Colour(higher).blue <= Colour(lower).blue
  {
  }
}
