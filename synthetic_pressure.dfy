/**
  The synthetic pressure feed that drives the screen when the device has no
  pressure sensor. Pressures are held in fixed-point hundredths of a
  hectopascal, so the sea-level start 1013.25 hPa is 101325, the per-tick
  drift of 0.8 hPa is 80 and the reset threshold 980 hPa is 98000.
 */
module SyntheticPressure {

  /** Sea-level reference pressure p0, in hundredths of a hPa. */
  const SeaLevel: int := 101325
  /** Amount subtracted on every tick, in hundredths of a hPa. */
  const Drift: int := 80
  /** A value strictly below this after the decrement resets to SeaLevel. */
  const ResetBelow: int := 98000
  /** Number of ticks after which the feed, started at SeaLevel, repeats. */
  const Period: nat := 42

  /** The range the generated pressure always stays in. */
  predicate InRange(v: int) {
    ResetBelow <= v <= SeaLevel
  }

  /** One tick: drift down, then (in the same step) wrap back to sea level
      when the value has fallen below the threshold. */
  function Tick(v: int): (r: int)
    ensures ResetBelow <= r
    ensures InRange(v) ==> InRange(r)
    ensures r < v || r == SeaLevel
  {
    var lowered := v - Drift;
    if lowered < ResetBelow then SeaLevel else lowered
  }

  /** The value after n ticks from v. */
  function Iterate(v: int, n: nat): int
  {
    if n == 0 then v else Tick(Iterate(v, n - 1))
  }

  /** Every tick keeps an in-range value in range, however many ticks run. */
  lemma {:induction false} IterateInRange(v: int, n: nat)
    requires InRange(v)
    ensures InRange(Iterate(v, n))
  {
    if n > 0 {
      IterateInRange(v, n - 1);
    }
  }

  /** Closed form of the feed started at sea level: after n ticks the value is
      sea level minus n mod 42 drifts. */
  lemma {:induction false} IterateFromSeaLevel(n: nat)
    ensures Iterate(SeaLevel, n) == SeaLevel - Drift * (n % Period)
  {
    if n > 0 {
      IterateFromSeaLevel(n - 1);
      var k := (n - 1) % Period;
      if k < Period - 1 {
        assert n % Period == k + 1;
      } else {
        assert n % Period == 0;
      }
    }
  }

  /** 41 ticks from sea level reach 980.45 hPa; the 42nd drops below 980 and
      lands back on sea level in that same tick. */
  lemma ResetOnFortySecondTick()
    ensures Iterate(SeaLevel, Period - 1) == 98045
    ensures Iterate(SeaLevel, Period) == SeaLevel
  {
    IterateFromSeaLevel(Period - 1);
    IterateFromSeaLevel(Period);
  }

  /** The feed started at sea level is periodic with period 42 ... */
  lemma IteratePeriodic(n: nat)
    ensures Iterate(SeaLevel, n + Period) == Iterate(SeaLevel, n)
  {
    IterateFromSeaLevel(n);
    IterateFromSeaLevel(n + Period);
  }

  /** ... and 42 is its least period: no earlier tick returns to sea level. */
  lemma LeastPeriod(n: nat)
    requires 0 < n < Period
    ensures Iterate(SeaLevel, n) != SeaLevel
  {
    IterateFromSeaLevel(n);
  }

  /** Started at sea level, the feed never goes below 980.45 hPa. */
  lemma FromSeaLevelBounds(n: nat)
    ensures 98045 <= Iterate(SeaLevel, n) <= SeaLevel
  {
    IterateFromSeaLevel(n);
  }
}
