# Barometric altimeter screen — Dafny model

This project models the one screen of a small Android altimeter app
(`MainActivity`). The screen shows the pressure, an altitude derived from it,
and a status label, and it tints the background by altitude. On a device
with a pressure sensor the readings come from the sensor ("live" mode).
Without one, a synthetic generator drifts the pressure downward once a
second ("simulated" mode).

The model has three modules:

- `SyntheticPressure` (`synthetic_pressure.dfy`): one tick of the generator,
  as pure functions over fixed-point hundredths of a hectopascal. The start
  1013.25 hPa is 101325, the drift 0.8 hPa is 80 and the reset threshold
  980 hPa is 98000. The lemmas prove the range invariant, the closed form
  `101325 − 80·(n mod 42)` after n ticks, and that 42 is the least period.
- `Background` (`background.dfy`): the colour mapping. The altitude is a
  `real`. It is clamped to [0, 4000] and scaled to a truncated `drop` in
  [0, 140]. The colour is (0xBB − drop, 0xDC − drop, 0xFE − 2·drop), with
  each channel floored at 0. The lemmas prove saturation at both ends, the
  channel bounds, where blue is floored, and monotonicity in altitude.
- `Activity` (`main_activity.dfy`): the class `MainActivity`. Its fields are:
  - the fixed sensor-present flag;
  - the number of `simulatePressure` callbacks queued in the handler;
  - the listener-registered flag;
  - the status label;
  - `fakePressure`;
  - what is on screen.

  Its methods are the lifecycle callbacks, the sensor callback, the
  generator callback and `updateReadings`. `Valid()` is the scheduling
  invariant.

The model makes one scheduling behaviour of the code explicit. In simulated
mode, `onCreate` posts the generator (MainActivity.kt:59) and `onResume`
posts it again (MainActivity.kt:68). So from the first resume until the
first pause, two self-reposting chains are queued, and the generator ticks
twice per period. `onPause` removes every
queued copy. After that, each resume queues exactly one. The sensor-present
flag is decided once per session, and the status label always shows the
mode chosen at creation.

The barometric formula `pressureToAltitude` is not part of this model. The
class receives it as a constructor parameter `altitudeOf: real -> real`.

The colour's `drop` is computed with `toInt()` (MainActivity.kt:108), which
truncates toward zero. On the non-negative scaled value that is the floor,
not rounding, and the model uses `.Floor`.

## Model

| member | source | states |
|---|---|---|
| `SyntheticPressure.Tick` | app/src/main/java/com/example/a6q1/MainActivity.kt:34-37 | a tick never yields a value below 980 hPa, keeps an in-range value in [980, 1013.25], and either lowers the value or resets it to sea level |
| `SyntheticPressure.IterateInRange` | app/src/main/java/com/example/a6q1/MainActivity.kt:29-37 | from any value in [980, 1013.25], any number of ticks stays in that range |
| `SyntheticPressure.IterateFromSeaLevel` | app/src/main/java/com/example/a6q1/MainActivity.kt:27-37 | started at p0, the value after n ticks is p0 − 0.8·(n mod 42); the reset check runs after the decrement in the same tick |
| `SyntheticPressure.ResetOnFortySecondTick` | app/src/main/java/com/example/a6q1/MainActivity.kt:34-37 | 41 ticks from p0 give 980.45 and the 42nd tick lands on p0 |
| `SyntheticPressure.IteratePeriodic` | app/src/main/java/com/example/a6q1/MainActivity.kt:31-39 | the sequence from p0 repeats with period 42 |
| `SyntheticPressure.LeastPeriod` | app/src/main/java/com/example/a6q1/MainActivity.kt:34-37 | no tick count from 1 to 41 returns to p0, so 42 is the least period |
| `SyntheticPressure.FromSeaLevelBounds` | app/src/main/java/com/example/a6q1/MainActivity.kt:27-37 | started at p0, the value always stays in [980.45, 1013.25] |
| `Background.Clamp` | app/src/main/java/com/example/a6q1/MainActivity.kt:103 | the clamped altitude lies in [0, 4000] |
| `Background.ClampNearest` | app/src/main/java/com/example/a6q1/MainActivity.kt:103 | the clamped altitude is the point of [0, 4000] nearest the input, and it equals the input exactly when the input is in [0, 4000] |
| `Background.Drop` | app/src/main/java/com/example/a6q1/MainActivity.kt:103-108 | drop is in [0, 140] and is the largest integer d with d·4000 ≤ clamped·140, which is truncation of clamped/4000·140 |
| `Background.AtLeastZero` | app/src/main/java/com/example/a6q1/MainActivity.kt:110-112 | the floored channel is the value itself when non-negative and 0 otherwise |
| `Background.Colour` | app/src/main/java/com/example/a6q1/MainActivity.kt:101-113 | every channel is in [0, 255]; red ≥ 47 and green ≥ 80 |
| `Background.DropThreshold` | app/src/main/java/com/example/a6q1/MainActivity.kt:104-108 | drop ≥ k exactly when clamped·140 ≥ k·4000 |
| `Background.ColourSaturatesHigh` | app/src/main/java/com/example/a6q1/MainActivity.kt:103-113 | any altitude ≥ 4000 gives drop 140 and exactly the colour for 4000, namely (47, 80, 0) |
| `Background.ColourAtOrBelowSeaLevel` | app/src/main/java/com/example/a6q1/MainActivity.kt:103-113 | any altitude ≤ 0, negative ones included, gives drop 0 and the base colour (0xBB, 0xDC, 0xFE) |
| `Background.RedGreenNeverFloored` | app/src/main/java/com/example/a6q1/MainActivity.kt:105-111 | red and green are always base − drop, never the floor |
| `Background.BlueFloor` | app/src/main/java/com/example/a6q1/MainActivity.kt:107-112 | blue is 0xFE − 2·drop exactly when drop ≤ 127, so the floor applies exactly when drop > 127; blue is 0 exactly when drop ≥ 127 |
| `Background.ColourMonotone` | app/src/main/java/com/example/a6q1/MainActivity.kt:103-113 | a higher altitude gives a drop at least as large and no channel lighter |
| `Activity.FirstValue` | app/src/main/java/com/example/a6q1/MainActivity.kt:78 | a reading exists exactly when the event has a non-empty value array, and it is the first value |
| `Activity.MainActivity.constructor` | app/src/main/java/com/example/a6q1/MainActivity.kt:27-29 | a new activity has no queued callbacks, no listener, the layout's status text, and `fakePressure` at p0 |
| `Activity.MainActivity.OnCreate` | app/src/main/java/com/example/a6q1/MainActivity.kt:43-61 | the status becomes the live label with a sensor and the fake label without one; in simulated mode one generator callback is queued |
| `Activity.MainActivity.OnResume` | app/src/main/java/com/example/a6q1/MainActivity.kt:63-69 | with a sensor the listener is registered; without one another callback is queued, giving 2 after `onCreate` and 1 after a pause |
| `Activity.MainActivity.OnPause` | app/src/main/java/com/example/a6q1/MainActivity.kt:71-75 | afterwards no callback is queued and no listener is registered, whatever came before |
| `Activity.MainActivity.UpdateReadings` | app/src/main/java/com/example/a6q1/MainActivity.kt:86-94 | the display shows the pressure, its altitude and that altitude's colour; the status becomes the fake label when `live` is false and is unchanged when it is true |
| `Activity.MainActivity.OnSensorChanged` | app/src/main/java/com/example/a6q1/MainActivity.kt:77-80 | delivered only to a registered listener, hence only while resumed on a device with a sensor; an event with no value changes nothing; otherwise the first value is shown as a live reading and the live label is kept |
| `Activity.MainActivity.RunSimulatePressure` | app/src/main/java/com/example/a6q1/MainActivity.kt:31-41 | the generator ticks and stays in range, the simulated reading is shown with the fake label, and the callback consumes itself and reposts, so the queued count is unchanged |
| `Activity.SimulatedSession` | app/src/main/java/com/example/a6q1/MainActivity.kt:55-75 | without a sensor, the queued count is 2 after create and resume, still 2 after a tick, 0 after pause, and 1 after the next resume |
| `Activity.LiveSession` | app/src/main/java/com/example/a6q1/MainActivity.kt:55-80 | with a sensor, nothing is ever queued, the listener is registered while resumed and removed on pause, and a live reading keeps the live label |

## Left out

- `pressureToAltitude`: floating-point `pow` with exponent 1/5.255 cannot be modelled exactly. The class takes it as the opaque parameter `altitudeOf`.
- Floating point throughout. `fakePressure -= 0.8f` is modelled in exact hundredths of a hPa. The colour scaling `clamped / 4000.0 * 140` is modelled in exact reals, so float rounding at integer boundaries of `drop` is not captured.
- NaN altitudes are not modelled, because `real` has no NaN. A negative pressure makes the formula's `pow` return NaN. `coerceIn` then passes it through, and `toInt()` turns it into a drop of 0.
- Lifecycle order: `OnCreate` requires the constructed phase and `OnResume` requires the created or paused phase, as the framework guarantees. `OnPause` requires only that `onCreate` has run, since `sensorManager` is initialised there.
- `OnSensorChanged` requires a registered listener, because the sensor manager delivers events only to a registered listener; so no sensor event arrives after `onPause` until the next `onResume`.
- `RunSimulatePressure` requires a queued callback, because the handler runs the callback only when one is queued.
- The handler's timing (the 1000 ms delay) is not modelled; the queue is a count of pending callbacks.
- `SensorManager` is reduced to the sensor-present flag and the listener-registered flag. The sampling rate hint is dropped.
- `TextView` text and the `getString` format templates are not modelled. The display holds the numeric pressure and altitude, and the status is a three-valued label.
- `Color.rgb` ARGB packing is not modelled; the colour is an integer triple.
- `setContentView` and `findViewById` are plain view wiring with no logic, so they are not modelled.
- `onAccuracyChanged` has an empty body, so it is not modelled.
