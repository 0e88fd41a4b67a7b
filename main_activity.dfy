/**
  The screen controller: its lifecycle callbacks, the sensor callback, the
  self-reposting synthetic-pressure callback and the display update. The
  handler's message queue is modelled only through the number of
  `simulatePressure` callbacks waiting in it.
 */
module Activity {
  import SP = SyntheticPressure
  import BG = Background

  datatype Option<T> = None | Some(value: T)

  /** The lifecycle phase, as the framework drives it. */
  datatype Phase = Constructed | Created | Resumed | Paused

  /** The status label's text: the layout's own text until `onCreate` sets one. */
  datatype Label = LayoutText | StatusLive | StatusFake

  /** What the last update put on screen: the pressure, the altitude derived
      from it, and the background colour (text formatting is not modelled). */
  datatype Display = Display(pressure: real, altitude: real, background: BG.Rgb)

  /** `event?.values?.firstOrNull()`: None stands for a null event or a null
      value array. */
  function FirstValue(values: Option<seq<real>>): (r: Option<real>)
    ensures r.Some? <==> values.Some? && |values.value| > 0
    ensures r.Some? ==> r.value == values.value[0]
  {
    match values
    case None => None
    case Some(vs) => if |vs| == 0 then None else Some(vs[0])
  }

  /** Hundredths of a hPa as the hectopascal value handed to the display. */
  function Hectopascals(hundredths: int): real {
    hundredths as real / 100.0
  }

  class MainActivity {
    /** Whether the device reported a pressure sensor; fixed for the session. */
    const sensorPresent: bool
    /** The barometric formula `pressureToAltitude`, which is not part of this model. */
    const altitudeOf: real -> real

    var phase: Phase
    /** Number of `simulatePressure` callbacks waiting in the handler queue. */
    var pending: nat
    /** Whether this activity is registered as the sensor's listener. */
    var listenerRegistered: bool
    var status: Label
    /** `fakePressure`, in hundredths of a hPa. */
    var fakePressure: int
    /** The readings and colour on screen; None until the first update. */
    var display: Option<Display>

    /** Number of generator ticks run so far. */
    ghost var ticks: nat
    /** Whether `onPause` has run at least once. */
    ghost var pausedOnce: bool

    /** The scheduling invariant: exactly the feed of the chosen mode runs
        while resumed, neither the generator nor the listener is active while
        paused, and in simulated mode the first resume leaves two reposting
        chains until the first pause. */
    ghost predicate Valid()
      reads this
    {
      && fakePressure == SP.Iterate(SP.SeaLevel, ticks)
      && (sensorPresent ==> pending == 0)
      && (!sensorPresent ==> !listenerRegistered)
      && (phase == Constructed ==> pending == 0 && !listenerRegistered && status == LayoutText && !pausedOnce)
      && (phase != Constructed ==> status == (if sensorPresent then StatusLive else StatusFake))
      && (phase == Created ==> !listenerRegistered && !pausedOnce && pending == (if sensorPresent then 0 else 1))
      && (phase == Resumed ==>
            if sensorPresent then listenerRegistered
            else pending == (if pausedOnce then 1 else 2))
      && (phase == Paused ==> pending == 0 && !listenerRegistered && pausedOnce)
    }

    /** The activity instance before `onCreate`: field initialisers only. */
    constructor (sensorPresent: bool, altitudeOf: real -> real)
      ensures Valid()
      ensures this.sensorPresent == sensorPresent && this.altitudeOf == altitudeOf
      ensures phase == Constructed && pending == 0 && !listenerRegistered
      ensures status == LayoutText && fakePressure == SP.SeaLevel && display == None
    {
      this.sensorPresent := sensorPresent;
      this.altitudeOf := altitudeOf;
      phase := Constructed;
      pending := 0;
      listenerRegistered := false;
      status := LayoutText;
      fakePressure := SP.SeaLevel;
      display := None;
      ticks := 0;
      pausedOnce := false;
    }

    /** `onCreate`: set the status label for the mode; in simulated mode post
        the generator once. */
    method OnCreate()
      requires Valid() && phase == Constructed
      modifies this
      ensures Valid() && phase == Created
      ensures status == (if sensorPresent then StatusLive else StatusFake)
      ensures pending == (if sensorPresent then 0 else 1)
      ensures !listenerRegistered
      ensures fakePressure == old(fakePressure) && display == old(display)
      ensures ticks == old(ticks) && pausedOnce == old(pausedOnce)
    {
      phase := Created;
      if sensorPresent {
        status := StatusLive;
      } else {
        status := StatusFake;
        pending := pending + 1;
      }
    }

    /** `onResume`: register the listener when there is a sensor, otherwise
        post the generator once more. */
    method OnResume()
      requires Valid() && (phase == Created || phase == Paused)
      modifies this
      ensures Valid() && phase == Resumed
      ensures sensorPresent ==> listenerRegistered && pending == 0
      ensures !sensorPresent ==> !listenerRegistered && pending == old(pending) + 1
      ensures !sensorPresent ==> pending == (if old(phase) == Created then 2 else 1)
      ensures status == old(status) && fakePressure == old(fakePressure) && display == old(display)
      ensures ticks == old(ticks) && pausedOnce == old(pausedOnce)
    {
      phase := Resumed;
      if sensorPresent {
        listenerRegistered := true;
      } else {
        pending := pending + 1;
      }
    }

    /** `onPause`: unregister the listener and remove every queued generator
        callback, however many there are. */
    method OnPause()
      requires Valid() && phase != Constructed
      modifies this
      ensures Valid() && phase == Paused
      ensures pending == 0 && !listenerRegistered && pausedOnce
      ensures status == old(status) && fakePressure == old(fakePressure) && display == old(display)
      ensures ticks == old(ticks)
    {
      phase := Paused;
      listenerRegistered := false;
      pending := 0;
      pausedOnce := true;
    }

    /** `updateReadings`: overwrite the readings and the background; the
        status label becomes the fake one only for a simulated reading. */
    method UpdateReadings(pressure: real, live: bool)
      modifies this`display, this`status
      ensures display == Some(Display(pressure, altitudeOf(pressure), BG.Colour(altitudeOf(pressure))))
      ensures status == if live then old(status) else StatusFake
    {
      var altitude := altitudeOf(pressure);
      display := Some(Display(pressure, altitude, BG.Colour(altitude)));
      if !live {
        status := StatusFake;
      }
    }

    /** `onSensorChanged`: a live reading updates the screen; an event with
        no value changes nothing. The sensor manager delivers events only to
        a registered listener, so none arrives while paused or in simulated mode. */
    method OnSensorChanged(values: Option<seq<real>>)
      requires Valid() && listenerRegistered
      modifies this
      ensures Valid()
      ensures sensorPresent && phase == Resumed && status == StatusLive
      ensures FirstValue(values).None? ==> display == old(display)
      ensures FirstValue(values).Some? ==> display == Some(Display(FirstValue(values).value,
        altitudeOf(FirstValue(values).value), BG.Colour(altitudeOf(FirstValue(values).value))))
      ensures status == old(status) && phase == old(phase) && pending == old(pending)
      ensures listenerRegistered == old(listenerRegistered) && fakePressure == old(fakePressure)
      ensures ticks == old(ticks) && pausedOnce == old(pausedOnce)
    {
      var first := FirstValue(values);
      if first.None? {
        return;
      }
      UpdateReadings(first.value, true);
    }

    /** The handler runs one queued `simulatePressure`: the generator ticks,
        the screen shows the simulated reading, and the callback reposts
        itself, so the queue holds as many generator callbacks as before. */
    method RunSimulatePressure()
      requires Valid() && pending > 0
      modifies this
      ensures Valid()
      ensures fakePressure == SP.Tick(old(fakePressure)) && ticks == old(ticks) + 1
      ensures SP.InRange(fakePressure)
      ensures pending == old(pending)
      ensures display == Some(Display(Hectopascals(fakePressure), altitudeOf(Hectopascals(fakePressure)),
        BG.Colour(altitudeOf(Hectopascals(fakePressure)))))
      ensures status == StatusFake
      ensures phase == old(phase) && listenerRegistered == old(listenerRegistered) && pausedOnce == old(pausedOnce)
    {
      pending := pending - 1;
      fakePressure := fakePressure - SP.Drift;
      if fakePressure < SP.ResetBelow {
        fakePressure := SP.SeaLevel;
      }
      ticks := ticks + 1;
      SP.IterateInRange(SP.SeaLevel, ticks);
      UpdateReadings(Hectopascals(fakePressure), false);
      pending := pending + 1;
    }
  }

  /** A session on a device without a sensor: create, resume, tick, pause,
      resume. Returns the queued generator callbacks after the first resume,
      after a tick, after the pause and after the second resume. */
  method SimulatedSession(altitudeOf: real -> real)
    returns (firstResume: nat, afterTick: nat, paused: nat, secondResume: nat)
    ensures firstResume == 2 && afterTick == 2 && paused == 0 && secondResume == 1
  {
    var a := new MainActivity(false, altitudeOf);
    a.OnCreate();
    a.OnResume();
    firstResume := a.pending;
    a.RunSimulatePressure();
    afterTick := a.pending;
    a.OnPause();
    paused := a.pending;
    a.OnResume();
    secondResume := a.pending;
  }

  /** A session on a device with a sensor: no generator callback is ever
      queued, and the listener is registered exactly while resumed. */
  method LiveSession(altitudeOf: real -> real, reading: real)
    returns (resumedPending: nat, resumedListening: bool, status: Label, pausedListening: bool)
    ensures resumedPending == 0 && resumedListening && status == StatusLive && !pausedListening
  {
    var a := new MainActivity(true, altitudeOf);
    a.OnCreate();
    a.OnResume();
    a.OnSensorChanged(Some([reading]));
    resumedPending, resumedListening, status := a.pending, a.listenerRegistered, a.status;
    a.OnPause();
    pausedListening := a.listenerRegistered;
  }
}
