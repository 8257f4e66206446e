/**
 * The integer side of the chromatic tuner: its defaults, the decomposition of
 * a MIDI note number into a name and an octave as JavaScript computes it, the
 * sensitivity gate on audio frames, and the single reusable oscillator.
 */
module Tuner {
  import opened Wrappers

  const DefaultA4: int := 440
  /** MIDI number of A4. */
  const Semitone: int := 69
  const DefaultSensitivity: int := 50

  const NoteStrings: seq<string> := ["C", "C♯", "D", "D♯", "E", "F", "F♯", "G", "G♯", "A", "A♯", "B"]

  /** JavaScript `note % 12`: the remainder takes the sign of the dividend. */
  function JsRem12(note: int): (r: int)
    ensures note >= 0 ==> r == note % 12
    ensures -12 < r < 12
    ensures note < 0 ==> r <= 0
  {
    if note >= 0 then note % 12 else -((-note) % 12)
  }

  /** `parseInt(note / 12)`: the quotient truncated toward zero. */
  function JsTruncDiv12(note: int): (q: int)
    ensures note >= 0 ==> q == note / 12
    ensures 12 * q + JsRem12(note) == note
  {
    var m := if note >= 0 then note else -note;
    assert 12 * (m / 12) + m % 12 == m;
    if note >= 0 then m / 12 else -(m / 12)
  }

  /** `noteStrings[note % 12]`; None where JavaScript reads `undefined` (a negative index). */
  function NoteName(note: int): (r: Option<string>)
    ensures r.Some? <==> JsRem12(note) >= 0
    ensures r.Some? ==> r.value == NoteStrings[JsRem12(note)]
  {
    var i := JsRem12(note);
    if 0 <= i then Some(NoteStrings[i]) else None
  }

  /** `parseInt(note / 12) - 1` */
  function Octave(note: int): (r: int)
    ensures 12 * (r + 1) + JsRem12(note) == note
    ensures note >= 0 ==> r == note / 12 - 1
  {
    JsTruncDiv12(note) - 1
  }

  /** For a non-negative note, name index and octave recompose the note. */
  lemma NoteDecomposes(note: int)
    requires note >= 0
    ensures NoteName(note) == Some(NoteStrings[note % 12])
    ensures 12 * (Octave(note) + 1) + note % 12 == note
    ensures 0 <= note % 12 < |NoteStrings|
  {
  }

  /** Below note 0 only multiples of 12 have a name: elsewhere the index is negative and reads `undefined`. */
  lemma NegativeNoteHasNoName(note: int)
    requires note < 0
    ensures NoteName(note).Some? <==> note % 12 == 0
    ensures note % 12 == 0 ==> NoteName(note) == Some("C") && 12 * (Octave(note) + 1) == note
  {
  }

  /** Note 69 is A in octave 4, the tuner's reference pitch. */
  lemma SemitoneIsA4()
    ensures |NoteStrings| == 12 && NoteStrings[9] == "A"
    ensures NoteName(Semitone) == Some("A") && Octave(Semitone) == 4
  {
  }

  /** What `onNoteDetected` receives; cents come from floating-point logarithms and are left out. */
  datatype NoteEvent = NoteEvent(name: Option<string>, value: int, octave: int, frequency: real)

  /**
   * One audio frame: `loudEnough` is the RMS threshold test, `frequency` the
   * pitch detector's answer (0 when none), `note` the note `getNote` derives
   * from it. The result is the event passed to the callback, if any.
   */
  function OnAudioFrame(sensitivity: int, loudEnough: bool, frequency: real, note: int, hasCallback: bool): (r: Option<NoteEvent>)
    ensures sensitivity == 0 ==> r == None
    ensures r.Some? <==> sensitivity != 0 && loudEnough && frequency != 0.0 && hasCallback
    ensures r.Some? ==>
      r.value.value == note && r.value.frequency == frequency && r.value.name == NoteName(note) && r.value.octave == Octave(note)
  {
    if sensitivity == 0 then None
    else if !loudEnough then None
    else if frequency != 0.0 && hasCallback then Some(NoteEvent(NoteName(note), note, Octave(note), frequency))
    else None
  }

  /** The audio oscillator `play` creates and `stopOscillator` stops. */
  class Oscillator {
    var frequency: real
    var started: bool
    var stopped: bool

    constructor ()
      ensures !started && !stopped
    {
      frequency, started, stopped := 0.0, false, false;
    }

    method Start()
      modifies this
      ensures started && stopped == old(stopped) && frequency == old(frequency)
    {
      started := true;
    }

    method Stop()
      modifies this
      ensures stopped && started == old(started) && frequency == old(frequency)
    {
      stopped := true;
    }
  }

  class Tuner {
    const middleA: int
    const semitone: int
    const noteStrings: seq<string>
    var sensitivity: int
    var oscillator: Oscillator?

    /** An oscillator held by the tuner is running. */
    ghost predicate Valid()
      reads this, oscillator
    {
      oscillator != null ==> oscillator.started && !oscillator.stopped
    }

    /** `new Tuner(a4)`: `a4` is None when undefined or NaN; 0 is falsy too. */
    constructor (a4: Option<int>)
      ensures Valid()
      ensures middleA == (if a4.None? || a4.value == 0 then DefaultA4 else a4.value)
      ensures semitone == Semitone && noteStrings == NoteStrings
      ensures sensitivity == DefaultSensitivity && oscillator == null
    {
      middleA := if a4.None? || a4.value == 0 then DefaultA4 else a4.value;
      semitone := Semitone;
      noteStrings := NoteStrings;
      sensitivity := DefaultSensitivity;
      oscillator := null;
    }

    /** `play(frequency)`: creates and starts the oscillator once, then only retunes it. */
    method Play(frequency: real)
      requires Valid()
      modifies this`oscillator, oscillator
      ensures Valid() && oscillator != null
      ensures old(oscillator) != null ==> oscillator == old(oscillator)
      ensures old(oscillator) == null ==> fresh(oscillator)
      ensures oscillator.frequency == frequency
    {
      if oscillator == null {
        var o := new Oscillator();
        o.Start();
        oscillator := o;
      }
      oscillator.frequency := frequency;
    }

    /** `stopOscillator`: stops and drops the oscillator if there is one. */
    method StopOscillator()
      requires Valid()
      modifies this`oscillator, oscillator
      ensures Valid() && oscillator == null
      ensures old(oscillator) != null ==> old(oscillator).stopped && old(oscillator).frequency == old(oscillator.frequency)
    {
      if oscillator != null {
        oscillator.Stop();
        oscillator := null;
      }
    }

    /** `setSensitivity(value)` */
    method SetSensitivity(value: int)
      modifies this`sensitivity
      ensures sensitivity == value
    {
      sensitivity := value;
    }
  }

  /** After a stop, the next `play` starts a fresh oscillator. */
  method StopThenPlay(t: Tuner, f: real) returns (o: Oscillator)
    requires t.Valid()
    modifies t, t.oscillator
    ensures fresh(o) && o == t.oscillator && o.started && !o.stopped && o.frequency == f
  {
    t.StopOscillator();
    t.Play(f);
    o := t.oscillator;
  }
}
