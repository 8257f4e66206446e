/**
 * The tone player page: the tolerance tables built by `uncertainty`, the
 * exclusive "pressed"/"clicked" selection of buttons, the key-press guard,
 * the match highlight and the inclusive range check.
 */
module Tone {
  import opened Wrappers

  /** `uncertainty(arr, diff)`: each value v becomes v - diff, v, v + diff; a non-array (None) gives []. */
  function Uncertainty(arr: Option<seq<real>>, diff: real): (r: seq<real>)
    ensures arr.None? ==> r == []
    ensures arr.Some? ==> |r| == 3 * |arr.value|
    ensures arr.Some? ==> forall i :: 0 <= i < |arr.value| ==>
      r[3 * i] == arr.value[i] - diff && r[3 * i + 1] == arr.value[i] && r[3 * i + 2] == arr.value[i] + diff
  {
    if arr.None? then [] else Expand(arr.value, diff)
  }

  /** `arr.map(val => [val - diff, val, val + diff]).flat()` */
  function Expand(xs: seq<real>, diff: real): (r: seq<real>)
    ensures |r| == 3 * |xs|
    ensures forall i :: 0 <= i < |xs| ==>
      r[3 * i] == xs[i] - diff && r[3 * i + 1] == xs[i] && r[3 * i + 2] == xs[i] + diff
  {
    if xs == [] then []
    else
      var last := xs[|xs| - 1];
      var front := Expand(xs[..|xs| - 1], diff);
      assert forall i :: 0 <= i < |xs| - 1 ==> xs[i] == xs[..|xs| - 1][i];
      front + [last - diff, last, last + diff]
  }

  const FreqArray1: seq<real> := [32.0, 34.0, 36.0, 38.0, 41.0, 43.0, 46.0, 49.0, 52.0, 55.0, 58.0, 61.0]
  const FreqArray2: seq<real> := [65.0, 69.0, 73.0, 77.0, 82.0, 87.0, 92.0, 98.0, 104.0, 110.0, 116.0, 123.0]
  const FreqArray3: seq<real> := [130.0, 138.0, 146.0, 155.0, 164.0, 174.0, 185.0, 196.0, 208.0, 220.0, 233.0, 246.0]
  const FreqArray4: seq<real> := [261.0, 277.0, 293.0, 311.0, 329.0, 349.0, 369.0, 392.0, 415.0, 440.0, 466.0, 493.0]
  const FreqArray5: seq<real> := [523.0, 554.0, 587.0, 622.0, 659.0, 698.0, 739.0, 784.0, 830.0, 880.0, 932.0, 987.0]

  /** The five tables and their tolerances, in the order the page concatenates them. */
  const Tables: seq<seq<real>> := [FreqArray1, FreqArray2, FreqArray3, FreqArray4, FreqArray5]
  const Tolerances: seq<real> := [0.5, 1.0, 1.0, 2.0, 2.0]

  /** `differenceFreqArray`: the five expanded tables spread in order, which is `ExpandAll` over the tables. */
  function DifferenceFreqArray(): (r: seq<real>)
    ensures r == ExpandAll(Tables, Tolerances)
  {
    ExpandAllFive(FreqArray1, FreqArray2, FreqArray3, FreqArray4, FreqArray5, 0.5, 1.0, 1.0, 2.0, 2.0);
    Uncertainty(Some(FreqArray1), 0.5) + Uncertainty(Some(FreqArray2), 1.0) + Uncertainty(Some(FreqArray3), 1.0)
      + Uncertainty(Some(FreqArray4), 2.0) + Uncertainty(Some(FreqArray5), 2.0)
  }

  /** `ExpandAll` over five tables is the spread of their five expansions. */
  lemma ExpandAllFive(t1: seq<real>, t2: seq<real>, t3: seq<real>, t4: seq<real>, t5: seq<real>,
                      d1: real, d2: real, d3: real, d4: real, d5: real)
    ensures ExpandAll([t1, t2, t3, t4, t5], [d1, d2, d3, d4, d5]) ==
      Uncertainty(Some(t1), d1) + Uncertainty(Some(t2), d2) + Uncertainty(Some(t3), d3)
      + Uncertainty(Some(t4), d4) + Uncertainty(Some(t5), d5)
  {
    var ts, ds := [t1, t2, t3, t4, t5], [d1, d2, d3, d4, d5];
    var e4 := ExpandAll(ts[4..], ds[4..]);
    var e3 := ExpandAll(ts[3..], ds[3..]);
    var e2 := ExpandAll(ts[2..], ds[2..]);
    var e1 := ExpandAll(ts[1..], ds[1..]);
    assert ExpandAll(ts[5..], ds[5..]) == [];
    assert e4 == Uncertainty(Some(t5), d5) + [];
    assert e3 == Uncertainty(Some(t4), d4) + e4;
    assert e2 == Uncertainty(Some(t3), d3) + e3;
    assert e1 == Uncertainty(Some(t2), d2) + e2;
    assert ExpandAll(ts, ds) == Uncertainty(Some(t1), d1) + e1;
    Spread5(Uncertainty(Some(t1), d1), Uncertainty(Some(t2), d2), Uncertainty(Some(t3), d3),
            Uncertainty(Some(t4), d4), Uncertainty(Some(t5), d5));
  }

  /** Concatenation regrouped from the right to the left. */
  lemma Spread5(u1: seq<real>, u2: seq<real>, u3: seq<real>, u4: seq<real>, u5: seq<real>)
    ensures u1 + (u2 + (u3 + (u4 + (u5 + [])))) == u1 + u2 + u3 + u4 + u5
  {
    assert u5 + [] == u5;
  }

  /** Each table expanded with its own tolerance, concatenated in order. */
  function ExpandAll(tables: seq<seq<real>>, tolerances: seq<real>): seq<real>
    requires |tables| == |tolerances|
  {
    if tables == [] then []
    else Uncertainty(Some(tables[0]), tolerances[0]) + ExpandAll(tables[1..], tolerances[1..])
  }

  lemma {:induction false} ExpandAllLayout(tables: seq<seq<real>>, tolerances: seq<real>, t: nat, i: nat)
    requires |tables| == |tolerances|
    requires forall k :: 0 <= k < |tables| ==> |tables[k]| == 12
    requires t < |tables| && i < 12
    ensures |ExpandAll(tables, tolerances)| == 36 * |tables|
    ensures ExpandAll(tables, tolerances)[36 * t + 3 * i] == tables[t][i] - tolerances[t]
    ensures ExpandAll(tables, tolerances)[36 * t + 3 * i + 1] == tables[t][i]
    ensures ExpandAll(tables, tolerances)[36 * t + 3 * i + 2] == tables[t][i] + tolerances[t]
  {
    assert forall k :: 0 <= k < |tables| - 1 ==> tables[1..][k] == tables[k + 1];
    if t == 0 {
      if |tables| > 1 {
        ExpandAllLayout(tables[1..], tolerances[1..], 0, 0);
      }
    } else {
      ExpandAllLayout(tables[1..], tolerances[1..], t - 1, i);
    }
  }

  /**
   * `differenceFreqArray` holds 180 values: for table t and entry i,
   * positions 36t + 3i, 36t + 3i + 1, 36t + 3i + 2 hold the entry minus, at
   * and plus the table's tolerance.
   */
  lemma DifferenceFreqArrayLayout(t: nat, i: nat)
    requires t < 5 && i < 12
    ensures |DifferenceFreqArray()| == 180
    ensures DifferenceFreqArray()[36 * t + 3 * i] == Tables[t][i] - Tolerances[t]
    ensures DifferenceFreqArray()[36 * t + 3 * i + 1] == Tables[t][i]
    ensures DifferenceFreqArray()[36 * t + 3 * i + 2] == Tables[t][i] + Tolerances[t]
  {
    ExpandAllLayout(Tables, Tolerances, t, i);
  }

  /**
   * A row of buttons sharing one marker class ("pressed" for the octave
   * list, "clicked" for the keys); `marked[j]` says whether button j has it.
   */
  class ButtonRow {
    const marked: array<bool>

    constructor (n: nat)
      ensures fresh(marked) && marked.Length == n
      ensures forall j :: 0 <= j < n ==> !marked[j]
    {
      marked := new bool[n](_ => false);
    }

    /** The click handler of button k: removes the class from every button, then adds it to k. */
    method Click(k: nat)
      requires k < marked.Length
      modifies marked
      ensures forall j :: 0 <= j < marked.Length ==> marked[j] == (j == k)
    {
      var j := 0;
      while j < marked.Length
        invariant 0 <= j <= marked.Length
        invariant forall m :: 0 <= m < j ==> !marked[m]
      {
        marked[j] := false;
        j := j + 1;
      }
      marked[k] := true;
    }
  }

  /** The page's `.key` elements, by `data-key`, and the audio elements present. */
  class Keyboard {
    const notes: map<int, string>   // data-key -> data-note of each .key
    const audios: set<int>          // data-key of each audio element
    var playing: set<int>           // keys carrying the "playing" class
    var nowPlaying: string          // text of .nowplaying
    var played: seq<int>            // audio elements rewound and played, in order

    constructor (notes: map<int, string>, audios: set<int>)
      ensures this.notes == notes && this.audios == audios
      ensures playing == {} && nowPlaying == "" && played == []
    {
      this.notes, this.audios := notes, audios;
      playing, nowPlaying, played := {}, "", [];
    }

    /**
     * `playNote` on a keydown: without a matching key nothing changes; with
     * one, the key lights up and shows its note, and its audio plays when the
     * page has one (a missing audio element throws after the first two steps).
     */
    method PlayNote(keyCode: int)
      modifies this`playing, this`nowPlaying, this`played
      ensures keyCode !in notes ==> playing == old(playing) && nowPlaying == old(nowPlaying) && played == old(played)
      ensures keyCode in notes ==> playing == old(playing) + {keyCode} && nowPlaying == notes[keyCode]
      ensures keyCode in notes ==> played == old(played) + (if keyCode in audios then [keyCode] else [])
    {
      if keyCode !in notes {
        return;
      }
      playing := playing + {keyCode};
      nowPlaying := notes[keyCode];
      if keyCode !in audios {
        return;
      }
      played := played + [keyCode];
    }

    /** `removeTransition` on a key's transition end. */
    method RemoveTransition(keyCode: int)
      modifies this`playing
      ensures playing == old(playing) - {keyCode}
    {
      playing := playing - {keyCode};
    }
  }

  /** `window.currentlyPlayingNote`; an octave of None is `NaN`. */
  datatype PlayingNote = PlayingNote(name: string, octave: Option<int>)

  /** A detected note; a name of None is `undefined`. */
  datatype DetectedNote = DetectedNote(name: Option<string>, octave: int)

  datatype Background = Highlighted | Defaults

  /** `invertBackground(detected)`: highlight when the detected note is the one being played. */
  function InvertBackground(current: Option<PlayingNote>, detected: Option<DetectedNote>): (b: Background)
    ensures b == Highlighted <==>
      current.Some? && detected.Some?
      && detected.value.name == Some(current.value.name)
      && current.value.octave == Some(detected.value.octave)
    ensures current.None? || detected.None? ==> b == Defaults
  {
    match (current, detected)
    case (Some(PlayingNote(name, octave)), Some(DetectedNote(dName, dOctave))) =>
      if dName == Some(name) && octave == Some(dOctave) then Highlighted else Defaults
    case _ => Defaults
  }

  /** `isFrequencyInRange(lower, upper)` on the parsed display text; None is `NaN`. */
  function IsFrequencyInRange(value: Option<int>, lower: int, upper: int): (r: bool)
    ensures r <==> value.Some? && lower <= value.value <= upper
  {
    match value
    case None => false
    case Some(v) => v >= lower && v <= upper
  }
}
