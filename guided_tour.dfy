/**
 * The guided tour's step machine and its outline bookkeeping. Elements are
 * identified by number; `styles` holds the inline ring styles the tour has
 * written (an element absent from it keeps its authored style).
 */
module GuidedTour {
  import opened Wrappers

  type Elem = nat

  datatype Shape = Circle | Rect

  /** The inline style the tour leaves on an element: reset to '' or a ring. */
  datatype Decoration = Cleared | Ringed(shape: Shape)

  /**
   * A resolved step target: its classes and id, the `.key` children it holds,
   * and the `li.pressed` found inside it and in the whole document.
   */
  datatype Target = Target(
    el: Elem,
    hasKeysClass: bool,
    keyChildren: seq<Elem>,
    isNumbersKeys: bool,
    pressedInside: Option<Elem>,
    pressedInDocument: Option<Elem>,
    isCenter: bool)

  /** The storage flag value `end` writes. */
  const DoneFlag: string := "1"

  /** `next`: from index i (null read as -1) to i + 1 while a step remains, else null. */
  function NextIndex(index: Option<int>, stepCount: nat): (r: Option<int>)
    ensures r.Some? <==> index.GetOr(-1) + 1 < stepCount
    ensures r.Some? ==> r.value == index.GetOr(-1) + 1
  {
    var n := index.GetOr(-1) + 1;
    if n < stepCount then Some(n) else None
  }

  /** `localStorage.getItem(key)` is truthy: present and non-empty. */
  predicate FlagSet(storage: map<string, string>, key: string) {
    key in storage && storage[key] != ""
  }

  /** The auto-start effect starts the tour. */
  predicate ShouldAutoStart(mounted: bool, autoStart: bool, onlyOnce: bool, storage: map<string, string>, key: string)
    ensures !onlyOnce ==> (ShouldAutoStart(mounted, autoStart, onlyOnce, storage, key) <==> mounted && autoStart)
    ensures onlyOnce && key in storage && storage[key] == DoneFlag ==> !ShouldAutoStart(mounted, autoStart, onlyOnce, storage, key)
    ensures onlyOnce && key !in storage ==> (ShouldAutoStart(mounted, autoStart, onlyOnce, storage, key) <==> mounted && autoStart)
  {
    mounted && autoStart && !(onlyOnce && FlagSet(storage, key))
  }

  /** The elements `place` rings for a target, and their shape. */
  function Rings(t: Target): (r: (seq<Elem>, Shape))
    ensures t.hasKeysClass ==> r.0 == t.keyChildren
    ensures !t.hasKeysClass ==> |r.0| == 1
    ensures !t.hasKeysClass && t.isNumbersKeys && t.pressedInside.Some? ==> r.0 == [t.pressedInside.value]
    ensures !t.hasKeysClass && t.isNumbersKeys && t.pressedInside.None? && t.pressedInDocument.Some? ==>
      r.0 == [t.pressedInDocument.value]
    ensures !t.hasKeysClass && !(t.isNumbersKeys && (t.pressedInside.Some? || t.pressedInDocument.Some?)) ==>
      r.0 == [t.el]
    ensures r.1 == Circle <==>
      t.hasKeysClass
      || (t.isNumbersKeys && (t.pressedInside.Some? || t.pressedInDocument.Some?))
      || (!t.isNumbersKeys && t.isCenter)
  {
    if t.hasKeysClass then (t.keyChildren, Circle)
    else if t.isNumbersKeys then
      (if t.pressedInside.Some? then ([t.pressedInside.value], Circle)
       else if t.pressedInDocument.Some? then ([t.pressedInDocument.value], Circle)
       else ([t.el], Rect))
    else if t.isCenter then ([t.el], Circle)
    else ([t.el], Rect)
  }

  /** `styles` after resetting each element of `els` in turn. */
  function ClearedAll(styles: map<Elem, Decoration>, els: seq<Elem>): map<Elem, Decoration> {
    if els == [] then styles
    else ClearedAll(styles, els[..|els| - 1])[els[|els| - 1] := Cleared]
  }

  /** `styles` after ringing each element of `els` in turn with `shape`. */
  function RingedAll(styles: map<Elem, Decoration>, els: seq<Elem>, shape: Shape): map<Elem, Decoration> {
    if els == [] then styles
    else RingedAll(styles, els[..|els| - 1], shape)[els[|els| - 1] := Ringed(shape)]
  }

  lemma {:induction false} ClearedAllAt(styles: map<Elem, Decoration>, els: seq<Elem>, e: Elem)
    ensures e in ClearedAll(styles, els) <==> e in styles || e in els
    ensures e in els ==> ClearedAll(styles, els)[e] == Cleared
    ensures e !in els && e in styles ==> ClearedAll(styles, els)[e] == styles[e]
  {
    if els != [] {
      ClearedAllAt(styles, els[..|els| - 1], e);
      assert els == els[..|els| - 1] + [els[|els| - 1]];
    }
  }

  lemma {:induction false} RingedAllAt(styles: map<Elem, Decoration>, els: seq<Elem>, shape: Shape, e: Elem)
    ensures e in RingedAll(styles, els, shape) <==> e in styles || e in els
    ensures e in els ==> RingedAll(styles, els, shape)[e] == Ringed(shape)
    ensures e !in els && e in styles ==> RingedAll(styles, els, shape)[e] == styles[e]
  {
    if els != [] {
      RingedAllAt(styles, els[..|els| - 1], shape, e);
      assert els == els[..|els| - 1] + [els[|els| - 1]];
    }
  }

  /** Resetting every ringed element leaves no ring. */
  lemma ClearedAllUnrings(styles: map<Elem, Decoration>, els: seq<Elem>)
    requires forall e :: e in styles && styles[e].Ringed? ==> e in els
    ensures forall e :: e in ClearedAll(styles, els) ==> !ClearedAll(styles, els)[e].Ringed?
  {
    forall e | e in ClearedAll(styles, els)
      ensures !ClearedAll(styles, els)[e].Ringed?
    {
      ClearedAllAt(styles, els, e);
    }
  }

  /** Reset of every outlined element then ringing of `els`: the ringed elements are exactly `els`. */
  lemma HighlightExactly(styles: map<Elem, Decoration>, outlined: seq<Elem>, els: seq<Elem>, shape: Shape)
    requires forall e :: e in styles && styles[e].Ringed? ==> e in outlined
    ensures forall e :: e in RingedAll(ClearedAll(styles, outlined), els, shape) ==>
      (RingedAll(ClearedAll(styles, outlined), els, shape)[e].Ringed? <==> e in els)
  {
    forall e | e in RingedAll(ClearedAll(styles, outlined), els, shape)
      ensures RingedAll(ClearedAll(styles, outlined), els, shape)[e].Ringed? <==> e in els
    {
      ClearedAllAt(styles, outlined, e);
      RingedAllAt(ClearedAll(styles, outlined), els, shape, e);
    }
  }

  class Tour {
    const stepCount: nat
    const storageKey: string
    const autoStart: bool
    const onlyOnce: bool
    const highlight: bool
    var index: Option<int>
    var mounted: bool
    var storage: map<string, string>    // localStorage
    var outlined: seq<Elem>
    var styles: map<Elem, Decoration>

    /**
     * The index is null or a step index (when there are steps), and
     * `outlined` lists exactly the elements that carry a ring.
     */
    ghost predicate Valid()
      reads this
    {
      (index.Some? ==> 0 <= index.value && (stepCount > 0 ==> index.value < stepCount)) &&
      (forall e :: e in styles ==> (styles[e].Ringed? <==> e in outlined)) &&
      (forall i :: 0 <= i < |outlined| ==> outlined[i] in styles)
    }

    constructor (stepCount: nat, storageKey: string, autoStart: bool, onlyOnce: bool, highlight: bool, storage: map<string, string>)
      ensures Valid()
      ensures this.stepCount == stepCount && this.storageKey == storageKey
      ensures this.autoStart == autoStart && this.onlyOnce == onlyOnce && this.highlight == highlight
      ensures index == None && !mounted && this.storage == storage && outlined == [] && styles == map[]
    {
      this.stepCount, this.storageKey := stepCount, storageKey;
      this.autoStart, this.onlyOnce, this.highlight := autoStart, onlyOnce, highlight;
      index, mounted, this.storage, outlined, styles := None, false, storage, [], map[];
    }

    /** The mount effect. */
    method Mount()
      requires Valid()
      modifies this`mounted
      ensures Valid() && mounted
    {
      mounted := true;
    }

    /** `start` */
    method Start()
      requires Valid()
      modifies this`index
      ensures Valid() && index == Some(0)
    {
      index := Some(0);
    }

    /** Resets the inline styles of every outlined element and empties the list. */
    method ClearOutlines()
      requires Valid()
      modifies this`styles, this`outlined
      ensures Valid()
      ensures outlined == [] && styles == ClearedAll(old(styles), old(outlined))
      ensures forall e :: e in styles ==> !styles[e].Ringed?
    {
      var i := 0;
      while i < |outlined|
        invariant 0 <= i <= |outlined| && outlined == old(outlined)
        invariant styles == ClearedAll(old(styles), outlined[..i])
      {
        ghost var prefix := outlined[..i + 1];
        assert prefix[..|prefix| - 1] == outlined[..i] && prefix[|prefix| - 1] == outlined[i];
        styles := styles[outlined[i] := Cleared];
        i := i + 1;
      }
      assert outlined[..i] == outlined;
      ClearedAllUnrings(old(styles), outlined);
      outlined := [];
    }

    /** `end`: closes the tour, records it in storage and clears every ring. */
    method End()
      requires Valid()
      modifies this`index, this`storage, this`styles, this`outlined
      ensures Valid()
      ensures index == None && storage == old(storage)[storageKey := DoneFlag]
      ensures outlined == [] && styles == ClearedAll(old(styles), old(outlined))
    {
      index := None;
      storage := storage[storageKey := DoneFlag];
      ClearOutlines();
    }

    /** `next` */
    method Next()
      requires Valid()
      modifies this`index, this`storage, this`styles, this`outlined
      ensures Valid()
      ensures index == NextIndex(old(index), stepCount)
      ensures index.Some? ==> storage == old(storage) && styles == old(styles) && outlined == old(outlined)
      ensures index.None? ==>
        storage == old(storage)[storageKey := DoneFlag] && outlined == [] && styles == ClearedAll(old(styles), old(outlined))
    {
      var n := index.GetOr(-1) + 1;
      if n < stepCount {
        index := Some(n);
      } else {
        End();
      }
    }

    /** The auto-start effect. */
    method RunAutoStart()
      requires Valid()
      modifies this`index
      ensures Valid()
      ensures index == (if ShouldAutoStart(mounted, autoStart, onlyOnce, storage, storageKey) then Some(0) else old(index))
    {
      if !mounted || !autoStart {
        return;
      }
      if onlyOnce && FlagSet(storage, storageKey) {
        return;
      }
      Start();
    }

    /** Rings each element of `els` with `shape` and appends it to `outlined`. */
    method RingEach(els: seq<Elem>, shape: Shape)
      requires Valid() && outlined == []
      requires forall e :: e in styles ==> !styles[e].Ringed?
      modifies this`styles, this`outlined
      ensures Valid()
      ensures outlined == els && styles == RingedAll(old(styles), els, shape)
    {
      var i := 0;
      while i < |els|
        invariant 0 <= i <= |els|
        invariant outlined == els[..i]
        invariant styles == RingedAll(old(styles), els[..i], shape)
        invariant forall e :: e in styles ==> (styles[e].Ringed? <==> e in outlined)
        invariant forall j :: 0 <= j < |outlined| ==> outlined[j] in styles
      {
        assert els[..i + 1] == els[..i] + [els[i]];
        styles := styles[els[i] := Ringed(shape)];
        outlined := outlined + [els[i]];
        i := i + 1;
      }
      assert els[..i] == els;
    }

    /**
     * `place` for the current step: with no target or no tooltip it advances
     * with `next`; otherwise, when highlighting, it clears the old rings and
     * rings the target's elements.
     */
    method Place(target: Option<Target>, tipPresent: bool)
      requires Valid()
      modifies this`index, this`storage, this`styles, this`outlined
      ensures Valid()
      ensures old(index).None? ==> index == old(index) && storage == old(storage) && styles == old(styles) && outlined == old(outlined)
      ensures old(index).Some? && (target.None? || !tipPresent) ==> index == NextIndex(old(index), stepCount)
      ensures old(index).Some? && (target.None? || !tipPresent) && index.Some? ==>
        storage == old(storage) && styles == old(styles) && outlined == old(outlined)
      ensures old(index).Some? && (target.None? || !tipPresent) && index.None? ==>
        storage == old(storage)[storageKey := DoneFlag] && outlined == [] && styles == ClearedAll(old(styles), old(outlined))
      ensures old(index).Some? && target.Some? && tipPresent ==> index == old(index) && storage == old(storage)
      ensures old(index).Some? && target.Some? && tipPresent && highlight ==>
        outlined == Rings(target.value).0
        && styles == RingedAll(ClearedAll(old(styles), old(outlined)), Rings(target.value).0, Rings(target.value).1)
      ensures old(index).Some? && target.Some? && tipPresent && !highlight ==> styles == old(styles) && outlined == old(outlined)
    {
      if index.None? {
        return;
      }
      if target.None? || !tipPresent {
        Next();
        return;
      }
      if highlight {
        ClearOutlines();
        var rings := Rings(target.value);
        RingEach(rings.0, rings.1);
      }
    }
  }

  /**
   * With `onlyOnce`, a tour that auto-started and was ended is not started
   * again by the next mount, which reads the same storage.
   */
  method ShownOnce() returns (first: Option<int>, second: Option<int>)
    ensures first == Some(0) && second == None
  {
    var tour := new Tour(3, "tour-done", true, true, true, map[]);
    tour.Mount();
    tour.RunAutoStart();
    first := tour.index;
    tour.End();
    var again := new Tour(3, "tour-done", true, true, true, tour.storage);
    again.Mount();
    again.RunAutoStart();
    second := again.index;
  }
}
