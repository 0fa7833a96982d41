/** The per-attribute reverse indexes of the analyser.

    For one attribute (a MIDI pitch, a pitch name, an interval, a duration,
    a chord class, a chord name) the analyser keeps a dictionary from each
    value to the positions of the events having it, and stores in each
    event's fingerprint the pair `[value, ordinal]`, the ordinal being the
    event's place in that value's list.  The two must describe each other. */
module ReverseIndexes {
  import opened Dicts
  import opened Fingerprints

  /** Every listed position points back at a fingerprint whose slot holds the key and the ordinal. */
  ghost predicate IndexSound<K(!new)>(d: Dict<K, seq<nat>>, fps: seq<Fingerprint>, sel: Fingerprint -> Slot<K>) {
    forall k, o :: k in d.items && 0 <= o < |d.items[k]| ==>
      d.items[k][o] < |fps| && sel(fps[d.items[k][o]]) == Slot(k, o)
  }

  /** Every list is in event order. */
  ghost predicate IndexOrdered<K(!new)>(d: Dict<K, seq<nat>>) {
    forall k, a, b :: k in d.items && 0 <= a < b < |d.items[k]| ==> d.items[k][a] < d.items[k][b]
  }

  /** Every set slot is found in the dictionary at its key and ordinal. */
  ghost predicate IndexComplete<K(!new)>(d: Dict<K, seq<nat>>, fps: seq<Fingerprint>, sel: Fingerprint -> Slot<K>) {
    forall i :: 0 <= i < |fps| && sel(fps[i]).ordinal >= 0 ==>
      && sel(fps[i]).key in d.items
      && sel(fps[i]).ordinal < |d.items[sel(fps[i]).key]|
      && d.items[sel(fps[i]).key][sel(fps[i]).ordinal] == i
  }

  /** `d[k][o] == i` exactly when the slot `sel` of event `i`'s fingerprint holds `[k, o]`
      (a slot with a negative ordinal is unset), and every list is in event order. */
  ghost predicate Indexes<K(!new)>(d: Dict<K, seq<nat>>, fps: seq<Fingerprint>, sel: Fingerprint -> Slot<K>) {
    d.Valid() && IndexSound(d, fps, sel) && IndexOrdered(d) && IndexComplete(d, fps, sel)
  }

  /** Before any event, a dictionary whose lists are all empty indexes nothing. */
  lemma IndexesStart<K(!new)>(d: Dict<K, seq<nat>>, sel: Fingerprint -> Slot<K>)
    requires d.Valid() && forall k :: k in d.items ==> d.items[k] == []
    ensures Indexes(d, [], sel)
  {
  }

  /** Appending the next event to the list of its value, with the list's old length as its ordinal, keeps the index. */
  lemma IndexesAppend<K(!new)>(d: Dict<K, seq<nat>>, fps: seq<Fingerprint>, sel: Fingerprint -> Slot<K>, f: Fingerprint, k: K)
    requires Indexes(d, fps, sel)
    requires sel(f) == Slot(k, |d.Get(k, [])|)
    ensures Indexes(AppendTo(d, k, |fps|), fps + [f], sel)
  {
    AppendToSpec(d, k, |fps|);
    AppendKeepsSound(d, fps, sel, f, k);
    AppendKeepsOrder(d, fps, sel, k);
    AppendKeepsComplete(d, fps, sel, f, k);
  }

  lemma AppendKeepsSound<K(!new)>(d: Dict<K, seq<nat>>, fps: seq<Fingerprint>, sel: Fingerprint -> Slot<K>, f: Fingerprint, k: K)
    requires IndexSound(d, fps, sel)
    requires sel(f) == Slot(k, |d.Get(k, [])|)
    ensures IndexSound(AppendTo(d, k, |fps|), fps + [f], sel)
  {
    var d' := AppendTo(d, k, |fps|);
    var fps' := fps + [f];
    AppendToSpec(d, k, |fps|);
    forall k', o | k' in d'.items && 0 <= o < |d'.items[k']|
      ensures d'.items[k'][o] < |fps'| && sel(fps'[d'.items[k'][o]]) == Slot(k', o)
    {
      if k' != k || o < |d.Get(k, [])| {
        assert d'.items[k'][o] == d.items[k'][o];
      }
    }
  }

  lemma AppendKeepsOrder<K(!new)>(d: Dict<K, seq<nat>>, fps: seq<Fingerprint>, sel: Fingerprint -> Slot<K>, k: K)
    requires IndexSound(d, fps, sel) && IndexOrdered(d)
    ensures IndexOrdered(AppendTo(d, k, |fps|))
  {
    var d' := AppendTo(d, k, |fps|);
    AppendToSpec(d, k, |fps|);
    forall k', a, b | k' in d'.items && 0 <= a < b < |d'.items[k']| ensures d'.items[k'][a] < d'.items[k'][b] {
      if k' == k && b == |d.Get(k, [])| {
        assert d'.items[k'][a] == d.items[k'][a];
      }
    }
  }

  lemma AppendKeepsComplete<K(!new)>(d: Dict<K, seq<nat>>, fps: seq<Fingerprint>, sel: Fingerprint -> Slot<K>, f: Fingerprint, k: K)
    requires IndexComplete(d, fps, sel)
    requires sel(f) == Slot(k, |d.Get(k, [])|)
    ensures IndexComplete(AppendTo(d, k, |fps|), fps + [f], sel)
  {
    var d' := AppendTo(d, k, |fps|);
    var fps' := fps + [f];
    AppendToSpec(d, k, |fps|);
    forall i | 0 <= i < |fps'| && sel(fps'[i]).ordinal >= 0
      ensures sel(fps'[i]).key in d'.items && sel(fps'[i]).ordinal < |d'.items[sel(fps'[i]).key]|
      ensures d'.items[sel(fps'[i]).key][sel(fps'[i]).ordinal] == i
    {
      if i < |fps| {
        assert fps'[i] == fps[i];
      }
    }
  }

  /** An event whose slot stays unset leaves the index as it is. */
  lemma IndexesSkip<K(!new)>(d: Dict<K, seq<nat>>, fps: seq<Fingerprint>, sel: Fingerprint -> Slot<K>, f: Fingerprint)
    requires Indexes(d, fps, sel)
    requires sel(f).ordinal < 0
    ensures Indexes(d, fps + [f], sel)
  {
    var fps' := fps + [f];
    forall k, o | k in d.items && 0 <= o < |d.items[k]| ensures sel(fps'[d.items[k][o]]) == Slot(k, o) {
      assert fps'[d.items[k][o]] == fps[d.items[k][o]];
    }
    forall i | 0 <= i < |fps'| && sel(fps'[i]).ordinal >= 0 ensures i < |fps| && fps'[i] == fps[i] {
    }
  }

  /** A chord table: a list of distinct classes and a dictionary keyed by class number, one key per class. */
  ghost predicate ClassTable<V>(list: seq<V>, d: Dict<int, seq<nat>>) {
    && (forall k :: k in d.items <==> 0 <= k < |list|)
    && (forall a, b :: 0 <= a < b < |list| ==> list[a] != list[b])
  }

  /** `find_chord`, `find_chord_intervals` as a specification: the first position of `x`, or the length when it is absent. */
  function Position<T(==)>(list: seq<T>, x: T): (i: nat)
    ensures i <= |list|
    ensures i < |list| ==> list[i] == x
    ensures x !in list[..i]
  {
    if list == [] then 0
    else if list[0] == x then 0
    else
      var j := Position(list[1..], x);
      assert list[..j + 1] == [list[0]] + list[1..][..j];
      j + 1
  }

  /** The class list after registering `x`: unchanged when `x` is listed, else `x` appended. */
  function Registered<T(==)>(list: seq<T>, x: T): seq<T> {
    if x in list then list else list + [x]
  }

  /** Registering keeps the classes distinct, gives `x` the class number `Position(list, x)`,
      and the dictionary gains the key of a new class. */
  lemma RegisteredKeepsTable<V>(list: seq<V>, d: Dict<int, seq<nat>>, x: V, e: nat)
    requires ClassTable(list, d)
    ensures ClassTable(Registered(list, x), AppendTo(d, Position(list, x), e))
    ensures Position(list, x) < |Registered(list, x)| && Registered(list, x)[Position(list, x)] == x
  {
    AppendToSpec(d, Position(list, x), e);
    assert list[..|list|] == list;
  }
}
