/** The per-event fingerprint of the analyser (`AnalyseIndex`), the three
    ways of comparing fingerprints and bars of fingerprints, and the chord
    helpers that fill a chord's fingerprint. */
module Fingerprints {
  import opened Wrappers
  import Sorting

  /** `event_type`: 'n' note, 'c' chord, 'r' rest, 'u' unpitched, '' anything else (a chord symbol). */
  datatype EventType = NoteType | ChordType | RestType | UnpitchedType | Untyped

  /** One `[category, occurrence]` pair: the value an event has for one
      attribute and its position in that value's reverse-index list. */
  datatype Slot<K> = Slot(key: K, ordinal: int)

  /** `AnalyseIndex`.  The comparators only look at the keys. */
  datatype Fingerprint = Fingerprint(
    eventIndex: nat,
    eventType: EventType,
    chordInterval: Slot<int>,
    chordPitches: Slot<int>,
    chordName: Slot<string>,
    pitchNumber: Slot<int>,
    pitchName: Slot<string>,
    interval: Slot<Option<int>>,
    rhythmNote: Slot<real>,
    rhythmChord: Slot<real>,
    rhythmRest: Slot<real>)

  /** The `-1` default of the rhythm slots; no duration is negative. */
  const NoRhythm: real := -1.0

  /** A fresh `AnalyseIndex(event_index)`: every slot at its default. */
  function Blank(eventIndex: nat): (f: Fingerprint)
    ensures f.eventIndex == eventIndex && f.eventType == Untyped
    ensures f.interval.key == None && f.interval.ordinal == -1
    ensures f.rhythmNote.key == f.rhythmChord.key == f.rhythmRest.key == NoRhythm
    ensures f.chordName.key == "" && f.pitchName.key == ""
  {
    Fingerprint(eventIndex, Untyped, Slot(-1, -1), Slot(-1, -1), Slot("", -1),
                Slot(-1, -1), Slot("", -1), Slot(None, -1),
                Slot(NoRhythm, -1), Slot(NoRhythm, -1), Slot(NoRhythm, -1))
  }

  /** The shape every fingerprint built by the analyser has: of the three
      rhythm slots, only the one belonging to its own kind can leave its default. */
  predicate WellShaped(f: Fingerprint) {
    match f.eventType
    case NoteType => f.rhythmChord.key == NoRhythm && f.rhythmRest.key == NoRhythm
    case ChordType => f.rhythmNote.key == NoRhythm && f.rhythmRest.key == NoRhythm
    case RestType => f.rhythmNote.key == NoRhythm && f.rhythmChord.key == NoRhythm
    case _ => f.rhythmNote.key == NoRhythm && f.rhythmChord.key == NoRhythm && f.rhythmRest.key == NoRhythm
  }

  /** `compare_indexes`: same kind, and a note matches on duration and MIDI
      pitch, a chord on duration and pitch set, a rest on duration. */
  predicate FullMatch(a: Fingerprint, b: Fingerprint) {
    && a.eventType == b.eventType
    && match a.eventType
       case NoteType => a.rhythmNote.key == b.rhythmNote.key && a.pitchNumber.key == b.pitchNumber.key
       case ChordType => a.rhythmChord.key == b.rhythmChord.key && a.chordPitches.key == b.chordPitches.key
       case RestType => a.rhythmRest.key == b.rhythmRest.key
       case _ => true
  }

  /** `compare_indexes_rhythm` as written: rests only match rests, and all three
      rhythm slots must agree.  A note keeps the chord slot at its default and a chord
      keeps the note slot, so a note never matches a chord of the same duration, although
      the method's own description calls them interchangeable (`RhythmAsWrittenSplitsNoteAndChord`). */
  predicate RhythmMatchAsWritten(a: Fingerprint, b: Fingerprint) {
    && (a.eventType == RestType) == (b.eventType == RestType)
    && a.rhythmChord.key == b.rhythmChord.key
    && a.rhythmNote.key == b.rhythmNote.key
    && a.rhythmRest.key == b.rhythmRest.key
  }

  /** The duration in the rhythm slot of the event's own kind; `NoRhythm` for anything
      that is not a note, chord or rest. */
  function OwnRhythm(f: Fingerprint): real {
    match f.eventType
    case NoteType => f.rhythmNote.key
    case ChordType => f.rhythmChord.key
    case RestType => f.rhythmRest.key
    case _ => NoRhythm
  }

  /** The rhythm comparison `compare_indexes_rhythm` describes: rests only match rests,
      and otherwise notes and chords are interchangeable and compared by duration alone. */
  predicate RhythmMatch(a: Fingerprint, b: Fingerprint) {
    (a.eventType == RestType) == (b.eventType == RestType) && OwnRhythm(a) == OwnRhythm(b)
  }

  /** `compare_indexes_intervals`: same kind, and notes match on the interval from the previous note.
      Any two chords, any two rests and any two unpitched events match. */
  predicate IntervalMatch(a: Fingerprint, b: Fingerprint) {
    a.eventType == b.eventType && (a.eventType == NoteType ==> a.interval.key == b.interval.key)
  }

  /** `compare_type` 0, 1 and 2. */
  datatype Policy = Full | Rhythm | Intervals

  predicate EventsMatch(a: Fingerprint, b: Fingerprint, policy: Policy) {
    match policy
    case Full => FullMatch(a, b)
    case Rhythm => RhythmMatch(a, b)
    case Intervals => IntervalMatch(a, b)
  }

  /** Two bars match when they have as many events and the events match pairwise. */
  predicate SectionsMatch(s1: seq<Fingerprint>, s2: seq<Fingerprint>, policy: Policy) {
    |s1| == |s2| && forall i :: 0 <= i < |s1| ==> EventsMatch(s1[i], s2[i], policy)
  }

  /** `compare_sections`. */
  method CompareSections(s1: seq<Fingerprint>, s2: seq<Fingerprint>, policy: Policy) returns (same: bool)
    ensures same <==> SectionsMatch(s1, s2, policy)
  {
    if |s1| != |s2| {
      return false;
    }
    var i := 0;
    while i < |s1|
      invariant 0 <= i <= |s1|
      invariant forall k :: 0 <= k < i ==> EventsMatch(s1[k], s2[k], policy)
    {
      if !EventsMatch(s1[i], s2[i], policy) {
        return false;
      }
      i := i + 1;
    }
    return true;
  }

  /** Each of the three event comparisons is an equivalence. */
  lemma EventsMatchIsEquivalence(a: Fingerprint, b: Fingerprint, c: Fingerprint, policy: Policy)
    ensures EventsMatch(a, a, policy)
    ensures EventsMatch(a, b, policy) ==> EventsMatch(b, a, policy)
    ensures EventsMatch(a, b, policy) && EventsMatch(b, c, policy) ==> EventsMatch(a, c, policy)
  {
  }

  /** So is the comparison of bars, under each policy. */
  lemma SectionsMatchIsEquivalence(s1: seq<Fingerprint>, s2: seq<Fingerprint>, s3: seq<Fingerprint>, policy: Policy)
    ensures SectionsMatch(s1, s1, policy)
    ensures SectionsMatch(s1, s2, policy) ==> SectionsMatch(s2, s1, policy)
    ensures SectionsMatch(s1, s2, policy) && SectionsMatch(s2, s3, policy) ==> SectionsMatch(s1, s3, policy)
  {
    forall i | 0 <= i < |s1| && i < |s2| && i < |s3| {
      EventsMatchIsEquivalence(s1[i], s2[i], s3[i], policy);
    }
    forall i | 0 <= i < |s1| && i < |s2| {
      EventsMatchIsEquivalence(s1[i], s2[i], s1[i], policy);
    }
  }

  /** As written, a full match of well-shaped fingerprints is also a rhythm match:
      the rhythm slots of the other kinds stay at their defaults. */
  lemma FullImpliesRhythmAsWritten(a: Fingerprint, b: Fingerprint)
    requires WellShaped(a) && WellShaped(b) && FullMatch(a, b)
    ensures RhythmMatchAsWritten(a, b)
  {
  }

  /** Without the shape, the written comparison loses that: a note carrying a stray
      chord duration still fully matches a plain note. */
  lemma FullWithoutShapeIsNotRhythmAsWritten()
    ensures var a := Blank(0).(eventType := NoteType);
            var b := a.(rhythmChord := Slot(1.0, 0));
            FullMatch(a, b) && !RhythmMatchAsWritten(a, b)
  {
  }

  /** For well-shaped fingerprints the written comparison and the intended one differ
      exactly on a note against a chord: there the written one only matches two grace events. */
  lemma RhythmAsWrittenSplitsNoteAndChord(a: Fingerprint, b: Fingerprint)
    requires WellShaped(a) && WellShaped(b)
    ensures !({a.eventType, b.eventType} == {NoteType, ChordType}) ==>
              (RhythmMatchAsWritten(a, b) <==> RhythmMatch(a, b))
    ensures {a.eventType, b.eventType} == {NoteType, ChordType} ==>
              (RhythmMatchAsWritten(a, b) <==> OwnRhythm(a) == OwnRhythm(b) == NoRhythm)
  {
  }

  /** Under the intended comparison notes and chords are interchangeable: a note matches a
      chord exactly when their durations agree. */
  lemma RhythmMatchInterchangeable(a: Fingerprint, b: Fingerprint)
    requires a.eventType == NoteType && b.eventType == ChordType
    ensures RhythmMatch(a, b) <==> a.rhythmNote.key == b.rhythmChord.key
  {
  }

  /** The intended comparison needs no shape: a full match is a rhythm match. */
  lemma FullImpliesRhythm(a: Fingerprint, b: Fingerprint)
    requires FullMatch(a, b)
    ensures RhythmMatch(a, b)
  {
  }

  /** The same, bar by bar: a bar equal to another in pitch and rhythm has
      the same rhythm, so the rhythm registry never splits a full-match class. */
  lemma SectionsFullImpliesRhythm(s1: seq<Fingerprint>, s2: seq<Fingerprint>)
    requires SectionsMatch(s1, s2, Full)
    ensures SectionsMatch(s1, s2, Rhythm)
  {
    forall i | 0 <= i < |s1| ensures RhythmMatch(s1[i], s2[i]) {
      FullImpliesRhythm(s1[i], s2[i]);
    }
  }

  /** `does_section_contain_intervals`. */
  predicate ContainsIntervals(section: seq<Fingerprint>) {
    exists i :: 0 <= i < |section| && section[i].interval.key.Some?
  }

  /** `find_chord` and `find_chord_intervals`: the first position holding `x`, or -1. */
  method IndexOf<T(==)>(list: seq<T>, x: T) returns (i: int)
    ensures -1 <= i < |list|
    ensures i >= 0 ==> list[i] == x && x !in list[..i]
    ensures i == -1 <==> x !in list
  {
    i := 0;
    while i < |list|
      invariant 0 <= i <= |list|
      invariant x !in list[..i]
    {
      if list[i] == x {
        return;
      }
      assert list[..i + 1] == list[..i] + [list[i]];
      i := i + 1;
    }
    assert list[..i] == list;
    i := -1;
  }

  /** `make_chord_intervals` as written: the first listed pitch is the base and the others are sorted after it. */
  function ChordIntervalsAsWritten(pitches: seq<int>): (r: seq<int>)
    requires |pitches| > 0
    ensures |r| == |pitches| - 1
  {
    var others := Sorting.SortInts(pitches[1..]);
    seq(|others|, i requires 0 <= i < |others| => others[i] - pitches[0])
  }

  lemma ChordIntervalsAsWrittenRootFirst()
    ensures ChordIntervalsAsWritten([60, 64, 67]) == [4, 7]
  {
    var p := [60, 64, 67];
    assert p[1..] == [64, 67];
    SortedPair(64, 67);
    var r := ChordIntervalsAsWritten(p);
    assert r[0] == 4 && r[1] == 7;
  }

  lemma ChordIntervalsAsWrittenThirdFirst()
    ensures ChordIntervalsAsWritten([64, 60, 67]) == [-4, 3]
  {
    var p := [64, 60, 67];
    assert p[1..] == [60, 67];
    SortedPair(60, 67);
    var r := ChordIntervalsAsWritten(p);
    assert r[0] == -4 && r[1] == 3;
  }

  /** Writing a chord's notes in another order changes its interval structure as written. */
  lemma ChordIntervalsAsWrittenDependOnOrder()
    ensures ChordIntervalsAsWritten([60, 64, 67]) == [4, 7]
    ensures ChordIntervalsAsWritten([64, 60, 67]) == [-4, 3]
  {
    ChordIntervalsAsWrittenRootFirst();
    ChordIntervalsAsWrittenThirdFirst();
  }

  lemma SortedPair(a: int, b: int)
    requires a <= b
    ensures Sorting.SortInts([a, b]) == [a, b]
  {
    var s := Sorting.SortInts([a, b]);
    assert Sorting.SortedAsc([a, b]);
    Sorting.SortedUnique(s, [a, b]);
  }

  /** Intervals of the other pitches above the lowest pitch, in ascending order:
      the structure the documentation of `make_chord_intervals` describes. */
  function ChordIntervals(pitches: seq<int>): (r: seq<int>)
    requires |pitches| > 0
    ensures |r| == |pitches| - 1
    ensures forall i :: 0 <= i < |r| ==> r[i] >= 0
    ensures Sorting.SortedAsc(r)
  {
    var s := Sorting.SortInts(pitches);
    seq(|s| - 1, i requires 0 <= i < |s| - 1 => s[i + 1] - s[0])
  }

  /** The interval structure depends on the chord's pitches, not on the order they are written in. */
  lemma ChordIntervalsIgnoreOrder(p: seq<int>, q: seq<int>)
    requires |p| > 0 && multiset(p) == multiset(q)
    ensures |q| > 0 && ChordIntervals(p) == ChordIntervals(q)
  {
    assert |q| == |multiset(q)| == |multiset(p)| == |p|;
    Sorting.SortedUnique(Sorting.SortInts(p), Sorting.SortInts(q));
  }

  /** `_get_chord_common_name`: the library's name, except for the two suspended shapes. */
  function ChordCommonName(libraryName: string, intervals: seq<int>): (name: string)
    ensures intervals == [5, 7] ==> name == "Suspended 4th"
    ensures intervals == [2, 7] ==> name == "Suspended 2nd"
    ensures intervals != [5, 7] && intervals != [2, 7] ==> name == libraryName
  {
    if intervals == [5, 7] then "Suspended 4th"
    else if intervals == [2, 7] then "Suspended 2nd"
    else libraryName
  }

  lemma SuspendedFourthIntervals(root: int)
    ensures ChordIntervals([root, root + 5, root + 7]) == [5, 7]
  {
    var q := [root, root + 5, root + 7];
    var s := Sorting.SortInts(q);
    assert Sorting.SortedAsc(q);
    Sorting.SortedUnique(s, q);
    var r := ChordIntervals(q);
    assert r[0] == 5 && r[1] == 7;
  }

  /** A suspended fourth is named so however its three notes are written down. */
  lemma SuspendedFourthInAnyOrder(pitches: seq<int>, root: int, libraryName: string)
    requires multiset(pitches) == multiset{root, root + 5, root + 7}
    ensures |pitches| == 3 && ChordCommonName(libraryName, ChordIntervals(pitches)) == "Suspended 4th"
  {
    var q := [root, root + 5, root + 7];
    assert multiset(q) == multiset{root, root + 5, root + 7};
    assert |pitches| == |multiset(pitches)| == 3;
    ChordIntervalsIgnoreOrder(q, pitches);
    SuspendedFourthIntervals(root);
  }
}
