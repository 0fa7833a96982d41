/** One step of the indexing pass, stated over values.

    `RestStep`, `ChordIndex` with `ChordTotal`, and `NoteIndex` with `NoteTotal`
    say how `_process_rest`, `_process_chord` and `_process_note` change the
    attribute indexes, the event's fingerprint and the running totals; `Step`
    picks the one for the element.
    The `StepKeeps...` lemmas say that such a step keeps what `PartStates` and
    `PartSpecs` say about the events read so far. */
module PartSteps {
  import opened Wrappers
  import opened Dicts
  import opened Fingerprints
  import opened ReverseIndexes
  import opened Events
  import opened PartSpecs
  import opened PartStates
  import Sorting

  /** `_process_rest`: the rest is listed under its duration and counted with it. */
  function RestStep(a: AttributeIndexes, t: Totals, f: Fingerprint, duration: real)
    : (AttributeIndexes, Totals, Fingerprint)
  {
    (a.(rhythmRestDictionary := AppendTo(a.rhythmRestDictionary, duration, f.eventIndex)),
     t.(totalRestDuration := t.totalRestDuration + duration, restCount := t.restCount + 1),
     f.(eventType := RestType, rhythmRest := Slot(duration, |a.rhythmRestDictionary.Get(duration, [])|)))
  }

  /** `_process_chord`: a chord with a duration is listed under it; the chord is filed under
      its sorted pitches, its interval structure and its common name, each class opened when new. */
  function ChordIndex(a: AttributeIndexes, f: Fingerprint, duration: real, notes: seq<ChordNote>, libName: string)
    : (AttributeIndexes, Fingerprint)
    requires |notes| > 0
  {
    var pitches := Sorting.SortInts(Midis(notes));
    var intervals := ChordIntervals(Midis(notes));
    var name := ChordCommonName(libName, intervals);
    var pc := Position(a.chordPitchesList, pitches);
    var ic := Position(a.chordIntervalsList, intervals);
    (a.(rhythmChordDictionary := if duration == 0.0 then a.rhythmChordDictionary
                                 else AppendTo(a.rhythmChordDictionary, duration, f.eventIndex),
        chordPitchesList := Registered(a.chordPitchesList, pitches),
        chordPitchesDictionary := AppendTo(a.chordPitchesDictionary, pc, f.eventIndex),
        chordIntervalsList := Registered(a.chordIntervalsList, intervals),
        chordIntervalsDictionary := AppendTo(a.chordIntervalsDictionary, ic, f.eventIndex),
        chordCommonNameDictionary := AppendTo(a.chordCommonNameDictionary, name, f.eventIndex)),
     f.(eventType := ChordType,
        rhythmChord := if duration == 0.0 then f.rhythmChord
                       else Slot(duration, |a.rhythmChordDictionary.Get(duration, [])|),
        chordPitches := Slot(pc, |a.chordPitchesDictionary.Get(pc, [])|),
        chordInterval := Slot(ic, |a.chordIntervalsDictionary.Get(ic, [])|),
        chordName := Slot(name, |a.chordCommonNameDictionary.Get(name, [])|)))
  }

  /** `_process_chord`'s counting: a grace chord counts its pitches as grace notes; the chord's
      size, its displayed and possible accidentals and its duration are counted. */
  function ChordTotal(t: Totals, duration: real, notes: seq<ChordNote>, libName: string): Totals {
    t.(gracenoteCount := t.gracenoteCount + (if duration == 0.0 then |notes| else 0),
       countNotesInChords := ChordSizeCounted(t.countNotesInChords, Chord(duration, notes, libName)),
       accidentalCount := t.accidentalCount + Shown(notes),
       possibleAccidentalCount := t.possibleAccidentalCount + |notes|,
       totalChordDuration := t.totalChordDuration + duration,
       chordCount := t.chordCount + 1)
  }

  /** `_process_note`: the note is listed under its MIDI number, its pitch name, after a
      remembered pitch `previous` the step from it, and, when it has one, its duration. */
  function NoteIndex(a: AttributeIndexes, f: Fingerprint, duration: real, midi: int, name: string, previous: int)
    : (AttributeIndexes, Fingerprint)
  {
    var step := midi - previous;
    (a.(pitchNumberDictionary := AppendTo(a.pitchNumberDictionary, midi, f.eventIndex),
        pitchNameDictionary := AppendTo(a.pitchNameDictionary, name, f.eventIndex),
        intervalDictionary := if previous > -1 then AppendTo(a.intervalDictionary, step, f.eventIndex)
                              else a.intervalDictionary,
        rhythmNoteDictionary := if duration == 0.0 then a.rhythmNoteDictionary
                                else AppendTo(a.rhythmNoteDictionary, duration, f.eventIndex)),
     f.(eventType := NoteType,
        pitchNumber := Slot(midi, |a.pitchNumberDictionary.Get(midi, [])|),
        pitchName := Slot(name, |a.pitchNameDictionary.Get(name, [])|),
        interval := if previous > -1 then Slot(Some(step), |a.intervalDictionary.Get(step, [])|)
                    else f.interval,
        rhythmNote := if duration == 0.0 then f.rhythmNote
                      else Slot(duration, |a.rhythmNoteDictionary.Get(duration, [])|)))
  }

  /** `_process_note`'s counting: the step from a remembered pitch is counted by direction
      and, under two octaves, by size; the note's accidental, grace note and duration are counted. */
  function NoteTotal(t: Totals, duration: real, midi: int, shownAccidental: bool, previous: int): Totals {
    var step := midi - previous;
    t.(accidentalCount := t.accidentalCount + One(shownAccidental),
       possibleAccidentalCount := t.possibleAccidentalCount + 1,
       intervalCount := t.intervalCount + One(previous > -1),
       intervalAscendingCount := t.intervalAscendingCount + One(previous > -1 && step > 0),
       intervalDescendingCount := t.intervalDescendingCount + One(previous > -1 && step < 0),
       intervalUnisonCount := t.intervalUnisonCount + One(previous > -1 && step == 0),
       countIntervalsAbs := if previous > -1 then CountedAbs(t.countIntervalsAbs, step)
                            else t.countIntervalsAbs,
       gracenoteCount := t.gracenoteCount + One(duration == 0.0),
       totalNoteDuration := t.totalNoteDuration + duration,
       noteCount := t.noteCount + 1)
  }

  /** The step `set_part` takes for element `e` with the previous pitch `previous`: an
      unpitched event only gets its type, a chord symbol changes nothing. */
  function Step(e: Element, a: AttributeIndexes, t: Totals, f: Fingerprint, previous: int)
    : (AttributeIndexes, Totals, Fingerprint)
    requires Indexable(e)
  {
    match e
    case Rest(dur) => RestStep(a, t, f, dur)
    case Chord(dur, notes, libName) =>
      var (a', f') := ChordIndex(a, f, dur, notes, libName);
      (a', ChordTotal(t, dur, notes, libName), f')
    case Note(dur, midi, name, shown) =>
      var (a', f') := NoteIndex(a, f, dur, midi, name, previous);
      (a', NoteTotal(t, dur, midi, shown, previous), f')
    case Unpitched => (a, t, f.(eventType := UnpitchedType))
    case ChordSymbol => (a, t, f)
  }

  /** A rest's step enters its duration slot only and counts one rest. */
  lemma RestEntered(a: AttributeIndexes, t: Totals, a': AttributeIndexes, t': Totals, f': Fingerprint,
                    n: nat, dur: real, previous: int)
    requires (a', t', f') == RestStep(a, t, Blank(n), dur)
    requires ClassTable(a.chordPitchesList, a.chordPitchesDictionary)
    requires ClassTable(a.chordIntervalsList, a.chordIntervalsDictionary)
    ensures EnteredAll(a, a', n, f') && Counted(t, t', Rest(dur), [])
    ensures Record(Rest(dur), n, previous, f', a'.chordPitchesList, a'.chordIntervalsList)
  {
  }

  /** A chord's step enters its duration slot (unless it is a grace chord) and its three
      class slots, and the two class tables stay numbered. */
  lemma ChordEntered(a: AttributeIndexes, a': AttributeIndexes, f': Fingerprint, n: nat, e: Element)
    requires e.Chord? && |e.notes| >= 2
    requires (a', f') == ChordIndex(a, Blank(n), e.dur, e.notes, e.libName)
    requires ClassTable(a.chordPitchesList, a.chordPitchesDictionary)
    requires ClassTable(a.chordIntervalsList, a.chordIntervalsDictionary)
    ensures EnteredAll(a, a', n, f')
  {
    RegisteredKeepsTable(a.chordPitchesList, a.chordPitchesDictionary, Sorting.SortInts(Midis(e.notes)), n);
    RegisteredKeepsTable(a.chordIntervalsList, a.chordIntervalsDictionary, ChordIntervals(Midis(e.notes)), n);
  }

  /** A chord's step counts the chord, its size, its accidentals and its grace notes; it records no step. */
  lemma ChordCounted(t: Totals, t': Totals, e: Element)
    requires e.Chord? && |e.notes| >= 2
    requires t' == ChordTotal(t, e.dur, e.notes, e.libName)
    ensures Counted(t, t', e, [])
  {
  }

  /** A chord's fingerprint is the record of a chord: its class slots number its pitches and
      its intervals in the grown class lists. */
  lemma ChordRecorded(a: AttributeIndexes, a': AttributeIndexes, f': Fingerprint, n: nat, e: Element, previous: int)
    requires e.Chord? && |e.notes| >= 2
    requires (a', f') == ChordIndex(a, Blank(n), e.dur, e.notes, e.libName)
    requires ClassTable(a.chordPitchesList, a.chordPitchesDictionary)
    requires ClassTable(a.chordIntervalsList, a.chordIntervalsDictionary)
    ensures Record(e, n, previous, f', a'.chordPitchesList, a'.chordIntervalsList)
    ensures |a.chordPitchesList| <= |a'.chordPitchesList| && a'.chordPitchesList[..|a.chordPitchesList|] == a.chordPitchesList
    ensures |a.chordIntervalsList| <= |a'.chordIntervalsList| && a'.chordIntervalsList[..|a.chordIntervalsList|] == a.chordIntervalsList
  {
    RegisteredKeepsTable(a.chordPitchesList, a.chordPitchesDictionary, Sorting.SortInts(Midis(e.notes)), n);
    RegisteredKeepsTable(a.chordIntervalsList, a.chordIntervalsDictionary, ChordIntervals(Midis(e.notes)), n);
    RegisteredExtends(a.chordPitchesList, Sorting.SortInts(Midis(e.notes)));
    RegisteredExtends(a.chordIntervalsList, ChordIntervals(Midis(e.notes)));
  }

  /** A note's step enters its pitch, name and duration slots and, after a remembered pitch,
      its interval slot; the pitch table already holds the note's MIDI number. */
  lemma NoteEntered(a: AttributeIndexes, a': AttributeIndexes, f': Fingerprint, n: nat, e: Element, previous: int)
    requires e.Note? && e.midi in a.pitchNumberDictionary.items
    requires (a', f') == NoteIndex(a, Blank(n), e.dur, e.midi, e.name, previous)
    requires ClassTable(a.chordPitchesList, a.chordPitchesDictionary)
    requires ClassTable(a.chordIntervalsList, a.chordIntervalsDictionary)
    ensures EnteredAll(a, a', n, f')
  {
  }

  /** A note's fingerprint is the record of a note. */
  lemma NoteRecorded(a: AttributeIndexes, a': AttributeIndexes, f': Fingerprint, n: nat, e: Element, previous: int)
    requires e.Note?
    requires (a', f') == NoteIndex(a, Blank(n), e.dur, e.midi, e.name, previous)
    ensures Record(e, n, previous, f', a'.chordPitchesList, a'.chordIntervalsList)
  {
  }

  /** A note's step counts the note, its accidental, its grace note and, after a remembered
      pitch, the step to it. */
  lemma NoteCounted(t: Totals, t': Totals, e: Element, previous: int)
    requires e.Note? && t' == NoteTotal(t, e.dur, e.midi, e.shownAccidental, previous)
    ensures Counted(t, t', e, if previous > -1 then [e.midi - previous] else [])
  {
    assert [e.midi - previous][..0] == [];
  }

  /** The step of element `e` enters the event's fingerprint in every index it has a slot for. */
  lemma StepEntered(e: Element, a: AttributeIndexes, t: Totals, a': AttributeIndexes, t': Totals, f': Fingerprint,
                    n: nat, previous: int)
    requires Indexable(e) && (a', t', f') == Step(e, a, t, Blank(n), previous)
    requires e.Note? ==> e.midi in a.pitchNumberDictionary.items
    requires ClassTable(a.chordPitchesList, a.chordPitchesDictionary)
    requires ClassTable(a.chordIntervalsList, a.chordIntervalsDictionary)
    ensures EnteredAll(a, a', n, f')
  {
    match e {
      case Rest(dur) => RestEntered(a, t, a', t', f', n, dur, previous);
      case Chord(_, _, _) => ChordEntered(a, a', f', n, e);
      case Note(_, _, _, _) => NoteEntered(a, a', f', n, e, previous);
      case Unpitched =>
      case ChordSymbol =>
    }
  }

  /** The step of event `n` counts the event and the interval it records. */
  lemma StepCounted(events: seq<Event>, n: nat, a: AttributeIndexes, t: Totals, a': AttributeIndexes, t': Totals, f': Fingerprint)
    requires n < |events| && Indexable(events[n].element)
    requires (a', t', f') == Step(events[n].element, a, t, Blank(n), PitchBefore(events, n))
    requires ClassTable(a.chordPitchesList, a.chordPitchesDictionary)
    requires ClassTable(a.chordIntervalsList, a.chordIntervalsDictionary)
    ensures Counted(t, t', events[n].element, IntervalAt(events, n))
  {
    var e := events[n].element;
    var prev := PitchBefore(events, n);
    match e {
      case Rest(dur) => RestEntered(a, t, a', t', f', n, dur, prev);
      case Chord(_, _, _) => ChordCounted(t, t', e);
      case Note(_, _, _, _) => NoteCounted(t, t', e, prev);
      case Unpitched =>
      case ChordSymbol =>
    }
  }

  /** The step of element `e` gives the event the record of its kind; the class lists only grow. */
  lemma StepRecorded(e: Element, a: AttributeIndexes, t: Totals, a': AttributeIndexes, t': Totals, f': Fingerprint,
                     n: nat, previous: int)
    requires Indexable(e) && (a', t', f') == Step(e, a, t, Blank(n), previous)
    requires ClassTable(a.chordPitchesList, a.chordPitchesDictionary)
    requires ClassTable(a.chordIntervalsList, a.chordIntervalsDictionary)
    ensures Record(e, n, previous, f', a'.chordPitchesList, a'.chordIntervalsList)
    ensures |a.chordPitchesList| <= |a'.chordPitchesList| && a'.chordPitchesList[..|a.chordPitchesList|] == a.chordPitchesList
    ensures |a.chordIntervalsList| <= |a'.chordIntervalsList| && a'.chordIntervalsList[..|a.chordIntervalsList|] == a.chordIntervalsList
  {
    match e {
      case Rest(dur) => RestEntered(a, t, a', t', f', n, dur, previous);
      case Chord(_, _, _) => ChordRecorded(a, a', f', n, e, previous);
      case Note(_, _, _, _) => NoteRecorded(a, a', f', n, e, previous);
      case Unpitched =>
      case ChordSymbol =>
    }
    assert a'.chordPitchesList[..|a.chordPitchesList|] == a.chordPitchesList;
    assert a'.chordIntervalsList[..|a.chordIntervalsList|] == a.chordIntervalsList;
  }

  /** One step keeps every attribute index exact. */
  lemma StepKeepsIndexes(fps: seq<Fingerprint>, e: Element, a: AttributeIndexes, t: Totals,
                         a': AttributeIndexes, t': Totals, f': Fingerprint, previous: int)
    requires Indexable(e) && Reversed(a, fps)
    requires (a', t', f') == Step(e, a, t, Blank(|fps|), previous)
    ensures Reversed(a', fps + [f'])
  {
    StepEntered(e, a, t, a', t', f', |fps|, previous);
    ReversedNext(a, a', fps, f');
  }

  /** One step keeps every total true to its name. */
  lemma StepKeepsTotals(events: seq<Event>, n: nat, a: AttributeIndexes, t: Totals,
                        a': AttributeIndexes, t': Totals, f': Fingerprint)
    requires n < |events| && Indexable(events[n].element) && Tallied(t, events, n)
    requires ClassTable(a.chordPitchesList, a.chordPitchesDictionary)
    requires ClassTable(a.chordIntervalsList, a.chordIntervalsDictionary)
    requires (a', t', f') == Step(events[n].element, a, t, Blank(n), PitchBefore(events, n))
    ensures Tallied(t', events, n + 1)
  {
    StepCounted(events, n, a, t, a', t', f');
    TalliedNext(t, t', events, n);
  }

  /** One step keeps every fingerprint the record of its event. */
  lemma StepKeepsRecords(events: seq<Event>, fps: seq<Fingerprint>, a: AttributeIndexes, t: Totals,
                         a': AttributeIndexes, t': Totals, f': Fingerprint)
    requires |fps| < |events| && Indexable(events[|fps|].element)
    requires ClassTable(a.chordPitchesList, a.chordPitchesDictionary)
    requires ClassTable(a.chordIntervalsList, a.chordIntervalsDictionary)
    requires Records(events, fps, a.chordPitchesList, a.chordIntervalsList)
    requires (a', t', f') == Step(events[|fps|].element, a, t, Blank(|fps|), PitchBefore(events, |fps|))
    ensures Records(events, fps + [f'], a'.chordPitchesList, a'.chordIntervalsList)
    ensures |a.chordPitchesList| <= |a'.chordPitchesList| && a'.chordPitchesList[..|a.chordPitchesList|] == a.chordPitchesList
    ensures |a.chordIntervalsList| <= |a'.chordIntervalsList| && a'.chordIntervalsList[..|a.chordIntervalsList|] == a.chordIntervalsList
  {
    StepRecorded(events[|fps|].element, a, t, a', t', f', |fps|, PitchBefore(events, |fps|));
    RecordsExtend(events, fps, a.chordPitchesList, a.chordIntervalsList, f', a'.chordPitchesList, a'.chordIntervalsList);
  }

  /** Registering only ever appends, so earlier class numbers keep their classes. */
  lemma RegisteredExtends<T>(list: seq<T>, x: T)
    ensures |list| <= |Registered(list, x)| && Registered(list, x)[..|list|] == list
  {
  }
}
