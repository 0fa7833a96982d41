/** `AnalysePart`: the indexing pass over one part and the containers it fills.

    One pass over the part's notes, chords and rests builds a fingerprint per
    event, appends the event to the reverse index of each of its attributes,
    keeps running totals, files every event in the canonical-event registry and,
    at each bar line, files the finished bar in the three bar registries (full
    match, rhythm only, intervals only) with its accidental, grace-note and rest
    counts.  The containers are grouped as in `PartStates`. */
module AnalyseParts {
  import opened Wrappers
  import opened Dicts
  import opened Fingerprints
  import opened Registries
  import opened ReverseIndexes
  import opened Events
  import opened PartSpecs
  import opened PartStates
  import opened PartSteps
  import opened PartInvariants
  import opened PartPass
  import opened PartResults
  import opened Repetition
  import opened Wording
  import Sorting

  /** Every element can be indexed: the analyser meets no `KeyError` on this part. */
  method CheckIndexable(events: seq<Event>) returns (ok: bool)
    ensures ok == AllIndexable(events)
  {
    var j := 0;
    while j < |events|
      invariant 0 <= j <= |events|
      invariant forall k :: 0 <= k < j ==> Indexable(events[k].element)
    {
      if !Indexable(events[j].element) {
        return false;
      }
      j := j + 1;
    }
    return true;
  }

  /** The displayed accidentals of a chord, counted pitch by pitch. */
  method CountShownAccidentals(notes: seq<ChordNote>) returns (count: nat)
    ensures count == Shown(notes)
  {
    count := 0;
    var i := 0;
    while i < |notes|
      invariant 0 <= i <= |notes|
      invariant count == Shown(notes[..i])
    {
      assert notes[..i + 1][..i] == notes[..i];
      if notes[i].shownAccidental {
        count := count + 1;
      }
      i := i + 1;
    }
    assert notes[..i] == notes;
  }

  /** `find_chord` / `find_chord_intervals` followed by the append to the chord table:
      a new class is listed and gets an empty list first. */
  method FileChordClass<V(==)>(list: seq<V>, d: Dict<int, seq<nat>>, x: V, e: nat)
    returns (list': seq<V>, d': Dict<int, seq<nat>>, c: nat)
    requires ClassTable(list, d)
    ensures c == Position(list, x) && list' == Registered(list, x)
    ensures d' == AppendTo(d, c, e)
    ensures c < |list'| && list'[c] == x
    ensures ClassTable(list', d')
  {
    RegisteredKeepsTable(list, d, x, e);
    var i := IndexOf(list, x);
    if i == -1 {
      list' := list + [x];
      c := |list'| - 1;
      d' := d.Put(c, []);
    } else {
      list', c := list, i;
      d' := d;
    }
    d' := AppendTo(d', c, e);
  }

  /** The class part of `_process_chord`: the chord is filed under its sorted pitches,
      its interval structure and its common name. */
  method IndexChordClasses(a: AttributeIndexes, f: Fingerprint, midis: seq<int>, libName: string)
    returns (a': AttributeIndexes, f': Fingerprint)
    requires |midis| > 0
    requires ClassTable(a.chordPitchesList, a.chordPitchesDictionary)
    requires ClassTable(a.chordIntervalsList, a.chordIntervalsDictionary)
    ensures ClassTable(a'.chordPitchesList, a'.chordPitchesDictionary)
    ensures ClassTable(a'.chordIntervalsList, a'.chordIntervalsDictionary)
    ensures var pitches := Sorting.SortInts(midis);
            var intervals := ChordIntervals(midis);
            var name := ChordCommonName(libName, intervals);
            var pc := Position(a.chordPitchesList, pitches);
            var ic := Position(a.chordIntervalsList, intervals);
            && a' == a.(chordPitchesList := Registered(a.chordPitchesList, pitches),
                        chordPitchesDictionary := AppendTo(a.chordPitchesDictionary, pc, f.eventIndex),
                        chordIntervalsList := Registered(a.chordIntervalsList, intervals),
                        chordIntervalsDictionary := AppendTo(a.chordIntervalsDictionary, ic, f.eventIndex),
                        chordCommonNameDictionary := AppendTo(a.chordCommonNameDictionary, name, f.eventIndex))
            && f' == f.(chordPitches := Slot(pc, |a.chordPitchesDictionary.Get(pc, [])|),
                        chordInterval := Slot(ic, |a.chordIntervalsDictionary.Get(ic, [])|),
                        chordName := Slot(name, |a.chordCommonNameDictionary.Get(name, [])|))
            && InClass(f'.chordPitches, a'.chordPitchesList, pitches)
            && InClass(f'.chordInterval, a'.chordIntervalsList, intervals)
  {
    var pitches := Sorting.SortInts(midis);
    var pitchList, pitchTable, chordIndex :=
      FileChordClass(a.chordPitchesList, a.chordPitchesDictionary, pitches, f.eventIndex);
    var intervals := ChordIntervals(midis);
    var intervalList, intervalTable, intervalIndex :=
      FileChordClass(a.chordIntervalsList, a.chordIntervalsDictionary, intervals, f.eventIndex);
    var commonName := ChordCommonName(libName, intervals);
    var nameOrdinal := |a.chordCommonNameDictionary.Get(commonName, [])|;
    f' := f.(chordPitches := Slot(chordIndex, |a.chordPitchesDictionary.Get(chordIndex, [])|),
             chordInterval := Slot(intervalIndex, |a.chordIntervalsDictionary.Get(intervalIndex, [])|),
             chordName := Slot(commonName, nameOrdinal));
    a' := a.(chordPitchesList := pitchList, chordPitchesDictionary := pitchTable,
             chordIntervalsList := intervalList, chordIntervalsDictionary := intervalTable,
             chordCommonNameDictionary := AppendTo(a.chordCommonNameDictionary, commonName, f.eventIndex));
  }

  /** The duration part of `_process_chord`: a grace chord counts its pitches as grace notes,
      any other chord is indexed by its duration. */
  method IndexChordDuration(a: AttributeIndexes, t: Totals, f: Fingerprint, duration: real, size: nat)
    returns (a': AttributeIndexes, t': Totals, f': Fingerprint)
    ensures a' == a.(rhythmChordDictionary := if duration == 0.0 then a.rhythmChordDictionary
                                              else AppendTo(a.rhythmChordDictionary, duration, f.eventIndex))
    ensures t' == t.(gracenoteCount := t.gracenoteCount + (if duration == 0.0 then size else 0))
    ensures f' == if duration == 0.0 then f else f.(rhythmChord := Slot(duration, |a.rhythmChordDictionary.Get(duration, [])|))
  {
    a', t', f' := a, t, f;
    if duration == 0.0 {
      t' := t.(gracenoteCount := t.gracenoteCount + size);
    } else {
      f' := f.(rhythmChord := Slot(duration, |a.rhythmChordDictionary.Get(duration, [])|));
      a' := a.(rhythmChordDictionary := AppendTo(a.rhythmChordDictionary, duration, f.eventIndex));
    }
  }

  /** `count_notes_in_chords[len(pitches)] += 1` when the chord has at most ten pitches. */
  method CountChordSize(t: Totals, chord: Element) returns (t': Totals)
    requires chord.Chord? && |chord.notes| >= 2
    requires forall k :: 2 <= k <= 10 ==> k in t.countNotesInChords.items
    ensures t' == t.(countNotesInChords := ChordSizeCounted(t.countNotesInChords, chord))
  {
    t' := t;
    var size := |chord.notes|;
    if size <= 10 {
      t' := t.(countNotesInChords := t.countNotesInChords.Put(size, t.countNotesInChords.items[size] + 1));
    }
  }

  /** The interval part of `_process_note`: after a remembered pitch the step to this note
      is indexed and counted, by direction and, under two octaves, by size. */
  method IndexInterval(a: AttributeIndexes, t: Totals, f: Fingerprint, midi: int, previous: int)
    returns (a': AttributeIndexes, t': Totals, f': Fingerprint)
    ensures var step := midi - previous;
            && a' == a.(intervalDictionary := if previous > -1 then AppendTo(a.intervalDictionary, step, f.eventIndex)
                                              else a.intervalDictionary)
            && f' == (if previous > -1 then f.(interval := Slot(Some(step), |a.intervalDictionary.Get(step, [])|)) else f)
            && t' == t.(intervalCount := t.intervalCount + One(previous > -1),
                        intervalAscendingCount := t.intervalAscendingCount + One(previous > -1 && step > 0),
                        intervalDescendingCount := t.intervalDescendingCount + One(previous > -1 && step < 0),
                        intervalUnisonCount := t.intervalUnisonCount + One(previous > -1 && step == 0),
                        countIntervalsAbs := if previous > -1 then CountedAbs(t.countIntervalsAbs, step)
                                             else t.countIntervalsAbs)
  {
    a', t', f' := a, t, f;
    if previous > -1 {
      var interval := midi - previous;
      f' := f.(interval := Slot(Some(interval), |a.intervalDictionary.Get(interval, [])|));
      a' := a.(intervalDictionary := AppendTo(a.intervalDictionary, interval, f.eventIndex));
      var up, down, same := t.intervalAscendingCount, t.intervalDescendingCount, t.intervalUnisonCount;
      if interval > 0 {
        up := up + 1;
      } else if interval < 0 {
        down := down + 1;
      } else {
        same := same + 1;
      }
      var counts := t.countIntervalsAbs;
      var size := if interval < 0 then -interval else interval;
      if size < 25 {
        counts := counts[size := counts[size] + 1];
      }
      t' := t.(intervalCount := t.intervalCount + 1, intervalAscendingCount := up,
               intervalDescendingCount := down, intervalUnisonCount := same, countIntervalsAbs := counts);
    }
  }

  /** The duration part of `_process_note`: a grace note is counted, any other note is
      indexed by its duration. */
  method IndexNoteDuration(a: AttributeIndexes, t: Totals, f: Fingerprint, duration: real)
    returns (a': AttributeIndexes, t': Totals, f': Fingerprint)
    ensures a' == a.(rhythmNoteDictionary := if duration == 0.0 then a.rhythmNoteDictionary
                                             else AppendTo(a.rhythmNoteDictionary, duration, f.eventIndex))
    ensures t' == t.(gracenoteCount := t.gracenoteCount + One(duration == 0.0))
    ensures f' == if duration == 0.0 then f else f.(rhythmNote := Slot(duration, |a.rhythmNoteDictionary.Get(duration, [])|))
  {
    a', t', f' := a, t, f;
    if duration == 0.0 {
      t' := t.(gracenoteCount := t.gracenoteCount + 1);
    } else {
      f' := f.(rhythmNote := Slot(duration, |a.rhythmNoteDictionary.Get(duration, [])|));
      a' := a.(rhythmNoteDictionary := AppendTo(a.rhythmNoteDictionary, duration, f.eventIndex));
    }
  }

  /** The pitch part of `_process_note`: the note is listed under its MIDI number, which must
      be one of the table's keys, and under its pitch name. */
  method IndexPitch(a: AttributeIndexes, f: Fingerprint, midi: int, name: string)
    returns (a': AttributeIndexes, f': Fingerprint)
    requires midi in a.pitchNumberDictionary.items
    ensures a' == a.(pitchNumberDictionary := AppendTo(a.pitchNumberDictionary, midi, f.eventIndex),
                     pitchNameDictionary := AppendTo(a.pitchNameDictionary, name, f.eventIndex))
    ensures f' == f.(pitchNumber := Slot(midi, |a.pitchNumberDictionary.items[midi]|),
                     pitchName := Slot(name, |a.pitchNameDictionary.Get(name, [])|))
  {
    var pitchOrdinal := |a.pitchNumberDictionary.items[midi]|;
    var nameOrdinal := |a.pitchNameDictionary.Get(name, [])|;
    a' := a.(pitchNumberDictionary := AppendTo(a.pitchNumberDictionary, midi, f.eventIndex),
             pitchNameDictionary := AppendTo(a.pitchNameDictionary, name, f.eventIndex));
    f' := f.(pitchNumber := Slot(midi, pitchOrdinal), pitchName := Slot(name, nameOrdinal));
  }

  class AnalysePart {
    /** Every event's fingerprint, in event order.  */
    ghost var fingerprints: seq<Fingerprint>
    /** The section filed under each bar number. */
    ghost var bars: map<int, seq<Fingerprint>>

    /** `analyse_indexes_list`, `_dictionary` and `_all`: the canonical-event registry. */
    var analyseIndexes: Registry<Fingerprint>
    var measureIndexes: Dict<int, nat>
    /** The three bar registries: full match, rhythm only, intervals only. */
    var measureAnalyseIndexes: Registry<seq<Fingerprint>>
    var measureRhythmAnalyseIndexes: Registry<seq<Fingerprint>>
    var measureIntervalsAnalyseIndexes: Registry<seq<Fingerprint>>

    var attributes: AttributeIndexes
    var totals: Totals
    var barStatistics: BarStatistics
    /** The patterns of the full-match, rhythm-only and interval-only comparisons. */
    var fullPatterns: Patterns
    var rhythmPatterns: Patterns
    var intervalPatterns: Patterns
    var counts: CountStatistics

    /** A freshly constructed analyser: every container empty, every total zero. */
    ghost predicate Initial()
      reads this
    {
      && fingerprints == [] && bars == map[]
      && analyseIndexes == Registry([], [], Dict([], map[])) && measureIndexes == Dict([], map[])
      && measureAnalyseIndexes == Registry([], [], Dict([], map[]))
      && measureRhythmAnalyseIndexes == Registry([], [], Dict([], map[]))
      && measureIntervalsAnalyseIndexes == Registry([], [], Dict([], map[]))
      && attributes == NoAttributes() && totals == NoTotals()
      && barStatistics == BarStatistics(Dict([], map[]), Dict([], map[]), Dict([], map[]))
      && fullPatterns == Patterns([], [], Dict([], map[])) && rhythmPatterns == Patterns([], [], Dict([], map[]))
      && intervalPatterns == Patterns([], [], Dict([], map[])) && counts == NoCounts()
    }

    /** `AnalysePart()`. */
    constructor ()
      ensures Initial()
    {
      fingerprints, bars := [], map[];
      analyseIndexes := Registry([], [], Dict([], map[]));
      measureIndexes := Dict([], map[]);
      measureAnalyseIndexes := Registry([], [], Dict([], map[]));
      measureRhythmAnalyseIndexes := Registry([], [], Dict([], map[]));
      measureIntervalsAnalyseIndexes := Registry([], [], Dict([], map[]));
      attributes := NoAttributes();
      totals := NoTotals();
      barStatistics := BarStatistics(Dict([], map[]), Dict([], map[]), Dict([], map[]));
      fullPatterns := Patterns([], [], Dict([], map[]));
      rhythmPatterns := Patterns([], [], Dict([], map[]));
      intervalPatterns := Patterns([], [], Dict([], map[]));
      counts := NoCounts();
    }

    /** The analyser's containers together with the loop variables of `set_part`. */
    ghost function State(section: seq<Fingerprint>, accidentals: nat, gracenotes: nat, rests: nat,
                         previous: int, currentMeasure: int): PassState
      reads this
    {
      PassState(fingerprints, bars, analyseIndexes, measureIndexes, measureAnalyseIndexes,
                measureRhythmAnalyseIndexes, measureIntervalsAnalyseIndexes, attributes, totals, barStatistics,
                section, accidentals, gracenotes, rests, previous, currentMeasure)
    }

    /** `_process_rest`. */
    method ProcessRest(f: Fingerprint, duration: real) returns (f': Fingerprint)
      modifies this`attributes, this`totals
      ensures (attributes, totals, f') == RestStep(old(attributes), old(totals), f, duration)
    {
      var a, t := attributes, totals;
      var ordinal := |a.rhythmRestDictionary.Get(duration, [])|;
      attributes := a.(rhythmRestDictionary := AppendTo(a.rhythmRestDictionary, duration, f.eventIndex));
      totals := t.(totalRestDuration := t.totalRestDuration + duration, restCount := t.restCount + 1);
      f' := f.(eventType := RestType, rhythmRest := Slot(duration, ordinal));
    }

    /** `_process_chord`, for a chord of at least two pitches (the chord-size table has no
        smaller entry).  Returns the chord's displayed accidentals. */
    method ProcessChord(f: Fingerprint, duration: real, notes: seq<ChordNote>, libName: string)
      returns (f': Fingerprint, accidentals: nat)
      requires |notes| >= 2
      requires forall k :: 2 <= k <= 10 ==> k in totals.countNotesInChords.items
      requires ClassTable(attributes.chordPitchesList, attributes.chordPitchesDictionary)
      requires ClassTable(attributes.chordIntervalsList, attributes.chordIntervalsDictionary)
      modifies this`attributes, this`totals
      ensures accidentals == Shown(notes)
      ensures (attributes, f') == ChordIndex(old(attributes), f, duration, notes, libName)
      ensures totals == ChordTotal(old(totals), duration, notes, libName)
    {
      var a, t, g := IndexChordDuration(attributes, totals, f.(eventType := ChordType), duration, |notes|);
      t := CountChordSize(t, Chord(duration, notes, libName));
      a, g := IndexChordClasses(a, g, Midis(notes), libName);
      accidentals := CountShownAccidentals(notes);
      t := t.(accidentalCount := t.accidentalCount + accidentals,
              possibleAccidentalCount := t.possibleAccidentalCount + |notes|,
              totalChordDuration := t.totalChordDuration + duration,
              chordCount := t.chordCount + 1);
      assert (a, g) == ChordIndex(attributes, f, duration, notes, libName);
      assert t == ChordTotal(totals, duration, notes, libName);
      attributes, totals := a, t;
      f' := g;
    }

    /** `_process_note`, for a note whose MIDI number is a key of the pitch table (another one
        is a `KeyError` in the source).  Returns the note's MIDI number, the previous pitch of
        the next note. */
    method ProcessNote(f: Fingerprint, duration: real, midi: int, name: string, shownAccidental: bool, previous: int)
      returns (f': Fingerprint, midiPitch: int)
      requires midi in attributes.pitchNumberDictionary.items
      modifies this`attributes, this`totals
      ensures midiPitch == midi
      ensures (attributes, f') == NoteIndex(old(attributes), f, duration, midi, name, previous)
      ensures totals == NoteTotal(old(totals), duration, midi, shownAccidental, previous)
    {
      var t := totals.(accidentalCount := totals.accidentalCount + (if shownAccidental then 1 else 0),
                       possibleAccidentalCount := totals.possibleAccidentalCount + 1);
      var a, g := IndexPitch(attributes, f.(eventType := NoteType), midi, name);
      a, t, g := IndexInterval(a, t, g, midi, previous);
      a, t, g := IndexNoteDuration(a, t, g, duration);
      t := t.(totalNoteDuration := t.totalNoteDuration + duration, noteCount := t.noteCount + 1);
      assert (a, g) == NoteIndex(attributes, f, duration, midi, name, previous);
      assert t == NoteTotal(totals, duration, midi, shownAccidental, previous);
      attributes, totals := a, t;
      f', midiPitch := g, midi;
    }

    /** `_add_to_analysis_indexes`: the event is filed in the canonical-event registry. */
    method AddToAnalysisIndexes(f: Fingerprint, eventIndex: nat)
      requires |analyseIndexes.list| == |analyseIndexes.classes|
      modifies this`analyseIndexes
      ensures analyseIndexes == Filed(old(analyseIndexes), f, eventIndex, FullMatch)
    {
      analyseIndexes := AddToRegistry(analyseIndexes, f, eventIndex, FullMatch);
    }

    /** `_process_completed_measure`: the bar's counts are recorded under its number, and the
        bar is filed by full match, by rhythm and, when it holds an interval, by intervals. */
    method ProcessCompletedMeasure(section: seq<Fingerprint>, measureNumber: int,
                                   accidentals: nat, gracenotes: nat, rests: nat)
      requires |measureAnalyseIndexes.list| == |measureAnalyseIndexes.classes|
      requires |measureRhythmAnalyseIndexes.list| == |measureRhythmAnalyseIndexes.classes|
      requires |measureIntervalsAnalyseIndexes.list| == |measureIntervalsAnalyseIndexes.classes|
      modifies this`barStatistics, this`measureAnalyseIndexes, this`measureRhythmAnalyseIndexes,
               this`measureIntervalsAnalyseIndexes, this`bars
      ensures barStatistics == StatsFiled(old(barStatistics), measureNumber, accidentals, gracenotes, rests)
      ensures measureAnalyseIndexes == Filed(old(measureAnalyseIndexes), section, measureNumber, BarsMatchFull)
      ensures measureRhythmAnalyseIndexes == Filed(old(measureRhythmAnalyseIndexes), section, measureNumber, BarsMatchRhythm)
      ensures measureIntervalsAnalyseIndexes ==
                if ContainsIntervals(section) then Filed(old(measureIntervalsAnalyseIndexes), section, measureNumber, BarsMatchIntervals)
                else old(measureIntervalsAnalyseIndexes)
      ensures bars == old(bars)[measureNumber := section]
    {
      var s := barStatistics;
      barStatistics := BarStatistics(s.countAccidentalsInMeasures.Put(measureNumber, accidentals),
                                     s.countGracenotesInMeasures.Put(measureNumber, gracenotes),
                                     s.countRestsInMeasures.Put(measureNumber, rests));
      measureAnalyseIndexes := AddToRegistry(measureAnalyseIndexes, section, measureNumber, BarsMatchFull);
      measureRhythmAnalyseIndexes := AddToRegistry(measureRhythmAnalyseIndexes, section, measureNumber, BarsMatchRhythm);
      if ContainsIntervals(section) {
        measureIntervalsAnalyseIndexes := AddToRegistry(measureIntervalsAnalyseIndexes, section, measureNumber, BarsMatchIntervals);
      }
      bars := bars[measureNumber := section];
    }

    /** The element part of `set_part`'s loop: the element is processed by its kind, and its
        displayed accidentals, grace notes, rests and the next previous pitch are returned.
        An unpitched event only gets its type; a chord symbol is left as it is. */
    method ReadElement(e: Element, eventIndex: nat, previous: int)
      returns (f: Fingerprint, accidentals: nat, gracenotes: nat, rests: nat, pitch: int)
      requires Indexable(e)
      requires forall k :: 0 <= k < 128 ==> k in attributes.pitchNumberDictionary.items
      requires forall k :: 2 <= k <= 10 ==> k in totals.countNotesInChords.items
      requires ClassTable(attributes.chordPitchesList, attributes.chordPitchesDictionary)
      requires ClassTable(attributes.chordIntervalsList, attributes.chordIntervalsDictionary)
      modifies this`attributes, this`totals
      ensures (attributes, totals, f) == Step(e, old(attributes), old(totals), Blank(eventIndex), previous)
      ensures accidentals == AccidentalStat(e) && gracenotes == GraceStat(e) && rests == RestStat(e)
      ensures pitch == PitchAfter(e, previous)
    {
      var blank := Blank(eventIndex);
      f, accidentals, gracenotes, rests, pitch := blank, 0, 0, 0, -1;
      match e
      case Rest(dur) =>
        f := ProcessRest(blank, dur);
        rests := 1;
      case Chord(dur, notes, libName) =>
        f, accidentals := ProcessChord(blank, dur, notes, libName);
        if dur == 0.0 {
          gracenotes := |notes|;
        }
      case Note(dur, midi, name, shown) =>
        f, pitch := ProcessNote(blank, dur, midi, name, shown, previous);
        if shown {
          accidentals := 1;
        }
        if dur == 0.0 {
          gracenotes := 1;
        }
      case Unpitched =>
        f := blank.(eventType := UnpitchedType);
      case ChordSymbol =>
        pitch := previous;
    }

    /** A bar line after an open section: the bar's opening is recorded and the section is
        filed under the bar before. */
    method CloseBar(events: seq<Event>, n: nat, section: seq<Fingerprint>, accidentals: nat, gracenotes: nat,
                    rests: nat, ghost previous: int, currentMeasure: int)
      requires n < |events| && Shaped(State(section, accidentals, gracenotes, rests, previous, currentMeasure))
      modifies this`measureIndexes, this`barStatistics, this`measureAnalyseIndexes, this`measureRhythmAnalyseIndexes,
               this`measureIntervalsAnalyseIndexes, this`bars
      ensures var st := old(State(section, accidentals, gracenotes, rests, previous, currentMeasure));
              var m := events[n].measure;
              State(section, accidentals, gracenotes, rests, previous, m) ==
              BarFiled(st.(currentMeasure := m, measureIndexes := st.measureIndexes.Put(m, n)),
                       section, m - 1, accidentals, gracenotes, rests)
    {
      measureIndexes := measureIndexes.Put(events[n].measure, n);
      ProcessCompletedMeasure(section, events[n].measure - 1, accidentals, gracenotes, rests);
    }

    /** The bar-line part of `set_part`'s loop: a bar number above the current one records
        where the bar opens and, after the first event, files the section before it under the
        previous bar number and starts a new section with the previous pitch forgotten. */
    method OpenBar(events: seq<Event>, n: nat, section: seq<Fingerprint>, accidentals: nat, gracenotes: nat,
                   rests: nat, previous: int, currentMeasure: int)
      returns (section': seq<Fingerprint>, accidentals': nat, gracenotes': nat, rests': nat,
               previous': int, currentMeasure': int)
      requires n < |events| && Shaped(State(section, accidentals, gracenotes, rests, previous, currentMeasure))
      modifies this`measureIndexes, this`barStatistics, this`measureAnalyseIndexes, this`measureRhythmAnalyseIndexes,
               this`measureIntervalsAnalyseIndexes, this`bars
      ensures State(section', accidentals', gracenotes', rests', previous', currentMeasure') ==
              BarOpened(events, n, old(State(section, accidentals, gracenotes, rests, previous, currentMeasure)))
    {
      section', accidentals', gracenotes', rests', previous', currentMeasure' :=
        section, accidentals, gracenotes, rests, previous, currentMeasure;
      if events[n].measure > currentMeasure {
        currentMeasure' := events[n].measure;
        if |section| > 0 {
          ghost var st := State(section, accidentals, gracenotes, rests, previous, currentMeasure);
          CloseBar(events, n, section, accidentals, gracenotes, rests, previous, currentMeasure);
          BarOpenedFiles(events, n, st);
          section', previous', accidentals', gracenotes', rests' := [], -1, 0, 0, 0;
        } else {
          measureIndexes := measureIndexes.Put(currentMeasure', n);
        }
      }
    }

    /** The event part of `set_part`'s loop: the element is processed, filed in the event
        registry and appended to the section, and its counts are added to the bar's. */
    method ReadEvent(events: seq<Event>, n: nat, section: seq<Fingerprint>, accidentals: nat, gracenotes: nat,
                     rests: nat, previous: int, ghost currentMeasure: int)
      returns (section': seq<Fingerprint>, accidentals': nat, gracenotes': nat, rests': nat, previous': int)
      requires n < |events| && Indexable(events[n].element)
      requires Ready(State(section, accidentals, gracenotes, rests, previous, currentMeasure))
      modifies this`attributes, this`totals, this`analyseIndexes, this`fingerprints
      ensures State(section', accidentals', gracenotes', rests', previous', currentMeasure) ==
              EventRead(events, n, old(State(section, accidentals, gracenotes, rests, previous, currentMeasure)))
    {
      var f, eventAccidentals, eventGracenotes, eventRests;
      f, eventAccidentals, eventGracenotes, eventRests, previous' := ReadElement(events[n].element, n, previous);
      AddToAnalysisIndexes(f, n);
      fingerprints := fingerprints + [f];
      section' := section + [f];
      accidentals', gracenotes', rests' := accidentals + eventAccidentals, gracenotes + eventGracenotes, rests + eventRests;
    }

    /** One turn of `set_part`'s loop. */
    method ReadNext(events: seq<Event>, n: nat, section: seq<Fingerprint>, accidentals: nat, gracenotes: nat,
                    rests: nat, previous: int, currentMeasure: int)
      returns (section': seq<Fingerprint>, accidentals': nat, gracenotes': nat, rests': nat,
               previous': int, currentMeasure': int)
      requires n < |events| && Indexable(events[n].element)
      requires Ready(State(section, accidentals, gracenotes, rests, previous, currentMeasure))
      modifies this`measureIndexes, this`barStatistics, this`measureAnalyseIndexes, this`measureRhythmAnalyseIndexes,
               this`measureIntervalsAnalyseIndexes, this`bars, this`attributes, this`totals, this`analyseIndexes,
               this`fingerprints
      ensures State(section', accidentals', gracenotes', rests', previous', currentMeasure') ==
              Turn(events, n, old(State(section, accidentals, gracenotes, rests, previous, currentMeasure)))
    {
      var s, acc, grace, r, p, m := OpenBar(events, n, section, accidentals, gracenotes, rests, previous, currentMeasure);
      section', accidentals', gracenotes', rests', previous' := ReadEvent(events, n, s, acc, grace, r, p, m);
      currentMeasure' := m;
    }

    /** After `set_part`'s loop: a non-empty last section is filed under the current bar number. */
    method FinishPart(section: seq<Fingerprint>, accidentals: nat, gracenotes: nat, rests: nat,
                      ghost previous: int, currentMeasure: int)
      requires Shaped(State(section, accidentals, gracenotes, rests, previous, currentMeasure))
      modifies this`barStatistics, this`measureAnalyseIndexes, this`measureRhythmAnalyseIndexes,
               this`measureIntervalsAnalyseIndexes, this`bars
      ensures State(section, accidentals, gracenotes, rests, previous, currentMeasure) ==
              LastFiled(old(State(section, accidentals, gracenotes, rests, previous, currentMeasure)))
    {
      if |section| > 0 {
        ProcessCompletedMeasure(section, currentMeasure, accidentals, gracenotes, rests);
      }
    }

    /** The end of `set_part`: the last bar is filed, then the repetition patterns and the
        count lists are computed from the finished registries and indexes. */
    method ConcludePart(section: seq<Fingerprint>, accidentals: nat, gracenotes: nat, rests: nat,
                        ghost previous: int, currentMeasure: int)
      requires Shaped(State(section, accidentals, gracenotes, rests, previous, currentMeasure))
      requires var st := LastFiled(State(section, accidentals, gracenotes, rests, previous, currentMeasure));
               RegistriesFiled(st.full, st.rhythm, st.intervals) && AttributesValid(st.attributes)
      modifies this`barStatistics, this`measureAnalyseIndexes, this`measureRhythmAnalyseIndexes,
               this`measureIntervalsAnalyseIndexes, this`bars,
               this`fullPatterns, this`rhythmPatterns, this`intervalPatterns, this`counts
      ensures State(section, accidentals, gracenotes, rests, previous, currentMeasure) ==
              LastFiled(old(State(section, accidentals, gracenotes, rests, previous, currentMeasure)))
      ensures PatternsFound() && CountsFound()
    {
      FinishPart(section, accidentals, gracenotes, rests, previous, currentMeasure);
      var full, rhythm, intervals :=
        PartResults.CalculateAllRepetitionPatterns(measureAnalyseIndexes, measureRhythmAnalyseIndexes, measureIntervalsAnalyseIndexes);
      var c := PartResults.GenerateCountStatistics(attributes);
      fullPatterns, rhythmPatterns, intervalPatterns, counts := full, rhythm, intervals, c;
    }

    /** Once every event is read and the last bar filed: the event side describes all
        events, every bar opening is recorded, and every bar is counted, filed and classified. */
    ghost predicate Analysed(events: seq<Event>)
      reads this`fingerprints, this`attributes, this`totals, this`analyseIndexes, this`measureIndexes,
            this`barStatistics, this`measureAnalyseIndexes, this`measureRhythmAnalyseIndexes,
            this`measureIntervalsAnalyseIndexes, this`bars
    {
      Finished(events, fingerprints, attributes, totals, analyseIndexes, measureIndexes, barStatistics,
               measureAnalyseIndexes, measureRhythmAnalyseIndexes, measureIntervalsAnalyseIndexes, bars)
    }

    /** The three comparisons' patterns are those of the three bar registries. */
    ghost predicate PatternsFound()
      reads this`measureAnalyseIndexes, this`measureRhythmAnalyseIndexes, this`measureIntervalsAnalyseIndexes,
            this`fullPatterns, this`rhythmPatterns, this`intervalPatterns
    {
      AllPatternsOf(fullPatterns, rhythmPatterns, intervalPatterns,
                    measureAnalyseIndexes, measureRhythmAnalyseIndexes, measureIntervalsAnalyseIndexes)
    }

    /** The nine count lists are those of the attribute indexes. */
    ghost predicate CountsFound()
      reads this`counts, this`attributes
    {
      AllCountsOf(counts, attributes)
    }

    /** `set_part`'s loop over the part's events in score order, and the filing of the last
        bar: afterwards the indexes, totals, registries and per-bar counts describe the events
        and their bars, ready for the pattern and count calculations. */
    method ReadPart(events: seq<Event>)
      requires AllIndexable(events) && Initial()
      modifies this`fingerprints, this`bars, this`analyseIndexes, this`measureIndexes, this`measureAnalyseIndexes,
               this`measureRhythmAnalyseIndexes, this`measureIntervalsAnalyseIndexes, this`attributes, this`totals,
               this`barStatistics, this`fullPatterns, this`rhythmPatterns, this`intervalPatterns, this`counts
      ensures Analysed(events) && PatternsFound() && CountsFound()
    {
      var section: seq<Fingerprint>, accidentals: nat, gracenotes: nat, rests: nat := [], 0, 0, 0;
      var previous, currentMeasure := -1, -1;
      assert State(section, accidentals, gracenotes, rests, previous, currentMeasure) == Start();
      StartKept(events);
      var n := 0;
      while n < |events|
        invariant n <= |events|
        invariant Kept(events, n, State(section, accidentals, gracenotes, rests, previous, currentMeasure))
      {
        ghost var st := State(section, accidentals, gracenotes, rests, previous, currentMeasure);
        KeptReady(events, n, st);
        section, accidentals, gracenotes, rests, previous, currentMeasure :=
          ReadNext(events, n, section, accidentals, gracenotes, rests, previous, currentMeasure);
        TurnKept(events, n, st, State(section, accidentals, gracenotes, rests, previous, currentMeasure));
        n := n + 1;
      }
      ghost var last := State(section, accidentals, gracenotes, rests, previous, currentMeasure);
      FinishedFiled(events, last);
      ConcludePart(section, accidentals, gracenotes, rests, previous, currentMeasure);
      FinishedDone(events, last);
    }

    /** `set_part` over the part's events in score order.  Every element must be indexable
        (else the source stops with a `KeyError`; here the analyser is left untouched and
        `false` returned).  Afterwards the part is analysed and the patterns and count lists
        are computed. */
    method SetPart(events: seq<Event>) returns (ok: bool)
      requires Initial()
      modifies this
      ensures ok == AllIndexable(events)
      ensures !ok ==> Initial()
      ensures ok ==> Analysed(events) && PatternsFound() && CountsFound()
    {
      ok := CheckIndexable(events);
      if ok {
        ReadPart(events);
      }
    }
  }
}
