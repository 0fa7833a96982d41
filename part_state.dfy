/** The containers the indexing pass fills, grouped as the analyser's two
    initialisers group them, and what they hold once the first `n` events
    are read.

    `AttributeIndexes` is what `_initialize_musical_attribute_containers`
    sets up: one reverse index per attribute and the two chord-class lists.
    `Totals` is the running part of `_initialize_statistics_containers`: the
    counters and the two count tables the `_process_*` methods bump.
    `BarStatistics` holds the three per-bar counts `_process_completed_measure`
    records.  `Reversed` and `Tallied` say what the first two mean; the
    `...Next` lemmas say that one event's update keeps that meaning. */
module PartStates {
  import opened Wrappers
  import opened Dicts
  import opened Fingerprints
  import opened ReverseIndexes
  import opened Events
  import opened PartSpecs

  /** `range(low, low + n)`: the integers from `low` below `low + n`, in increasing order. */
  function Upto(low: int, n: nat): (s: seq<int>)
    ensures |s| == n
    ensures forall i :: 0 <= i < n ==> s[i] == low + i
  {
    seq(n, i => low + i)
  }

  lemma UptoMembers(low: int, n: nat)
    ensures forall k :: k in Upto(low, n) <==> low <= k < low + n
  {
    var s := Upto(low, n);
    forall k | low <= k < low + n ensures k in s {
      assert s[k - low] == k;
    }
  }

  lemma UptoDistinct(low: int, n: nat)
    ensures forall i, j :: 0 <= i < j < n ==> Upto(low, n)[i] != Upto(low, n)[j]
  {
  }

  /** `{i: [] for i in range(128)}`: an empty list for every MIDI number. */
  function PitchTable(): (d: Dict<int, seq<nat>>)
    ensures d.Valid()
    ensures forall k :: k in d.items <==> 0 <= k < 128
    ensures forall k :: k in d.items ==> d.items[k] == []
  {
    UptoMembers(0, 128);
    UptoDistinct(0, 128);
    FromKeys(Upto(0, 128), [])
  }

  /** `{i: 0 for i in range(2, 11)}`: a zero count for every chord size from 2 to 10. */
  function ChordSizeTable(): (d: Dict<int, nat>)
    ensures d.Valid() && d.keys == Upto(2, 9)
    ensures forall k :: k in d.items <==> 2 <= k <= 10
    ensures forall k :: k in d.items ==> d.items[k] == 0
  {
    UptoMembers(2, 9);
    UptoDistinct(2, 9);
    FromKeys(Upto(2, 9), 0)
  }

  /** `count_intervals_abs`: one count per step size from 0 to 24 semitones. */
  type AbsCounts = s: seq<nat> | |s| == 25 witness seq(25, i => 0)

  /** `count_intervals_abs[abs(interval)] += 1` for a step under two octaves. */
  function CountedAbs(counts: AbsCounts, interval: int): (c: AbsCounts)
    ensures forall a :: 0 <= a < 25 ==> c[a] == counts[a] + One(Abs(interval) == a)
  {
    if Abs(interval) < 25 then counts[Abs(interval) := counts[Abs(interval)] + 1] else counts
  }

  datatype AttributeIndexes = AttributeIndexes(
    pitchNumberDictionary: Dict<int, seq<nat>>,
    pitchNameDictionary: Dict<string, seq<nat>>,
    intervalDictionary: Dict<int, seq<nat>>,
    rhythmNoteDictionary: Dict<real, seq<nat>>,
    rhythmRestDictionary: Dict<real, seq<nat>>,
    rhythmChordDictionary: Dict<real, seq<nat>>,
    chordPitchesList: seq<seq<int>>,
    chordPitchesDictionary: Dict<int, seq<nat>>,
    chordIntervalsList: seq<seq<int>>,
    chordIntervalsDictionary: Dict<int, seq<nat>>,
    chordCommonNameDictionary: Dict<string, seq<nat>>)

  /** `_initialize_musical_attribute_containers`: the pitch table has an empty list per
      MIDI number, every other container is empty. */
  function NoAttributes(): AttributeIndexes {
    AttributeIndexes(PitchTable(), Dict([], map[]), Dict([], map[]), Dict([], map[]), Dict([], map[]),
                     Dict([], map[]), [], Dict([], map[]), [], Dict([], map[]), Dict([], map[]))
  }

  /** Every reverse index describes the fingerprints `fps` exactly, the pitch table keeps
      its 128 keys, and the two chord tables number the classes of their lists. */
  ghost predicate Reversed(a: AttributeIndexes, fps: seq<Fingerprint>) {
    && Indexes(a.pitchNumberDictionary, fps, PitchNumberSlot)
    && (forall k :: k in a.pitchNumberDictionary.items <==> 0 <= k < 128)
    && Indexes(a.pitchNameDictionary, fps, PitchNameSlot)
    && Indexes(a.intervalDictionary, fps, IntervalSlot)
    && Indexes(a.rhythmNoteDictionary, fps, RhythmNoteSlot)
    && Indexes(a.rhythmRestDictionary, fps, RhythmRestSlot)
    && Indexes(a.rhythmChordDictionary, fps, RhythmChordSlot)
    && Indexes(a.chordPitchesDictionary, fps, ChordPitchesSlot)
    && ClassTable(a.chordPitchesList, a.chordPitchesDictionary)
    && Indexes(a.chordIntervalsDictionary, fps, ChordIntervalSlot)
    && ClassTable(a.chordIntervalsList, a.chordIntervalsDictionary)
    && Indexes(a.chordCommonNameDictionary, fps, ChordNameSlot)
  }

  lemma ReversedStart()
    ensures Reversed(NoAttributes(), [])
  {
    var a := NoAttributes();
    IndexesStart(a.pitchNumberDictionary, PitchNumberSlot);
    IndexesStart(a.pitchNameDictionary, PitchNameSlot);
    IndexesStart(a.intervalDictionary, IntervalSlot);
    IndexesStart(a.rhythmNoteDictionary, RhythmNoteSlot);
    IndexesStart(a.rhythmRestDictionary, RhythmRestSlot);
    IndexesStart(a.rhythmChordDictionary, RhythmChordSlot);
    IndexesStart(a.chordPitchesDictionary, ChordPitchesSlot);
    IndexesStart(a.chordIntervalsDictionary, ChordIntervalSlot);
    IndexesStart(a.chordCommonNameDictionary, ChordNameSlot);
  }

  /** How one event's slot `s` enters an index: a set slot is appended under its key with
      the list's old length as its ordinal; an unset one leaves the index alone. */
  ghost predicate Entered<K(!new)>(d: Dict<K, seq<nat>>, d': Dict<K, seq<nat>>, n: nat, s: Slot<K>) {
    if s.ordinal >= 0 then s.ordinal == |d.Get(s.key, [])| && d' == AppendTo(d, s.key, n) else d' == d
  }

  lemma IndexesNext<K(!new)>(d: Dict<K, seq<nat>>, d': Dict<K, seq<nat>>, fps: seq<Fingerprint>, sel: Fingerprint -> Slot<K>, f: Fingerprint)
    requires Indexes(d, fps, sel) && Entered(d, d', |fps|, sel(f))
    ensures Indexes(d', fps + [f], sel)
  {
    if sel(f).ordinal >= 0 {
      IndexesAppend(d, fps, sel, f, sel(f).key);
    } else {
      IndexesSkip(d, fps, sel, f);
    }
  }

  /** One event's fingerprint enters every index it has a set slot for; the chord lists
      may grow while their tables stay numbered. */
  ghost predicate EnteredAll(a: AttributeIndexes, a': AttributeIndexes, n: nat, f: Fingerprint) {
    && Entered(a.pitchNumberDictionary, a'.pitchNumberDictionary, n, PitchNumberSlot(f))
    && (f.pitchNumber.ordinal >= 0 ==> f.pitchNumber.key in a.pitchNumberDictionary.items)
    && Entered(a.pitchNameDictionary, a'.pitchNameDictionary, n, PitchNameSlot(f))
    && Entered(a.intervalDictionary, a'.intervalDictionary, n, IntervalSlot(f))
    && Entered(a.rhythmNoteDictionary, a'.rhythmNoteDictionary, n, RhythmNoteSlot(f))
    && Entered(a.rhythmRestDictionary, a'.rhythmRestDictionary, n, RhythmRestSlot(f))
    && Entered(a.rhythmChordDictionary, a'.rhythmChordDictionary, n, RhythmChordSlot(f))
    && Entered(a.chordPitchesDictionary, a'.chordPitchesDictionary, n, ChordPitchesSlot(f))
    && ClassTable(a'.chordPitchesList, a'.chordPitchesDictionary)
    && Entered(a.chordIntervalsDictionary, a'.chordIntervalsDictionary, n, ChordIntervalSlot(f))
    && ClassTable(a'.chordIntervalsList, a'.chordIntervalsDictionary)
    && Entered(a.chordCommonNameDictionary, a'.chordCommonNameDictionary, n, ChordNameSlot(f))
  }

  /** Entering the next event's fingerprint keeps every index exact. */
  lemma ReversedNext(a: AttributeIndexes, a': AttributeIndexes, fps: seq<Fingerprint>, f: Fingerprint)
    requires Reversed(a, fps) && EnteredAll(a, a', |fps|, f)
    ensures Reversed(a', fps + [f])
  {
    IndexesNext(a.pitchNumberDictionary, a'.pitchNumberDictionary, fps, PitchNumberSlot, f);
    if f.pitchNumber.ordinal >= 0 {
      AppendToSpec(a.pitchNumberDictionary, f.pitchNumber.key, |fps|);
    }
    IndexesNext(a.pitchNameDictionary, a'.pitchNameDictionary, fps, PitchNameSlot, f);
    IndexesNext(a.intervalDictionary, a'.intervalDictionary, fps, IntervalSlot, f);
    IndexesNext(a.rhythmNoteDictionary, a'.rhythmNoteDictionary, fps, RhythmNoteSlot, f);
    IndexesNext(a.rhythmRestDictionary, a'.rhythmRestDictionary, fps, RhythmRestSlot, f);
    IndexesNext(a.rhythmChordDictionary, a'.rhythmChordDictionary, fps, RhythmChordSlot, f);
    IndexesNext(a.chordPitchesDictionary, a'.chordPitchesDictionary, fps, ChordPitchesSlot, f);
    IndexesNext(a.chordIntervalsDictionary, a'.chordIntervalsDictionary, fps, ChordIntervalSlot, f);
    IndexesNext(a.chordCommonNameDictionary, a'.chordCommonNameDictionary, fps, ChordNameSlot, f);
  }

  datatype Totals = Totals(
    totalNoteDuration: real, noteCount: nat,
    intervalCount: nat, intervalAscendingCount: nat, intervalDescendingCount: nat, intervalUnisonCount: nat,
    countIntervalsAbs: AbsCounts,
    totalRestDuration: real, restCount: nat,
    totalChordDuration: real, chordCount: nat, countNotesInChords: Dict<int, nat>,
    accidentalCount: nat, possibleAccidentalCount: nat, gracenoteCount: nat)

  /** The running statistics of `_initialize_statistics_containers`, all at zero. */
  function NoTotals(): Totals {
    Totals(0.0, 0, 0, 0, 0, 0, seq(25, i => 0), 0.0, 0, 0.0, 0, ChordSizeTable(), 0, 0, 0)
  }

  /** Every total counts what its name says over the first `n` events: notes, rests and chords
      with their durations, displayed and possible accidentals, grace notes, the recorded steps
      by direction and by size under two octaves, and the chords of each size from 2 to 10. */
  ghost predicate Tallied(t: Totals, events: seq<Event>, n: nat) {
    && n <= |events|
    && EventTotals(t, events[..n])
    && StepTotals(t, IntervalsRecorded(events, n))
    && ChordSizes(t.countNotesInChords, events[..n])
  }

  ghost predicate EventTotals(t: Totals, done: seq<Event>) {
    && t.noteCount == Sum(done, NoteStat) && t.totalNoteDuration == RealSum(done, NoteDuration)
    && t.restCount == Sum(done, RestStat) && t.totalRestDuration == RealSum(done, RestDuration)
    && t.chordCount == Sum(done, ChordStat) && t.totalChordDuration == RealSum(done, ChordDuration)
    && t.accidentalCount == Sum(done, AccidentalStat)
    && t.possibleAccidentalCount == Sum(done, PossibleAccidentalStat)
    && t.gracenoteCount == Sum(done, GraceStat)
  }

  ghost predicate StepTotals(t: Totals, steps: seq<int>) {
    && t.intervalCount == |steps|
    && t.intervalAscendingCount == Tally(steps, Ascending)
    && t.intervalDescendingCount == Tally(steps, Descending)
    && t.intervalUnisonCount == Tally(steps, Unison)
    && (forall a :: 0 <= a < 25 ==> t.countIntervalsAbs[a] == Tally(steps, AbsIs(a)))
  }

  /** `count_notes_in_chords`: the sizes 2 to 10 in order, each counting the chords of that size. */
  ghost predicate ChordSizes(d: Dict<int, nat>, done: seq<Event>) {
    && d.keys == Upto(2, 9)
    && (forall k :: k in d.items <==> 2 <= k <= 10)
    && (forall k :: 2 <= k <= 10 ==> d.items[k] == Sum(done, ChordsOfSize(k)))
  }

  lemma TalliedStart(events: seq<Event>)
    ensures Tallied(NoTotals(), events, 0)
  {
  }

  /** `count_notes_in_chords[len(pitches)] += 1` for a chord of at most ten pitches (the table
      has no entry below two: such a chord is not indexable). */
  function ChordSizeCounted(d: Dict<int, nat>, e: Element): Dict<int, nat> {
    if e.Chord? && |e.notes| <= 10 then d.Put(|e.notes|, d.Get(|e.notes|, 0) + 1) else d
  }

  /** `t'` is `t` with one event's contribution added: element `e`, which records the steps `step`. */
  ghost predicate Counted(t: Totals, t': Totals, e: Element, step: seq<int>) {
    && EventCounted(t, t', e)
    && StepCounted(t, t', step)
    && t'.countNotesInChords == ChordSizeCounted(t.countNotesInChords, e)
  }

  ghost predicate EventCounted(t: Totals, t': Totals, e: Element) {
    && t'.noteCount == t.noteCount + NoteStat(e) && t'.totalNoteDuration == t.totalNoteDuration + NoteDuration(e)
    && t'.restCount == t.restCount + RestStat(e) && t'.totalRestDuration == t.totalRestDuration + RestDuration(e)
    && t'.chordCount == t.chordCount + ChordStat(e) && t'.totalChordDuration == t.totalChordDuration + ChordDuration(e)
    && t'.accidentalCount == t.accidentalCount + AccidentalStat(e)
    && t'.possibleAccidentalCount == t.possibleAccidentalCount + PossibleAccidentalStat(e)
    && t'.gracenoteCount == t.gracenoteCount + GraceStat(e)
  }

  ghost predicate StepCounted(t: Totals, t': Totals, step: seq<int>) {
    && t'.intervalCount == t.intervalCount + |step|
    && t'.intervalAscendingCount == t.intervalAscendingCount + Tally(step, Ascending)
    && t'.intervalDescendingCount == t.intervalDescendingCount + Tally(step, Descending)
    && t'.intervalUnisonCount == t.intervalUnisonCount + Tally(step, Unison)
    && t'.countIntervalsAbs == (if step == [] then t.countIntervalsAbs else CountedAbs(t.countIntervalsAbs, step[0]))
  }

  /** Adding the next event's contribution keeps every total true to its name. */
  lemma TalliedNext(t: Totals, t': Totals, events: seq<Event>, n: nat)
    requires Tallied(t, events, n) && n < |events| && Indexable(events[n].element)
    requires Counted(t, t', events[n].element, IntervalAt(events, n))
    ensures Tallied(t', events, n + 1)
  {
    var done := events[..n];
    assert events[..n + 1] == done + [events[n]];
    EventTotalsNext(t, t', done, events[n]);
    var steps := IntervalsRecorded(events, n);
    assert IntervalsRecorded(events, n + 1) == steps + IntervalAt(events, n);
    StepTotalsNext(t, t', steps, IntervalAt(events, n));
    ChordSizesNext(t.countNotesInChords, done, events[n]);
  }

  lemma EventTotalsNext(t: Totals, t': Totals, done: seq<Event>, e: Event)
    requires EventTotals(t, done) && EventCounted(t, t', e.element)
    ensures EventTotals(t', done + [e])
  {
    forall stat: Element -> nat, rstat: Element -> real
      ensures Sum(done + [e], stat) == Sum(done, stat) + stat(e.element)
      ensures RealSum(done + [e], rstat) == RealSum(done, rstat) + rstat(e.element)
    {
      SumAppend(done, e, stat, rstat);
    }
  }

  lemma StepTotalsNext(t: Totals, t': Totals, steps: seq<int>, step: seq<int>)
    requires StepTotals(t, steps) && StepCounted(t, t', step) && |step| <= 1
    ensures StepTotals(t', steps + step)
  {
    TallySnoc(steps, step);
    TallySnoc([], step);
    assert [] + step == step;
    if step != [] {
      AbsTallyNext(t.countIntervalsAbs, steps, step[0]);
    }
  }

  /** Counting one more step by size keeps each size's count its tally. */
  lemma AbsTallyNext(counts: AbsCounts, steps: seq<int>, x: int)
    requires forall a :: 0 <= a < 25 ==> counts[a] == Tally(steps, AbsIs(a))
    ensures forall a :: 0 <= a < 25 ==> CountedAbs(counts, x)[a] == Tally(steps + [x], AbsIs(a))
  {
    TallySnoc(steps, [x]);
    forall a | 0 <= a < 25 ensures CountedAbs(counts, x)[a] == Tally(steps + [x], AbsIs(a)) {
      assert AbsIs(a)(x) == (Abs(x) == a);
    }
  }

  lemma ChordSizesNext(d: Dict<int, nat>, done: seq<Event>, e: Event)
    requires ChordSizes(d, done) && Indexable(e.element)
    ensures ChordSizes(ChordSizeCounted(d, e.element), done + [e])
  {
    var d' := ChordSizeCounted(d, e.element);
    assert d'.keys == d.keys && d'.items.Keys == d.items.Keys;
    forall k | 2 <= k <= 10 ensures ChordSizeCounted(d, e.element).items[k] == Sum(done + [e], ChordsOfSize(k)) {
      SumAppend(done, e, ChordsOfSize(k), NoteDuration);
      assert ChordsOfSize(k)(e.element) == One(e.element.Chord? && |e.element.notes| == k);
    }
  }

  /** The per-bar counts `_process_completed_measure` records. */
  datatype BarStatistics = BarStatistics(
    countAccidentalsInMeasures: Dict<int, nat>,
    countGracenotesInMeasures: Dict<int, nat>,
    countRestsInMeasures: Dict<int, nat>)
}
