/** What the indexing pass over a part promises, stated over values.

    `Record` says which fingerprint an event gets; the tallies say what the
    running totals count; `BarCounts`, `BarsAre` and `BarRegistry` say what is
    known about the bars filed so far.  The class in `AnalyseParts` keeps these
    as its invariants. */
module PartSpecs {
  import opened Wrappers
  import opened Dicts
  import opened Fingerprints
  import opened Registries
  import opened Events
  import Sorting

  function PitchNumberSlot(f: Fingerprint): Slot<int> { f.pitchNumber }
  function PitchNameSlot(f: Fingerprint): Slot<string> { f.pitchName }
  function RhythmNoteSlot(f: Fingerprint): Slot<real> { f.rhythmNote }
  function RhythmChordSlot(f: Fingerprint): Slot<real> { f.rhythmChord }
  function RhythmRestSlot(f: Fingerprint): Slot<real> { f.rhythmRest }
  function ChordPitchesSlot(f: Fingerprint): Slot<int> { f.chordPitches }
  function ChordIntervalSlot(f: Fingerprint): Slot<int> { f.chordInterval }
  function ChordNameSlot(f: Fingerprint): Slot<string> { f.chordName }

  /** The interval slot with its value unwrapped; a fingerprint without an interval has it unset. */
  function IntervalSlot(f: Fingerprint): Slot<int> {
    match f.interval.key
    case Some(d) => Slot(d, f.interval.ordinal)
    case None => Slot(0, -1)
  }

  predicate BarsMatchFull(a: seq<Fingerprint>, b: seq<Fingerprint>) { SectionsMatch(a, b, Full) }
  predicate BarsMatchRhythm(a: seq<Fingerprint>, b: seq<Fingerprint>) { SectionsMatch(a, b, Rhythm) }
  predicate BarsMatchIntervals(a: seq<Fingerprint>, b: seq<Fingerprint>) { SectionsMatch(a, b, Intervals) }

  /** The slot is set, to `k`. */
  predicate Holds<K(==)>(s: Slot<K>, k: K) {
    s.key == k && s.ordinal >= 0
  }

  /** A set chord-class slot whose key numbers the class `x` in `list`. */
  predicate InClass(s: Slot<int>, list: seq<seq<int>>, x: seq<int>) {
    s.ordinal >= 0 && 0 <= s.key < |list| && list[s.key] == x
  }

  /** The fingerprint `_process_rest`, `_process_chord` or `_process_note` gives event `j`
      when the previous pitch is `prev`: the slots of its own kind are set, to the event's
      duration, pitch, interval, chord class and chord name; every other slot keeps its
      default.  An unpitched event only gets its type; a chord symbol keeps every default. */
  ghost predicate Record(e: Element, j: nat, prev: int, f: Fingerprint, pitches: seq<seq<int>>, intervals: seq<seq<int>>) {
    var b := Blank(j);
    match e
    case Rest(dur) =>
      f == b.(eventType := RestType, rhythmRest := f.rhythmRest) && Holds(f.rhythmRest, dur)
    case Chord(dur, notes, libName) =>
      && |notes| >= 2
      && f == b.(eventType := ChordType, rhythmChord := f.rhythmChord, chordPitches := f.chordPitches,
                 chordInterval := f.chordInterval, chordName := f.chordName)
      && (if dur == 0.0 then f.rhythmChord == b.rhythmChord else Holds(f.rhythmChord, dur))
      && InClass(f.chordPitches, pitches, Sorting.SortInts(Midis(notes)))
      && InClass(f.chordInterval, intervals, ChordIntervals(Midis(notes)))
      && Holds(f.chordName, ChordCommonName(libName, ChordIntervals(Midis(notes))))
    case Note(dur, midi, name, _) =>
      && f == b.(eventType := NoteType, pitchNumber := f.pitchNumber, pitchName := f.pitchName,
                 interval := f.interval, rhythmNote := f.rhythmNote)
      && Holds(f.pitchNumber, midi) && Holds(f.pitchName, name)
      && (if prev > -1 then Holds(f.interval, Some(midi - prev)) else f.interval == b.interval)
      && (if dur == 0.0 then f.rhythmNote == b.rhythmNote else Holds(f.rhythmNote, dur))
    case Unpitched => f == b.(eventType := UnpitchedType)
    case ChordSymbol => f == b
  }

  /** The fingerprints of the first `|fps|` events. */
  ghost predicate Records(events: seq<Event>, fps: seq<Fingerprint>, pitches: seq<seq<int>>, intervals: seq<seq<int>>) {
    && |fps| <= |events|
    && forall j {:trigger fps[j]} :: 0 <= j < |fps| ==> Record(events[j].element, j, PitchBefore(events, j), fps[j], pitches, intervals)
  }

  /** Chord classes are only ever added, so a record stays true as the class lists grow. */
  lemma RecordGrows(e: Element, j: nat, prev: int, f: Fingerprint, p: seq<seq<int>>, i: seq<seq<int>>, p': seq<seq<int>>, i': seq<seq<int>>)
    requires Record(e, j, prev, f, p, i)
    requires |p| <= |p'| && p'[..|p|] == p && |i| <= |i'| && i'[..|i|] == i
    ensures Record(e, j, prev, f, p', i')
  {
    if e.Chord? {
      assert p'[f.chordPitches.key] == p'[..|p|][f.chordPitches.key];
      assert i'[f.chordInterval.key] == i'[..|i|][f.chordInterval.key];
    }
  }

  lemma RecordsExtend(events: seq<Event>, fps: seq<Fingerprint>, p: seq<seq<int>>, i: seq<seq<int>>,
                      f: Fingerprint, p': seq<seq<int>>, i': seq<seq<int>>)
    requires Records(events, fps, p, i) && |fps| < |events|
    requires |p| <= |p'| && p'[..|p|] == p && |i| <= |i'| && i'[..|i|] == i
    requires Record(events[|fps|].element, |fps|, PitchBefore(events, |fps|), f, p', i')
    ensures Records(events, fps + [f], p', i')
  {
    var fps' := fps + [f];
    forall j | 0 <= j < |fps'| ensures Record(events[j].element, j, PitchBefore(events, j), fps'[j], p', i') {
      if j < |fps| {
        RecordGrows(events[j].element, j, PitchBefore(events, j), fps[j], p, i, p', i');
      }
    }
  }

  /** Every fingerprint the pass builds is well shaped, so for them a full match is also a rhythm match as written. */
  lemma RecordWellShaped(e: Element, j: nat, prev: int, f: Fingerprint, p: seq<seq<int>>, i: seq<seq<int>>)
    requires Record(e, j, prev, f, p, i)
    ensures WellShaped(f)
  {
  }

  /** A note and a chord of one sounding duration, as the pass fingerprints them, do not
      match in rhythm as written, and do under the intended comparison. */
  lemma NoteAndChordRhythm(dur: real, midi: int, name: string, shown: bool, notes: seq<ChordNote>, libName: string,
                           j: nat, k: nat, prev: int, f: Fingerprint, g: Fingerprint, p: seq<seq<int>>, i: seq<seq<int>>)
    requires dur > 0.0
    requires Record(Note(dur, midi, name, shown), j, prev, f, p, i)
    requires Record(Chord(dur, notes, libName), k, prev, g, p, i)
    ensures !RhythmMatchAsWritten(f, g) && RhythmMatch(f, g)
  {
  }

  /** The intervals `_process_note` records while the first `n` events are read, in order. */
  function IntervalsRecorded(events: seq<Event>, n: nat): seq<int>
    requires n <= |events|
  {
    if n == 0 then []
    else IntervalsRecorded(events, n - 1) + IntervalAt(events, n - 1)
  }

  /** The interval event `j` records: a note after a remembered pitch records the step to it. */
  function IntervalAt(events: seq<Event>, j: nat): seq<int>
    requires j < |events|
  {
    var e := events[j].element;
    if e.Note? && PitchBefore(events, j) > -1 then [e.midi - PitchBefore(events, j)] else []
  }

  /** The number of elements of `s` with property `p`. */
  function Tally(s: seq<int>, p: int -> bool): nat {
    if s == [] then 0 else Tally(s[..|s| - 1], p) + One(p(s[|s| - 1]))
  }

  lemma TallySnoc(s: seq<int>, x: seq<int>)
    requires |x| <= 1
    ensures forall p :: Tally(s + x, p) == Tally(s, p) + (if x == [] then 0 else One(p(x[0])))
  {
    if x != [] {
      assert (s + x)[..|s|] == s;
    } else {
      assert s + x == s;
    }
  }

  function Abs(x: int): nat { if x < 0 then -x else x }

  function Ascending(x: int): bool { x > 0 }
  function Descending(x: int): bool { x < 0 }
  function Unison(x: int): bool { x == 0 }
  function AbsIs(a: nat): int -> bool { (x: int) => Abs(x) == a }

  /** The event tallies over a prefix grow by the next event's contribution. */
  lemma SumsSnoc(events: seq<Event>, s: nat, n: nat)
    requires s <= n < |events|
    ensures forall stat :: Sum(events[s..n + 1], stat) == Sum(events[s..n], stat) + stat(events[n].element)
    ensures forall stat :: RealSum(events[s..n + 1], stat) == RealSum(events[s..n], stat) + stat(events[n].element)
  {
    assert events[s..n + 1] == events[s..n] + [events[n]];
    forall stat: Element -> nat, rstat: Element -> real
      ensures Sum(events[s..n + 1], stat) == Sum(events[s..n], stat) + stat(events[n].element)
      ensures RealSum(events[s..n + 1], rstat) == RealSum(events[s..n], rstat) + rstat(events[n].element)
    {
      SumAppend(events[s..n], events[n], stat, rstat);
    }
  }

  /** Bar numbers of the filed spans, in filing order. */
  function Numbers(spans: seq<BarSpan>): (ns: seq<int>)
    ensures |ns| == |spans|
    ensures forall k :: 0 <= k < |spans| ==> ns[k] == spans[k].number
  {
    seq(|spans|, k requires 0 <= k < |spans| => spans[k].number)
  }

  /** A per-bar statistic (`count_accidentals_in_measures` and the like): one entry per filed bar,
      in filing order, counting `stat` over the bar's events. */
  ghost predicate BarCounts(events: seq<Event>, spans: seq<BarSpan>, d: Dict<int, nat>, stat: Element -> nat) {
    && d.Valid()
    && d.keys == Numbers(spans)
    && forall k :: 0 <= k < |spans| ==>
         && spans[k].number in d.items
         && spans[k].start <= spans[k].end <= |events|
         && d.items[spans[k].number] == Sum(events[spans[k].start..spans[k].end], stat)
  }

  lemma BarCountsSnoc(events: seq<Event>, spans: seq<BarSpan>, d: Dict<int, nat>, stat: Element -> nat, span: BarSpan)
    requires BarCounts(events, spans, d, stat)
    requires span.number !in Numbers(spans) && span.start <= span.end <= |events|
    ensures BarCounts(events, spans + [span], d.Put(span.number, Sum(events[span.start..span.end], stat)), stat)
  {
    var spans' := spans + [span];
    var d' := d.Put(span.number, Sum(events[span.start..span.end], stat));
    assert span.number !in d.items;
    assert Numbers(spans') == Numbers(spans) + [span.number];
    forall k | 0 <= k < |spans'|
      ensures spans'[k].number in d'.items && spans'[k].start <= spans'[k].end <= |events|
      ensures d'.items[spans'[k].number] == Sum(events[spans'[k].start..spans'[k].end], stat)
    {
      if k < |spans| {
        assert spans'[k] == spans[k];
        assert Numbers(spans)[k] == spans[k].number;
      }
    }
  }

  /** The sections filed under each bar number are the fingerprints of the bar's events. */
  ghost predicate BarsAre(fps: seq<Fingerprint>, spans: seq<BarSpan>, bars: map<int, seq<Fingerprint>>) {
    && (forall m :: m in bars <==> m in Numbers(spans))
    && forall k :: 0 <= k < |spans| ==>
         && spans[k].number in bars
         && spans[k].start <= spans[k].end <= |fps|
         && bars[spans[k].number] == fps[spans[k].start..spans[k].end]
  }

  lemma BarsAreSnoc(fps: seq<Fingerprint>, spans: seq<BarSpan>, bars: map<int, seq<Fingerprint>>, span: BarSpan)
    requires BarsAre(fps, spans, bars)
    requires span.number !in Numbers(spans) && span.start <= span.end <= |fps|
    ensures BarsAre(fps, spans + [span], bars[span.number := fps[span.start..span.end]])
  {
    var spans' := spans + [span];
    assert Numbers(spans') == Numbers(spans) + [span.number];
    forall k | 0 <= k < |spans| ensures spans'[k].number != span.number {
      assert Numbers(spans)[k] == spans[k].number;
    }
  }

  /** Later events do not change the bars already filed. */
  lemma BarsAreGrow(fps: seq<Fingerprint>, spans: seq<BarSpan>, bars: map<int, seq<Fingerprint>>, f: Fingerprint)
    requires BarsAre(fps, spans, bars)
    ensures BarsAre(fps + [f], spans, bars)
  {
    var fps' := fps + [f];
    forall k | 0 <= k < |spans| ensures bars[spans[k].number] == fps'[spans[k].start..spans[k].end] {
      assert fps'[spans[k].start..spans[k].end] == fps[spans[k].start..spans[k].end];
    }
  }

  /** The filed bars that hold at least one interval: what the interval registry classifies. */
  function IntervalBars(bars: map<int, seq<Fingerprint>>): map<int, seq<Fingerprint>> {
    map m | m in bars && ContainsIntervals(bars[m]) :: bars[m]
  }

  lemma IntervalBarsFile(bars: map<int, seq<Fingerprint>>, m: int, s: seq<Fingerprint>)
    requires m !in bars
    ensures IntervalBars(bars[m := s]) == if ContainsIntervals(s) then IntervalBars(bars)[m := s] else IntervalBars(bars)
  {
  }

  /** A registry's `all` holds exactly the members filed so far. */
  ghost predicate Covers<T>(r: Registry<T>, members: map<int, T>) {
    forall m :: m in r.all.items <==> m in members
  }

  /** Everything known of a registry built by filing `members` in increasing number order. */
  ghost predicate RegistryOf<T>(r: Registry<T>, eq: (T, T) -> bool, members: map<int, T>) {
    && Wf(r) && Ordered(r) && Canonical(r, eq) && Classifies(r, eq, members) && Covers(r, members)
  }

  lemma RegistryOfEmpty<T>(eq: (T, T) -> bool)
    ensures RegistryOf(EmptyRegistry(), eq, map[])
  {
  }

  /** Filing a member under a number above all filed ones keeps every property of the registry. */
  lemma RegistryOfFiled<T(!new)>(r: Registry<T>, eq: (T, T) -> bool, members: map<int, T>, x: T, m: int)
    requires RegistryOf(r, eq, members) && IsEquivalence(eq)
    requires forall k :: k in members ==> k < m
    ensures RegistryOf(Filed(r, x, m, eq), eq, members[m := x])
  {
    FiledKeepsWf(r, x, m, eq);
    FiledKeepsOrder(r, x, m, eq);
    FiledKeepsCanonical(r, x, m, eq);
    FiledKeepsClassifies(r, x, m, eq, members);
  }

  /** The three bar comparisons and the event comparison are equivalences. */
  lemma ComparisonsAreEquivalences()
    ensures IsEquivalence(BarsMatchFull) && IsEquivalence(BarsMatchRhythm) && IsEquivalence(BarsMatchIntervals)
    ensures IsEquivalence(FullMatch)
  {
    forall a, b, c ensures
      && BarsMatchFull(a, a) && (BarsMatchFull(a, b) ==> BarsMatchFull(b, a))
      && (BarsMatchFull(a, b) && BarsMatchFull(b, c) ==> BarsMatchFull(a, c))
    {
      SectionsMatchIsEquivalence(a, b, c, Full);
    }
    forall a, b, c ensures
      && BarsMatchRhythm(a, a) && (BarsMatchRhythm(a, b) ==> BarsMatchRhythm(b, a))
      && (BarsMatchRhythm(a, b) && BarsMatchRhythm(b, c) ==> BarsMatchRhythm(a, c))
    {
      SectionsMatchIsEquivalence(a, b, c, Rhythm);
    }
    forall a, b, c ensures
      && BarsMatchIntervals(a, a) && (BarsMatchIntervals(a, b) ==> BarsMatchIntervals(b, a))
      && (BarsMatchIntervals(a, b) && BarsMatchIntervals(b, c) ==> BarsMatchIntervals(a, c))
    {
      SectionsMatchIsEquivalence(a, b, c, Intervals);
    }
    forall a, b, c ensures
      && FullMatch(a, a) && (FullMatch(a, b) ==> FullMatch(b, a))
      && (FullMatch(a, b) && FullMatch(b, c) ==> FullMatch(a, c))
    {
      EventsMatchIsEquivalence(a, b, c, Full);
    }
  }

  /** The events of the first `|fps|`, by position: what the event registry classifies. */
  function Members(fps: seq<Fingerprint>): map<int, Fingerprint> {
    map j | 0 <= j < |fps| :: fps[j]
  }

  lemma MembersSnoc(fps: seq<Fingerprint>, f: Fingerprint)
    ensures Members(fps + [f]) == Members(fps)[|fps| := f]
    ensures forall k :: k in Members(fps) ==> k < |fps|
  {
  }

  /** `measure_indexes`: each bar that opened while the first `n` events were read,
      mapped to the position of its first event. */
  ghost predicate BarOpenings(events: seq<Event>, n: nat, d: Dict<int, nat>)
    requires n <= |events|
  {
    && d.Valid()
    && (forall j {:trigger OpensBar(events, j)} :: 0 <= j < n && OpensBar(events, j) ==> events[j].measure in d.items && d.items[events[j].measure] == j)
    && (forall m :: m in d.items ==> d.items[m] < n && OpensBar(events, d.items[m]) && events[d.items[m]].measure == m)
  }

  /** An event that opens no bar leaves `measure_indexes` as it is. */
  lemma BarOpeningsKeep(events: seq<Event>, n: nat, d: Dict<int, nat>)
    requires n < |events| && BarOpenings(events, n, d) && !OpensBar(events, n)
    ensures BarOpenings(events, n + 1, d)
  {
  }

  /** A bar that opens has a number above every earlier one, so it is not in `measure_indexes` yet. */
  lemma OpeningIsFresh(events: seq<Event>, n: nat, d: Dict<int, nat>)
    requires n < |events| && BarOpenings(events, n, d) && OpensBar(events, n)
    ensures events[n].measure !in d.items
  {
    forall m | m in d.items ensures m != events[n].measure {
      assert events[d.items[m]].measure <= BarBefore(events, n);
    }
  }

  /** An event that opens a bar is recorded as the bar's first event. */
  lemma BarOpeningsAdd(events: seq<Event>, n: nat, d: Dict<int, nat>)
    requires n < |events| && BarOpenings(events, n, d) && OpensBar(events, n)
    ensures BarOpenings(events, n + 1, d.Put(events[n].measure, n))
  {
    OpeningIsFresh(events, n, d);
    var m := events[n].measure;
    var d' := d.Put(m, n);
    forall j | 0 <= j < n && OpensBar(events, j) ensures events[j].measure != m {
      assert events[j].measure <= BarBefore(events, n);
    }
    OpeningsOld(events, n, d, m);
  }

  lemma OpeningsOld(events: seq<Event>, n: nat, d: Dict<int, nat>, m: int)
    requires n < |events| && BarOpenings(events, n, d) && OpensBar(events, n) && m == events[n].measure
    ensures forall k :: k in d.Put(m, n).items ==>
      d.Put(m, n).items[k] < n + 1 && OpensBar(events, d.Put(m, n).items[k]) && events[d.Put(m, n).items[k]].measure == k
  {
  }
}
