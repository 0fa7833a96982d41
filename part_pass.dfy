/** `set_part`'s loop, one turn at a time.

    `PassState` holds what the loop keeps between two events: the analyser's
    containers and the loop's own variables (the section being built with its
    three counts, the previous pitch and the current bar number).  `BarOpened`
    is the bar-line part of one turn, `EventRead` the event part and `Turn`
    both; `LastFiled` files the last section.  `Kept` is what the loop keeps
    after `n` turns, built from the invariants of `PartInvariants`; the `Turn...`
    lemmas show each turn keeps it. */
module PartPass {
  import opened Dicts
  import opened Fingerprints
  import opened Registries
  import opened ReverseIndexes
  import opened Events
  import opened PartSpecs
  import opened PartStates
  import opened PartSteps
  import opened PartInvariants
  import Repetition

  datatype PassState = PassState(
    fingerprints: seq<Fingerprint>, bars: map<int, seq<Fingerprint>>,
    analyseIndexes: Registry<Fingerprint>, measureIndexes: Dict<int, nat>,
    full: Registry<seq<Fingerprint>>, rhythm: Registry<seq<Fingerprint>>, intervals: Registry<seq<Fingerprint>>,
    attributes: AttributeIndexes, totals: Totals, barStatistics: BarStatistics,
    section: seq<Fingerprint>, accidentals: nat, gracenotes: nat, rests: nat,
    previous: int, currentMeasure: int)

  function NoBarStatistics(): BarStatistics {
    BarStatistics(Dict([], map[]), Dict([], map[]), Dict([], map[]))
  }

  /** A fresh analyser before the loop: empty containers, an empty section, no previous
      pitch and no bar yet (-1). */
  function Start(): PassState {
    PassState([], map[], EmptyRegistry(), Dict([], map[]), EmptyRegistry(), EmptyRegistry(), EmptyRegistry(),
              NoAttributes(), NoTotals(), NoBarStatistics(), [], 0, 0, 0, -1, -1)
  }

  /** Every registry lists one representative per class, as filing needs. */
  ghost predicate Shaped(st: PassState) {
    && |st.analyseIndexes.list| == |st.analyseIndexes.classes|
    && |st.full.list| == |st.full.classes|
    && |st.rhythm.list| == |st.rhythm.classes|
    && |st.intervals.list| == |st.intervals.classes|
  }

  /** What the `_process_*` methods look up without a default: every MIDI number and every
      chord size from 2 to 10 has its entry, and both chord tables number their lists. */
  ghost predicate Ready(st: PassState) {
    && Shaped(st)
    && (forall k :: 0 <= k < 128 ==> k in st.attributes.pitchNumberDictionary.items)
    && (forall k :: 2 <= k <= 10 ==> k in st.totals.countNotesInChords.items)
    && ClassTable(st.attributes.chordPitchesList, st.attributes.chordPitchesDictionary)
    && ClassTable(st.attributes.chordIntervalsList, st.attributes.chordIntervalsDictionary)
  }

  /** `_process_completed_measure(section, m, ...)`: the bar's counts are recorded and the bar
      is filed by full match, by rhythm and, when it holds an interval, by intervals. */
  function BarFiled(st: PassState, section: seq<Fingerprint>, m: int, accidentals: nat, gracenotes: nat, rests: nat)
    : (st': PassState)
    requires Shaped(st)
    ensures Shaped(st')
  {
    st.(barStatistics := StatsFiled(st.barStatistics, m, accidentals, gracenotes, rests),
        full := Filed(st.full, section, m, BarsMatchFull),
        rhythm := Filed(st.rhythm, section, m, BarsMatchRhythm),
        intervals := if ContainsIntervals(section) then Filed(st.intervals, section, m, BarsMatchIntervals)
                     else st.intervals,
        bars := st.bars[m := section])
  }

  /** The bar-line part of one turn: a bar number above the current one records where the
      bar opens and, when a section is open, files it under the previous bar number and
      starts an empty one with the previous pitch forgotten.  The event side is left alone. */
  function BarOpened(events: seq<Event>, n: nat, st: PassState): (st': PassState)
    requires n < |events| && Shaped(st)
    ensures Shaped(st')
    ensures st'.fingerprints == st.fingerprints && st'.attributes == st.attributes && st'.totals == st.totals
    ensures st'.analyseIndexes == st.analyseIndexes
  {
    var m := events[n].measure;
    if m > st.currentMeasure then
      var begun := st.(currentMeasure := m, measureIndexes := st.measureIndexes.Put(m, n));
      if |st.section| > 0 then
        BarFiled(begun, st.section, m - 1, st.accidentals, st.gracenotes, st.rests)
          .(section := [], previous := -1, accidentals := 0, gracenotes := 0, rests := 0)
      else begun
    else st
  }

  /** A bar line after an open section, spelt out: the bar's opening is recorded, the
      section is filed under the bar before, and a new section starts. */
  lemma BarOpenedFiles(events: seq<Event>, n: nat, st: PassState)
    requires n < |events| && Shaped(st) && events[n].measure > st.currentMeasure && |st.section| > 0
    ensures var m := events[n].measure;
            BarOpened(events, n, st) ==
            BarFiled(st.(currentMeasure := m, measureIndexes := st.measureIndexes.Put(m, n)),
                     st.section, m - 1, st.accidentals, st.gracenotes, st.rests)
              .(section := [], previous := -1, accidentals := 0, gracenotes := 0, rests := 0)
  {
  }

  /** The event part of one turn: the element's step, its fingerprint filed in the event
      registry and appended to the section, its counts added to the section's. */
  function EventRead(events: seq<Event>, n: nat, st: PassState): (st': PassState)
    requires n < |events| && Indexable(events[n].element) && Shaped(st)
    ensures Shaped(st')
  {
    var e := events[n].element;
    var (a, t, f) := Step(e, st.attributes, st.totals, Blank(n), st.previous);
    st.(fingerprints := st.fingerprints + [f], attributes := a, totals := t,
        analyseIndexes := Filed(st.analyseIndexes, f, n, FullMatch),
        section := st.section + [f],
        accidentals := st.accidentals + AccidentalStat(e),
        gracenotes := st.gracenotes + GraceStat(e),
        rests := st.rests + RestStat(e),
        previous := PitchAfter(e, st.previous))
  }

  /** No element makes the pass stop with a `KeyError`. */
  predicate AllIndexable(events: seq<Event>) {
    forall j :: 0 <= j < |events| ==> Indexable(events[j].element)
  }

  /** One turn of the loop, for event `n`. */
  function Turn(events: seq<Event>, n: nat, st: PassState): (st': PassState)
    requires n < |events| && Indexable(events[n].element) && Shaped(st)
    ensures Shaped(st')
  {
    EventRead(events, n, BarOpened(events, n, st))
  }

  /** After the loop: a non-empty last section is filed under the current bar number. */
  function LastFiled(st: PassState): (st': PassState)
    requires Shaped(st)
  {
    if |st.section| > 0 then BarFiled(st, st.section, st.currentMeasure, st.accidentals, st.gracenotes, st.rests)
    else st
  }

  /** The loop's own variables after `n` turns: the section holds the current bar's
      fingerprints with their counts (so it is empty only before the first event), the
      previous pitch is the one carried to event `n`, and the current bar number is the
      largest one seen. */
  ghost predicate SectionAt(events: seq<Event>, n: nat, st: PassState) {
    && n <= |events|
    && SectionKept(events, n, st.fingerprints, st.section, st.accidentals, st.gracenotes, st.rests)
    && (n > 0 ==> |st.section| > 0)
    && st.previous == Carried(events, n) && st.currentMeasure == BarBefore(events, n)
  }

  /** The event side after `n` turns: the indexes, totals, fingerprints and event registry
      describe the first `n` events. */
  ghost predicate EventsAt(events: seq<Event>, n: nat, st: PassState) {
    EventsKept(events, n, st.fingerprints, st.attributes, st.totals, st.analyseIndexes)
  }

  /** The bar side after `n` turns: every bar opening is recorded and every bar closed so
      far is counted, filed and classified. */
  ghost predicate BarsAt(events: seq<Event>, n: nat, st: PassState) {
    && n <= |events|
    && BarOpenings(events, n, st.measureIndexes)
    && BarsFiled(events, n, st.fingerprints, st.barStatistics, st.full, st.rhythm, st.intervals, st.bars)
  }

  /** What the loop keeps after `n` turns. */
  ghost predicate Kept(events: seq<Event>, n: nat, st: PassState) {
    Shaped(st) && SectionAt(events, n, st) && EventsAt(events, n, st) && BarsAt(events, n, st)
  }

  /** Before the loop nothing is read. */
  lemma StartKept(events: seq<Event>)
    ensures Kept(events, 0, Start())
  {
    StartSection(events);
    StartEvents(events);
    StartBars(events);
  }

  lemma StartSection(events: seq<Event>)
    ensures SectionAt(events, 0, Start())
  {
    assert events[0..0] == [];
  }

  lemma StartEvents(events: seq<Event>)
    ensures EventsAt(events, 0, Start())
  {
    EventsKeptStart(events);
  }

  lemma StartBars(events: seq<Event>)
    ensures BarsAt(events, 0, Start())
  {
    BarsFiledStart(events);
  }

  /** Each turn keeps what the loop keeps, one event further. */
  lemma TurnKept(events: seq<Event>, n: nat, st: PassState, st': PassState)
    requires n < |events| && Indexable(events[n].element) && Kept(events, n, st)
    requires st' == Turn(events, n, st)
    ensures Kept(events, n + 1, st')
  {
    TurnSection(events, n, st, st');
    TurnEvents(events, n, st, st');
    TurnBars(events, n, st, st');
  }

  /** The turn for event `n` keeps the loop's own variables those of the events read. */
  lemma TurnSection(events: seq<Event>, n: nat, st: PassState, st': PassState)
    requires n < |events| && Indexable(events[n].element) && Shaped(st) && SectionAt(events, n, st)
    requires st' == Turn(events, n, st)
    ensures SectionAt(events, n + 1, st')
  {
    OpenedSection(events, n, st);
    var barred := BarOpened(events, n, st);
    SectionNext(events, n, barred.fingerprints, barred.section, barred.accidentals, barred.gracenotes, barred.rests,
                Step(events[n].element, barred.attributes, barred.totals, Blank(n), barred.previous).2);
  }

  /** The bar-line part of a turn leaves the section open at `n` and the previous pitch
      the one event `n` is read with. */
  lemma OpenedSection(events: seq<Event>, n: nat, st: PassState)
    requires n < |events| && Shaped(st) && SectionAt(events, n, st)
    ensures var st' := BarOpened(events, n, st);
            && SectionOpen(events, n, st'.fingerprints, st'.section, st'.accidentals, st'.gracenotes, st'.rests)
            && st'.previous == PitchBefore(events, n) && st'.currentMeasure == BarBefore(events, n + 1)
  {
    SectionOpens(events, n, st.fingerprints, st.section, st.accidentals, st.gracenotes, st.rests);
  }

  /** The turn for event `n` keeps the event side. */
  lemma TurnEvents(events: seq<Event>, n: nat, st: PassState, st': PassState)
    requires n < |events| && Indexable(events[n].element) && Shaped(st)
    requires SectionAt(events, n, st) && EventsAt(events, n, st)
    requires st' == Turn(events, n, st)
    ensures EventsAt(events, n + 1, st')
  {
    OpenedPrevious(events, n, st);
    var (a, t, f) := Step(events[n].element, st.attributes, st.totals, Blank(n), PitchBefore(events, n));
    EventsKeptNext(events, n, st.fingerprints, st.attributes, st.totals, st.analyseIndexes, a, t, f);
  }

  /** The bar-line part of a turn gives event `n` the previous pitch it is read with. */
  lemma OpenedPrevious(events: seq<Event>, n: nat, st: PassState)
    requires n < |events| && Shaped(st) && SectionAt(events, n, st)
    ensures BarOpened(events, n, st).previous == PitchBefore(events, n)
  {
  }

  /** The turn for event `n` keeps the bar side. */
  lemma TurnBars(events: seq<Event>, n: nat, st: PassState, st': PassState)
    requires n < |events| && Indexable(events[n].element) && Shaped(st)
    requires SectionAt(events, n, st) && BarsAt(events, n, st)
    requires st' == Turn(events, n, st)
    ensures BarsAt(events, n + 1, st')
  {
    OpenedBars(events, n, st);
    var barred := BarOpened(events, n, st);
    var f := Step(events[n].element, barred.attributes, barred.totals, Blank(n), barred.previous).2;
    BarsFiledGrow(events, n + 1, barred.fingerprints, f, barred.barStatistics, barred.full, barred.rhythm,
                  barred.intervals, barred.bars);
  }

  /** The bar-line part of a turn records a bar that opens and files the bar it closes. */
  lemma OpenedBars(events: seq<Event>, n: nat, st: PassState)
    requires n < |events| && Shaped(st) && SectionAt(events, n, st) && BarsAt(events, n, st)
    ensures BarsAt(events, n + 1, BarOpened(events, n, st))
  {
    if OpensBar(events, n) {
      BarOpeningsAdd(events, n, st.measureIndexes);
      if n > 0 {
        BarsFiledClose(events, n, st.fingerprints, st.barStatistics, st.full, st.rhythm, st.intervals, st.bars);
      } else {
        BarsFiledSame(events, n, st.fingerprints, st.barStatistics, st.full, st.rhythm, st.intervals, st.bars);
      }
    } else {
      BarOpeningsKeep(events, n, st.measureIndexes);
      BarsFiledSame(events, n, st.fingerprints, st.barStatistics, st.full, st.rhythm, st.intervals, st.bars);
    }
  }

  /** The lookups of the `_process_*` methods succeed at every turn. */
  lemma KeptReady(events: seq<Event>, n: nat, st: PassState)
    requires Kept(events, n, st)
    ensures Ready(st)
  {
  }

  /** Once `set_part` has run: the event side describes every event, every bar opening is
      recorded, and every bar (the last one under the largest bar number) is counted, filed
      as its events' fingerprints and classified by the three comparisons. */
  ghost predicate Finished(events: seq<Event>, fps: seq<Fingerprint>, a: AttributeIndexes, t: Totals,
                           r: Registry<Fingerprint>, measureIndexes: Dict<int, nat>, stats: BarStatistics,
                           full: Registry<seq<Fingerprint>>, rhythm: Registry<seq<Fingerprint>>,
                           intervals: Registry<seq<Fingerprint>>, bars: map<int, seq<Fingerprint>>) {
    && EventsKept(events, |events|, fps, a, t, r)
    && BarOpenings(events, |events|, measureIndexes)
    && BarsDone(events, fps, stats, full, rhythm, intervals, bars)
  }

  /** What the pattern calculation needs: well-formed bar registries whose rhythm and
      interval bars are all in the full-match one. */
  ghost predicate RegistriesFiled(full: Registry<seq<Fingerprint>>, rhythm: Registry<seq<Fingerprint>>,
                                  intervals: Registry<seq<Fingerprint>>) {
    && Wf(full) && Wf(rhythm) && Wf(intervals)
    && Repetition.AllFiledIn(rhythm.classes, full) && Repetition.AllFiledIn(intervals.classes, full)
  }

  /** What the count calculation needs: the nine attribute dictionaries are valid. */
  ghost predicate AttributesValid(a: AttributeIndexes) {
    && a.pitchNumberDictionary.Valid() && a.pitchNameDictionary.Valid()
    && a.intervalDictionary.Valid() && a.chordCommonNameDictionary.Valid()
    && a.rhythmNoteDictionary.Valid() && a.rhythmRestDictionary.Valid()
    && a.rhythmChordDictionary.Valid() && a.chordPitchesDictionary.Valid()
    && a.chordIntervalsDictionary.Valid()
  }

  /** The loop's invariant at its end gives the finished analysis once the last bar is filed. */
  lemma FinishedDone(events: seq<Event>, st: PassState)
    requires Kept(events, |events|, st)
    ensures var st' := LastFiled(st);
            Finished(events, st'.fingerprints, st'.attributes, st'.totals, st'.analyseIndexes, st'.measureIndexes,
                     st'.barStatistics, st'.full, st'.rhythm, st'.intervals, st'.bars)
  {
    if |st.section| > 0 {
      BarsFiledLast(events, st.fingerprints, st.barStatistics, st.full, st.rhythm, st.intervals, st.bars);
    } else {
      BarsDoneEmpty(events, st.fingerprints, st.barStatistics, st.full, st.rhythm, st.intervals, st.bars);
    }
  }

  /** The finished analysis is what the pattern and count calculations need. */
  lemma FinishedFiled(events: seq<Event>, st: PassState)
    requires Kept(events, |events|, st)
    ensures var st' := LastFiled(st);
            RegistriesFiled(st'.full, st'.rhythm, st'.intervals) && AttributesValid(st'.attributes)
  {
    FinishedDone(events, st);
    var st' := LastFiled(st);
    BarRegistriesFiledIn(st'.full, st'.rhythm, st'.intervals, st'.bars);
  }
}
