/** What the pass over a part knows between two events, stated over values.

    The event side: the reverse indexes, the totals, the fingerprints and the
    event registry describe the events read so far.  The bar side: the per-bar
    counts, the filed sections and the three bar registries describe the bars
    closed so far.  The section side: the section being built, its counts and
    the previous pitch.  Each step lemma says that one event keeps all three. */
module PartInvariants {
  import opened Dicts
  import opened Fingerprints
  import opened Registries
  import opened Events
  import opened PartSpecs
  import opened PartStates
  import opened PartSteps
  import Repetition

  /** The event side after the first `n` events: exact reverse indexes, exact totals,
      the fingerprint each event gets, and the event registry over those fingerprints. */
  ghost predicate EventsKept(events: seq<Event>, n: nat, fps: seq<Fingerprint>, a: AttributeIndexes, t: Totals,
                             r: Registry<Fingerprint>) {
    && n <= |events| && |fps| == n
    && Reversed(a, fps)
    && Tallied(t, events, n)
    && Records(events, fps, a.chordPitchesList, a.chordIntervalsList)
    && RegistryOf(r, FullMatch, Members(fps))
  }

  lemma EventsKeptStart(events: seq<Event>)
    ensures EventsKept(events, 0, [], NoAttributes(), NoTotals(), EmptyRegistry())
  {
    ReversedStart();
    TalliedStart(events);
    EventRegistryStart();
  }

  lemma EventRegistryStart()
    ensures RegistryOf(EmptyRegistry(), FullMatch, Members([]))
  {
    RegistryOfEmpty(FullMatch);
    assert Members([]) == map[];
  }

  /** Processing the next event and filing its fingerprint in the event registry keeps the event side. */
  lemma EventsKeptNext(events: seq<Event>, n: nat, fps: seq<Fingerprint>, a: AttributeIndexes, t: Totals,
                       r: Registry<Fingerprint>, a': AttributeIndexes, t': Totals, f': Fingerprint)
    requires EventsKept(events, n, fps, a, t, r) && n < |events| && Indexable(events[n].element)
    requires (a', t', f') == Step(events[n].element, a, t, Blank(n), PitchBefore(events, n))
    ensures EventsKept(events, n + 1, fps + [f'], a', t', Filed(r, f', n, FullMatch))
  {
    StepKeepsIndexes(fps, events[n].element, a, t, a', t', f', PitchBefore(events, n));
    StepKeepsTotals(events, n, a, t, a', t', f');
    StepKeepsRecords(events, fps, a, t, a', t', f');
    MembersSnoc(fps, f');
    ComparisonsAreEquivalences();
    RegistryOfFiled(r, FullMatch, Members(fps), f', n);
  }

  /** The three per-bar counts over the filed spans. */
  ghost predicate BarStats(events: seq<Event>, spans: seq<BarSpan>, stats: BarStatistics) {
    && BarCounts(events, spans, stats.countAccidentalsInMeasures, AccidentalStat)
    && BarCounts(events, spans, stats.countGracenotesInMeasures, GraceStat)
    && BarCounts(events, spans, stats.countRestsInMeasures, RestStat)
  }

  /** The per-bar counts once bar `m` is recorded with its counts. */
  function StatsFiled(stats: BarStatistics, m: int, accidentals: nat, gracenotes: nat, rests: nat): BarStatistics {
    BarStatistics(stats.countAccidentalsInMeasures.Put(m, accidentals),
                  stats.countGracenotesInMeasures.Put(m, gracenotes),
                  stats.countRestsInMeasures.Put(m, rests))
  }

  lemma BarStatsSnoc(events: seq<Event>, spans: seq<BarSpan>, stats: BarStatistics, span: BarSpan)
    requires BarStats(events, spans, stats)
    requires span.number !in Numbers(spans) && span.start <= span.end <= |events|
    ensures BarStats(events, spans + [span],
                     StatsFiled(stats, span.number, Sum(events[span.start..span.end], AccidentalStat),
                                Sum(events[span.start..span.end], GraceStat), Sum(events[span.start..span.end], RestStat)))
  {
    BarCountsSnoc(events, spans, stats.countAccidentalsInMeasures, AccidentalStat, span);
    BarCountsSnoc(events, spans, stats.countGracenotesInMeasures, GraceStat, span);
    BarCountsSnoc(events, spans, stats.countRestsInMeasures, RestStat, span);
  }

  /** The three bar registries classify the filed bars: every bar by full match and by
      rhythm, the bars holding an interval by intervals. */
  ghost predicate BarRegistries(full: Registry<seq<Fingerprint>>, rhythm: Registry<seq<Fingerprint>>,
                                intervals: Registry<seq<Fingerprint>>, bars: map<int, seq<Fingerprint>>) {
    && RegistryOf(full, BarsMatchFull, bars)
    && RegistryOf(rhythm, BarsMatchRhythm, bars)
    && RegistryOf(intervals, BarsMatchIntervals, IntervalBars(bars))
  }

  lemma BarRegistriesStart()
    ensures BarRegistries(EmptyRegistry(), EmptyRegistry(), EmptyRegistry(), map[])
  {
    RegistryOfEmpty(BarsMatchFull);
    RegistryOfEmpty(BarsMatchRhythm);
    RegistryOfEmpty(BarsMatchIntervals);
    assert IntervalBars(map[]) == map[];
  }

  /** Before any event no bar is closed, counted or filed. */
  lemma BarsFiledStart(events: seq<Event>)
    ensures var none := Dict([], map[]);
            BarsFiled(events, 0, [], BarStatistics(none, none, none), EmptyRegistry(), EmptyRegistry(), EmptyRegistry(), map[])
  {
    var none: Dict<int, nat> := Dict([], map[]);
    assert Closed(events, 0) == [];
    assert BarStats(events, [], BarStatistics(none, none, none));
    BarRegistriesStart();
  }

  /** `_process_completed_measure`'s filing, under a number above every filed bar, keeps
      the three registries true to the bars; a bar without an interval skips the third. */
  lemma BarRegistriesFiled(full: Registry<seq<Fingerprint>>, rhythm: Registry<seq<Fingerprint>>,
                           intervals: Registry<seq<Fingerprint>>, bars: map<int, seq<Fingerprint>>,
                           section: seq<Fingerprint>, m: int)
    requires BarRegistries(full, rhythm, intervals, bars)
    requires forall k :: k in bars ==> k < m
    ensures BarRegistries(Filed(full, section, m, BarsMatchFull), Filed(rhythm, section, m, BarsMatchRhythm),
                          if ContainsIntervals(section) then Filed(intervals, section, m, BarsMatchIntervals) else intervals,
                          bars[m := section])
  {
    ComparisonsAreEquivalences();
    RegistryOfFiled(full, BarsMatchFull, bars, section, m);
    RegistryOfFiled(rhythm, BarsMatchRhythm, bars, section, m);
    IntervalBarsFile(bars, m, section);
    if ContainsIntervals(section) {
      RegistryOfFiled(intervals, BarsMatchIntervals, IntervalBars(bars), section, m);
    }
  }

  /** Every bar in the rhythm and interval registries is in the full-match registry, as
      `calculate_repeated_measures_lists` needs when it looks a bar's full-match class up. */
  lemma BarRegistriesFiledIn(full: Registry<seq<Fingerprint>>, rhythm: Registry<seq<Fingerprint>>,
                             intervals: Registry<seq<Fingerprint>>, bars: map<int, seq<Fingerprint>>)
    requires BarRegistries(full, rhythm, intervals, bars)
    ensures Repetition.AllFiledIn(rhythm.classes, full) && Repetition.AllFiledIn(intervals.classes, full)
  {
    forall c, o | 0 <= c < |rhythm.classes| && 0 <= o < |rhythm.classes[c]| ensures rhythm.classes[c][o] in full.all.items {
      assert rhythm.classes[c][o] in rhythm.all.items;
    }
    forall c, o | 0 <= c < |intervals.classes| && 0 <= o < |intervals.classes[c]| ensures intervals.classes[c][o] in full.all.items {
      assert intervals.classes[c][o] in intervals.all.items;
    }
  }

  /** The bar side after the first `n` events: the bars closed so far are counted, filed
      as their events' fingerprints, and classified. */
  ghost predicate BarsFiled(events: seq<Event>, n: nat, fps: seq<Fingerprint>, stats: BarStatistics,
                            full: Registry<seq<Fingerprint>>, rhythm: Registry<seq<Fingerprint>>,
                            intervals: Registry<seq<Fingerprint>>, bars: map<int, seq<Fingerprint>>)
    requires n <= |events|
  {
    && BarStats(events, Closed(events, n), stats)
    && BarsAre(fps, Closed(events, n), bars)
    && BarRegistries(full, rhythm, intervals, bars)
  }

  /** With every bar filed: the bar side once the last section is filed too. */
  ghost predicate BarsDone(events: seq<Event>, fps: seq<Fingerprint>, stats: BarStatistics,
                           full: Registry<seq<Fingerprint>>, rhythm: Registry<seq<Fingerprint>>,
                           intervals: Registry<seq<Fingerprint>>, bars: map<int, seq<Fingerprint>>) {
    && BarStats(events, AllBars(events), stats)
    && BarsAre(fps, AllBars(events), bars)
    && BarRegistries(full, rhythm, intervals, bars)
  }

  /** An event that closes no bar leaves the bar side as it is. */
  lemma BarsFiledSame(events: seq<Event>, n: nat, fps: seq<Fingerprint>, stats: BarStatistics,
                      full: Registry<seq<Fingerprint>>, rhythm: Registry<seq<Fingerprint>>,
                      intervals: Registry<seq<Fingerprint>>, bars: map<int, seq<Fingerprint>>)
    requires n < |events| && (n == 0 || !OpensBar(events, n))
    requires BarsFiled(events, n, fps, stats, full, rhythm, intervals, bars)
    ensures BarsFiled(events, n + 1, fps, stats, full, rhythm, intervals, bars)
  {
    assert Closed(events, n + 1) == Closed(events, n);
  }

  /** The bars closed before `n` are numbered below the bar a new opening at `n` files. */
  lemma ClosedBelow(events: seq<Event>, n: nat, fps: seq<Fingerprint>, bars: map<int, seq<Fingerprint>>)
    requires 0 < n < |events| && OpensBar(events, n) && BarsAre(fps, Closed(events, n), bars)
    ensures events[n].measure - 1 !in Numbers(Closed(events, n))
    ensures forall k :: k in bars ==> k < events[n].measure - 1
  {
    ClosedTile(events, n);
    var spans := Closed(events, n);
    forall k | 0 <= k < |spans| ensures Numbers(spans)[k] < events[n].measure - 1 {
    }
  }

  /** An event opening a bar after the first files the section before it, numbered one
      below the new bar, with its counts. */
  lemma BarsFiledClose(events: seq<Event>, n: nat, fps: seq<Fingerprint>, stats: BarStatistics,
                       full: Registry<seq<Fingerprint>>, rhythm: Registry<seq<Fingerprint>>,
                       intervals: Registry<seq<Fingerprint>>, bars: map<int, seq<Fingerprint>>)
    requires 0 < n < |events| && OpensBar(events, n) && |fps| == n
    requires BarsFiled(events, n, fps, stats, full, rhythm, intervals, bars)
    ensures var m := events[n].measure - 1;
            var s := BarStart(events, n - 1);
            var section := fps[s..n];
            BarsFiled(events, n + 1, fps,
                      StatsFiled(stats, m, Sum(events[s..n], AccidentalStat), Sum(events[s..n], GraceStat),
                                 Sum(events[s..n], RestStat)),
                      Filed(full, section, m, BarsMatchFull), Filed(rhythm, section, m, BarsMatchRhythm),
                      if ContainsIntervals(section) then Filed(intervals, section, m, BarsMatchIntervals) else intervals,
                      bars[m := section])
  {
    var m := events[n].measure - 1;
    var span := BarSpan(m, BarStart(events, n - 1), n);
    assert Closed(events, n + 1) == Closed(events, n) + [span];
    ClosedBelow(events, n, fps, bars);
    BarStatsSnoc(events, Closed(events, n), stats, span);
    BarsAreSnoc(fps, Closed(events, n), bars, span);
    BarRegistriesFiled(full, rhythm, intervals, bars, fps[span.start..n], m);
  }

  /** Later fingerprints leave the filed bars as they are. */
  lemma BarsFiledGrow(events: seq<Event>, n: nat, fps: seq<Fingerprint>, f: Fingerprint, stats: BarStatistics,
                      full: Registry<seq<Fingerprint>>, rhythm: Registry<seq<Fingerprint>>,
                      intervals: Registry<seq<Fingerprint>>, bars: map<int, seq<Fingerprint>>)
    requires n <= |events| && BarsFiled(events, n, fps, stats, full, rhythm, intervals, bars)
    ensures BarsFiled(events, n, fps + [f], stats, full, rhythm, intervals, bars)
  {
    BarsAreGrow(fps, Closed(events, n), bars, f);
  }

  /** Filing the last section under the largest bar number completes the bars. */
  lemma BarsFiledLast(events: seq<Event>, fps: seq<Fingerprint>, stats: BarStatistics,
                      full: Registry<seq<Fingerprint>>, rhythm: Registry<seq<Fingerprint>>,
                      intervals: Registry<seq<Fingerprint>>, bars: map<int, seq<Fingerprint>>)
    requires |events| > 0 && |fps| == |events|
    requires BarsFiled(events, |events|, fps, stats, full, rhythm, intervals, bars)
    ensures var n := |events|;
            var m := BarBefore(events, n);
            var s := BarStart(events, n - 1);
            var section := fps[s..n];
            BarsDone(events, fps,
                     StatsFiled(stats, m, Sum(events[s..n], AccidentalStat), Sum(events[s..n], GraceStat),
                                Sum(events[s..n], RestStat)),
                     Filed(full, section, m, BarsMatchFull), Filed(rhythm, section, m, BarsMatchRhythm),
                     if ContainsIntervals(section) then Filed(intervals, section, m, BarsMatchIntervals) else intervals,
                     bars[m := section])
  {
    var n := |events|;
    var m := BarBefore(events, n);
    var span := BarSpan(m, BarStart(events, n - 1), n);
    var spans := Closed(events, n);
    assert AllBars(events) == spans + [span];
    LastBelow(events, fps, bars);
    BarStatsSnoc(events, spans, stats, span);
    BarsAreSnoc(fps, spans, bars, span);
    BarRegistriesFiled(full, rhythm, intervals, bars, fps[span.start..n], m);
  }

  /** The closed bars are numbered below the largest bar number, under which the last one is filed. */
  lemma LastBelow(events: seq<Event>, fps: seq<Fingerprint>, bars: map<int, seq<Fingerprint>>)
    requires |events| > 0 && BarsAre(fps, Closed(events, |events|), bars)
    ensures BarBefore(events, |events|) !in Numbers(Closed(events, |events|))
    ensures forall k :: k in bars ==> k < BarBefore(events, |events|)
  {
    var n := |events|;
    ClosedTile(events, n);
    var spans := Closed(events, n);
    forall k | 0 <= k < |spans| ensures Numbers(spans)[k] < BarBefore(events, n) {
    }
  }

  /** With no events there is no bar to file. */
  lemma BarsDoneEmpty(events: seq<Event>, fps: seq<Fingerprint>, stats: BarStatistics,
                      full: Registry<seq<Fingerprint>>, rhythm: Registry<seq<Fingerprint>>,
                      intervals: Registry<seq<Fingerprint>>, bars: map<int, seq<Fingerprint>>)
    requires events == [] && BarsFiled(events, 0, fps, stats, full, rhythm, intervals, bars)
    ensures BarsDone(events, fps, stats, full, rhythm, intervals, bars)
  {
  }

  /** Where the section being built begins once the first `n` events are read. */
  function SectionStart(events: seq<Event>, n: nat): (s: nat)
    requires n <= |events|
    ensures s <= n && (n > 0 ==> s < n)
  {
    if n == 0 then 0 else BarStart(events, n - 1)
  }

  /** `previous_note_pitch` once the first `n` events are read, before any bar line at `n`. */
  function Carried(events: seq<Event>, n: nat): int
    requires n <= |events|
  {
    if n == 0 then -1 else PitchAfter(events[n - 1].element, PitchBefore(events, n - 1))
  }

  /** The section being built holds the fingerprints of the current bar's events read so far,
      with their displayed accidentals, grace notes and rests counted. */
  ghost predicate SectionKept(events: seq<Event>, n: nat, fps: seq<Fingerprint>, section: seq<Fingerprint>,
                              accidentals: nat, gracenotes: nat, rests: nat)
    requires n <= |events|
  {
    var s := SectionStart(events, n);
    && |fps| == n && section == fps[s..n]
    && accidentals == Sum(events[s..n], AccidentalStat)
    && gracenotes == Sum(events[s..n], GraceStat)
    && rests == Sum(events[s..n], RestStat)
  }

  /** The section state just before event `n` is read, once a bar line at `n` is handled. */
  ghost predicate SectionOpen(events: seq<Event>, n: nat, fps: seq<Fingerprint>, section: seq<Fingerprint>,
                              accidentals: nat, gracenotes: nat, rests: nat)
    requires n < |events|
  {
    var s := BarStart(events, n);
    && |fps| == n && section == fps[s..n]
    && accidentals == Sum(events[s..n], AccidentalStat)
    && gracenotes == Sum(events[s..n], GraceStat)
    && rests == Sum(events[s..n], RestStat)
  }

  /** Without a bar line at `n` the section goes on; with one it starts empty at `n`. */
  lemma SectionOpens(events: seq<Event>, n: nat, fps: seq<Fingerprint>, section: seq<Fingerprint>,
                     accidentals: nat, gracenotes: nat, rests: nat)
    requires n < |events| && SectionKept(events, n, fps, section, accidentals, gracenotes, rests)
    ensures !OpensBar(events, n) || n == 0 ==> SectionOpen(events, n, fps, section, accidentals, gracenotes, rests)
    ensures OpensBar(events, n) ==> SectionOpen(events, n, fps, [], 0, 0, 0)
    ensures (n == 0 || !OpensBar(events, n) ==> Carried(events, n) == PitchBefore(events, n))
  {
    if OpensBar(events, n) {
      assert events[n..n] == [];
    }
  }

  /** Reading event `n` appends its fingerprint to the section and adds its counts. */
  lemma SectionNext(events: seq<Event>, n: nat, fps: seq<Fingerprint>, section: seq<Fingerprint>,
                    accidentals: nat, gracenotes: nat, rests: nat, f: Fingerprint)
    requires n < |events| && SectionOpen(events, n, fps, section, accidentals, gracenotes, rests)
    ensures var e := events[n].element;
            SectionKept(events, n + 1, fps + [f], section + [f], accidentals + AccidentalStat(e),
                        gracenotes + GraceStat(e), rests + RestStat(e))
  {
    var s := BarStart(events, n);
    SumsSnoc(events, s, n);
    assert (fps + [f])[s..n + 1] == fps[s..n] + [f];
  }
}
