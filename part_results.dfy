/** What `set_part` computes once the pass is over: the repetition patterns of the three
    bar comparisons and the nine count lists of the attribute indexes. */
module PartResults {
  import opened Dicts
  import opened Fingerprints
  import opened Registries
  import opened PartStates
  import opened PartPass
  import opened Repetition
  import opened Wording
  import Sorting

  /** The repetition patterns of one bar comparison: the repeated-bar lists, the runs of
      repeated bars, and the repeated bars left outside every run. */
  datatype Patterns = Patterns(lists: seq<seq<int>>, groups: seq<seq<Range>>, notInGroups: Dict<int, seq<int>>)

  /** What `_calculate_all_repetition_patterns` stores for the comparison of registry `r`:
      the repeated lists of its classes (for rhythm and intervals, only bars without a
      full-match repeat), runs of the shape `calculate_measure_groups` finds, and the bars of
      the listed classes (all classes for the full match) left outside those runs. */
  ghost predicate PatternsOf<S, T>(p: Patterns, r: Registry<T>, notFullMatch: bool, full: Registry<S>)
    requires Wf(r) && (notFullMatch ==> Wf(full) && AllFiledIn(r.classes, full))
  {
    && p.lists == RepeatedLists(r.classes, notFullMatch, full)
    && (forall j :: 0 <= j < |p.groups| ==> GroupShape(r, p.groups[j]))
    && p.notInGroups == NotInGroups(if notFullMatch then p.lists else r.classes, p.groups)
  }

  /** The patterns of the full-match, rhythm-only and interval-only comparisons are those
      of the three bar registries, which are filed as the pattern calculation needs. */
  ghost predicate AllPatternsOf(fullPatterns: Patterns, rhythmPatterns: Patterns, intervalPatterns: Patterns,
                                full: Registry<seq<Fingerprint>>, rhythm: Registry<seq<Fingerprint>>,
                                intervals: Registry<seq<Fingerprint>>) {
    && RegistriesFiled(full, rhythm, intervals)
    && PatternsOf(fullPatterns, full, false, full)
    && PatternsOf(rhythmPatterns, rhythm, true, full)
    && PatternsOf(intervalPatterns, intervals, true, full)
  }

  /** The nine count lists of `_generate_count_statistics`. */
  datatype CountStatistics = CountStatistics(
    countPitches: seq<(int, int)>, countPitchNames: seq<(string, int)>, countIntervals: seq<(int, int)>,
    countChordCommonNames: seq<(string, int)>, countRhythmNote: seq<(real, int)>,
    countRhythmRest: seq<(real, int)>, countRhythmChord: seq<(real, int)>,
    countChordPitches: seq<(int, int)>, countChordIntervals: seq<(int, int)>)

  function NoCounts(): CountStatistics {
    CountStatistics([], [], [], [], [], [], [], [], [])
  }

  /** `count_dictionary(d)`: one `(key, len(list))` per key of `d`, largest count first,
      keys of equal count in key order. */
  ghost predicate CountListOf<K(!new), V>(countList: seq<(K, int)>, d: Dict<K, seq<V>>) {
    && d.Valid() && Sorting.SortedDesc(countList, CountOf) && multiset(countList) == multiset(Counts(d))
    && forall c :: Sorting.Only(countList, CountOf, c) == Sorting.Only(Counts(d), CountOf, c)
  }

  /** The nine count lists are those of the attribute indexes. */
  ghost predicate AllCountsOf(counts: CountStatistics, a: AttributeIndexes) {
    && CountListOf(counts.countPitches, a.pitchNumberDictionary)
    && CountListOf(counts.countPitchNames, a.pitchNameDictionary)
    && CountListOf(counts.countIntervals, a.intervalDictionary)
    && CountListOf(counts.countChordCommonNames, a.chordCommonNameDictionary)
    && CountListOf(counts.countRhythmNote, a.rhythmNoteDictionary)
    && CountListOf(counts.countRhythmRest, a.rhythmRestDictionary)
    && CountListOf(counts.countRhythmChord, a.rhythmChordDictionary)
    && CountListOf(counts.countChordPitches, a.chordPitchesDictionary)
    && CountListOf(counts.countChordIntervals, a.chordIntervalsDictionary)
  }

  /** The patterns of one comparison, as `_calculate_all_repetition_patterns` computes them
      for registry `r` (`notFullMatch` for the rhythm and the interval comparisons). */
  method CalculatePatterns<S, T>(r: Registry<T>, notFullMatch: bool, full: Registry<S>) returns (p: Patterns)
    requires Wf(r) && (notFullMatch ==> Wf(full) && AllFiledIn(r.classes, full))
    ensures PatternsOf(p, r, notFullMatch, full)
  {
    var lists := CalculateRepeatedMeasuresLists(r.classes, notFullMatch, full);
    var groups := CalculateMeasureGroups(r);
    var single := CalculateRepeatedMeasuresNotInGroups(if notFullMatch then lists else r.classes, groups);
    p := Patterns(lists, groups, single);
  }

  /** `_calculate_all_repetition_patterns`: the repeated lists, the runs and the repeats
      outside the runs of the full-match, rhythm-only and interval-only comparisons. */
  method CalculateAllRepetitionPatterns(full: Registry<seq<Fingerprint>>, rhythm: Registry<seq<Fingerprint>>,
                                        intervals: Registry<seq<Fingerprint>>)
    returns (fullPatterns: Patterns, rhythmPatterns: Patterns, intervalPatterns: Patterns)
    requires RegistriesFiled(full, rhythm, intervals)
    ensures AllPatternsOf(fullPatterns, rhythmPatterns, intervalPatterns, full, rhythm, intervals)
  {
    fullPatterns := CalculatePatterns(full, false, full);
    rhythmPatterns := CalculatePatterns(rhythm, true, full);
    intervalPatterns := CalculatePatterns(intervals, true, full);
  }

  /** `_generate_count_statistics` on the attribute indexes `a`, without the renaming of
      durations. */
  method GenerateCountStatistics(a: AttributeIndexes) returns (counts: CountStatistics)
    requires AttributesValid(a)
    ensures AllCountsOf(counts, a)
  {
    var pitches := CountDictionary(a.pitchNumberDictionary);
    var pitchNames := CountDictionary(a.pitchNameDictionary);
    var intervals := CountDictionary(a.intervalDictionary);
    var chordNames := CountDictionary(a.chordCommonNameDictionary);
    var rhythmNote := CountDictionary(a.rhythmNoteDictionary);
    var rhythmRest := CountDictionary(a.rhythmRestDictionary);
    var rhythmChord := CountDictionary(a.rhythmChordDictionary);
    var chordPitches := CountDictionary(a.chordPitchesDictionary);
    var chordIntervals := CountDictionary(a.chordIntervalsDictionary);
    counts := CountStatistics(pitches, pitchNames, intervals, chordNames, rhythmNote, rhythmRest, rhythmChord,
                              chordPitches, chordIntervals);
  }
}
