# Talking Scores analyser, selection masks and MIDI naming in Dafny

Talking Scores turns a MusicXML score into a spoken-word description for blind and
partially sighted musicians. This project models three of its pieces:

- the part analyser of `lib/musicAnalyser.py`, which reads one part and describes its
  repetitions;
- the score-side bookkeeping of `lib/talkingscoreslib.py`, which groups instruments,
  names parts, builds the selection and play-option masks, speaks octaves and
  accidentals, and describes key signatures;
- the MIDI handler of `lib/midiHandler.py`, which decodes those masks, maps
  instruments to parts and names the MIDI file.

### The part analyser

The analyser makes one pass over a part's notes, chords and rests. For every event it
builds a fingerprint (`AnalyseIndex`). For every value of every attribute it keeps a
reverse index listing the events that carry it: MIDI number, pitch name, interval,
chord class, chord name and the three kinds of duration. It also keeps the counters.

Bars, as lists of fingerprints, go into three registries, one per comparison:

- full match;
- rhythm only;
- intervals only (only bars that hold an interval).

Each registry keeps three things:

- the list of canonical bars;
- for every class, the bars filed under it, in order;
- for every bar, its class and its position in that class.

From the registries the analyser finds its patterns:

- repeated-bar lists;
- greedy runs of bars that come back at a fixed distance (measure groups);
- repeats outside those runs;
- immediate repeats.

It then words them: the percentage phrases, the repetition summary, and the
per-bar context notes.

### Modules

| module | file | models |
|---|---|---|
| `Events` | `events.dfy` | the part as a sequence of events stamped with bar numbers, and the arithmetic of bar openings and previous pitches |
| `Fingerprints` | `fingerprints.dfy` | `AnalyseIndex`, `AnalyseSection` and the comparators, plus the chord helpers |
| `ReverseIndexes` | `indexes.dfy` | the reverse indexes and chord-class tables |
| `Registries` | `registry.dfy` | the canonical-class registries |
| `PartStates`, `PartSpecs`, `PartSteps`, `PartPass`, `PartInvariants` | `part_*.dfy` | the state of the `set_part` pass, and what each turn of it keeps |
| `PartResults` | `part_results.dfy` | the repetition patterns and count lists computed after the pass |
| `AnalyseParts` | `analyse_part.dfy` | the `AnalysePart` class, whose methods update its fields as the source does |
| `Repetition` | `repetition.dfy` | repetition detection |
| `Wording` | `wording.dfy` | wording helpers and `_summarise_musical_changes` |
| `Context` | `context.dfy` | the context notes and the repetition summary |
| `Bitmasks` | `bitmask.dfy` | the flag encoding shared by the score page and the MIDI handler |
| `TalkingScore` | `talking_score.dfy` | `get_instruments`, part naming, the selection mask, play-option rules, octave rule, accidental memory and key signatures |
| `MidiHandler`, `MidiNames` | `midi_handler.dfy`, `midi_names.dfy` | the MIDI handler |
| `Dicts` | `dicts.dfy` | an insertion-ordered Python `dict` |
| `Sorting` | `sorting.dfy` | `sorted` |
| `Text` | `text.dfy` | `str()`, `capitalize` and `replace` |
| `Wrappers` | `wrappers.dfy` | `Option` |

Where the source mutates objects, the model does too:

- `AnalysePart`, `Score`, `PlaybackSettings`, `AccidentalMemory` and `Handler` are
  classes whose methods modify their fields.
- Loops are methods with invariants, proved against specification functions, and
  lemmas state the properties of those functions.

## Model

| member | source | states |
|---|---|---|
| Fingerprints.Blank | lib/musicAnalyser.py:39-62 | a fresh fingerprint has no type, no interval, no duration and empty names |
| Fingerprints.CompareSections | lib/musicAnalyser.py:389-412 | two sections compare equal exactly when they have the same length and every aligned pair of events matches under the chosen policy |
| Fingerprints.EventsMatchIsEquivalence | lib/musicAnalyser.py:414-482 | each of the full, rhythm and interval event comparisons is reflexive, symmetric and transitive; in the interval comparison all non-note events are equal |
| Fingerprints.SectionsMatchIsEquivalence | lib/musicAnalyser.py:389-412 | bar comparison under each policy is an equivalence |
| Fingerprints.FullImpliesRhythmAsWritten | lib/musicAnalyser.py:433-482 | as written, for well-shaped fingerprints a full match implies a rhythm match |
| Fingerprints.RhythmAsWrittenSplitsNoteAndChord | lib/musicAnalyser.py:433-455 | for well-shaped fingerprints the written rhythm comparison agrees with the intended one except on a note against a chord, which it matches only when both are grace events |
| Fingerprints.RhythmMatchInterchangeable | lib/musicAnalyser.py:433-455 | under the intended rhythm comparison a note matches a chord exactly when their durations agree |
| Fingerprints.FullImpliesRhythm | lib/musicAnalyser.py:433-482 | under the intended rhythm comparison a full match implies a rhythm match for any fingerprints |
| Fingerprints.SectionsFullImpliesRhythm | lib/musicAnalyser.py:389-482 | bars that fully match also match in rhythm, so the rhythm registry never splits a full-match class |
| Fingerprints.FullWithoutShapeIsNotRhythmAsWritten | lib/musicAnalyser.py:433-482 | without the shape invariant the written implication fails: a note with a stray chord duration fully matches a plain note but not in rhythm |
| Fingerprints.IndexOf | lib/musicAnalyser.py:528-558 | `find_chord`/`find_chord_intervals` return the first position holding the value, or -1 exactly when it is absent |
| Fingerprints.ChordIntervalsAsWrittenDependOnOrder | lib/musicAnalyser.py:560-572 | as written, the intervals of C-E-G written root first are [4, 7] and written E-C-G are [-4, 3] |
| Fingerprints.ChordIntervals | lib/musicAnalyser.py:560-572 | the intervals above the lowest pitch: one fewer than the pitches, none negative, ascending |
| Fingerprints.ChordIntervalsIgnoreOrder | lib/musicAnalyser.py:560-572 | two chords with the same pitches in any order get the same interval structure |
| Fingerprints.ChordCommonName | lib/musicAnalyser.py:1808-1827 | [5, 7] is named "Suspended 4th", [2, 7] "Suspended 2nd", any other structure keeps the library's name |
| Fingerprints.SuspendedFourthInAnyOrder | lib/musicAnalyser.py:1808-1827 | a suspended fourth is named so however its three notes are written down |
| Sorting.SortedUnique | lib/musicAnalyser.py:1771-1777 | only one ascending arrangement of a multiset exists, so the sorted pitch list of a chord names its pitches whatever their order |
| Sorting.SortDescStable | lib/musicAnalyser.py:2049 | `sort(key=..., reverse=True)` is stable: the elements of any one key keep their input order |
| Sorting.SortInts | lib/musicAnalyser.py:1773 | `sorted` of the chord's MIDI numbers is ascending and a permutation of them |
| ReverseIndexes.Position | lib/musicAnalyser.py:528-543 | the first position of a value, or the length when absent, with no earlier occurrence |
| ReverseIndexes.RegisteredKeepsTable | lib/musicAnalyser.py:1771-1787 | registering a chord class keeps the classes distinct and numbered, gives the chord class number `Position(list, x)`, and adds the dictionary key of a new class |
| ReverseIndexes.IndexesAppend | lib/musicAnalyser.py:1761-1764 | appending an event to the list of its value, with the list's old length as its ordinal, keeps each index sound, ordered and complete |
| ReverseIndexes.IndexesSkip | lib/musicAnalyser.py:1757-1758 | an event whose slot stays unset (a grace chord's duration) leaves the index as it is |
| Registries.FirstMatch | lib/musicAnalyser.py:496-526 | the first listed position matching the target, no earlier match, and -1 exactly when nothing matches |
| Registries.FindSection | lib/musicAnalyser.py:496-526 | the linear scan of `find_section`/`find_analyse_index` returns `FirstMatch` |
| Registries.AddToRegistry | lib/musicAnalyser.py:1945-1969 | after filing bar m, `dict[all[m][0]][all[m][1]] == m`, list and dict have equal length, m's class representative matches it, and a class is opened exactly when nothing listed matches |
| Registries.FiledKeepsWf | lib/musicAnalyser.py:1945-1969 | filing keeps the class dictionary and `all` pointing at each other |
| Registries.FiledKeepsOrder | lib/musicAnalyser.py:1945-1969 | filing a number above every filed number keeps every class in increasing order |
| Registries.FiledKeepsCanonical | lib/musicAnalyser.py:1958-1965 | no two representatives match: the first-seen member of a class is its canonical one |
| Registries.FiledKeepsClassifies | lib/musicAnalyser.py:1958-1969 | every filed member matches the representative of its class |
| Registries.SameClassIffMatch | lib/musicAnalyser.py:1945-1969 | in a registry built over an equivalence, two filed members share a class exactly when they match |
| Events.BarBefore | lib/musicAnalyser.py:1657-1667 | `current_measure` after i events: the largest bar number seen, or -1 |
| Events.PitchBeforeIsLastNote | lib/musicAnalyser.py:1679-1709 | the previous pitch is that of the last note when only chord symbols follow it within its bar, and -1 after a rest, chord, unpitched event or bar line |
| Events.AllBarsTile | lib/musicAnalyser.py:1664-1721 | the filed bars cover every event exactly once, in order, under strictly increasing numbers |
| Events.ConsecutiveBarsKeepNumbers | lib/musicAnalyser.py:1672-1674 | with consecutive bar numbers every bar is filed under the number its events carry |
| Events.SkippedBarShiftsNumber | lib/musicAnalyser.py:1672-1674 | a skipped bar number shifts the bar before it: bar 1 followed by bar 3 files bar 1's events under 2 |
| PartStates.PitchTable | lib/musicAnalyser.py:311-328 | the pitch table has an empty list for each MIDI number 0..127 and no other key |
| PartStates.ChordSizeTable | lib/musicAnalyser.py:330-363 | the chord-size table has a zero count for each size 2..10 and no other key |
| PartStates.CountedAbs | lib/musicAnalyser.py:1870-1882 | a step under two octaves adds one to the count of its absolute size |
| PartStates.ReversedNext | lib/musicAnalyser.py:1745-1895 | entering the next event's fingerprint keeps every reverse index exact |
| PartStates.TalliedNext | lib/musicAnalyser.py:1731-1895 | adding the next event's contribution keeps every total equal to its tally over the events read |
| PartSpecs.RecordWellShaped | lib/musicAnalyser.py:1731-1895 | every fingerprint the pass builds is well shaped |
| PartSpecs.NoteAndChordRhythm | lib/musicAnalyser.py:433-455 | a note and a chord of one sounding duration, as the pass fingerprints them, do not rhythm-match as written and do under the intended comparison |
| PartSpecs.ComparisonsAreEquivalences | lib/musicAnalyser.py:414-482 | the three bar comparisons and the event comparison are equivalences |
| PartSpecs.RegistryOfFiled | lib/musicAnalyser.py:1945-1969 | filing under a number above all filed ones keeps a registry well formed, ordered, canonical and classifying |
| PartSpecs.BarOpeningsAdd | lib/musicAnalyser.py:1666-1668 | a bar that opens is recorded in `measure_indexes` under its number with its first event |
| PartSteps.StepKeepsIndexes | lib/musicAnalyser.py:1685-1709 | one element's step keeps every attribute index exact |
| PartSteps.StepKeepsTotals | lib/musicAnalyser.py:1685-1709 | one element's step keeps every total true to its name |
| PartSteps.StepKeepsRecords | lib/musicAnalyser.py:1685-1709 | one element's step gives the event the fingerprint of its kind, and the class lists only grow |
| PartPass.BarOpenedFiles | lib/musicAnalyser.py:1666-1682 | a bar line after an open section records the opening, files the section under the bar before and starts a new section with the previous pitch forgotten |
| PartPass.TurnKept | lib/musicAnalyser.py:1664-1714 | each turn of the loop keeps the loop invariant, one event further |
| PartPass.FinishedDone | lib/musicAnalyser.py:1717-1721 | filing the last section under the current bar number completes the analysis |
| PartInvariants.BarRegistriesFiled | lib/musicAnalyser.py:1909-1943 | filing a bar keeps the three registries true to the bars; a bar without an interval skips the interval registry |
| PartInvariants.BarRegistriesFiledIn | lib/musicAnalyser.py:1909-1943 | every bar in the rhythm and interval registries is also in the full-match registry |
| PartInvariants.BarsFiledClose | lib/musicAnalyser.py:1671-1675 | a bar opening after the first files the section before it, numbered one below the new bar, with its counts |
| AnalyseParts.CheckIndexable | lib/musicAnalyser.py:311-363 | reports whether every element can be indexed without a `KeyError` |
| AnalyseParts.CountShownAccidentals | lib/musicAnalyser.py:1797-1800 | the number of chord pitches whose accidental is displayed |
| AnalyseParts.FileChordClass | lib/musicAnalyser.py:1771-1787 | the class number is the value's first position; a new class is listed and gets a list; the event is appended to its class; the table stays numbered |
| AnalyseParts.IndexChordClasses | lib/musicAnalyser.py:1771-1794 | the chord is filed under its sorted pitches, its interval structure and its common name, with each slot's ordinal its list's old length |
| AnalyseParts.AnalysePart.constructor | lib/musicAnalyser.py:269-363 | every container of a new analyser is empty and every total zero |
| AnalyseParts.AnalysePart.ProcessRest | lib/musicAnalyser.py:1731-1743 | the rest's step: its duration is indexed and the rest counted |
| AnalyseParts.AnalysePart.ProcessChord | lib/musicAnalyser.py:1745-1806 | the chord's step on the indexes, fingerprint and totals; returns the displayed accidentals |
| AnalyseParts.AnalysePart.ProcessNote | lib/musicAnalyser.py:1829-1895 | the note's step on the indexes, fingerprint and totals; returns its MIDI number, the next previous pitch |
| AnalyseParts.AnalysePart.AddToAnalysisIndexes | lib/musicAnalyser.py:1897-1907 | the event is filed in the event registry under the full-match comparison |
| AnalyseParts.AnalysePart.ProcessCompletedMeasure | lib/musicAnalyser.py:1909-1943 | the bar's counts are recorded under its number; it is filed by full match and rhythm, and by intervals exactly when it holds an interval |
| AnalyseParts.AnalysePart.ReadElement | lib/musicAnalyser.py:1685-1709 | processes the element by its kind and returns its accidentals, grace notes, rests and the next previous pitch |
| AnalyseParts.AnalysePart.CloseBar | lib/musicAnalyser.py:1666-1675 | records the bar opening and files the section under the bar before |
| AnalyseParts.AnalysePart.OpenBar | lib/musicAnalyser.py:1666-1682 | the bar-line part of one turn |
| AnalyseParts.AnalysePart.ReadEvent | lib/musicAnalyser.py:1685-1714 | the event part of one turn: processed, filed in the event registry, appended to the section |
| AnalyseParts.AnalysePart.ReadNext | lib/musicAnalyser.py:1664-1714 | one turn of the loop |
| AnalyseParts.AnalysePart.FinishPart | lib/musicAnalyser.py:1717-1721 | a non-empty last section is filed under the current bar number |
| AnalyseParts.AnalysePart.ConcludePart | lib/musicAnalyser.py:1717-1729 | files the last bar, then computes the patterns of the three registries and the count lists of the indexes |
| AnalyseParts.AnalysePart.ReadPart | lib/musicAnalyser.py:1643-1729 | afterwards the indexes, totals, registries and per-bar counts describe the events and their bars, and the patterns and counts are those of the registries and indexes |
| AnalyseParts.AnalysePart.SetPart | lib/musicAnalyser.py:1643-1729 | an indexable part is analysed completely; otherwise false is returned and the analyser is left untouched |
| PartResults.CalculatePatterns | lib/musicAnalyser.py:1971-2004 | one comparison's repeated lists, runs and repeats outside the runs |
| PartResults.CalculateAllRepetitionPatterns | lib/musicAnalyser.py:1971-2004 | the patterns of the full-match, rhythm and interval comparisons, the latter two filtered by full-match uniqueness |
| PartResults.GenerateCountStatistics | lib/musicAnalyser.py:2006-2017 | the nine count lists are those of the nine attribute dictionaries: largest count first, a permutation of the key counts, keys of equal count in dictionary order |
| Repetition.NextUseIsNextOccurrence | lib/musicAnalyser.py:574-596 | the next use of a bar is the following entry of its class, -1 when it is unfiled or last; in an ordered registry it is the nearest later bar of that class |
| Repetition.UsedAtNeedsBoth | lib/musicAnalyser.py:615-630 | `is_measure_used_at` is false when either bar is not filed |
| Repetition.FindMeasureGroup | lib/musicAnalyser.py:631-646 | the first group holding the range, or -1 exactly when none does |
| Repetition.InMeasureGroups | lib/musicAnalyser.py:704-719 | whether the bar lies inside some recorded range |
| Repetition.RunLength | lib/musicAnalyser.py:769-777 | the run below `gap` whose bars each repeat `gap` later, and the next bar does not |
| Repetition.RecordRun | lib/musicAnalyser.py:780-796 | the run and its repeat are recorded in one group, an existing one or a new one, and every group keeps its shape |
| Repetition.CalculateMeasureGroups | lib/musicAnalyser.py:740-799 | every recorded group has at least two occurrences of equal length of at least two bars, later ones after the first, bar for bar in the first one's classes |
| Repetition.GroupRangesDisjoint | lib/musicAnalyser.py:764-796 | a recorded range spans at least two bars and its repeat does not overlap the first occurrence |
| Repetition.RepeatedListsAreClasses | lib/musicAnalyser.py:648-675 | every repeated list has more than one bar, all of one class; with `not_full_match` each kept bar is alone in its full-match class |
| Repetition.CalculateRepeatedMeasuresLists | lib/musicAnalyser.py:648-675 | the loop computes `RepeatedLists` |
| Repetition.NotInGroupsIsExclusive | lib/musicAnalyser.py:677-702 | no key or listed bar lies inside a range, every list is non-empty, and key and list are the bars of one input list outside the ranges |
| Repetition.CalculateRepeatedMeasuresNotInGroups | lib/musicAnalyser.py:677-702 | the loop computes `NotInGroups` |
| Repetition.DescribeImmediateRepetition | lib/musicAnalyser.py:364-387 | a bar gets a note exactly when its predecessor is a bar sharing its full-match or rhythm class; "same as previous" when full match, else "same rhythm" |
| Wording.DescribeRepetitionPercentage | lib/musicAnalyser.py:801-822 | "" exactly for at most 33, "all" exactly above 99 |
| Wording.RepetitionWordingIsMonotone | lib/musicAnalyser.py:801-822 | a larger share is never worded more weakly |
| Wording.DescribePercentage | lib/musicAnalyser.py:924-949 | "" exactly for at most 1, "all" exactly above 99 |
| Wording.CommonWordingNamesBand | lib/musicAnalyser.py:924-949 | the phrase names the band of the percentage, monotonically |
| Wording.DescribePercentageUncommon | lib/musicAnalyser.py:951-970 | never "", "some" exactly at most 0.5, "many" exactly above 5 |
| Wording.CommaAndList | lib/musicAnalyser.py:824-844 | the loop computes the comma-and list |
| Wording.CommaAndListShapes | lib/musicAnalyser.py:824-844 | two items are joined by " and ", three by a comma and " and " |
| Wording.CommaAndListEmptyIff | lib/musicAnalyser.py:824-844 | the list text is empty exactly for an empty list |
| Wording.MusicalChangesEmptyIff | lib/musicAnalyser.py:192-228 | there is a summary exactly when a change follows the initial state |
| Wording.SummariseMusicalChanges | lib/musicAnalyser.py:192-228 | more than four changes are counted; otherwise they are listed with their bars, comma-and joined |
| Wording.ListChanges | lib/musicAnalyser.py:210-224 | the listing loop gives the comma-and list of the changes after the first |
| Wording.ReplaceEndWithAsWrittenDropsText | lib/musicAnalyser.py:1037-1051 | as written, with an empty ending to remove the text is lost |
| Wording.ReplaceEndWith | lib/musicAnalyser.py:1037-1051 | a text ending in `remove` has that ending replaced by `add`; any other text is unchanged |
| Wording.ReplaceEndWithRoundTrip | lib/musicAnalyser.py:1037-1051 | replacing the ending undoes appending it |
| Wording.ReplaceEndWithAgrees | lib/musicAnalyser.py:1037-1051 | the two agree whenever the ending to remove is not empty |
| Wording.CountPhrase | lib/musicAnalyser.py:987-997 | an item's phrase is empty exactly for a share of at most 0.3, otherwise it ends in ", " |
| Wording.CountListEmptyIff | lib/musicAnalyser.py:972-999 | the description is empty exactly when no item has more than 30% |
| Wording.DescribeCountList | lib/musicAnalyser.py:972-999 | the loop computes the count-list text |
| Wording.TopItemsLead | lib/musicAnalyser.py:1016-1026 | the top items are the leading items, all of them while 40% is not reached |
| Wording.DescribeCountListSeveral | lib/musicAnalyser.py:1001-1035 | the loop computes the several-items text |
| Wording.CountDictionary | lib/musicAnalyser.py:2036-2050 | one (key, count) per key, sorted by count, largest first, a permutation of the key counts, with keys of equal count in dictionary order |
| Wording.CountDictionaryEntries | lib/musicAnalyser.py:2036-2050 | every key appears with the length of its list |
| Context.InsertOrPlusEqualsSpec | lib/musicAnalyser.py:1402-1414 | the bar's note gains the text at its end or starts with it; every other note is unchanged |
| Context.FirstUseDoubleStop | lib/musicAnalyser.py:1440-1444 | as written, a group's first use ends in " more times. . " |
| Context.UsageNoteDropsExtraStop | lib/musicAnalyser.py:1433-1444 | the corrected note differs from the written one only by the extra ". " on a first use, and always ends in ". " |
| Context.SectionNotesGrow | lib/musicAnalyser.py:1416-1444 | noting group uses keeps every earlier note as a prefix and adds a note exactly for the bars where a use starts |
| Context.DescribeSectionUsageInContext | lib/musicAnalyser.py:1416-1444 | one note per use of each group, keyed by its first bar |
| Context.MeasureNotesGrow | lib/musicAnalyser.py:1446-1467 | noting repeated bars keeps every earlier note as a prefix and adds notes exactly for first bars and their later uses |
| Context.DescribeMeasureUsageInContext | lib/musicAnalyser.py:1446-1467 | in key order, the first bar's note counts later uses, and each later use names the first bar and the use before |
| Context.RepeatedManyEmptyIff | lib/musicAnalyser.py:1198-1218 | only bars used for more than a third of the piece get a sentence |
| Context.DescribeMeasureRepeatedMany | lib/musicAnalyser.py:1198-1218 | the loop computes the repeated-bars sentences |
| Context.GroupRepeatedManyEmptyIff | lib/musicAnalyser.py:1220-1246 | only groups covering more than a third of the piece get a sentence |
| Context.DescribeMeasureGroupRepeatedMany | lib/musicAnalyser.py:1220-1246 | the loop computes the repeated-groups sentences |
| Context.LongestFirst | lib/musicAnalyser.py:1300-1335 | lists sorted longest first, a permutation of the input, lists of equal length in their input order |
| Context.SmallerTextLongest | lib/musicAnalyser.py:1300-1335 | only the longest rhythm list and the longest interval list can be reported |
| Context.DescribeSmallerRepetitionPatterns | lib/musicAnalyser.py:1300-1335 | the method computes the smaller-patterns text |
| Context.LengthTallies | lib/musicAnalyser.py:1337-1400 | length 1 counts the single bars and any other length counts the groups of that length, in both tallies |
| Context.SortedLengthsSpec | lib/musicAnalyser.py:1337-1400 | the sorted tally holds the same entries, shortest first |
| Context.LengthSentenceFallsBack | lib/musicAnalyser.py:1370-1400 | a tally with no length above 30% falls back on the several-items wording |
| Context.DescribeRepetitionStructure | lib/musicAnalyser.py:1337-1400 | the method computes the structure text from the groups and the sizes of the single-bar dictionaries |
| Context.CapitalizeLowersLaterSentences | lib/musicAnalyser.py:1296 | as written, "a. The" opens as "<br/>A. the" |
| Context.SummaryOpening | lib/musicAnalyser.py:1296 | the summary is prefixed by "<br/>" with only its first letter raised; an empty one stays empty |
| Context.SummaryOpeningsAgree | lib/musicAnalyser.py:1296 | the two openings agree exactly when no upper-case letter follows the first character |
| Context.MajorOfEmptyIff | lib/musicAnalyser.py:1248-1281 | a comparison has no major sentence exactly when nothing of it covers more than a third of the piece |
| Context.SummaryEndsWithTally | lib/musicAnalyser.py:1283-1296 | a part of more than one bar always gets a summary, ending with the uniqueness tally |
| Context.MajorHidesSmaller | lib/musicAnalyser.py:1248-1298 | once a major pattern exists the smaller patterns are not consulted |
| Context.DescribeRepetitionSummary | lib/musicAnalyser.py:1248-1298 | the method computes the summary from the patterns, the bar counts and the uniqueness counts |
| Context.InContextNotesSpec | lib/musicAnalyser.py:1469-1505 | each note opens with what the full-match groups say about its bar, and the noted bars are exactly those with some repetition context |
| Context.DescribeRepetitionInContext | lib/musicAnalyser.py:1469-1505 | the six notings in the source's order |
| Bitmasks.Encode | lib/talkingscoreslib.py:624-630 | a leading 1 followed by one bit per flag, so the mask has exactly one bit more than there are flags |
| Bitmasks.DecodeEncode | lib/midiHandler.py:56-71 | decoding inverts encoding |
| Bitmasks.EncodeDecode | lib/midiHandler.py:56-71 | every integer of at least 1 is the encoding of its decoding |
| Bitmasks.NothingBelowTwo | lib/midiHandler.py:66-67 | anything at most 1 decodes to no flags |
| Bitmasks.DecodeLength | lib/midiHandler.py:56-71 | decoding gives one flag per bit below the leading one |
| Bitmasks.PackPlayOptions | lib/talkingscoreslib.py:667-671 | the play-options mask is 8 + 4·all + 2·selected + unselected |
| Bitmasks.PlayOptionsRoundTrip | lib/midiHandler.py:79-84 | unpacking inverts packing |
| Bitmasks.PlayOptionsAreFlags | lib/talkingscoreslib.py:667-671 | the play-options mask is the flag encoding of the three choices |
| TalkingScore.BrailleOctaveRule | lib/talkingscoreslib.py:211-222 | the octave is shown without context; with context it is hidden at a distance of at most 4, follows the octave change at 5 to 7, and is shown above 7 |
| TalkingScore.OctaveModesNested | lib/talkingscoreslib.py:223-229 | every-note always shows it; first-note shows it exactly without context; first-note implies on-change and braille |
| TalkingScore.OctaveRuleSymmetric | lib/talkingscoreslib.py:207-229 | with context, the decision does not depend on which pitch came first |
| TalkingScore.DescribeKeySignature | lib/talkingscoreslib.py:442-449 | a count of sharps, a count of flats, or "No sharps or flats" |
| TalkingScore.DescribeKeySignatureInjective | lib/talkingscoreslib.py:442-449 | different key signatures are described differently |
| TalkingScore.PhoneticAsWrittenCollides | lib/talkingscoreslib.py:373-375 | as written, D and B are both spoken "bravo" |
| TalkingScore.PhoneticNameDistinct | lib/talkingscoreslib.py:373-375 | every step has its own phonetic word, starting with the step's letter |
| TalkingScore.FigureNotesNameDistinct | lib/talkingscoreslib.py:368-372 | every step has its own colour |
| TalkingScore.MapPitch | lib/talkingscoreslib.py:1197-1251 | the spoken pitch, and in on-change mode the memory afterwards |
| TalkingScore.OnChangeRemembers | lib/talkingscoreslib.py:1230-1236 | in on-change mode the accidental is shown exactly when the step has no remembered alteration or a different one, and the step then remembers this one |
| TalkingScore.OnChangeRepeatIsSilent | lib/talkingscoreslib.py:1230-1236 | the same accidental straight again is not spoken |
| TalkingScore.MemoryOfOtherStepsKept | lib/talkingscoreslib.py:1230-1236 | other steps' memory is left alone, in every mode |
| TalkingScore.PitchTextShape | lib/talkingscoreslib.py:1219-1251 | no accidental gives the bare name; an accidental in words adds to the name exactly when shown; only on-change mode remembers |
| TalkingScore.AccidentalMemory.constructor | lib/talkingscoreslib.py:1197-1251 | a new accidental memory is empty |
| TalkingScore.Score.constructor | lib/talkingscoreslib.py:570-580 | a score starts with no instruments, names or selection |
| TalkingScore.PlaybackSettings.constructor | lib/talkingscoreslib.py:645-649 | the settings hold the chosen instruments and play options |
| TalkingScore.Score.GetInstruments | lib/talkingscoreslib.py:570-594 | consecutive records with one part id form one instrument entry `[name, first, count, id]`, tiling the parts; multi-part instruments' parts are named; the names are returned in order |
| TalkingScore.Score.ReadInstrument | lib/talkingscoreslib.py:581-591 | one record opens an entry or adds a part to the last one and renames its parts |
| TalkingScore.Score.AssignPartNames | lib/talkingscoreslib.py:596-608 | two parts are "Right hand"/"Left hand", three "Part 1..3", any other count names only the newest part |
| TalkingScore.GroupedLabels | lib/talkingscoreslib.py:633-641 | after grouping, every multi-part instrument's parts are named and labelled "<name> - Right hand"/"Left hand" or "<name> - Part j" |
| TalkingScore.KeysWhereMembers | lib/talkingscoreslib.py:624-630 | the selected list holds exactly the chosen instrument numbers and the unselected list the others |
| TalkingScore.KeysWhereAscending | lib/talkingscoreslib.py:624-630 | each list is in key order |
| TalkingScore.KeysPartition | lib/talkingscoreslib.py:624-630 | together the two lists count the instruments |
| TalkingScore.SelectionMaskReadsBack | lib/talkingscoreslib.py:624-630 | the selection mask decodes to one flag per instrument, true exactly for the chosen ones |
| TalkingScore.SelectKeys | lib/talkingscoreslib.py:624-630 | the loop sorts the instruments into selected and unselected and builds the mask |
| TalkingScore.EncodeFlags | lib/talkingscoreslib.py:667-671 | the shift-and-add loop computes the flag encoding |
| TalkingScore.LabelSelected | lib/talkingscoreslib.py:633-641 | the labels of the selected instruments' parts, instrument by instrument |
| TalkingScore.LabelParts | lib/talkingscoreslib.py:635-641 | one instrument's labels, part by part |
| TalkingScore.DisableSpec | lib/talkingscoreslib.py:652-664 | play-all survives unless there is one instrument; play-unselected unless all are selected; play-selected unless one instrument, one selected, or all selected with play-all still on |
| TalkingScore.DisableIdempotent | lib/talkingscoreslib.py:652-664 | the rules only switch options off, and applying them again changes nothing |
| TalkingScore.ApplyPlaybackRules | lib/talkingscoreslib.py:652-664 | applying the rules in source order gives `Disable` |
| TalkingScore.Score.ComparePartsWithSelectedInstruments | lib/talkingscoreslib.py:610-643 | the selected and unselected instrument lists, the selection mask, the selected part labels and the play-option rules |
| TalkingScore.Score.SelectInstruments | lib/talkingscoreslib.py:618-630 | the two lists and the mask |
| TalkingScore.Score.NameSelectedParts | lib/talkingscoreslib.py:633-641 | the labels are appended |
| TalkingScore.Score.ConfigurePlaybackOptions | lib/talkingscoreslib.py:645-671 | the options after the rules, and the mask of the choices as they were before the rules |
| MidiHandler.ParseBinarySelectionInteger | lib/midiHandler.py:56-71 | the shift loop computes the flag decoding |
| MidiHandler.InstrumentIndex | lib/midiHandler.py:93-98 | a part's instrument number counts the id changes before it, the first part opening instrument 0 |
| MidiHandler.EmptyFirstIdSwapsSelection | lib/midiHandler.py:93-100 | as written, with ids ["", "violin"] and flags [true, false], the first part reads the last flag and the second part is played instead |
| MidiHandler.AsWrittenAgrees | lib/midiHandler.py:93-100 | apart from an empty first id, the handler's count is the intended one |
| MidiHandler.PartsPartition | lib/midiHandler.py:96-109 | every part lands in exactly one of the selected and unselected lists, each strictly ascending; a part beyond the flags is unselected |
| MidiHandler.IndexGrows | lib/midiHandler.py:96-98 | the instrument index grows by at most one from part to part |
| MidiHandler.GroupPartsSpec | lib/midiHandler.py:100-105 | the group of instrument i lists exactly its parts, in order, when i is selected, and there is no group otherwise |
| MidiHandler.GroupsConcatenate | lib/midiHandler.py:96-109 | the groups, in key order, are ascending and concatenate to the selected parts |
| MidiHandler.IndexMatchesGrouping | lib/midiHandler.py:93-98 | the handler's instrument index is the score's instrument number less one: each part lies in the entry that grouping made for it |
| MidiHandler.SelectedPartsOfChosenInstruments | lib/midiHandler.py:96-109 | end to end, the handler plays a part with the selected ones exactly when its instrument was chosen on the score page |
| MidiHandler.MapParts | lib/midiHandler.py:96-109 | the loop appends the selected parts, the unselected parts and the groups |
| MidiHandler.Handler.constructor | lib/midiHandler.py:36-54 | every ".mid" is stripped from the file name; nothing is selected and no play-together option is on |
| MidiHandler.Handler.GetPlaybackOptions | lib/midiHandler.py:73-84 | the three options are the unpacking of the mask, and nothing else changes |
| MidiHandler.Handler.MapInstrumentsToParts | lib/midiHandler.py:86-109 | the part lists grow by the selected and unselected parts and the groups by the selected ones, and nothing else changes |
| MidiHandler.Handler.GetSelectedInstruments | lib/midiHandler.py:111-127 | the decoded selection, the parts mapped from scratch, and the play options |
| MidiHandler.Handler.MakeMidiPathFromOptions | lib/midiHandler.py:507-540 | the base name, the present options' segments in fixed order, then ".mid"; no options give just the base name with ".mid" |
| MidiHandler.Handler.GetOrMakeMidiName | lib/midiHandler.py:544-569 | the name built from the query equals the name built from the options read from that query |
| MidiNames.QueryNamesMatchOptions | lib/midiHandler.py:523-569 | the query loop and the options builder produce the same segments, in the same order |
| MidiNames.NameFromQuery | lib/midiHandler.py:551-569 | the base name followed by the segment of every query parameter present |
| MidiNames.ShouldGenerateCacheFiles | lib/midiHandler.py:128-141 | ("upfront", [100], ["n"]) when the upfront flag is present and non-empty, otherwise ("ondemand", [50, 100, 150], ["n", "be"]) |
| Text.RemoveMidExtension | lib/midiHandler.py:44 | stripping ".mid" from a name ending in ".mid" gives the same as stripping it from the bare name |
| Text.RemoveAllAbsent | lib/midiHandler.py:44 | a name without ".mid" is kept as it is |
| Text.Capitalize | lib/musicAnalyser.py:1296 | `capitalize` raises the first character and lowers every other one |
| Text.NatToStringReadsBack | lib/musicAnalyser.py:1435-1442 | the decimal text of a number reads back as the number, so distinct bars get distinct texts |

## Left out

- The music21 object model and parsing: the part is given as a sequence of events. Each event has a bar number and is a rest, chord, note, unpitched event or chord symbol. Durations are exact `real`s, and a chord's library name is an opaque string.
- MIDI generation, tempo and click tracks, and all file and directory work. `os.path.join` with `MEDIA_ROOT` is left out, so the MIDI name is the file name without its folder. The Django request, logging and `print_info` are also left out.
- The global `settings` dictionary: the fields used are parameters. A missing instrument list or play option reads as empty or false, which is what `settings.get` gives.
- Query values are kept as text, and the `bsi`/`bpi` masks are given as integers. A malformed integer is left out: `int()` raises there, and the model has no error path for it.
- `rename_count_list_keys` and the `_DURATION_MAP` renaming of duration keys (float keys mapped to names). That is why `PartResults.GenerateCountStatistics` stops at the count lists.
- `describe_summary` and `describe_distribution` are left out: float-weighted statistics over the per-bar counts. The three percentage tables they use are modelled.
- `are_measures_in` and `are_measures_in_same_group`: no other function of the analyser calls them.
- `describe_repetition`: the older describer, which nothing calls.
- `describe_time_signature` and `describe_tempo`: each change's description is given as text to `Wording.SummariseMusicalChanges`.
- The number of bars in a part is a parameter of `Context.DescribeRepetitionSummary`. The source counts the music21 measures.
- A `KeyError` is not modelled partway through. It comes from a MIDI number outside 0..127, or a chord of one or more than ten pitches (one pitch is a source error; over ten is skipped by the size guard). `AnalyseParts.AnalysePart.SetPart` checks every element first and leaves the analyser untouched if one fails. The source raises after part of the part has been read.
- AnalyseParts.AnalysePart.ProcessChord: requires a chord of at least two pitches, because the chord-size table has no entry for one pitch (a `KeyError` in the source).
- AnalyseParts.AnalysePart.ProcessNote: requires a MIDI number that is a key of the pitch table, for the same reason.
- Repetition.CalculateMeasureGroups: states the shape every recorded group has, not which groups the greedy scan records.
- Fingerprints.ChordIntervals: the analyser uses the intervals above the lowest pitch, as `make_chord_intervals` documents. The code as written measures from the first listed pitch (`Fingerprints.ChordIntervalsAsWritten`); see Findings.
- Context.UsageNote: the first use of a group gets one ". ", not the two the source appends; see Findings.
- Context.SummaryOpening: only the first letter of the summary is raised; `capitalize` would also lower every later capital. See Findings.
- TalkingScore.BaseName: uses the corrected phonetic table, where D is "delta"; see Findings.
- MidiHandler.InstrumentIndex: the first part always opens instrument 0, even with an empty part id; see Findings.
- Wording.ReplaceEndWith: an empty ending leaves the text intact; see Findings. Every call in the analyser removes ", ", where both versions agree.
- Wording.DescribeCountListSeveral: the running share is an exact `real`. The source adds float shares, so counts 3, 7, 2, 9, 9 of 30 reach 39.99999999999999 after three items and it takes a fourth where the model stops at three. Float rounding is not modelled.
- TalkingScore.ShowOctave: the pitch-space number is an integer. The source compares the float `pitch.ps`, so quarter-tone distances such as 4.5 are not modelled.
- Fingerprints.RhythmMatch: the rhythm registry uses the comparison the method describes, where notes and chords of one duration match. The code as written compares all three rhythm slots (`Fingerprints.RhythmMatchAsWritten`); see Findings.
- Text.LowerAll, Text.Capitalize: case mapping covers the ASCII letters only; other characters are kept as they are.
- HTML colouring of pitches and octaves (`render_colourful_output`) is left out: `TalkingScore.MapPitch` returns the plain text.
- Accidental symbols: the model keeps the accidental's name and its symbol as given.

## Findings

| source | as written | input that shows it | evidently intended | confidence | as-written member | corrected member |
|---|---|---|---|---|---|---|
| lib/talkingscoreslib.py:374 | the phonetic table maps 'D' to "bravo", the same word as 'B' | a D and a B, both spoken "bravo" | 'D' is "delta", one word per step | not executed; high | TalkingScore.PhoneticAsWrittenCollides | TalkingScore.PhoneticNameDistinct |
| lib/midiHandler.py:93-100 | the instrument index starts at -1 with "" as the previous id, so a first part with an empty id opens no instrument and reads `selected_instruments[-1]`, the last flag | ids ["", "violin"], flags [true, false] | the first part opens instrument 0, as `get_instruments` does | not executed; medium | MidiHandler.EmptyFirstIdSwapsSelection | MidiHandler.IndexMatchesGrouping |
| lib/musicAnalyser.py:1296 | `capitalize()` lowers every letter after the first, so later sentences of the summary lose their capitals | "a. The" opens as "<br/>A. the" | raise the first letter only | not executed; high | Context.CapitalizeLowersLaterSentences | Context.SummaryOpeningsAgree |
| lib/musicAnalyser.py:1442-1444 | the first-use text already ends in ". " and gets another ". " | any group: "Bars 1 and 2 are used 1 more times. . " | one full stop | not executed; high | Context.FirstUseDoubleStop | Context.UsageNoteDropsExtraStop |
| lib/musicAnalyser.py:570-572 | the base of the interval structure is the first listed pitch, not the lowest | C-E-G written E, C, G gives [-4, 3], not [4, 7] | ascending intervals from the lowest note, as the docstring says | not executed; medium | Fingerprints.ChordIntervalsAsWrittenDependOnOrder | Fingerprints.ChordIntervalsIgnoreOrder |
| lib/musicAnalyser.py:452-455 | `compare_indexes_rhythm` requires all three rhythm slots to agree, but a note leaves the chord slot at -1 and a chord leaves the note slot at -1 | a quarter-note C and a quarter-note C-E-G chord: no rhythm match | the method's description: chords and single notes are interchangeable when their durations match | not executed; medium | PartSpecs.NoteAndChordRhythm | Fingerprints.RhythmMatchInterchangeable |
| lib/musicAnalyser.py:1049-1050 | with an empty `remove`, `original[:-0]` is the empty string | `replace_end_with("bars", "", "!")` gives "!" | "bars!" | not executed; low (every call passes ", ") | Wording.ReplaceEndWithAsWrittenDropsText | Wording.ReplaceEndWithRoundTrip |
