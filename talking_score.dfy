/** The pieces of the talking-score builder that decide what is spoken about
    a pitch and how the score's instruments are grouped and selected.

    A score lists one instrument record per part; consecutive records with
    the same part identifier belong to one instrument (a piano's two
    staves).  The builder numbers the instruments from 1, names the parts
    of a multi-part instrument, records which instruments the reader chose,
    and packs the choices into the bitmasks the MIDI handler reads back. */
module TalkingScore {
  import opened Wrappers
  import opened Text
  import Bitmasks

  // ---------------------------------------------------------------------
  // Octave announcement

  /** The `octaveAnnouncement` setting; `Unrecognised` is any other value. */
  datatype OctaveAnnouncement = BrailleRules | EveryNote | FirstNote | OnChange | Unrecognised

  /** What the octave rule looks at in a pitch: its pitch-space number and its octave. */
  datatype Sounding = Sounding(pitchNumber: int, octave: int)

  function Distance(a: int, b: int): nat {
    if a >= b then a - b else b - a
  }

  /** Whether the octave is spoken for `p`, given the previous pitch as context. */
  function ShowOctave(mode: OctaveAnnouncement, p: Sounding, context: Option<Sounding>): bool {
    match mode
    case BrailleRules =>
      if context.None? then true
      else
        var d := Distance(context.value.pitchNumber, p.pitchNumber);
        if d <= 4 then false
        else if d <= 7 then context.value.octave != p.octave
        else true
    case EveryNote => true
    case FirstNote => context.None?
    case OnChange => context.None? || context.value.octave != p.octave
    case Unrecognised => false
  }

  /** The braille rule is the on-change rule inside the band of a fifth to a seventh,
      stays silent for smaller steps and always speaks for larger ones. */
  lemma BrailleOctaveRule(p: Sounding, context: Option<Sounding>)
    ensures context.None? ==> ShowOctave(BrailleRules, p, context)
    ensures context.Some? ==>
      var d := Distance(context.value.pitchNumber, p.pitchNumber);
      && (d <= 4 ==> !ShowOctave(BrailleRules, p, context))
      && (5 <= d <= 7 ==> ShowOctave(BrailleRules, p, context) == ShowOctave(OnChange, p, context))
      && (d > 7 ==> ShowOctave(BrailleRules, p, context))
  {
  }

  /** The modes speak the octave ever more often: first note only, on a change, always. */
  lemma OctaveModesNested(p: Sounding, context: Option<Sounding>)
    ensures ShowOctave(FirstNote, p, context) ==> ShowOctave(OnChange, p, context)
    ensures ShowOctave(FirstNote, p, context) ==> ShowOctave(BrailleRules, p, context)
    ensures ShowOctave(EveryNote, p, context)
    ensures context.None? <==> ShowOctave(FirstNote, p, context)
  {
  }

  /** With a context, the braille and on-change decisions do not depend on which of the two pitches came first. */
  lemma OctaveRuleSymmetric(p: Sounding, q: Sounding, mode: OctaveAnnouncement)
    ensures ShowOctave(mode, p, Some(q)) == ShowOctave(mode, q, Some(p))
  {
  }

  // ---------------------------------------------------------------------
  // Key signatures

  /** The key signature as spoken: a count of sharps or flats. */
  function DescribeKeySignature(sharps: int): (s: string)
    ensures |s| > 0
  {
    if sharps > 0 then NatToString(sharps) + " sharps"
    else if sharps < 0 then NatToString(-sharps) + " flats"
    else "No sharps or flats"
  }

  /** Different key signatures are described differently. */
  lemma {:induction false} DescribeKeySignatureInjective(a: int, b: int)
    requires DescribeKeySignature(a) == DescribeKeySignature(b)
    ensures a == b
  {
    if a > b {
      DescriptionsDiffer(a, b);
    } else if b > a {
      DescriptionsDiffer(b, a);
    }
  }

  lemma DescriptionsDiffer(a: int, b: int)
    requires a > b
    ensures DescribeKeySignature(a) != DescribeKeySignature(b)
  {
    if a > 0 && b > 0 {
      SameCount(a, b, " sharps");
    } else if b < 0 && a < 0 {
      SameCount(-a, -b, " flats");
    } else if a > 0 && b < 0 {
      SuffixesDiffer(NatToString(a), NatToString(-b));
    } else {
      CountStartsWithDigit(if a != 0 then a else b);
    }
  }

  /** Two different counts followed by the same word read differently. */
  lemma SameCount(m: nat, n: nat, word: string)
    requires m != n
    ensures NatToString(m) + word != NatToString(n) + word
  {
    var x, y := NatToString(m), NatToString(n);
    if x + word == y + word {
      assert x == (x + word)[..|x|];
      assert y == (y + word)[..|y|];
      NatToStringReadsBack(m);
      NatToStringReadsBack(n);
    }
  }

  /** A count of sharps never reads like a count of flats. */
  lemma SuffixesDiffer(x: string, y: string)
    ensures x + " sharps" != y + " flats"
  {
    var s, t := x + " sharps", y + " flats";
    assert s[|s| - 6] == 's';
    assert t[|t| - 6] == ' ';
  }

  /** A described count starts with a digit, so it never reads like "No sharps or flats". */
  lemma CountStartsWithDigit(n: int)
    requires n != 0
    ensures DescribeKeySignature(n) != "No sharps or flats"
  {
    var m: nat := if n > 0 then n else -n;
    NatToStringDigits(m);
    assert '0' <= DescribeKeySignature(n)[0] <= '9';
  }

  // ---------------------------------------------------------------------
  // Pitch names

  /** The `pitchDescription` setting. */
  datatype PitchDescription = ColourNotes | Phonetic | NoteName | NoDescription

  /** The colour names of Figurenotes; an unknown step reads `"?"`. */
  function FigureNotesName(step: char): string {
    match step
    case 'C' => "red"
    case 'D' => "brown"
    case 'E' => "grey"
    case 'F' => "blue"
    case 'G' => "black"
    case 'A' => "yellow"
    case 'B' => "green"
    case _ => "?"
  }

  /** The phonetic table as the builder writes it, where D reads "bravo". */
  function PhoneticAsWritten(step: char): string {
    match step
    case 'C' => "charlie"
    case 'D' => "bravo"
    case 'E' => "echo"
    case 'F' => "foxtrot"
    case 'G' => "golf"
    case 'A' => "alpha"
    case 'B' => "bravo"
    case _ => "?"
  }

  /** As written, D and B are spoken alike. */
  lemma PhoneticAsWrittenCollides()
    ensures PhoneticAsWritten('D') == PhoneticAsWritten('B')
  {
  }

  /** The phonetic table with D read as "delta", the NATO word for D. */
  function PhoneticName(step: char): string {
    match step
    case 'C' => "charlie"
    case 'D' => "delta"
    case 'E' => "echo"
    case 'F' => "foxtrot"
    case 'G' => "golf"
    case 'A' => "alpha"
    case 'B' => "bravo"
    case _ => "?"
  }

  predicate IsStep(c: char) {
    c == 'C' || c == 'D' || c == 'E' || c == 'F' || c == 'G' || c == 'A' || c == 'B'
  }

  /** Every step has its own phonetic word, each beginning with the step's letter read in lower case. */
  lemma PhoneticNameDistinct(a: char, b: char)
    requires IsStep(a) && IsStep(b)
    ensures PhoneticName(a)[0] == Lower(a)
    ensures PhoneticName(a) == PhoneticName(b) ==> a == b
  {
  }

  /** Every step has its own colour. */
  lemma FigureNotesNameDistinct(a: char, b: char)
    requires IsStep(a) && IsStep(b) && FigureNotesName(a) == FigureNotesName(b)
    ensures a == b
  {
  }

  /** The spoken pitch letter before any accidental. */
  function BaseName(description: PitchDescription, step: char): string {
    match description
    case ColourNotes => FigureNotesName(step)
    case Phonetic => PhoneticName(step)
    case NoteName => [step]
    case NoDescription => ""
  }

  // ---------------------------------------------------------------------
  // Accidentals

  /** An accidental: its name (`"sharp"`, `"natural"`, ...), its spoken name and whether the engraving shows it. */
  datatype Accidental = Accidental(name: string, fullName: string, displayStatus: bool)

  /** A pitch: its step letter, its alteration in semitones and its accidental, if it has one. */
  datatype Pitch = Pitch(step: char, alter: real, accidental: Option<Accidental>)

  /** The `key_signature_accidentals` setting; `Applied` is also what a missing setting means. */
  datatype AccidentalMode = Applied | Standard | OnChangeAccidentals | OtherAccidentalMode

  /** The `accidental_style` setting: `Symbols`, or words for any other value. */
  datatype AccidentalStyle = Symbols | Words

  datatype PitchSettings = PitchSettings(description: PitchDescription, mode: AccidentalMode, style: AccidentalStyle)

  /** The last alteration spoken for each step. */
  type Memory = map<char, real>

  /** Whether a pitch's accidental is spoken. */
  function ShowAccidental(mode: AccidentalMode, p: Pitch, memory: Memory): bool
    requires p.accidental.Some?
  {
    match mode
    case Applied => p.accidental.value.name != "natural"
    case Standard => p.accidental.value.displayStatus
    case OnChangeAccidentals => p.step !in memory || memory[p.step] != p.alter
    case OtherAccidentalMode => false
  }

  /** The memory after a pitch is spoken: only a spoken on-change accidental is remembered. */
  function MemoryAfter(mode: AccidentalMode, p: Pitch, memory: Memory): Memory {
    if p.accidental.Some? && mode == OnChangeAccidentals && ShowAccidental(mode, p, memory)
    then memory[p.step := p.alter]
    else memory
  }

  function AccidentalSymbol(name: string): string {
    if name == "sharp" then "\U{266F}"
    else if name == "flat" then "\U{266D}"
    else if name == "natural" then "\U{266E}"
    else if name == "double-sharp" then "\U{1D12A}"
    else if name == "double-flat" then "\U{266D}\U{266D}"
    else ""
  }

  /** The spoken pitch: the base name, and the accidental when it is spoken. */
  function PitchText(settings: PitchSettings, p: Pitch, memory: Memory): string {
    var base := BaseName(settings.description, p.step);
    if p.accidental.None? || !ShowAccidental(settings.mode, p, memory) then base
    else if settings.style == Symbols then base + AccidentalSymbol(p.accidental.value.name)
    else base + " " + p.accidental.value.fullName
  }

  /** The accidental memory the caller keeps across the pitches of a passage. */
  class AccidentalMemory {
    var lastAlter: Memory

    constructor()
      ensures lastAlter == map[]
    {
      lastAlter := map[];
    }
  }

  /** Speaks a pitch and, in on-change mode, remembers a spoken accidental. */
  method MapPitch(settings: PitchSettings, p: Pitch, state: AccidentalMemory) returns (text: string)
    modifies state
    ensures text == PitchText(settings, p, old(state.lastAlter))
    ensures state.lastAlter == MemoryAfter(settings.mode, p, old(state.lastAlter))
  {
    var base := BaseName(settings.description, p.step);
    if p.accidental.None? {
      return base;
    }
    var show := false;
    match settings.mode {
      case Applied =>
        show := p.accidental.value.name != "natural";
      case Standard =>
        show := p.accidental.value.displayStatus;
      case OnChangeAccidentals =>
        if p.step !in state.lastAlter || state.lastAlter[p.step] != p.alter {
          state.lastAlter := state.lastAlter[p.step := p.alter];
          show := true;
        }
      case OtherAccidentalMode =>
    }
    if !show {
      return base;
    }
    if settings.style == Symbols {
      text := base + AccidentalSymbol(p.accidental.value.name);
    } else {
      text := base + " " + p.accidental.value.fullName;
    }
  }

  /** In on-change mode an accidental is spoken exactly when its step has no remembered
      alteration or a different one, and afterwards the step remembers this pitch's alteration. */
  lemma OnChangeRemembers(p: Pitch, memory: Memory)
    requires p.accidental.Some?
    ensures ShowAccidental(OnChangeAccidentals, p, memory) <==> p.step !in memory || memory[p.step] != p.alter
    ensures MemoryAfter(OnChangeAccidentals, p, memory) == memory[p.step := p.alter]
  {
    if !ShowAccidental(OnChangeAccidentals, p, memory) {
      assert memory[p.step := p.alter] == memory;
    }
  }

  /** The same accidental straight again is not spoken a second time. */
  lemma OnChangeRepeatIsSilent(p: Pitch, memory: Memory)
    requires p.accidental.Some?
    ensures !ShowAccidental(OnChangeAccidentals, p, MemoryAfter(OnChangeAccidentals, p, memory))
  {
    OnChangeRemembers(p, memory);
  }

  /** Speaking a pitch leaves every other step's memory alone, in every mode. */
  lemma MemoryOfOtherStepsKept(mode: AccidentalMode, p: Pitch, memory: Memory, s: char)
    requires s != p.step
    ensures s in MemoryAfter(mode, p, memory) <==> s in memory
    ensures s in memory ==> MemoryAfter(mode, p, memory)[s] == memory[s]
  {
  }

  /** A pitch without an accidental, or in a mode other than on-change, leaves the memory as it was;
      an accidental spoken in words always adds to the base name. */
  lemma PitchTextShape(settings: PitchSettings, p: Pitch, memory: Memory)
    ensures p.accidental.None? || settings.mode != OnChangeAccidentals ==> MemoryAfter(settings.mode, p, memory) == memory
    ensures p.accidental.None? ==> PitchText(settings, p, memory) == BaseName(settings.description, p.step)
    ensures p.accidental.Some? && settings.style == Words ==>
      (PitchText(settings, p, memory) == BaseName(settings.description, p.step) <==> !ShowAccidental(settings.mode, p, memory))
  {
  }

  // ---------------------------------------------------------------------
  // Instruments and their parts

  /** One instrument record of the score, one per part: the part's name (empty when it has none) and its identifier. */
  datatype PartTag = PartTag(partName: string, partId: string)

  /** An instrument: its name, the position of its first part, how many consecutive parts it has, and their identifier. */
  datatype InstrumentEntry = InstrumentEntry(name: string, firstPart: nat, partCount: nat, partId: string)

  /** The position `c` is one of the entry's parts. */
  predicate InRun(e: InstrumentEntry, c: int) {
    e.firstPart <= c < e.firstPart + e.partCount
  }

  /** The name given to instrument number `k` (counted from 1). */
  function EntryName(tag: PartTag, k: nat): string {
    if tag.partName != "" then tag.partName else "Instrument " + NatToString(k) + " (unnamed)"
  }

  /** The names written when an instrument reaches `count` parts, its newest part being at `c`. */
  function AssignedNames(names: map<int, string>, c: int, count: nat): map<int, string> {
    if count == 2 then names[c - 1 := "Right hand"][c := "Left hand"]
    else if count == 3 then names[c - 2 := "Part 1"][c - 1 := "Part 2"][c := "Part 3"]
    else names[c := "Part " + NatToString(count)]
  }

  function End(e: InstrumentEntry): nat {
    e.firstPart + e.partCount
  }

  /** The entries cover the positions `0 .. total - 1` in order, each with at least one part. */
  ghost predicate Tiles(total: nat, es: seq<InstrumentEntry>)
    decreases |es|
  {
    if es == [] then total == 0
    else
      var last := es[|es| - 1];
      1 <= last.partCount && End(last) == total && Tiles(last.firstPart, es[..|es| - 1])
  }

  /** What tiling gives: the entries start at 0, are non-empty, in order, and end within `total`. */
  lemma {:induction false} TilesFacts(total: nat, es: seq<InstrumentEntry>)
    requires Tiles(total, es)
    ensures |es| > 0 ==> es[0].firstPart == 0
    ensures forall k :: 0 <= k < |es| ==> 1 <= es[k].partCount && End(es[k]) <= total
    ensures forall i, j :: 0 <= i < j < |es| ==> End(es[i]) <= es[j].firstPart
    decreases |es|
  {
    if es != [] {
      var init := es[..|es| - 1];
      TilesFacts(es[|es| - 1].firstPart, init);
      assert forall k :: 0 <= k < |init| ==> init[k] == es[k];
    }
  }

  /** Each entry ends where the next one starts, and the last one ends at `total`. */
  lemma {:induction false} TilesAdjacent(total: nat, es: seq<InstrumentEntry>)
    requires Tiles(total, es)
    ensures |es| > 0 ==> End(es[|es| - 1]) == total
    ensures forall k :: 0 <= k < |es| - 1 ==> End(es[k]) == es[k + 1].firstPart
    decreases |es|
  {
    if es != [] {
      var init := es[..|es| - 1];
      TilesAdjacent(es[|es| - 1].firstPart, init);
      assert forall k :: 0 <= k < |init| ==> init[k] == es[k];
    }
  }

  /** Every part of an entry carries the entry's identifier. */
  ghost predicate SameIds(tags: seq<PartTag>, es: seq<InstrumentEntry>) {
    forall k, c :: 0 <= k < |es| && InRun(es[k], c) && c < |tags| ==> tags[c].partId == es[k].partId
  }

  /** Neighbouring entries have different identifiers, so no run could be longer. */
  ghost predicate Maximal(es: seq<InstrumentEntry>) {
    forall k :: 0 < k < |es| ==> es[k].partId != es[k - 1].partId
  }

  /** Each entry is named after its first record and its number. */
  ghost predicate NamedAfterFirst(tags: seq<PartTag>, es: seq<InstrumentEntry>) {
    forall k :: 0 <= k < |es| && es[k].firstPart < |tags| ==> es[k].name == EntryName(tags[es[k].firstPart], k + 1)
  }

  /** `es` cuts the records into maximal runs of equal identifiers, in order, each named after its first record. */
  ghost predicate Runs(tags: seq<PartTag>, es: seq<InstrumentEntry>) {
    Tiles(|tags|, es) && SameIds(tags, es) && Maximal(es) && NamedAfterFirst(tags, es)
  }

  /** The first part lies in the first run. */
  lemma RunOfFirst(tags: seq<PartTag>, es: seq<InstrumentEntry>)
    requires Runs(tags, es) && |tags| > 0
    ensures |es| > 0 && InRun(es[0], 0)
  {
    TilesFacts(|tags|, es);
  }

  /** A part lies in the run of the part before it when it carries the same identifier,
      and in the next run when it does not. */
  lemma RunStep(tags: seq<PartTag>, es: seq<InstrumentEntry>, p: nat, k: nat)
    requires Runs(tags, es) && 0 < p < |tags| && k < |es| && InRun(es[k], p - 1)
    ensures tags[p].partId == tags[p - 1].partId ==> InRun(es[k], p)
    ensures tags[p].partId != tags[p - 1].partId ==> k + 1 < |es| && InRun(es[k + 1], p)
  {
    TilesFacts(|tags|, es);
    TilesAdjacent(|tags|, es);
    assert tags[p - 1].partId == es[k].partId;
    if !InRun(es[k], p) {
      assert p == End(es[k]);
      assert k + 1 < |es|;
      assert InRun(es[k + 1], p);
      assert tags[p].partId == es[k + 1].partId;
    }
  }

  /** The name of part `j` (from 0) of an instrument with `count` parts: two hands, or numbered parts. */
  function HandName(count: nat, j: nat): string {
    if count == 2 then (if j == 0 then "Right hand" else "Left hand")
    else "Part " + NatToString(j + 1)
  }

  /** The parts of `e` are named exactly when it has several, each by its place in `e`. */
  ghost predicate EntryNamed(e: InstrumentEntry, names: map<int, string>) {
    forall c :: InRun(e, c) ==>
      (c in names <==> e.partCount >= 2) && (c in names ==> names[c] == HandName(e.partCount, c - e.firstPart))
  }

  /** Exactly the parts of multi-part instruments are named, each by its place in its instrument. */
  ghost predicate NamedParts(total: nat, es: seq<InstrumentEntry>, names: map<int, string>) {
    && (forall c :: c in names ==> 0 <= c < total)
    && (forall k :: 0 <= k < |es| ==> EntryNamed(es[k], names))
  }

  function NamesOf(es: seq<InstrumentEntry>): (r: seq<string>)
    ensures |r| == |es| && forall k :: 0 <= k < |es| ==> r[k] == es[k].name
  {
    seq(|es|, k requires 0 <= k < |es| => es[k].name)
  }

  /** What the grouping pass keeps true after each record: the runs so far and their part names. */
  ghost predicate Grouped(tags: seq<PartTag>, es: seq<InstrumentEntry>, names: map<int, string>) {
    Runs(tags, es) && NamedParts(|tags|, es, names)
  }

  /** A record with a new identifier opens an instrument of one part, numbered after the ones before. */
  lemma OpenGrouped(init: seq<PartTag>, tags: seq<PartTag>, es: seq<InstrumentEntry>, names: map<int, string>,
                    e: InstrumentEntry, es': seq<InstrumentEntry>)
    requires |tags| > 0 && init == tags[..|tags| - 1] && Grouped(init, es, names)
    requires e == InstrumentEntry(EntryName(tags[|init|], |es| + 1), |init|, 1, tags[|init|].partId)
    requires |es| == 0 || es[|es| - 1].partId != e.partId
    requires es' == es + [e]
    ensures Grouped(tags, es', names)
  {
    var c := |init|;
    TilesFacts(c, es);
    SameIdsExtend(init, tags, es);
    NamedAfterFirstExtend(init, tags, es);
    OpenTiles(c, |tags|, es, e);
    OpenSameIds(tags, es, e);
    OpenNamedAfterFirst(tags, es, e);
    OpenNames(es, names, e, |tags|);
  }

  /** A record with the last instrument's identifier adds a part to it and renames its parts. */
  lemma GrowGrouped(init: seq<PartTag>, tags: seq<PartTag>, es: seq<InstrumentEntry>, names: map<int, string>,
                    es': seq<InstrumentEntry>, names': map<int, string>)
    requires |tags| > 0 && init == tags[..|tags| - 1] && Grouped(init, es, names)
    requires |es| > 0 && es[|es| - 1].partId == tags[|init|].partId
    requires es' == Grown(es) && names' == AssignedNames(names, |init|, es[|es| - 1].partCount + 1)
    ensures Grouped(tags, es', names')
  {
    var c := |init|;
    TilesFacts(c, es);
    SameIdsExtend(init, tags, es);
    NamedAfterFirstExtend(init, tags, es);
    GrowTiles(c, |tags|, es);
    GrowSameIds(tags, es);
    GrowNamedAfterFirst(tags, es);
    GrowNames(es, names, c, |tags|);
  }

  lemma SameIdsExtend(init: seq<PartTag>, tags: seq<PartTag>, es: seq<InstrumentEntry>)
    requires |tags| > 0 && init == tags[..|tags| - 1]
    requires forall k :: 0 <= k < |es| ==> End(es[k]) <= |init|
    requires SameIds(init, es)
    ensures SameIds(tags, es)
  {
    forall k, c | 0 <= k < |es| && InRun(es[k], c) && c < |tags|
      ensures tags[c].partId == es[k].partId
    {
      assert End(es[k]) <= |init|;
      assert init[c] == tags[c];
    }
  }

  lemma NamedAfterFirstExtend(init: seq<PartTag>, tags: seq<PartTag>, es: seq<InstrumentEntry>)
    requires |tags| > 0 && init == tags[..|tags| - 1]
    requires forall k :: 0 <= k < |es| ==> 1 <= es[k].partCount && End(es[k]) <= |init|
    requires NamedAfterFirst(init, es)
    ensures NamedAfterFirst(tags, es)
  {
    forall k | 0 <= k < |es| && es[k].firstPart < |tags|
      ensures es[k].name == EntryName(tags[es[k].firstPart], k + 1)
    {
      assert End(es[k]) <= |init|;
      assert init[es[k].firstPart] == tags[es[k].firstPart];
    }
  }

  lemma OpenTiles(c: nat, total: nat, es: seq<InstrumentEntry>, e: InstrumentEntry)
    requires Tiles(c, es) && e.firstPart == c && e.partCount == 1 && total == c + 1
    ensures Tiles(total, es + [e])
  {
    assert (es + [e])[..|es|] == es;
  }

  lemma OpenSameIds(tags: seq<PartTag>, es: seq<InstrumentEntry>, e: InstrumentEntry)
    requires |tags| > 0 && SameIds(tags, es)
    requires e.firstPart == |tags| - 1 && e.partCount == 1 && e.partId == tags[|tags| - 1].partId
    ensures SameIds(tags, es + [e])
  {
    var es' := es + [e];
    forall k, c | 0 <= k < |es'| && InRun(es'[k], c) && c < |tags|
      ensures tags[c].partId == es'[k].partId
    {
      if k < |es| { assert InRun(es[k], c); }
    }
  }

  lemma OpenNamedAfterFirst(tags: seq<PartTag>, es: seq<InstrumentEntry>, e: InstrumentEntry)
    requires |tags| > 0 && NamedAfterFirst(tags, es) && Maximal(es)
    requires e == InstrumentEntry(EntryName(tags[|tags| - 1], |es| + 1), |tags| - 1, 1, tags[|tags| - 1].partId)
    requires |es| == 0 || es[|es| - 1].partId != e.partId
    ensures NamedAfterFirst(tags, es + [e]) && Maximal(es + [e])
  {
    var es' := es + [e];
    forall k | 0 <= k < |es'| && es'[k].firstPart < |tags|
      ensures es'[k].name == EntryName(tags[es'[k].firstPart], k + 1)
    {
      if k < |es| { assert es'[k] == es[k]; }
    }
    forall k | 0 < k < |es'| ensures es'[k].partId != es'[k - 1].partId {
      if k < |es| { assert es'[k] == es[k] && es'[k - 1] == es[k - 1]; }
    }
  }

  lemma OpenNames(es: seq<InstrumentEntry>, names: map<int, string>, e: InstrumentEntry, total: nat)
    requires NamedParts(e.firstPart, es, names) && e.partCount == 1 && total == e.firstPart + 1
    ensures NamedParts(total, es + [e], names)
  {
    assert EntryNamed(e, names);
  }

  /** The entries with the last one grown by a part. */
  function Grown(es: seq<InstrumentEntry>): (r: seq<InstrumentEntry>)
    requires |es| > 0
    ensures |r| == |es| && r[..|es| - 1] == es[..|es| - 1]
  {
    var last := es[|es| - 1];
    es[|es| - 1 := last.(partCount := last.partCount + 1)]
  }

  lemma GrowTiles(c: nat, total: nat, es: seq<InstrumentEntry>)
    requires Tiles(c, es) && |es| > 0 && total == c + 1
    ensures Tiles(total, Grown(es))
  {
  }

  lemma GrowSameIds(tags: seq<PartTag>, es: seq<InstrumentEntry>)
    requires |tags| > 0 && SameIds(tags, es) && |es| > 0
    requires End(es[|es| - 1]) == |tags| - 1 && es[|es| - 1].partId == tags[|tags| - 1].partId
    ensures SameIds(tags, Grown(es))
  {
    var es' := Grown(es);
    forall k, c | 0 <= k < |es'| && InRun(es'[k], c) && c < |tags|
      ensures tags[c].partId == es'[k].partId
    {
      if c < |tags| - 1 { assert InRun(es[k], c); }
    }
  }

  lemma GrowNamedAfterFirst(tags: seq<PartTag>, es: seq<InstrumentEntry>)
    requires NamedAfterFirst(tags, es) && Maximal(es) && |es| > 0
    ensures NamedAfterFirst(tags, Grown(es)) && Maximal(Grown(es))
  {
    var es' := Grown(es);
    assert forall k :: 0 <= k < |es| ==>
      es'[k].name == es[k].name && es'[k].firstPart == es[k].firstPart && es'[k].partId == es[k].partId;
  }

  /** Growing the last instrument by the part at `c` names its parts by the new count. */
  lemma GrowNames(es: seq<InstrumentEntry>, names: map<int, string>, c: nat, total: nat)
    requires Tiles(c, es) && |es| > 0 && NamedParts(c, es, names) && total == c + 1
    ensures NamedParts(total, Grown(es), AssignedNames(names, c, es[|es| - 1].partCount + 1))
  {
    var n := |es| - 1;
    var last := es[n];
    var names' := AssignedNames(names, c, last.partCount + 1);
    var es' := Grown(es);
    TilesFacts(c, es);
    AssignedNamesFrame(names, c, last.partCount + 1, last.firstPart);
    forall k | 0 <= k < |es'| ensures EntryNamed(es'[k], names') {
      if k < n {
        assert es'[k] == es[k];
        EarlierNamesKept(es[k], names, names', last.firstPart);
      } else {
        assert es'[k] == last.(partCount := last.partCount + 1);
        GrownLastNamed(last, names, c);
      }
    }
    assert forall d :: d in names' ==> 0 <= d < total;
  }

  /** The names the growth writes all lie within the grown instrument. */
  lemma AssignedNamesFrame(names: map<int, string>, c: int, count: nat, first: int)
    requires count >= 2 && first + count - 1 == c
    ensures forall d :: d < first ==> (d in AssignedNames(names, c, count) <==> d in names)
    ensures forall d :: d < first && d in names ==> AssignedNames(names, c, count)[d] == names[d]
    ensures forall d :: d in AssignedNames(names, c, count) ==> d in names || first <= d <= c
  {
  }

  lemma EarlierNamesKept(e: InstrumentEntry, names: map<int, string>, names': map<int, string>, first: int)
    requires EntryNamed(e, names) && End(e) <= first
    requires forall d :: d < first ==> (d in names' <==> d in names)
    requires forall d :: d < first && d in names ==> names'[d] == names[d]
    ensures EntryNamed(e, names')
  {
  }

  lemma GrownLastNamed(last: InstrumentEntry, names: map<int, string>, c: nat)
    requires End(last) == c && last.partCount >= 1 && EntryNamed(last, names)
    ensures EntryNamed(last.(partCount := last.partCount + 1), AssignedNames(names, c, last.partCount + 1))
  {
    var count := last.partCount + 1;
    var names' := AssignedNames(names, c, count);
    var grown := last.(partCount := count);
    forall d | InRun(grown, d)
      ensures d in names' && names'[d] == HandName(count, d - last.firstPart)
    {
      if count > 3 && d < c {
        assert InRun(last, d);
      }
    }
  }

  // ---------------------------------------------------------------------
  // Selection

  /** The instrument numbers `1 .. n` whose being chosen is `want`, in ascending order. */
  function KeysWhere(n: nat, chosen: seq<int>, want: bool): (r: seq<int>)
    ensures |r| <= n
    decreases n
  {
    if n == 0 then [] else KeysWhere(n - 1, chosen, want) + (if (n in chosen) == want then [n] else [])
  }

  /** Each list holds exactly the numbers `1 .. n` of its kind. */
  lemma {:induction false} KeysWhereMembers(n: nat, chosen: seq<int>, want: bool)
    ensures forall k :: k in KeysWhere(n, chosen, want) <==> 1 <= k <= n && (k in chosen) == want
    decreases n
  {
    if n > 0 {
      KeysWhereMembers(n - 1, chosen, want);
      var r := KeysWhere(n - 1, chosen, want);
      assert KeysWhere(n, chosen, want) == r + (if (n in chosen) == want then [n] else []);
    }
  }

  /** Every number in either list names an instrument. */
  lemma KeysWhereInRange(n: nat, chosen: seq<int>, want: bool)
    ensures forall i :: 0 <= i < |KeysWhere(n, chosen, want)| ==> 1 <= KeysWhere(n, chosen, want)[i] <= n
  {
    KeysWhereMembers(n, chosen, want);
    var r := KeysWhere(n, chosen, want);
    assert forall i :: 0 <= i < |r| ==> r[i] in r;
  }

  /** Each list is in strictly ascending order. */
  lemma {:induction false} KeysWhereAscending(n: nat, chosen: seq<int>, want: bool)
    ensures forall i, j :: 0 <= i < j < |KeysWhere(n, chosen, want)| ==>
      KeysWhere(n, chosen, want)[i] < KeysWhere(n, chosen, want)[j]
    decreases n
  {
    if n > 0 {
      KeysWhereAscending(n - 1, chosen, want);
      KeysWhereMembers(n - 1, chosen, want);
      var r := KeysWhere(n - 1, chosen, want);
      var r' := KeysWhere(n, chosen, want);
      assert r' == r + (if (n in chosen) == want then [n] else []);
      forall i, j | 0 <= i < j < |r'| ensures r'[i] < r'[j] {
        if j < |r| {
          assert r'[i] == r[i] && r'[j] == r[j];
        } else {
          assert r'[i] == r[i] && r[i] in r;
        }
      }
    }
  }

  /** The chosen and the other instruments together count `n`. */
  lemma {:induction false} KeysPartition(n: nat, chosen: seq<int>)
    ensures |KeysWhere(n, chosen, true)| + |KeysWhere(n, chosen, false)| == n
    decreases n
  {
    if n > 0 {
      KeysPartition(n - 1, chosen);
    }
  }

  /** One flag per instrument, in number order: whether it was chosen. */
  function SelectionFlags(n: nat, chosen: seq<int>): (flags: seq<bool>)
    ensures |flags| == n && forall i :: 0 <= i < n ==> flags[i] == (i + 1 in chosen)
  {
    seq(n, i => i + 1 in chosen)
  }

  /** Adding instrument `n + 1` to the mask shifts it and adds that instrument's flag. */
  lemma SelectionMaskStep(n: nat, chosen: seq<int>)
    ensures Bitmasks.Encode(SelectionFlags(n + 1, chosen))
         == 2 * Bitmasks.Encode(SelectionFlags(n, chosen)) + Bitmasks.Bit(n + 1 in chosen)
  {
    assert SelectionFlags(n + 1, chosen)[..n] == SelectionFlags(n, chosen);
  }

  /** The selection mask decodes to exactly one flag per instrument, telling whether it was chosen. */
  lemma SelectionMaskReadsBack(n: nat, chosen: seq<int>)
    ensures |Bitmasks.Decode(Bitmasks.Encode(SelectionFlags(n, chosen)))| == n
    ensures forall i :: 0 <= i < n ==> Bitmasks.Decode(Bitmasks.Encode(SelectionFlags(n, chosen)))[i] == (i + 1 in chosen)
  {
    Bitmasks.DecodeEncode(SelectionFlags(n, chosen));
  }

  /** Every part of a multi-part instrument has a name, so naming the selected parts never fails. */
  ghost predicate PartsNamed(es: seq<InstrumentEntry>, names: map<int, string>) {
    forall k, c :: 0 <= k < |es| && es[k].partCount != 1 && InRun(es[k], c) ==> c in names
  }

  /** The labels of one instrument's parts: the instrument's name alone, or one label per part. */
  function EntryLabels(e: InstrumentEntry, names: map<int, string>): (r: seq<string>)
    requires e.partCount != 1 ==> forall c :: InRun(e, c) ==> c in names
  {
    if e.partCount == 1 then [e.name]
    else seq(e.partCount, j requires 0 <= j < e.partCount => assert InRun(e, e.firstPart + j); e.name + " - " + names[e.firstPart + j])
  }

  /** The labels of the selected instruments' parts, instrument by instrument. */
  function PartLabels(es: seq<InstrumentEntry>, names: map<int, string>, selected: seq<int>): seq<string>
    requires PartsNamed(es, names)
    requires forall i :: 0 <= i < |selected| ==> 1 <= selected[i] <= |es|
    decreases |selected|
  {
    if selected == [] then []
    else
      var e := es[selected[|selected| - 1] - 1];
      assert forall c :: e.partCount != 1 && InRun(e, c) ==> c in names;
      PartLabels(es, names, selected[..|selected| - 1]) + EntryLabels(e, names)
  }

  /** The labels for one more selected instrument follow those already made. */
  lemma PartLabelsStep(es: seq<InstrumentEntry>, names: map<int, string>, selected: seq<int>, i: nat)
    requires PartsNamed(es, names)
    requires i < |selected| && forall j :: 0 <= j < |selected| ==> 1 <= selected[j] <= |es|
    ensures forall c :: es[selected[i] - 1].partCount != 1 && InRun(es[selected[i] - 1], c) ==> c in names
    ensures PartLabels(es, names, selected[..i + 1]) == PartLabels(es, names, selected[..i]) + EntryLabels(es[selected[i] - 1], names)
  {
    assert selected[..i + 1][..i] == selected[..i];
    assert selected[..i + 1][i] == selected[i];
  }

  /** After grouping, every multi-part instrument's parts are named, and its labels read
      "<name> - Right hand" and "<name> - Left hand" for two parts, "<name> - Part <j>" for more. */
  lemma GroupedLabels(tags: seq<PartTag>, es: seq<InstrumentEntry>, names: map<int, string>, k: nat)
    requires NamedParts(|tags|, es, names) && k < |es|
    ensures PartsNamed(es, names)
    ensures var e := es[k];
      EntryLabels(e, names) ==
        if e.partCount == 1 then [e.name]
        else seq(e.partCount, j requires 0 <= j < e.partCount => e.name + " - " + HandName(e.partCount, j))
  {
    forall k', c | 0 <= k' < |es| && es[k'].partCount != 1 && InRun(es[k'], c) ensures c in names {
      assert EntryNamed(es[k'], names);
      assert es[k'].partCount >= 2;
    }
    var e := es[k];
    assert EntryNamed(e, names);
    if e.partCount != 1 {
      forall j | 0 <= j < e.partCount
        ensures names[e.firstPart + j] == HandName(e.partCount, j)
      {
        assert InRun(e, e.firstPart + j);
      }
    }
  }

  /** The play options after the disabling rules, applied in the builder's order. */
  function Disable(o: Bitmasks.PlayOptions, instruments: nat, selected: nat, unselected: nat): Bitmasks.PlayOptions {
    var o1 := if instruments == 1 then o.(all := false, selected := false) else o;
    var o2 := if unselected == 0 then o1.(unselected := false) else o1;
    var o3 := if selected == instruments && o2.all then o2.(selected := false) else o2;
    if selected == 1 then o3.(selected := false) else o3
  }

  /** Each option survives exactly when it was on and no rule clears it: a lone instrument clears
      play-all and play-selected, no unselected instrument clears play-unselected, and play-selected
      also goes when one instrument is selected or every instrument is selected with play-all on. */
  lemma DisableSpec(o: Bitmasks.PlayOptions, instruments: nat, selected: nat, unselected: nat)
    ensures Disable(o, instruments, selected, unselected).all == (o.all && instruments != 1)
    ensures Disable(o, instruments, selected, unselected).unselected == (o.unselected && unselected != 0)
    ensures Disable(o, instruments, selected, unselected).selected ==
      (o.selected && instruments != 1 && selected != 1 && !(selected == instruments && o.all))
  {
  }

  /** The rules only ever switch options off, and applying them again changes nothing. */
  lemma DisableIdempotent(o: Bitmasks.PlayOptions, instruments: nat, selected: nat, unselected: nat)
    ensures var d := Disable(o, instruments, selected, unselected);
      && (d.all ==> o.all) && (d.selected ==> o.selected) && (d.unselected ==> o.unselected)
      && Disable(d, instruments, selected, unselected) == d
  {
  }

  // ---------------------------------------------------------------------
  // The score object

  /** The playback choices of the settings the score page shares with the builder. */
  class PlaybackSettings {
    var instruments: seq<int>
    var playAll: bool
    var playSelected: bool
    var playUnselected: bool

    constructor(instruments: seq<int>, playAll: bool, playSelected: bool, playUnselected: bool)
      ensures this.instruments == instruments && this.playAll == playAll
      ensures this.playSelected == playSelected && this.playUnselected == playUnselected
    {
      this.instruments := instruments;
      this.playAll := playAll;
      this.playSelected := playSelected;
      this.playUnselected := playUnselected;
    }
  }

  /** The builder's view of a score's instruments.  Instrument `k` (from 1) is `partInstruments[k - 1]`. */
  class Score {
    var partInstruments: seq<InstrumentEntry>
    var partNames: map<int, string>
    var selectedInstruments: seq<int>
    var unselectedInstruments: seq<int>
    var binarySelectedInstruments: int
    var selectedPartNames: seq<string>
    var binaryPlayAll: int

    constructor()
      ensures partInstruments == [] && partNames == map[]
      ensures selectedInstruments == [] && unselectedInstruments == [] && selectedPartNames == []
    {
      partInstruments := [];
      partNames := map[];
      selectedInstruments := [];
      unselectedInstruments := [];
      binarySelectedInstruments := 1;
      selectedPartNames := [];
      binaryPlayAll := 1;
    }

    /** Groups the score's instrument records into instruments and names the parts of each
        multi-part instrument; returns the instrument names in order. */
    method GetInstruments(tags: seq<PartTag>) returns (instrumentNames: seq<string>)
      modifies this
      ensures Runs(tags, partInstruments) && NamedParts(|tags|, partInstruments, partNames)
      ensures instrumentNames == NamesOf(partInstruments)
      ensures selectedInstruments == old(selectedInstruments) && unselectedInstruments == old(unselectedInstruments)
      ensures selectedPartNames == old(selectedPartNames)
      ensures binarySelectedInstruments == old(binarySelectedInstruments) && binaryPlayAll == old(binaryPlayAll)
    {
      partInstruments := [];
      partNames := map[];
      instrumentNames := [];
      var insCount := 1;
      var c := 0;
      while c < |tags|
        invariant 0 <= c <= |tags| && insCount == |partInstruments| + 1
        invariant Grouped(tags[..c], partInstruments, partNames)
        invariant instrumentNames == NamesOf(partInstruments)
        invariant selectedInstruments == old(selectedInstruments) && unselectedInstruments == old(unselectedInstruments)
        invariant selectedPartNames == old(selectedPartNames)
        invariant binarySelectedInstruments == old(binarySelectedInstruments) && binaryPlayAll == old(binaryPlayAll)
      {
        assert tags[..c + 1][..c] == tags[..c];
        instrumentNames, insCount := ReadInstrument(tags[..c], tags[..c + 1], instrumentNames, insCount);
        c := c + 1;
      }
      assert tags[..c] == tags;
    }

    /** One turn of the grouping loop: the record at position `|init|` opens an instrument or adds a part. */
    method ReadInstrument(ghost init: seq<PartTag>, next: seq<PartTag>, namesIn: seq<string>, insCountIn: nat)
      returns (namesOut: seq<string>, insCountOut: nat)
      requires |next| > 0 && init == next[..|next| - 1]
      requires Grouped(init, partInstruments, partNames) && namesIn == NamesOf(partInstruments)
      requires insCountIn == |partInstruments| + 1
      modifies this
      ensures Grouped(next, partInstruments, partNames) && namesOut == NamesOf(partInstruments)
      ensures insCountOut == |partInstruments| + 1
      ensures selectedInstruments == old(selectedInstruments) && unselectedInstruments == old(unselectedInstruments)
      ensures selectedPartNames == old(selectedPartNames)
      ensures binarySelectedInstruments == old(binarySelectedInstruments) && binaryPlayAll == old(binaryPlayAll)
    {
      var c := |next| - 1;
      var tag := next[c];
      ghost var es, names := partInstruments, partNames;
      if |partInstruments| == 0 || partInstruments[insCountIn - 2].partId != tag.partId {
        var name := EntryName(tag, insCountIn);
        var e := InstrumentEntry(name, c, 1, tag.partId);
        partInstruments := partInstruments + [e];
        namesOut := namesIn + [name];
        insCountOut := insCountIn + 1;
        OpenGrouped(init, next, es, names, e, partInstruments);
        assert namesOut == NamesOf(partInstruments);
      } else {
        partInstruments := Grown(partInstruments);
        AssignPartNames(c, insCountIn - 1);
        namesOut, insCountOut := namesIn, insCountIn;
        GrowGrouped(init, next, es, names, partInstruments, partNames);
        assert namesOut == NamesOf(partInstruments);
      }
    }

    /** Names the parts of instrument `instrumentIndex` after it has grown to include the part at `currentIndex`. */
    method AssignPartNames(currentIndex: int, instrumentIndex: int)
      requires 1 <= instrumentIndex <= |partInstruments|
      modifies this
      ensures partInstruments == old(partInstruments)
      ensures partNames == AssignedNames(old(partNames), currentIndex, partInstruments[instrumentIndex - 1].partCount)
      ensures selectedInstruments == old(selectedInstruments) && unselectedInstruments == old(unselectedInstruments)
      ensures selectedPartNames == old(selectedPartNames)
      ensures binarySelectedInstruments == old(binarySelectedInstruments) && binaryPlayAll == old(binaryPlayAll)
    {
      var partCount := partInstruments[instrumentIndex - 1].partCount;
      if partCount == 2 {
        partNames := partNames[currentIndex - 1 := "Right hand"];
        partNames := partNames[currentIndex := "Left hand"];
      } else if partCount == 3 {
        partNames := partNames[currentIndex - 2 := "Part 1"];
        partNames := partNames[currentIndex - 1 := "Part 2"];
        partNames := partNames[currentIndex := "Part 3"];
      } else {
        partNames := partNames[currentIndex := "Part " + NatToString(partCount)];
      }
    }

    /** Records which instruments were chosen, builds the selection mask, labels the selected parts
        and applies the playback-option rules. */
    method ComparePartsWithSelectedInstruments(settings: PlaybackSettings)
      requires PartsNamed(partInstruments, partNames)
      modifies this, settings
      ensures partInstruments == old(partInstruments) && partNames == old(partNames)
      ensures selectedInstruments == KeysWhere(|partInstruments|, old(settings.instruments), true)
      ensures unselectedInstruments == KeysWhere(|partInstruments|, old(settings.instruments), false)
      ensures binarySelectedInstruments == Bitmasks.Encode(SelectionFlags(|partInstruments|, old(settings.instruments)))
      ensures forall i :: 0 <= i < |selectedInstruments| ==> 1 <= selectedInstruments[i] <= |partInstruments|
      ensures selectedPartNames == PartLabels(partInstruments, partNames, selectedInstruments)
      ensures settings.instruments == old(settings.instruments)
      ensures Bitmasks.PlayOptions(settings.playAll, settings.playSelected, settings.playUnselected)
           == Disable(Bitmasks.PlayOptions(old(settings.playAll), old(settings.playSelected), old(settings.playUnselected)),
                |partInstruments|, |selectedInstruments|, |unselectedInstruments|)
      ensures binaryPlayAll == Bitmasks.PackPlayOptions(
                Bitmasks.PlayOptions(old(settings.playAll), old(settings.playSelected), old(settings.playUnselected)))
    {
      SelectInstruments(settings.instruments);
      KeysWhereInRange(|partInstruments|, settings.instruments, true);
      selectedPartNames := [];
      NameSelectedParts();
      ConfigurePlaybackOptions(settings);
    }

    /** Walks the instruments in number order, sorting them into chosen and not chosen and
        shifting one flag per instrument into the selection mask. */
    method SelectInstruments(chosen: seq<int>)
      modifies this
      ensures partInstruments == old(partInstruments) && partNames == old(partNames)
      ensures selectedInstruments == KeysWhere(|partInstruments|, chosen, true)
      ensures unselectedInstruments == KeysWhere(|partInstruments|, chosen, false)
      ensures binarySelectedInstruments == Bitmasks.Encode(SelectionFlags(|partInstruments|, chosen))
      ensures binaryPlayAll == old(binaryPlayAll)
    {
      var selected, unselected, mask := SelectKeys(|partInstruments|, chosen);
      selectedInstruments, unselectedInstruments, binarySelectedInstruments := selected, unselected, mask;
    }

    /** Appends the labels of the selected instruments' parts. */
    method NameSelectedParts()
      requires PartsNamed(partInstruments, partNames)
      requires forall i :: 0 <= i < |selectedInstruments| ==> 1 <= selectedInstruments[i] <= |partInstruments|
      modifies this
      ensures partInstruments == old(partInstruments) && partNames == old(partNames)
      ensures selectedInstruments == old(selectedInstruments) && unselectedInstruments == old(unselectedInstruments)
      ensures selectedPartNames == old(selectedPartNames) + PartLabels(partInstruments, partNames, selectedInstruments)
      ensures binarySelectedInstruments == old(binarySelectedInstruments) && binaryPlayAll == old(binaryPlayAll)
    {
      var labels := LabelSelected(partInstruments, partNames, selectedInstruments);
      selectedPartNames := selectedPartNames + labels;
    }

    /** Disables the play options that make no sense for this selection, then packs the choices
        as they were before the rules into the play-options mask. */
    method ConfigurePlaybackOptions(settings: PlaybackSettings)
      modifies this, settings
      ensures settings.instruments == old(settings.instruments)
      ensures Bitmasks.PlayOptions(settings.playAll, settings.playSelected, settings.playUnselected)
           == Disable(Bitmasks.PlayOptions(old(settings.playAll), old(settings.playSelected), old(settings.playUnselected)),
                |partInstruments|, |selectedInstruments|, |unselectedInstruments|)
      ensures binaryPlayAll == Bitmasks.PackPlayOptions(
                Bitmasks.PlayOptions(old(settings.playAll), old(settings.playSelected), old(settings.playUnselected)))
      ensures partInstruments == old(partInstruments) && partNames == old(partNames)
      ensures selectedInstruments == old(selectedInstruments) && unselectedInstruments == old(unselectedInstruments)
      ensures binarySelectedInstruments == old(binarySelectedInstruments) && selectedPartNames == old(selectedPartNames)
    {
      var choices := Bitmasks.PlayOptions(settings.playAll, settings.playSelected, settings.playUnselected);
      var instruments, selected, unselected := |partInstruments|, |selectedInstruments|, |unselectedInstruments|;
      var o := ApplyPlaybackRules(choices, instruments, selected, unselected);
      settings.playAll, settings.playSelected, settings.playUnselected := o.all, o.selected, o.unselected;
      var mask := EncodeFlags([choices.all, choices.selected, choices.unselected]);
      binaryPlayAll := mask;
    }
  }

  /** Walks the instruments `1 .. n` in number order, sorting them into chosen and not chosen and
      shifting one flag per instrument into the selection mask behind a leading 1. */
  method SelectKeys(n: nat, chosen: seq<int>) returns (selected: seq<int>, unselected: seq<int>, mask: int)
    ensures selected == KeysWhere(n, chosen, true) && unselected == KeysWhere(n, chosen, false)
    ensures mask == Bitmasks.Encode(SelectionFlags(n, chosen))
  {
    selected, unselected, mask := [], [], 1;
    var ins := 1;
    while ins <= n
      invariant 1 <= ins <= n + 1
      invariant selected == KeysWhere(ins - 1, chosen, true)
      invariant unselected == KeysWhere(ins - 1, chosen, false)
      invariant mask == Bitmasks.Encode(SelectionFlags(ins - 1, chosen))
    {
      SelectionMaskStep(ins - 1, chosen);
      mask := mask * 2;
      if ins in chosen {
        selected := selected + [ins];
        mask := mask + 1;
      } else {
        unselected := unselected + [ins];
      }
      ins := ins + 1;
    }
  }

  /** The labels of the selected instruments' parts, instrument by instrument. */
  method LabelSelected(es: seq<InstrumentEntry>, names: map<int, string>, selected: seq<int>) returns (labels: seq<string>)
    requires PartsNamed(es, names)
    requires forall i :: 0 <= i < |selected| ==> 1 <= selected[i] <= |es|
    ensures labels == PartLabels(es, names, selected)
  {
    labels := [];
    var i := 0;
    while i < |selected|
      invariant 0 <= i <= |selected|
      invariant labels == PartLabels(es, names, selected[..i])
    {
      PartLabelsStep(es, names, selected, i);
      var e := es[selected[i] - 1];
      var entryLabels := LabelParts(e, names);
      labels := labels + entryLabels;
      i := i + 1;
    }
    assert selected[..i] == selected;
  }

  /** Applies the disabling rules one after another; the play-all rule reads play-all as the
      earlier rules left it. */
  method ApplyPlaybackRules(choices: Bitmasks.PlayOptions, instruments: nat, selected: nat, unselected: nat)
    returns (o: Bitmasks.PlayOptions)
    ensures o == Disable(choices, instruments, selected, unselected)
  {
    o := choices;
    if instruments == 1 {
      o := o.(all := false, selected := false);
    }
    if unselected == 0 {
      o := o.(unselected := false);
    }
    if selected == instruments && o.all {
      o := o.(selected := false);
    }
    if selected == 1 {
      o := o.(selected := false);
    }
  }

  /** The labels of one instrument's parts, built part by part. */
  method LabelParts(e: InstrumentEntry, names: map<int, string>) returns (labels: seq<string>)
    requires e.partCount != 1 ==> forall c :: InRun(e, c) ==> c in names
    ensures labels == EntryLabels(e, names)
  {
    if e.partCount == 1 {
      return [e.name];
    }
    labels := [];
    var partIndex := e.firstPart;
    while partIndex < e.firstPart + e.partCount
      invariant e.firstPart <= partIndex <= e.firstPart + e.partCount
      invariant labels == EntryLabels(e, names)[..partIndex - e.firstPart]
    {
      assert InRun(e, partIndex);
      labels := labels + [e.name + " - " + names[partIndex]];
      partIndex := partIndex + 1;
    }
  }

  /** Shifts the flags into a mask one by one, behind a leading 1. */
  method EncodeFlags(flags: seq<bool>) returns (n: int)
    ensures n == Bitmasks.Encode(flags)
  {
    n := 1;
    var i := 0;
    while i < |flags|
      invariant 0 <= i <= |flags| && n == Bitmasks.Encode(flags[..i])
    {
      assert flags[..i + 1][..i] == flags[..i];
      n := n * 2;
      if flags[i] {
        n := n + 1;
      }
      i := i + 1;
    }
    assert flags[..i] == flags;
  }
}
