/** The input of the indexing pass: the part's notes, chords and rests in
    score order, each with the number of the bar it sits in, and the
    specification of what the pass remembers between events (the bar it is
    in, the previous pitch, where the current bar began, which bars it has
    filed) and of the totals it keeps. */
module Events {

  /** One pitch of a chord: its MIDI number and whether its accidental is displayed. */
  datatype ChordNote = ChordNote(midi: int, shownAccidental: bool)

  /** One entry of the part's notes and rests.  Durations are in quarter notes; 0 is a grace note.
      `libName` is the chord name the music library gives, taken as it is. */
  datatype Element =
    | Rest(dur: real)
    | Chord(dur: real, notes: seq<ChordNote>, libName: string)
    | Note(dur: real, midi: int, name: string, shownAccidental: bool)
    | Unpitched
    | ChordSymbol

  datatype Event = Event(measure: int, element: Element)

  function Max(a: int, b: int): int {
    if a < b then b else a
  }

  /** `current_measure` once the first `i` events are read: the largest bar number seen, or -1. */
  function BarBefore(events: seq<Event>, i: nat): (m: int)
    requires i <= |events|
    ensures m >= -1
    ensures forall k :: 0 <= k < i ==> events[k].measure <= m
    ensures m == -1 || exists k :: 0 <= k < i && events[k].measure == m
  {
    if i == 0 then -1 else Max(BarBefore(events, i - 1), events[i - 1].measure)
  }

  /** Event `i` carries a bar number larger than any before it, so a new bar begins there. */
  predicate OpensBar(events: seq<Event>, i: nat)
    requires i < |events|
  {
    events[i].measure > BarBefore(events, i)
  }

  /** `previous_note_pitch` after an event: a note sets it, a chord symbol leaves it, anything else clears it. */
  function PitchAfter(e: Element, previous: int): int {
    match e
    case Note(_, midi, _, _) => midi
    case ChordSymbol => previous
    case _ => -1
  }

  /** `previous_note_pitch` when event `i` is read; opening a bar clears it. */
  function PitchBefore(events: seq<Event>, i: nat): int
    requires i < |events|
  {
    if i == 0 || OpensBar(events, i) then -1 else PitchAfter(events[i - 1].element, PitchBefore(events, i - 1))
  }

  /** The note at `j` is still remembered when event `i` is read: only chord symbols
      come between them and no bar opens after it up to `i`. */
  ghost predicate CarriesTo(events: seq<Event>, j: nat, i: nat)
    requires j < i < |events|
  {
    && events[j].element.Note?
    && (forall k :: j < k < i ==> events[k].element.ChordSymbol?)
    && (forall k :: j < k <= i ==> !OpensBar(events, k))
  }

  /** The previous pitch is that of the last note before `i` when only chord symbols
      and no bar line come after that note, and -1 otherwise: rests, chords,
      unpitched events and bar lines reset it. */
  lemma {:induction false} PitchBeforeIsLastNote(events: seq<Event>, i: nat)
    requires i < |events|
    ensures forall j :: 0 <= j < i && CarriesTo(events, j, i) ==> PitchBefore(events, i) == events[j].element.midi
    ensures (forall j :: 0 <= j < i ==> !CarriesTo(events, j, i)) ==> PitchBefore(events, i) == -1
  {
    if i > 0 && !OpensBar(events, i) {
      var e := events[i - 1].element;
      if e.Note? {
        assert CarriesTo(events, i - 1, i);
        assert !events[i - 1].element.ChordSymbol?;
        forall j | 0 <= j < i && CarriesTo(events, j, i) ensures j == i - 1 {
        }
      } else if e.ChordSymbol? {
        var p := i - 1;
        PitchBeforeIsLastNote(events, p);
        forall j | 0 <= j < p ensures CarriesTo(events, j, i) <==> CarriesTo(events, j, p) {
        }
        assert !CarriesTo(events, p, i);
        if forall j :: 0 <= j < i ==> !CarriesTo(events, j, i) {
          forall j | 0 <= j < p ensures !CarriesTo(events, j, p) {
            assert !CarriesTo(events, j, i);
          }
        }
      } else {
        forall j | 0 <= j < i ensures !CarriesTo(events, j, i) {
          if j < i - 1 {
            assert !events[i - 1].element.ChordSymbol?;
          }
        }
      }
    } else if i > 0 {
      forall j | 0 <= j < i ensures !CarriesTo(events, j, i) {
        assert OpensBar(events, i);
      }
    }
  }

  /** Where the section holding event `i` begins: the last bar opening at or before `i`, or 0. */
  function BarStart(events: seq<Event>, i: nat): (s: nat)
    requires i < |events|
    ensures s <= i
    ensures s == 0 || OpensBar(events, s)
    ensures forall k :: s < k <= i ==> !OpensBar(events, k)
  {
    if i == 0 || OpensBar(events, i) then i else BarStart(events, i - 1)
  }

  /** A filed bar: the number it is filed under and the events `start .. end - 1` it holds. */
  datatype BarSpan = BarSpan(number: int, start: nat, end: nat)

  /** The bars filed while the first `n` events are read.  A bar is filed when the
      next one opens, under the new bar's number minus one. */
  function Closed(events: seq<Event>, n: nat): seq<BarSpan>
    requires n <= |events|
  {
    if n <= 1 then []
    else Closed(events, n - 1) +
         (if OpensBar(events, n - 1) then [BarSpan(events[n - 1].measure - 1, BarStart(events, n - 2), n - 1)] else [])
  }

  /** Every bar the pass files, in filing order: the closed ones, then the last bar under the largest bar number. */
  function AllBars(events: seq<Event>): seq<BarSpan> {
    if events == [] then []
    else Closed(events, |events|) + [BarSpan(BarBefore(events, |events|), BarStart(events, |events| - 1), |events|)]
  }

  /** The bars closed so far tile the events before the current section, in order,
      under strictly increasing numbers below the current bar number. */
  ghost predicate Tiles(spans: seq<BarSpan>, upTo: nat, below: int) {
    && (spans == [] ==> upTo == 0)
    && (spans != [] ==> spans[0].start == 0 && spans[|spans| - 1].end == upTo)
    && (forall k :: 0 <= k < |spans| ==> spans[k].start < spans[k].end && spans[k].number < below)
    && (forall k :: 0 <= k < |spans| - 1 ==> spans[k].end == spans[k + 1].start && spans[k].number < spans[k + 1].number)
  }

  lemma TilesWeaken(spans: seq<BarSpan>, upTo: nat, below: int, below': int)
    requires Tiles(spans, upTo, below) && below <= below'
    ensures Tiles(spans, upTo, below')
  {
  }

  /** Appending a span that starts where the tiling ends and is numbered above it keeps a tiling. */
  lemma TilesSnoc(spans: seq<BarSpan>, below: int, span: BarSpan, below': int)
    requires Tiles(spans, span.start, below) && span.start < span.end
    requires below <= span.number < below'
    ensures Tiles(spans + [span], span.end, below')
  {
    var s := spans + [span];
    forall k | 0 <= k < |s| ensures s[k].start < s[k].end && s[k].number < below' {
      if k < |spans| {
        assert s[k] == spans[k];
      }
    }
    forall k | 0 <= k < |s| - 1 ensures s[k].end == s[k + 1].start && s[k].number < s[k + 1].number {
      assert s[k] == spans[k];
      if k + 1 < |spans| {
        assert s[k + 1] == spans[k + 1];
      }
    }
  }

  lemma {:induction false} ClosedTile(events: seq<Event>, n: nat)
    requires 1 <= n <= |events|
    ensures Tiles(Closed(events, n), BarStart(events, n - 1), BarBefore(events, n))
  {
    if n > 1 {
      ClosedTile(events, n - 1);
      var c := Closed(events, n - 1);
      if OpensBar(events, n - 1) {
        var span := BarSpan(events[n - 1].measure - 1, BarStart(events, n - 2), n - 1);
        assert Closed(events, n) == c + [span];
        TilesSnoc(c, BarBefore(events, n - 1), span, BarBefore(events, n));
      } else {
        assert Closed(events, n) == c;
        TilesWeaken(c, BarStart(events, n - 2), BarBefore(events, n - 1), BarBefore(events, n));
      }
    }
  }

  /** The filed bars cover every event exactly once, in order, under strictly increasing numbers. */
  lemma AllBarsTile(events: seq<Event>)
    requires |events| > 0
    ensures Tiles(AllBars(events), |events|, BarBefore(events, |events|) + 1)
  {
    var n := |events|;
    ClosedTile(events, n);
    var last := BarSpan(BarBefore(events, n), BarStart(events, n - 1), n);
    TilesSnoc(Closed(events, n), BarBefore(events, n), last, BarBefore(events, n) + 1);
  }

  /** Bar numbers that never go down and step by one at each bar line. */
  predicate Consecutive(events: seq<Event>) {
    && (|events| > 0 ==> events[0].measure >= 0)
    && forall i :: 0 < i < |events| ==> events[i].measure == events[i - 1].measure || events[i].measure == events[i - 1].measure + 1
  }

  lemma {:induction false} ConsecutiveBarBefore(events: seq<Event>, i: nat)
    requires Consecutive(events) && 0 < i <= |events|
    ensures BarBefore(events, i) == events[i - 1].measure
  {
    if i > 1 {
      ConsecutiveBarBefore(events, i - 1);
    }
  }

  lemma {:induction false} SameSectionSameNumber(events: seq<Event>, s: nat, i: nat)
    requires Consecutive(events) && s <= i < |events|
    requires forall k :: s < k <= i ==> !OpensBar(events, k)
    ensures forall k :: s <= k <= i ==> events[k].measure == events[i].measure
  {
    if s < i {
      SameSectionSameNumber(events, s, i - 1);
      ConsecutiveBarBefore(events, i);
      assert !OpensBar(events, i);
    }
  }

  /** Every event of a span carries the span's number. */
  ghost predicate Numbered(events: seq<Event>, spans: seq<BarSpan>) {
    forall b, k :: 0 <= b < |spans| && spans[b].start <= k < spans[b].end && k < |events| ==> events[k].measure == spans[b].number
  }

  lemma {:induction false} ClosedNumbered(events: seq<Event>, n: nat)
    requires Consecutive(events) && 1 <= n <= |events|
    ensures Numbered(events, Closed(events, n))
  {
    if n > 1 {
      ClosedNumbered(events, n - 1);
      if OpensBar(events, n - 1) {
        var s := BarStart(events, n - 2);
        SameSectionSameNumber(events, s, n - 2);
        ConsecutiveBarBefore(events, n - 1);
        assert events[n - 1].measure - 1 == events[n - 2].measure;
      }
    }
  }

  /** When bar numbers are consecutive, every bar is filed under the number its events carry. */
  lemma ConsecutiveBarsKeepNumbers(events: seq<Event>)
    requires Consecutive(events)
    ensures Numbered(events, AllBars(events))
  {
    if events != [] {
      var n := |events|;
      ClosedNumbered(events, n);
      SameSectionSameNumber(events, BarStart(events, n - 1), n - 1);
      ConsecutiveBarBefore(events, n);
    }
  }

  /** A bar number that skips shifts the bar before it: bar 1 followed by bar 3 files bar 1's events under 2. */
  lemma SkippedBarShiftsNumber()
    ensures AllBars([Event(1, Rest(1.0)), Event(3, Rest(1.0))]) == [BarSpan(2, 0, 1), BarSpan(3, 1, 2)]
  {
    var events := [Event(1, Rest(1.0)), Event(3, Rest(1.0))];
    assert BarBefore(events, 1) == 1;
    assert OpensBar(events, 1);
    assert Closed(events, 2) == [BarSpan(2, 0, 1)];
  }

  /** A total over events: the sum of `stat` over their elements. */
  function Sum(events: seq<Event>, stat: Element -> nat): nat {
    if events == [] then 0 else Sum(events[..|events| - 1], stat) + stat(events[|events| - 1].element)
  }

  function RealSum(events: seq<Event>, stat: Element -> real): real {
    if events == [] then 0.0 else RealSum(events[..|events| - 1], stat) + stat(events[|events| - 1].element)
  }

  lemma SumAppend(events: seq<Event>, e: Event, stat: Element -> nat, rstat: Element -> real)
    ensures Sum(events + [e], stat) == Sum(events, stat) + stat(e.element)
    ensures RealSum(events + [e], rstat) == RealSum(events, rstat) + rstat(e.element)
  {
    assert (events + [e])[..|events|] == events;
  }

  function One(b: bool): nat {
    if b then 1 else 0
  }

  /** The number of chord pitches whose accidental is displayed. */
  function Shown(notes: seq<ChordNote>): (n: nat)
    ensures n <= |notes|
  {
    if notes == [] then 0 else Shown(notes[..|notes| - 1]) + One(notes[|notes| - 1].shownAccidental)
  }

  function Midis(notes: seq<ChordNote>): (m: seq<int>)
    ensures |m| == |notes|
    ensures forall i :: 0 <= i < |notes| ==> m[i] == notes[i].midi
  {
    seq(|notes|, i requires 0 <= i < |notes| => notes[i].midi)
  }

  function NoteStat(e: Element): nat { One(e.Note?) }
  function ChordStat(e: Element): nat { One(e.Chord?) }
  function RestStat(e: Element): nat { One(e.Rest?) }

  /** Grace notes an element contributes: a zero-length note one, a zero-length chord each of its pitches. */
  function GraceStat(e: Element): nat {
    match e
    case Note(dur, _, _, _) => One(dur == 0.0)
    case Chord(dur, notes, _) => if dur == 0.0 then |notes| else 0
    case _ => 0
  }

  /** Displayed accidentals of an element. */
  function AccidentalStat(e: Element): nat {
    match e
    case Note(_, _, _, shown) => One(shown)
    case Chord(_, notes, _) => Shown(notes)
    case _ => 0
  }

  /** Pitches that could carry an accidental. */
  function PossibleAccidentalStat(e: Element): nat {
    match e
    case Note(_, _, _, _) => 1
    case Chord(_, notes, _) => |notes|
    case _ => 0
  }

  /** Chords of `size` pitches. */
  function ChordsOfSize(size: nat): Element -> nat {
    (e: Element) => One(e.Chord? && |e.notes| == size)
  }

  function NoteDuration(e: Element): real { if e.Note? then e.dur else 0.0 }
  function ChordDuration(e: Element): real { if e.Chord? then e.dur else 0.0 }
  function RestDuration(e: Element): real { if e.Rest? then e.dur else 0.0 }

  /** The elements the pass can index: the pitch table holds MIDI numbers 0..127 only, and
      the chord-size table has no entry for fewer than two pitches; either miss is a KeyError. */
  predicate Indexable(e: Element) {
    match e
    case Note(_, midi, _, _) => 0 <= midi < 128
    case Chord(_, notes, _) => |notes| >= 2
    case _ => true
  }
}
