/** The per-bar context notes and the repetition-summary sentences. */
module Context {
  import opened Dicts
  import opened Text
  import opened Wording
  import opened Repetition
  import opened Registries
  import Sorting

  /** Notes keyed by bar number. */
  type Notes = map<int, string>

  /** `insert_or_plus_equals`: append to the bar's note, or start one. */
  function InsertOrPlusEquals(notes: Notes, key: int, value: string): Notes {
    notes[key := (if key in notes then notes[key] else "") + value]
  }

  /** The bar's note gains `value` at its end and every other note is unchanged. */
  lemma InsertOrPlusEqualsSpec(notes: Notes, key: int, value: string)
    ensures var r := InsertOrPlusEquals(notes, key, value);
            && r.Keys == notes.Keys + {key}
            && r[key] == (if key in notes then notes[key] + value else value)
            && (forall k :: k in notes && k != key ==> r[k] == notes[k])
  {
  }

  /** `b` keeps every note of `a` as a prefix of its own: notes only ever grow. */
  ghost predicate Extends(a: Notes, b: Notes) {
    forall k :: k in a ==> k in b && a[k] <= b[k]
  }

  lemma ExtendsTransitive(a: Notes, b: Notes, c: Notes)
    requires Extends(a, b) && Extends(b, c)
    ensures Extends(a, c)
  {
    forall k | k in a ensures k in c && a[k] <= c[k] {
      assert a[k] <= b[k] <= c[k];
    }
  }

  lemma InsertExtends(notes: Notes, key: int, value: string)
    ensures Extends(notes, InsertOrPlusEquals(notes, key, value))
  {
    var r := InsertOrPlusEquals(notes, key, value);
    if key in notes {
      assert r[key] == notes[key] + value;
    }
  }

  /** The notes after inserting each `(bar, text)` entry in turn. */
  function Apply(entries: seq<(int, string)>, notes: Notes): Notes {
    if entries == [] then notes
    else
      var last := entries[|entries| - 1];
      InsertOrPlusEquals(Apply(entries[..|entries| - 1], notes), last.0, last.1)
  }

  lemma ApplySnoc(entries: seq<(int, string)>, entry: (int, string), notes: Notes)
    ensures Apply(entries + [entry], notes) == InsertOrPlusEquals(Apply(entries, notes), entry.0, entry.1)
  {
    assert (entries + [entry])[..|entries|] == entries;
  }

  lemma WholeSlice<T>(s: seq<T>, k: nat)
    requires k == |s|
    ensures s[..k] == s
  {
  }

  /** Applying one more entry of `e`. */
  lemma ApplyPrefix(e: seq<(int, string)>, index: nat, notes: Notes)
    requires index < |e|
    ensures Apply(e[..index + 1], notes) == InsertOrPlusEquals(Apply(e[..index], notes), e[index].0, e[index].1)
  {
    assert e[..index + 1][..index] == e[..index];
  }

  /** Applying one more entry of `e` after `done`. */
  lemma ApplyStep(done: seq<(int, string)>, e: seq<(int, string)>, index: nat, notes: Notes)
    requires index < |e|
    ensures Apply(done + e[..index + 1], notes) == InsertOrPlusEquals(Apply(done + e[..index], notes), e[index].0, e[index].1)
  {
    assert done + e[..index + 1] == (done + e[..index]) + [e[index]];
    ApplySnoc(done + e[..index], e[index], notes);
  }

  /** The bars the entries name, in order. */
  function EntryKeys(entries: seq<(int, string)>): (ks: seq<int>)
    ensures |ks| == |entries|
    ensures forall i :: 0 <= i < |entries| ==> ks[i] == entries[i].0
  {
    seq(|entries|, i requires 0 <= i < |entries| => entries[i].0)
  }

  lemma EntryKeysAppend(a: seq<(int, string)>, b: seq<(int, string)>)
    ensures EntryKeys(a + b) == EntryKeys(a) + EntryKeys(b)
  {
  }

  /** Entries only ever extend notes. */
  lemma {:induction false} ApplyExtends(entries: seq<(int, string)>, notes: Notes)
    ensures Extends(notes, Apply(entries, notes))
  {
    if entries != [] {
      var init := entries[..|entries| - 1];
      var last := entries[|entries| - 1];
      ApplyExtends(init, notes);
      InsertExtends(Apply(init, notes), last.0, last.1);
      ExtendsTransitive(notes, Apply(init, notes), Apply(entries, notes));
    }
  }

  /** Entries add a note exactly for the bars they name. */
  lemma {:induction false} ApplyKeys(entries: seq<(int, string)>, notes: Notes)
    ensures forall k :: k in Apply(entries, notes) <==> k in notes || k in EntryKeys(entries)
  {
    if entries != [] {
      var init := entries[..|entries| - 1];
      var last := entries[|entries| - 1];
      ApplyKeys(init, notes);
      var ks := EntryKeys(entries);
      assert ks == EntryKeys(init) + [last.0] by {
        assert forall i :: 0 <= i < |init| ==> ks[i] == EntryKeys(init)[i];
      }
      var before := Apply(init, notes);
      assert Apply(entries, notes) == InsertOrPlusEquals(before, last.0, last.1);
      forall k ensures k in Apply(entries, notes) <==> k in notes || k in ks {
        assert k in ks <==> k in EntryKeys(init) || k == last.0;
      }
    }
  }

  lemma ApplyHas(entries: seq<(int, string)>, notes: Notes, k: int)
    ensures k in Apply(entries, notes) <==> k in notes || k in EntryKeys(entries)
  {
    ApplyKeys(entries, notes);
  }

  /** Entries only ever extend notes, and they add a note exactly for the bars they name. */
  lemma ApplyGrows(entries: seq<(int, string)>, notes: Notes)
    ensures Extends(notes, Apply(entries, notes))
    ensures forall k :: k in Apply(entries, notes) <==> k in notes || k in EntryKeys(entries)
  {
    ApplyExtends(entries, notes);
    ApplyKeys(entries, notes);
  }

  /** " and " between two adjacent bars, " through " for a longer span. */
  function Connector(first: Range): string {
    if first.end - first.start == 1 then " and " else " through "
  }

  /** The note for the `index`th use of a group exactly as written: the text of
      the first use already ends in ". " and gets another ". " appended. */
  function UsageNoteAsWritten(group: seq<Range>, index: nat, repeatWhat: string): string
    requires index < |group|
  {
    var usage := group[index];
    var c := Connector(group[0]);
    var text :=
      if index >= 1 then
        repeatWhat + IntToString(usage.start) + c + IntToString(usage.end) + " were first used at " + IntToString(group[0].start)
        + (if index >= 2 then " and lately used at " + IntToString(group[index - 1].start) else "")
      else "Bars " + IntToString(usage.start) + c + IntToString(usage.end) + " are used " + IntToString(|group| - 1) + " more times. ";
    text + ". "
  }

  /** A group's first use is announced with a doubled full stop. */
  lemma FirstUseDoubleStop(group: seq<Range>, repeatWhat: string)
    requires |group| > 0
    ensures EndsWith(UsageNoteAsWritten(group, 0, repeatWhat), " more times. . ")
  {
    UsageNoteDropsExtraStop(group, 0, repeatWhat);
    FirstUseSingleStop(group, repeatWhat);
    EndsWithAppend(UsageNote(group, 0, repeatWhat), " more times. ", ". ");
  }

  /** The note for the `index`th use of a group, with one full stop after every sentence:
      later uses name the first use and, from the third on, the use before. */
  function UsageNote(group: seq<Range>, index: nat, repeatWhat: string): string
    requires index < |group|
  {
    var usage := group[index];
    var c := Connector(group[0]);
    if index >= 1 then
      repeatWhat + IntToString(usage.start) + c + IntToString(usage.end) + " were first used at " + IntToString(group[0].start)
      + (if index >= 2 then " and lately used at " + IntToString(group[index - 1].start) else "") + ". "
    else "Bars " + IntToString(usage.start) + c + IntToString(usage.end) + " are used " + IntToString(|group| - 1) + " more times. "
  }

  /** The corrected note differs from the written one only by the extra ". " on a first use. */
  lemma UsageNoteDropsExtraStop(group: seq<Range>, index: nat, repeatWhat: string)
    requires index < |group|
    ensures index == 0 ==> UsageNote(group, index, repeatWhat) + ". " == UsageNoteAsWritten(group, index, repeatWhat)
    ensures index >= 1 ==> UsageNote(group, index, repeatWhat) == UsageNoteAsWritten(group, index, repeatWhat)
    ensures EndsWith(UsageNote(group, index, repeatWhat), ". ")
  {
    var note := UsageNote(group, index, repeatWhat);
    assert note[|note| - 2..] == ". ";
  }

  lemma FirstUseSingleStop(group: seq<Range>, repeatWhat: string)
    requires |group| > 0
    ensures EndsWith(UsageNote(group, 0, repeatWhat), " more times. ")
    ensures !EndsWith(UsageNote(group, 0, repeatWhat), ". . ")
  {
    var note := UsageNote(group, 0, repeatWhat);
    var c := Connector(group[0]);
    var lead := "Bars " + IntToString(group[0].start) + c + IntToString(group[0].end) + " are used " + IntToString(|group| - 1);
    assert note == lead + " more times. ";
    assert note[|note| - 13..] == " more times. ";
    assert note[|note| - 4] == 'e';
  }

  /** One `(bar, text)` entry per use of the group: the `i`th text goes with the `i`th use. */
  function UsageEntries(group: seq<Range>, texts: seq<string>): (e: seq<(int, string)>)
    requires |texts| == |group|
    ensures |e| == |group|
    ensures forall i :: 0 <= i < |group| ==> e[i] == (group[i].start, texts[i])
  {
    seq(|group|, i requires 0 <= i < |group| => (group[i].start, texts[i]))
  }

  /** The note of every use of the group. */
  function UsageTexts(group: seq<Range>, repeatWhat: string): (t: seq<string>)
    ensures |t| == |group|
    ensures forall i :: 0 <= i < |group| ==> t[i] == UsageNote(group, i, repeatWhat)
  {
    seq(|group|, i requires 0 <= i < |group| => UsageNote(group, i, repeatWhat))
  }

  /** One text for every use of every group. */
  ghost predicate TextsFit(groups: seq<seq<Range>>, texts: seq<seq<string>>) {
    |texts| == |groups| && forall g :: 0 <= g < |groups| ==> |texts[g]| == |groups[g]|
  }

  /** The entries of every use of every group, groups in order. */
  function SectionEntries(groups: seq<seq<Range>>, texts: seq<seq<string>>): seq<(int, string)>
    requires TextsFit(groups, texts)
  {
    if groups == [] then []
    else SectionEntries(groups[..|groups| - 1], texts[..|groups| - 1]) + UsageEntries(groups[|groups| - 1], texts[|groups| - 1])
  }

  /** The notes of every use of every group. */
  function SectionTexts(groups: seq<seq<Range>>, repeatWhat: string): (t: seq<seq<string>>)
    ensures TextsFit(groups, t)
    ensures forall g :: 0 <= g < |groups| ==> t[g] == UsageTexts(groups[g], repeatWhat)
  {
    seq(|groups|, g requires 0 <= g < |groups| => UsageTexts(groups[g], repeatWhat))
  }

  lemma SectionEntriesStep(groups: seq<seq<Range>>, texts: seq<seq<string>>, g: nat)
    requires TextsFit(groups, texts) && g < |groups|
    ensures TextsFit(groups[..g], texts[..g]) && TextsFit(groups[..g + 1], texts[..g + 1])
    ensures SectionEntries(groups[..g + 1], texts[..g + 1]) == SectionEntries(groups[..g], texts[..g]) + UsageEntries(groups[g], texts[g])
  {
    assert groups[..g + 1][..g] == groups[..g];
    assert texts[..g + 1][..g] == texts[..g];
  }

  /** Some use of some group starts at bar `k`. */
  predicate StartsAUse(groups: seq<seq<Range>>, k: int) {
    exists g, i :: 0 <= g < |groups| && 0 <= i < |groups[g]| && groups[g][i].start == k
  }

  /** The section entries name exactly the bars where some use starts. */
  lemma {:induction false} SectionEntriesKeys(groups: seq<seq<Range>>, texts: seq<seq<string>>, k: int)
    requires TextsFit(groups, texts)
    ensures k in EntryKeys(SectionEntries(groups, texts)) <==> StartsAUse(groups, k)
  {
    if groups != [] {
      var n := |groups| - 1;
      var init := groups[..n];
      var last := groups[n];
      SectionEntriesKeys(init, texts[..n], k);
      EntryKeysAppend(SectionEntries(init, texts[..n]), UsageEntries(last, texts[n]));
      var lastKeys := EntryKeys(UsageEntries(last, texts[n]));
      if k in lastKeys {
        var j :| 0 <= j < |lastKeys| && lastKeys[j] == k;
        assert groups[n][j].start == k;
      }
      if StartsAUse(init, k) {
        var g, j :| 0 <= g < |init| && 0 <= j < |init[g]| && init[g][j].start == k;
        assert groups[g][j].start == k;
      }
      if StartsAUse(groups, k) {
        var g, j :| 0 <= g < |groups| && 0 <= j < |groups[g]| && groups[g][j].start == k;
        if g < n {
          assert init[g][j].start == k;
        } else {
          assert lastKeys[j] == k;
        }
      }
    }
  }

  /** Noting the uses of groups keeps every earlier note as a prefix, and adds a note
      exactly for the bars where some use starts. */
  lemma SectionNotesGrow(groups: seq<seq<Range>>, texts: seq<seq<string>>, notes: Notes)
    requires TextsFit(groups, texts)
    ensures Extends(notes, Apply(SectionEntries(groups, texts), notes))
    ensures forall k :: k in Apply(SectionEntries(groups, texts), notes) <==> k in notes || StartsAUse(groups, k)
  {
    ApplyGrows(SectionEntries(groups, texts), notes);
    forall k ensures k in EntryKeys(SectionEntries(groups, texts)) <==> StartsAUse(groups, k) {
      SectionEntriesKeys(groups, texts, k);
    }
  }

  /** `describe_section_usage_in_context`: one note per use of each group, keyed by its first bar. */
  method DescribeSectionUsageInContext(groups: seq<seq<Range>>, repeatWhat: string, notes: Notes) returns (result: Notes)
    ensures result == Apply(SectionEntries(groups, SectionTexts(groups, repeatWhat)), notes)
  {
    ghost var texts := SectionTexts(groups, repeatWhat);
    result := notes;
    var g := 0;
    assert groups[..0] == [] && texts[..0] == [];
    while g < |groups|
      invariant 0 <= g <= |groups|
      invariant TextsFit(groups[..g], texts[..g])
      invariant result == Apply(SectionEntries(groups[..g], texts[..g]), notes)
    {
      var group := groups[g];
      SectionEntriesStep(groups, texts, g);
      ghost var done := SectionEntries(groups[..g], texts[..g]);
      ghost var e := UsageEntries(group, texts[g]);
      var index := 0;
      assert done + e[..0] == done;
      while index < |group|
        invariant 0 <= index <= |group|
        invariant result == Apply(done + e[..index], notes)
      {
        ApplyStep(done, e, index, notes);
        assert e[index] == (group[index].start, UsageNote(group, index, repeatWhat));
        result := InsertOrPlusEquals(result, group[index].start, UsageNote(group, index, repeatWhat));
        index := index + 1;
      }
      assert e[..index] == e;
      g := g + 1;
    }
    assert groups[..g] == groups && texts[..g] == texts;
  }

  /** The note on the first bar of a repeated-bar list. */
  function FirstUseNote(key: int, list: seq<int>, repeatWhat: string): string {
    repeatWhat + IntToString(key) + " is used " + IntToString(|list|) + " more times. "
  }

  /** The note on a later use: the first use, and from the second later use on, the one before. */
  function LaterUseNote(key: int, list: seq<int>, index: nat, repeatWhat: string): string
    requires index < |list|
  {
    repeatWhat + IntToString(list[index]) + " was first used at " + IntToString(key)
    + (if index >= 1 then " and lately used at " + IntToString(list[index - 1]) else "") + ". "
  }

  /** The first bar's entry, then one entry per later use: the `i`th text goes with the `i`th bar. */
  function ListEntries(key: int, list: seq<int>, texts: seq<string>): (e: seq<(int, string)>)
    requires |texts| == |list| + 1
    ensures |e| == |list| + 1
    ensures forall i :: 0 <= i < |e| ==> e[i] == ((if i == 0 then key else list[i - 1]), texts[i])
  {
    [(key, texts[0])] + seq(|list|, i requires 0 <= i < |list| => (list[i], texts[i + 1]))
  }

  lemma ListEntryKeys(key: int, list: seq<int>, texts: seq<string>)
    requires |texts| == |list| + 1
    ensures EntryKeys(ListEntries(key, list, texts)) == [key] + list
  {
    var e := ListEntries(key, list, texts);
    var ks := EntryKeys(e);
    forall i | 0 <= i < |ks| ensures ks[i] == ([key] + list)[i] {
      assert ks[i] == e[i].0;
    }
  }

  /** The note on the `i`th bar of a repeated-bar list, its first bar being number 0. */
  function ListNote(key: int, list: seq<int>, i: nat, repeatWhat: string): string
    requires i <= |list|
  {
    if i == 0 then FirstUseNote(key, list, repeatWhat) else LaterUseNote(key, list, i - 1, repeatWhat)
  }

  /** The first bar's note, then the note of each later use. */
  function ListTexts(key: int, list: seq<int>, repeatWhat: string): (t: seq<string>)
    ensures |t| == |list| + 1
    ensures forall i :: 0 <= i < |t| ==> t[i] == ListNote(key, list, i, repeatWhat)
  {
    seq(|list| + 1, i requires 0 <= i <= |list| => ListNote(key, list, i, repeatWhat))
  }

  /** One text for every first bar and every later use. */
  ghost predicate ListTextsFit(lists: seq<(int, seq<int>)>, texts: seq<seq<string>>) {
    |texts| == |lists| && forall j :: 0 <= j < |lists| ==> |texts[j]| == |lists[j].1| + 1
  }

  function MeasureTexts(lists: seq<(int, seq<int>)>, repeatWhat: string): (t: seq<seq<string>>)
    ensures ListTextsFit(lists, t)
    ensures forall j :: 0 <= j < |lists| ==> t[j] == ListTexts(lists[j].0, lists[j].1, repeatWhat)
  {
    seq(|lists|, j requires 0 <= j < |lists| => ListTexts(lists[j].0, lists[j].1, repeatWhat))
  }

  /** Bar `k` is a first bar or a later use in the first `n` entries. */
  predicate NotedBar(lists: seq<(int, seq<int>)>, n: nat, k: int)
    requires n <= |lists|
  {
    exists j :: 0 <= j < n && (lists[j].0 == k || k in lists[j].1)
  }

  /** The notes for one repeated-bar list: the first bar, then each later use. */
  method NoteList(key: int, list: seq<int>, repeatWhat: string, notes: Notes) returns (result: Notes)
    ensures result == Apply(ListEntries(key, list, ListTexts(key, list, repeatWhat)), notes)
  {
    ghost var e := ListEntries(key, list, ListTexts(key, list, repeatWhat));
    result := NoteFirstUse(key, list, repeatWhat, notes);
    var index := 0;
    while index < |list|
      invariant 0 <= index <= |list|
      invariant result == Apply(e[..index + 1], notes)
    {
      result := NoteLaterUse(key, list, index, repeatWhat, result, notes);
      index := index + 1;
    }
    WholeSlice(e, index + 1);
  }

  /** The note on the first bar of the list. */
  method NoteFirstUse(key: int, list: seq<int>, repeatWhat: string, notes: Notes) returns (result: Notes)
    ensures result == Apply(ListEntries(key, list, ListTexts(key, list, repeatWhat))[..1], notes)
  {
    ghost var e := ListEntries(key, list, ListTexts(key, list, repeatWhat));
    assert e[0] == (key, ListNote(key, list, 0, repeatWhat));
    ApplyPrefix(e, 0, notes);
    result := InsertOrPlusEquals(notes, key, FirstUseNote(key, list, repeatWhat));
  }

  /** The note on the `index`th later use of the list. */
  method NoteLaterUse(key: int, list: seq<int>, index: nat, repeatWhat: string, prev: Notes, ghost notes: Notes) returns (result: Notes)
    requires index < |list|
    requires prev == Apply(ListEntries(key, list, ListTexts(key, list, repeatWhat))[..index + 1], notes)
    ensures result == Apply(ListEntries(key, list, ListTexts(key, list, repeatWhat))[..index + 2], notes)
  {
    ghost var e := ListEntries(key, list, ListTexts(key, list, repeatWhat));
    ApplyPrefix(e, index + 1, notes);
    assert e[index + 1] == (list[index], ListNote(key, list, index + 1, repeatWhat));
    result := InsertOrPlusEquals(prev, list[index], LaterUseNote(key, list, index, repeatWhat));
  }

  lemma {:induction false} ApplyAppend(a: seq<(int, string)>, b: seq<(int, string)>, notes: Notes)
    ensures Apply(a + b, notes) == Apply(b, Apply(a, notes))
  {
    if b == [] {
      assert a + b == a;
    } else {
      var init := b[..|b| - 1];
      ApplyAppend(a, init, notes);
      assert (a + b)[..|a + b| - 1] == a + init;
      assert (a + b)[|a + b| - 1] == b[|b| - 1];
    }
  }

  /** The notes after noting the first `n` entries `(first bar, later uses)` in turn. */
  function MeasuresNoted(lists: seq<(int, seq<int>)>, n: nat, texts: seq<seq<string>>, notes: Notes): Notes
    requires n <= |lists| && ListTextsFit(lists, texts)
  {
    if n == 0 then notes
    else Apply(ListEntries(lists[n - 1].0, lists[n - 1].1, texts[n - 1]), MeasuresNoted(lists, n - 1, texts, notes))
  }

  /** The bars noted by the `n`th entry are its first bar and its later uses. */
  lemma NotedBarStep(lists: seq<(int, seq<int>)>, n: nat, k: int)
    requires 0 < n <= |lists|
    ensures NotedBar(lists, n, k) <==> NotedBar(lists, n - 1, k) || k == lists[n - 1].0 || k in lists[n - 1].1
  {
    if NotedBar(lists, n, k) {
      var j :| 0 <= j < n && (lists[j].0 == k || k in lists[j].1);
      if j < n - 1 {
        assert NotedBar(lists, n - 1, k);
      }
    }
    if NotedBar(lists, n - 1, k) {
      var j :| 0 <= j < n - 1 && (lists[j].0 == k || k in lists[j].1);
      assert NotedBar(lists, n, k);
    }
    if k == lists[n - 1].0 || k in lists[n - 1].1 {
      assert NotedBar(lists, n, k);
    }
  }

  lemma {:induction false} MeasuresNotedExtends(lists: seq<(int, seq<int>)>, n: nat, texts: seq<seq<string>>, notes: Notes)
    requires n <= |lists| && ListTextsFit(lists, texts)
    ensures Extends(notes, MeasuresNoted(lists, n, texts, notes))
  {
    if n > 0 {
      var before := MeasuresNoted(lists, n - 1, texts, notes);
      MeasuresNotedExtends(lists, n - 1, texts, notes);
      ApplyExtends(ListEntries(lists[n - 1].0, lists[n - 1].1, texts[n - 1]), before);
      ExtendsTransitive(notes, before, MeasuresNoted(lists, n, texts, notes));
    }
  }

  /** Noting one more list adds exactly its first bar and its later uses. */
  lemma NotedKeysStep(e: seq<(int, string)>, before: Notes, notes: Notes, key: int, list: seq<int>, k: int, notedBefore: bool)
    requires EntryKeys(e) == [key] + list
    requires k in before <==> k in notes || notedBefore
    ensures k in Apply(e, before) <==> k in notes || notedBefore || k == key || k in list
  {
    ApplyHas(e, before, k);
    assert k in [key] + list <==> k == key || k in list;
  }

  lemma {:induction false} MeasuresNotedHas(lists: seq<(int, seq<int>)>, n: nat, texts: seq<seq<string>>, notes: Notes, k: int)
    requires n <= |lists| && ListTextsFit(lists, texts)
    ensures k in MeasuresNoted(lists, n, texts, notes) <==> k in notes || NotedBar(lists, n, k)
  {
    if n > 0 {
      var (key, list) := lists[n - 1];
      var e := ListEntries(key, list, texts[n - 1]);
      MeasuresNotedHas(lists, n - 1, texts, notes, k);
      ListEntryKeys(key, list, texts[n - 1]);
      NotedKeysStep(e, MeasuresNoted(lists, n - 1, texts, notes), notes, key, list, k, NotedBar(lists, n - 1, k));
      NotedBarStep(lists, n, k);
    }
  }

  lemma MeasuresNotedKeys(lists: seq<(int, seq<int>)>, n: nat, texts: seq<seq<string>>, notes: Notes)
    requires n <= |lists| && ListTextsFit(lists, texts)
    ensures forall k :: k in MeasuresNoted(lists, n, texts, notes) <==> k in notes || NotedBar(lists, n, k)
  {
    forall k ensures k in MeasuresNoted(lists, n, texts, notes) <==> k in notes || NotedBar(lists, n, k) {
      MeasuresNotedHas(lists, n, texts, notes, k);
    }
  }

  /** Noting repeated bars keeps every earlier note as a prefix, and adds a note
      exactly for the first bars and their later uses. */
  lemma MeasureNotesGrow(lists: seq<(int, seq<int>)>, texts: seq<seq<string>>, notes: Notes)
    requires ListTextsFit(lists, texts)
    ensures Extends(notes, MeasuresNoted(lists, |lists|, texts, notes))
    ensures forall k :: k in MeasuresNoted(lists, |lists|, texts, notes) <==> k in notes || NotedBar(lists, |lists|, k)
  {
    MeasuresNotedExtends(lists, |lists|, texts, notes);
    MeasuresNotedKeys(lists, |lists|, texts, notes);
  }

  /** One round of `describe_measure_usage_in_context`: the notes for the next entry. */
  method NoteNextList(lists: seq<(int, seq<int>)>, n: nat, repeatWhat: string, prev: Notes, ghost notes: Notes) returns (result: Notes)
    requires n < |lists|
    requires prev == MeasuresNoted(lists, n, MeasureTexts(lists, repeatWhat), notes)
    ensures result == MeasuresNoted(lists, n + 1, MeasureTexts(lists, repeatWhat), notes)
  {
    var (key, list) := lists[n];
    assert MeasureTexts(lists, repeatWhat)[n] == ListTexts(key, list, repeatWhat);
    result := NoteList(key, list, repeatWhat, prev);
  }

  /** `describe_measure_usage_in_context`: for each first bar of the dictionary, in key order,
      note its number of later uses, and on each later use note the first bar and the use before. */
  method DescribeMeasureUsageInContext(d: Dict<int, seq<int>>, repeatWhat: string, notes: Notes) returns (result: Notes)
    requires d.Valid()
    ensures result == MeasuresNoted(d.Entries(), |d.keys|, MeasureTexts(d.Entries(), repeatWhat), notes)
  {
    var lists := d.Entries();
    result := notes;
    var n := 0;
    while n < |lists|
      invariant 0 <= n <= |lists|
      invariant result == MeasuresNoted(lists, n, MeasureTexts(lists, repeatWhat), notes)
    {
      result := NoteNextList(lists, n, repeatWhat, result, notes);
      n := n + 1;
    }
  }

  /** A share of the bars, in percent. */
  function Usage(count: int, bars: nat): real
    requires bars > 0
  {
    count as real / bars as real * 100.0
  }

  lemma UsageMonotone(a: int, b: int, bars: nat)
    requires bars > 0 && a <= b
    ensures Usage(a, bars) <= Usage(b, bars)
  {
    var x := a as real / bars as real;
    var y := b as real / bars as real;
    assert x * bars as real == a as real;
    assert y * bars as real == b as real;
    assert x <= y;
  }

  function BarRepeatedNote(description: string, key: int, percent: real): string {
    "The " + description + " in bar " + IntToString(key) + " is used " + DescribePercentage(percent) + " of the way through. "
  }

  /** The sentences for the first `n` keys of a repeated-bar dictionary. */
  function RepeatedManyText(d: Dict<int, seq<int>>, n: nat, description: string, bars: nat): string
    requires d.Valid() && n <= |d.keys| && (n > 0 ==> bars > 0)
  {
    if n == 0 then ""
    else
      var key := d.keys[n - 1];
      var percent := Usage(|d.items[key]|, bars);
      RepeatedManyText(d, n - 1, description, bars) + (if percent > 33.0 then BarRepeatedNote(description, key, percent) else "")
  }

  /** Only bars used for more than a third of the piece get a sentence. */
  lemma {:induction false} RepeatedManyEmptyIff(d: Dict<int, seq<int>>, n: nat, description: string, bars: nat)
    requires d.Valid() && n <= |d.keys| && (n > 0 ==> bars > 0)
    ensures RepeatedManyText(d, n, description, bars) == "" <==>
              forall j :: 0 <= j < n ==> Usage(|d.items[d.keys[j]]|, bars) <= 33.0
  {
    if n > 0 {
      RepeatedManyEmptyIff(d, n - 1, description, bars);
    }
  }

  /** `describe_measure_repeated_many`; `bars` is the number of bars analysed. */
  method DescribeMeasureRepeatedMany(d: Dict<int, seq<int>>, description: string, bars: nat) returns (repetition: string)
    requires d.Valid() && (|d.keys| > 0 ==> bars > 0)
    ensures repetition == RepeatedManyText(d, |d.keys|, description, bars)
  {
    repetition := "";
    var n := 0;
    while n < |d.keys|
      invariant 0 <= n <= |d.keys|
      invariant repetition == RepeatedManyText(d, n, description, bars)
    {
      repetition := RepeatedManyNext(d, n, description, bars, repetition);
      n := n + 1;
    }
  }

  /** One round of `describe_measure_repeated_many`: the sentence for the `n`th key, if any. */
  method RepeatedManyNext(d: Dict<int, seq<int>>, n: nat, description: string, bars: nat, prev: string) returns (repetition: string)
    requires d.Valid() && n < |d.keys| && bars > 0
    requires prev == RepeatedManyText(d, n, description, bars)
    ensures repetition == RepeatedManyText(d, n + 1, description, bars)
  {
    var key := d.keys[n];
    var percentUsage := |d.items[key]| as real / bars as real * 100.0;
    repetition := prev;
    if percentUsage > 33.0 {
      repetition := repetition + BarRepeatedNote(description, key, percentUsage);
    }
  }

  /** Bars covered by all uses of a group. */
  function GroupUsage(group: seq<Range>, bars: nat): real
    requires |group| > 0 && bars > 0
  {
    Usage((group[0].end - group[0].start + 1) * |group|, bars)
  }

  function GroupRepeatedNote(description: string, first: Range, percent: real): string {
    "The " + description + " in bars " + IntToString(first.start)
    + (if first.end - first.start == 1 then " and " else " to ") + IntToString(first.end)
    + " are used " + DescribeRepetitionPercentage(percent) + " " + "of the way through. "
  }

  predicate NonEmptyGroups(groups: seq<seq<Range>>) {
    forall g :: 0 <= g < |groups| ==> |groups[g]| > 0
  }

  function GroupRepeatedManyText(groups: seq<seq<Range>>, description: string, bars: nat): string
    requires NonEmptyGroups(groups) && (|groups| > 0 ==> bars > 0)
  {
    if groups == [] then ""
    else
      var last := groups[|groups| - 1];
      var percent := GroupUsage(last, bars);
      GroupRepeatedManyText(groups[..|groups| - 1], description, bars)
      + (if percent > 33.0 then GroupRepeatedNote(description, last[0], percent) else "")
  }

  /** Only groups covering more than a third of the piece get a sentence. */
  lemma {:induction false} GroupRepeatedManyEmptyIff(groups: seq<seq<Range>>, description: string, bars: nat)
    requires NonEmptyGroups(groups) && (|groups| > 0 ==> bars > 0)
    ensures GroupRepeatedManyText(groups, description, bars) == "" <==>
              forall g :: 0 <= g < |groups| ==> GroupUsage(groups[g], bars) <= 33.0
  {
    if groups != [] {
      var init := groups[..|groups| - 1];
      GroupRepeatedManyEmptyIff(init, description, bars);
      assert forall g :: 0 <= g < |init| ==> init[g] == groups[g];
    }
  }

  lemma GroupRepeatedManyStep(groups: seq<seq<Range>>, g: nat, description: string, bars: nat)
    requires NonEmptyGroups(groups) && g < |groups| && bars > 0
    ensures NonEmptyGroups(groups[..g]) && NonEmptyGroups(groups[..g + 1])
    ensures GroupRepeatedManyText(groups[..g + 1], description, bars) ==
              GroupRepeatedManyText(groups[..g], description, bars)
              + (if GroupUsage(groups[g], bars) > 33.0 then GroupRepeatedNote(description, groups[g][0], GroupUsage(groups[g], bars)) else "")
  {
    assert groups[..g + 1][..g] == groups[..g];
  }

  /** `describe_measure_group_repeated_many`. */
  method DescribeMeasureGroupRepeatedMany(groups: seq<seq<Range>>, description: string, bars: nat) returns (repetition: string)
    requires NonEmptyGroups(groups) && (|groups| > 0 ==> bars > 0)
    ensures repetition == GroupRepeatedManyText(groups, description, bars)
  {
    repetition := "";
    var g := 0;
    while g < |groups|
      invariant 0 <= g <= |groups|
      invariant repetition == GroupRepeatedManyText(groups[..g], description, bars)
    {
      repetition := GroupRepeatedManyNext(groups, g, description, bars, repetition);
      g := g + 1;
    }
    assert groups[..g] == groups;
  }

  /** One round of `describe_measure_group_repeated_many`: the sentence for the `g`th group, if any. */
  method GroupRepeatedManyNext(groups: seq<seq<Range>>, g: nat, description: string, bars: nat, prev: string)
    returns (repetition: string)
    requires NonEmptyGroups(groups) && g < |groups| && bars > 0
    requires NonEmptyGroups(groups[..g]) && prev == GroupRepeatedManyText(groups[..g], description, bars)
    ensures NonEmptyGroups(groups[..g + 1]) && repetition == GroupRepeatedManyText(groups[..g + 1], description, bars)
  {
    var group := groups[g];
    var percent := GroupUsage(group, bars);
    GroupRepeatedManyStep(groups, g, description, bars);
    repetition := prev;
    if percent > 33.0 {
      repetition := repetition + GroupRepeatedNote(description, group[0], percent);
    }
  }

  function Len(l: seq<int>): int { |l| }

  predicate NonEmptyLists(lists: seq<seq<int>>) {
    forall i :: 0 <= i < |lists| ==> |lists[i]| > 0
  }

  /** The sentence for the first list, in order, used for more than a third of the bars. */
  function FirstFrequentNote(lead: string, verb: string, lists: seq<seq<int>>, bars: nat): string
    requires NonEmptyLists(lists) && (|lists| > 0 ==> bars > 0)
  {
    if lists == [] then ""
    else
      var percent := Usage(|lists[0]|, bars);
      if percent > 33.0 then lead + IntToString(lists[0][0]) + verb + DescribePercentage(percent) + " of the way through. "
      else FirstFrequentNote(lead, verb, lists[1..], bars)
  }

  /** Over lists sorted longest first, only the first (longest) list can be reported. */
  lemma {:induction false} LongestDecides(lead: string, verb: string, lists: seq<seq<int>>, bars: nat)
    requires NonEmptyLists(lists) && (|lists| > 0 ==> bars > 0)
    requires Sorting.SortedDesc(lists, Len)
    ensures FirstFrequentNote(lead, verb, lists, bars) ==
              if |lists| > 0 && Usage(|lists[0]|, bars) > 33.0
              then lead + IntToString(lists[0][0]) + verb + DescribePercentage(Usage(|lists[0]|, bars)) + " of the way through. "
              else ""
  {
    if |lists| > 0 && Usage(|lists[0]|, bars) <= 33.0 {
      NoneFrequent(lead, verb, lists[1..], bars, |lists[0]|);
    }
  }

  lemma {:induction false} NoneFrequent(lead: string, verb: string, lists: seq<seq<int>>, bars: nat, bound: int)
    requires NonEmptyLists(lists) && bars > 0
    requires forall i :: 0 <= i < |lists| ==> |lists[i]| <= bound
    requires Usage(bound, bars) <= 33.0
    ensures FirstFrequentNote(lead, verb, lists, bars) == ""
  {
    if lists != [] {
      UsageMonotone(|lists[0]|, bound, bars);
      NoneFrequent(lead, verb, lists[1..], bars, bound);
    }
  }

  /** Longest list first; lists of equal length keep their order. */
  function LongestFirst(lists: seq<seq<int>>): (sorted: seq<seq<int>>)
    ensures Sorting.SortedDesc(sorted, Len)
    ensures multiset(sorted) == multiset(lists) && |sorted| == |lists|
    ensures NonEmptyLists(lists) ==> NonEmptyLists(sorted)
    ensures forall n :: Sorting.Only(sorted, Len, n) == Sorting.Only(lists, Len, n)
  {
    var sorted := Sorting.SortDesc(lists, Len);
    forall n ensures Sorting.Only(sorted, Len, n) == Sorting.Only(lists, Len, n) {
      Sorting.SortDescStable(lists, Len, n);
    }
    assert forall i :: 0 <= i < |sorted| ==> sorted[i] in multiset(lists);
    sorted
  }

  method FirstFrequent(lead: string, verb: string, lists: seq<seq<int>>, bars: nat) returns (text: string)
    requires NonEmptyLists(lists) && (|lists| > 0 ==> bars > 0)
    ensures text == FirstFrequentNote(lead, verb, lists, bars)
  {
    var i := 0;
    while i < |lists|
      invariant 0 <= i <= |lists|
      invariant FirstFrequentNote(lead, verb, lists, bars) == FirstFrequentNote(lead, verb, lists[i..], bars)
    {
      var percentUsage := |lists[i]| as real / bars as real * 100.0;
      if percentUsage > 33.0 {
        return lead + IntToString(lists[i][0]) + verb + DescribePercentage(percentUsage) + " of the way through. ";
      }
      assert lists[i..][1..] == lists[i + 1..];
      i := i + 1;
    }
    return "";
  }

  /** The full-match registry plays no part in `calculate_repeated_measures_lists` when
      full matches are not filtered out; any registry will do. */
  function NoFull(): Registry<int> { Registry([], [], Empty()) }

  /** The repeated-bar lists of the classes `_describe_smaller_repetition_patterns` reads. */
  function SmallLists(classes: seq<seq<int>>): (lists: seq<seq<int>>)
    ensures NonEmptyLists(lists)
  {
    RepeatedListsAreClasses(classes, false, NoFull());
    RepeatedLists(classes, false, NoFull())
  }

  /** A positive bar count whenever the smaller patterns have a list to weigh. */
  predicate SmallerDescribable(rhythmClasses: seq<seq<int>>, intervalClasses: seq<seq<int>>, bars: nat) {
    |SmallLists(rhythmClasses)| + |SmallLists(intervalClasses)| > 0 ==> bars > 0
  }

  /** The sentences of `_describe_smaller_repetition_patterns`: for rhythm and then for
      intervals, the first repeated list, longest first, used for more than a third of the bars. */
  function SmallerText(rhythmClasses: seq<seq<int>>, intervalClasses: seq<seq<int>>, bars: nat): string
    requires SmallerDescribable(rhythmClasses, intervalClasses, bars)
  {
    FirstFrequentNote("The rhythm in bar ", " is used ", LongestFirst(SmallLists(rhythmClasses)), bars)
    + FirstFrequentNote("The intervals in bar ", " are used ", LongestFirst(SmallLists(intervalClasses)), bars)
  }

  /** Only the longest repeated rhythm list and the longest repeated interval list can be reported. */
  lemma SmallerTextLongest(rhythmClasses: seq<seq<int>>, intervalClasses: seq<seq<int>>, bars: nat)
    requires SmallerDescribable(rhythmClasses, intervalClasses, bars)
    ensures var r := LongestFirst(SmallLists(rhythmClasses));
            var i := LongestFirst(SmallLists(intervalClasses));
            SmallerText(rhythmClasses, intervalClasses, bars) ==
              (if |r| > 0 && Usage(|r[0]|, bars) > 33.0
               then "The rhythm in bar " + IntToString(r[0][0]) + " is used " + DescribePercentage(Usage(|r[0]|, bars)) + " of the way through. "
               else "")
              + (if |i| > 0 && Usage(|i[0]|, bars) > 33.0
                 then "The intervals in bar " + IntToString(i[0][0]) + " are used " + DescribePercentage(Usage(|i[0]|, bars)) + " of the way through. "
                 else "")
  {
    LongestDecides("The rhythm in bar ", " is used ", LongestFirst(SmallLists(rhythmClasses)), bars);
    LongestDecides("The intervals in bar ", " are used ", LongestFirst(SmallLists(intervalClasses)), bars);
  }

  /** `_describe_smaller_repetition_patterns`, given the class lists of the rhythm and the
      interval registries. */
  method DescribeSmallerRepetitionPatterns(rhythmClasses: seq<seq<int>>, intervalClasses: seq<seq<int>>, bars: nat)
    returns (repetition: string)
    requires SmallerDescribable(rhythmClasses, intervalClasses, bars)
    ensures repetition == SmallerText(rhythmClasses, intervalClasses, bars)
  {
    var rhythmMatches := CalculateRepeatedMeasuresLists(rhythmClasses, false, NoFull());
    var rhythm := FirstFrequent("The rhythm in bar ", " is used ", LongestFirst(rhythmMatches), bars);
    var intervalMatches := CalculateRepeatedMeasuresLists(intervalClasses, false, NoFull());
    var intervals := FirstFrequent("The intervals in bar ", " are used ", LongestFirst(intervalMatches), bars);
    repetition := rhythm + intervals;
  }

  /** Bars spanned by one use of a group. */
  function LengthOf(g: seq<Range>): int
    requires |g| > 0
  {
    g[0].end - g[0].start + 1
  }

  /** Count the groups by length into `d`. */
  function TallyLengths(groups: seq<seq<Range>>, d: Dict<int, int>): Dict<int, int>
    requires NonEmptyGroups(groups)
  {
    TallyUpTo(groups, |groups|, d)
  }

  /** Count the first `n` groups by length into `d`. */
  function TallyUpTo(groups: seq<seq<Range>>, n: nat, d: Dict<int, int>): Dict<int, int>
    requires NonEmptyGroups(groups) && n <= |groups|
  {
    if n == 0 then d
    else
      var t := TallyUpTo(groups, n - 1, d);
      var length := LengthOf(groups[n - 1]);
      t.Put(length, t.Get(length, 0) + 1)
  }

  /** How many groups span `length` bars. */
  function CountOfLength(groups: seq<seq<Range>>, length: int): nat
    requires NonEmptyGroups(groups)
  {
    CountUpTo(groups, |groups|, length)
  }

  /** How many of the first `n` groups span `length` bars. */
  function CountUpTo(groups: seq<seq<Range>>, n: nat, length: int): nat
    requires NonEmptyGroups(groups) && n <= |groups|
  {
    if n == 0 then 0 else CountUpTo(groups, n - 1, length) + (if LengthOf(groups[n - 1]) == length then 1 else 0)
  }

  /** The tally adds to each length the number of groups of that length. */
  lemma TallyLengthsCounts(groups: seq<seq<Range>>, d: Dict<int, int>, length: int)
    requires NonEmptyGroups(groups)
    ensures TallyLengths(groups, d).Get(length, 0) == d.Get(length, 0) + CountOfLength(groups, length)
    ensures d.Valid() ==> TallyLengths(groups, d).Valid()
  {
    TallyUpToCounts(groups, |groups|, d, length);
  }

  lemma {:induction false} TallyUpToCounts(groups: seq<seq<Range>>, n: nat, d: Dict<int, int>, length: int)
    requires NonEmptyGroups(groups) && n <= |groups|
    ensures TallyUpTo(groups, n, d).Get(length, 0) == d.Get(length, 0) + CountUpTo(groups, n, length)
    ensures d.Valid() ==> TallyUpTo(groups, n, d).Valid()
  {
    if n > 0 {
      TallyUpToCounts(groups, n - 1, d, length);
    }
  }

  method TallyGroupLengths(groups: seq<seq<Range>>, d: Dict<int, int>) returns (t: Dict<int, int>)
    requires NonEmptyGroups(groups)
    ensures t == TallyLengths(groups, d)
  {
    t := d;
    var g := 0;
    while g < |groups|
      invariant 0 <= g <= |groups|
      invariant t == TallyUpTo(groups, g, d)
    {
      var length := groups[g][0].end - groups[g][0].start + 1;
      t := t.Put(length, t.Get(length, 0) + 1);
      g := g + 1;
    }
  }

  /** The full-match length tally: groups by length, and the single repeated bars as length 1. */
  function FullLengths(groups: seq<seq<Range>>, singles: nat): (d: Dict<int, int>)
    requires NonEmptyGroups(groups)
    ensures d.Valid()
  {
    TallyLengthsCounts(groups, Empty(), 0);
    TallyLengths(groups, Empty()).Put(1, singles)
  }

  /** The rhythm-or-intervals tally: both kinds of groups, and both kinds of single bars as length 1. */
  function PartialLengths(rhythmGroups: seq<seq<Range>>, intervalGroups: seq<seq<Range>>, singles: nat): (d: Dict<int, int>)
    requires NonEmptyGroups(rhythmGroups) && NonEmptyGroups(intervalGroups)
    ensures d.Valid()
  {
    TallyLengthsCounts(rhythmGroups, Empty(), 0);
    TallyLengthsCounts(intervalGroups, TallyLengths(rhythmGroups, Empty()), 0);
    TallyLengths(intervalGroups, TallyLengths(rhythmGroups, Empty())).Put(1, singles)
  }

  /** Every length other than 1 counts the groups of that length; length 1 counts the single bars. */
  lemma LengthTallies(rhythmGroups: seq<seq<Range>>, intervalGroups: seq<seq<Range>>, singles: nat, length: int)
    requires NonEmptyGroups(rhythmGroups) && NonEmptyGroups(intervalGroups)
    ensures FullLengths(rhythmGroups, singles).Get(length, 0) ==
              if length == 1 then singles else CountOfLength(rhythmGroups, length)
    ensures PartialLengths(rhythmGroups, intervalGroups, singles).Get(length, 0) ==
              if length == 1 then singles else CountOfLength(rhythmGroups, length) + CountOfLength(intervalGroups, length)
    ensures FullLengths(rhythmGroups, singles).Valid() && PartialLengths(rhythmGroups, intervalGroups, singles).Valid()
  {
    TallyLengthsCounts(rhythmGroups, Empty(), length);
    TallyLengthsCounts(intervalGroups, TallyLengths(rhythmGroups, Empty()), length);
    TallyLengthsCounts(rhythmGroups, Empty(), 0);
    TallyLengthsCounts(intervalGroups, TallyLengths(rhythmGroups, Empty()), 0);
  }

  function NegatedLength(entry: (int, int)): int { -entry.0 }

  /** `sorted(d.items())`: the keys are distinct, so this orders by length, shortest first. */
  function SortedLengths(d: Dict<int, int>): seq<(int, int)>
    requires d.Valid()
  {
    Sorting.SortDesc(d.Entries(), NegatedLength)
  }

  /** The sorted tally holds the same entries, shortest length first. */
  lemma SortedLengthsSpec(d: Dict<int, int>)
    requires d.Valid()
    ensures multiset(SortedLengths(d)) == multiset(d.Entries())
    ensures forall i, j :: 0 <= i < j < |SortedLengths(d)| ==> SortedLengths(d)[i].0 <= SortedLengths(d)[j].0
  {
    var r := SortedLengths(d);
    assert forall i, j :: 0 <= i < j < |r| ==> NegatedLength(r[i]) >= NegatedLength(r[j]);
  }

  function SumCounts(entries: seq<(int, int)>): int {
    if entries == [] then 0 else SumCounts(entries[..|entries| - 1]) + entries[|entries| - 1].1
  }

  function LabelLengths(entries: seq<(int, int)>): (r: seq<(string, int)>)
    ensures |r| == |entries|
    ensures forall i :: 0 <= i < |r| ==> r[i] == (IntToString(entries[i].0), entries[i].1)
  {
    if entries == [] then [] else LabelLengths(entries[..|entries| - 1]) + [(IntToString(entries[|entries| - 1].0), entries[|entries| - 1].1)]
  }

  /** The length sentence for one tally: the count-list wording, the several-items
      wording when that is empty, and nothing when both are. */
  function LengthSentence(lead: string, lengths: seq<(int, int)>, total: int): string {
    var labelled := LabelLengths(lengths);
    var description := ReplaceEndWith(CountListText(labelled, total), ", ", "");
    var description' := if description == "" then SeveralText(labelled, total, "lengths") else description;
    if description' == "" then "" else lead + description' + " measures long. "
  }

  /** A tally that has no length above 30% falls back on the several-items wording. */
  lemma LengthSentenceFallsBack(lead: string, lengths: seq<(int, int)>, total: int)
    requires total != 0
    requires forall i :: 0 <= i < |lengths| ==> Share(lengths[i].1, total) <= 0.3
    ensures LengthSentence(lead, lengths, total) ==
              if SeveralText(LabelLengths(lengths), total, "lengths") == "" then ""
              else lead + SeveralText(LabelLengths(lengths), total, "lengths") + " measures long. "
  {
    var labelled := LabelLengths(lengths);
    assert forall i :: 0 <= i < |labelled| ==> Share(labelled[i].1, total) <= 0.3 by {
      forall i | 0 <= i < |labelled| ensures Share(labelled[i].1, total) <= 0.3 {
        assert labelled[i].1 == lengths[i].1;
      }
    }
    CountListEmptyIff(labelled, total);
    assert ReplaceEndWith(CountListText(labelled, total), ", ", "") == "";
  }

  method SumValues(entries: seq<(int, int)>) returns (total: int)
    ensures total == SumCounts(entries)
  {
    total := 0;
    var i := 0;
    while i < |entries|
      invariant 0 <= i <= |entries|
      invariant total == SumCounts(entries[..i])
    {
      assert entries[..i + 1][..i] == entries[..i];
      total := total + entries[i].1;
      i := i + 1;
    }
    assert entries[..i] == entries;
  }

  /** The length sentence for a tally, or nothing for an empty tally. */
  function LengthsText(lead: string, d: Dict<int, int>): string
    requires d.Valid()
  {
    if |d.keys| > 0 then LengthSentence(lead, SortedLengths(d), SumCounts(SortedLengths(d))) else ""
  }

  method DescribeLengths(lead: string, d: Dict<int, int>) returns (sentence: string)
    requires d.Valid()
    ensures sentence == LengthsText(lead, d)
  {
    sentence := "";
    if |d.keys| > 0 {
      var sortedLengths := SortedLengths(d);
      var total := SumValues(sortedLengths);
      var labelled := LabelLengths(sortedLengths);
      var description := DescribeCountList(labelled, total);
      description := ReplaceEndWith(description, ", ", "");
      if description == "" {
        description := DescribeCountListSeveral(labelled, total, "lengths");
      }
      if description != "" {
        sentence := lead + description + " measures long. ";
      }
    }
  }

  method TallyFull(groups: seq<seq<Range>>, singles: nat) returns (t: Dict<int, int>)
    requires NonEmptyGroups(groups)
    ensures t.Valid() && t == FullLengths(groups, singles)
  {
    TallyLengthsCounts(groups, Empty(), 0);
    t := TallyGroupLengths(groups, Empty());
    t := t.Put(1, singles);
  }

  method TallyPartial(rhythmGroups: seq<seq<Range>>, intervalGroups: seq<seq<Range>>, singles: nat) returns (t: Dict<int, int>)
    requires NonEmptyGroups(rhythmGroups) && NonEmptyGroups(intervalGroups)
    ensures t.Valid() && t == PartialLengths(rhythmGroups, intervalGroups, singles)
  {
    TallyLengthsCounts(rhythmGroups, Empty(), 0);
    TallyLengthsCounts(intervalGroups, TallyLengths(rhythmGroups, Empty()), 0);
    t := TallyGroupLengths(rhythmGroups, Empty());
    t := TallyGroupLengths(intervalGroups, t);
    t := t.Put(1, singles);
  }

  const FullLead := "The repeated sections are "
  const PartialLead := "The repeated sections of just rhythm/intervals are "

  /** The structure sentences: the full-match tally's, then the rhythm-or-intervals tally's. */
  function StructureText(full: Dict<int, int>, partial: Dict<int, int>): string
    requires full.Valid() && partial.Valid()
  {
    LengthsText(FullLead, full) + LengthsText(PartialLead, partial)
  }

  lemma StructureTextJoins(first: string, second: string, full: Dict<int, int>, partial: Dict<int, int>)
    requires full.Valid() && partial.Valid()
    requires first == LengthsText(FullLead, full) && second == LengthsText(PartialLead, partial)
    ensures first + second == StructureText(full, partial)
  {
  }

  /** The two length sentences of the structure. */
  method DescribeTallies(full: Dict<int, int>, partial: Dict<int, int>) returns (repetition: string)
    requires full.Valid() && partial.Valid()
    ensures repetition == StructureText(full, partial)
  {
    var first := DescribeLengths(FullLead, full);
    var second := DescribeLengths(PartialLead, partial);
    repetition := first + second;
    StructureTextJoins(first, second, full, partial);
  }

  /** The structure sentences over the three comparisons' groups and the numbers of their single bars. */
  function StructureOf(fullGroups: seq<seq<Range>>, fullSingles: nat, rhythmGroups: seq<seq<Range>>, rhythmSingles: nat,
                       intervalGroups: seq<seq<Range>>, intervalSingles: nat): string
    requires NonEmptyGroups(fullGroups) && NonEmptyGroups(rhythmGroups) && NonEmptyGroups(intervalGroups)
  {
    StructureText(FullLengths(fullGroups, fullSingles), PartialLengths(rhythmGroups, intervalGroups, rhythmSingles + intervalSingles))
  }

  /** `_describe_repetition_structure`, given the groups of the three comparisons and the
      sizes of their single-bar dictionaries (only their lengths are read). */
  method DescribeRepetitionStructure(fullGroups: seq<seq<Range>>, fullSingles: nat,
                                     rhythmGroups: seq<seq<Range>>, rhythmSingles: nat,
                                     intervalGroups: seq<seq<Range>>, intervalSingles: nat)
    returns (repetition: string)
    requires NonEmptyGroups(fullGroups) && NonEmptyGroups(rhythmGroups) && NonEmptyGroups(intervalGroups)
    ensures repetition == StructureOf(fullGroups, fullSingles, rhythmGroups, rhythmSingles, intervalGroups, intervalSingles)
  {
    var repetitionLengths := TallyFull(fullGroups, fullSingles);
    var partialLengths := TallyPartial(rhythmGroups, intervalGroups, rhythmSingles + intervalSingles);
    repetition := DescribeTallies(repetitionLengths, partialLengths);
  }

  /** The opening of the repetition summary exactly as written: `str.capitalize`
      also lowers the first letter of every later sentence. */
  function SummaryOpeningAsWritten(repetition: string): string {
    if repetition == "" then "" else "<br/>" + Capitalize(repetition)
  }

  lemma CapitalizeLowersLaterSentences()
    ensures SummaryOpeningAsWritten("a. The") == "<br/>A. the"
  {
    var c := Capitalize("a. The");
    assert c[0] == 'A' && c[1] == '.' && c[2] == ' ' && c[3] == 't' && c[4] == 'h' && c[5] == 'e';
    assert c == "A. the";
  }

  /** Upper-case the first character only. */
  function UpperFirst(s: string): (r: string)
    ensures |r| == |s|
    ensures |s| > 0 ==> r[0] == Upper(s[0]) && r[1..] == s[1..]
  {
    if s == [] then [] else [Upper(s[0])] + s[1..]
  }

  /** The opening of the repetition summary: the first letter in upper case and the rest untouched. */
  function SummaryOpening(repetition: string): (r: string)
    ensures repetition == "" ==> r == ""
    ensures repetition != "" ==> |r| == 5 + |repetition| && r[..5] == "<br/>" && r[5..] == UpperFirst(repetition)
  {
    if repetition == "" then "" else "<br/>" + UpperFirst(repetition)
  }

  /** The two openings agree exactly when the summary has no upper-case letter after its first character. */
  lemma SummaryOpeningsAgree(repetition: string)
    ensures SummaryOpening(repetition) == SummaryOpeningAsWritten(repetition) <==>
              forall i :: 0 < i < |repetition| ==> Lower(repetition[i]) == repetition[i]
  {
    if repetition != "" {
      var a := SummaryOpening(repetition);
      var b := SummaryOpeningAsWritten(repetition);
      if a == b {
        forall i | 0 < i < |repetition| ensures Lower(repetition[i]) == repetition[i] {
          assert a[5 + i] == b[5 + i];
        }
      }
      if forall i :: 0 < i < |repetition| ==> Lower(repetition[i]) == repetition[i] {
        assert Capitalize(repetition) == UpperFirst(repetition);
      }
    }
  }

  /** The uniqueness tally closing the summary when the part has more than one bar. */
  function UniqueTally(uniqueMeasures: nat, uniqueRhythms: nat, uniqueIntervals: nat): string {
    "There are " + NatToString(uniqueMeasures) + " unique measures - "
    + "of these, " + NatToString(uniqueRhythms) + " measures have unique rhythm "
    + "and " + NatToString(uniqueIntervals) + " measures have unique intervals. "
  }

  /** One comparison's groups and repeated single bars can be weighed against the bar count:
      groups hold uses, the dictionary is well formed, and there are bars whenever there is
      something to weigh. */
  ghost predicate Weighable(groups: seq<seq<Range>>, d: Dict<int, seq<int>>, bars: nat) {
    NonEmptyGroups(groups) && d.Valid() && (|groups| + |d.keys| > 0 ==> bars > 0)
  }

  /** The major sentences of one comparison: its groups, then its single bars, each used for more
      than a third of the piece. */
  function MajorOf(groups: seq<seq<Range>>, d: Dict<int, seq<int>>, description: string, bars: nat): string
    requires Weighable(groups, d, bars)
  {
    GroupRepeatedManyText(groups, description, bars) + RepeatedManyText(d, |d.keys|, description, bars)
  }

  /** No group and no single bar of the comparison is used for more than a third of the piece. */
  ghost predicate NoneMajor(groups: seq<seq<Range>>, d: Dict<int, seq<int>>, bars: nat)
    requires Weighable(groups, d, bars)
  {
    && (forall g :: 0 <= g < |groups| ==> GroupUsage(groups[g], bars) <= 33.0)
    && (forall j :: 0 <= j < |d.keys| ==> Usage(|d.items[d.keys[j]]|, bars) <= 33.0)
  }

  /** A comparison has no major sentence exactly when nothing of it is used for more than a third of the piece. */
  lemma MajorOfEmptyIff(groups: seq<seq<Range>>, d: Dict<int, seq<int>>, description: string, bars: nat)
    requires Weighable(groups, d, bars)
    ensures MajorOf(groups, d, description, bars) == "" <==> NoneMajor(groups, d, bars)
  {
    GroupRepeatedManyEmptyIff(groups, description, bars);
    RepeatedManyEmptyIff(d, |d.keys|, description, bars);
  }

  /** The major sentences of one comparison, as `describe_repetition_summary` gathers them. */
  method DescribeMajor(groups: seq<seq<Range>>, d: Dict<int, seq<int>>, description: string, bars: nat)
    returns (text: string)
    requires Weighable(groups, d, bars)
    ensures text == MajorOf(groups, d, description, bars)
  {
    var inGroups := DescribeMeasureGroupRepeatedMany(groups, description, bars);
    var single := DescribeMeasureRepeatedMany(d, description, bars);
    text := inGroups + single;
  }

  /** The summary before its opening: the major sentences, or the smaller patterns when there are
      none; then the structure sentences; then the tally. */
  function Assemble(major: string, smaller: string, structure: string, tally: string): string {
    (if major == "" then smaller else major) + structure + tally
  }

  /** The uniqueness tally, for a part of more than one bar. */
  function TallyIf(measureCount: nat, uniqueMeasures: nat, uniqueRhythms: nat, uniqueIntervals: nat): string {
    if measureCount > 1 then UniqueTally(uniqueMeasures, uniqueRhythms, uniqueIntervals) else ""
  }

  /** A summary closing with a tally that starts with a capital letter always ends with that tally. */
  lemma AssembleEndsWith(major: string, smaller: string, structure: string, tally: string)
    requires |tally| > 0 && Upper(tally[0]) == tally[0]
    ensures SummaryOpening(Assemble(major, smaller, structure, tally)) != ""
    ensures EndsWith(SummaryOpening(Assemble(major, smaller, structure, tally)), tally)
  {
    var body := Assemble(major, smaller, structure, tally);
    var summary := SummaryOpening(body);
    var k := |body| - |tally|;
    assert body[k..] == tally;
    forall i | 0 <= i < |tally| ensures summary[5 + k + i] == tally[i] {
      assert summary[5 + k + i] == UpperFirst(body)[k + i];
      if k + i == 0 {
        assert body[0] == tally[0];
      } else {
        assert UpperFirst(body)[k + i] == body[k + i];
      }
    }
    assert summary[|summary| - |tally|..] == tally;
  }

  /** The major sentences of the full-match, rhythm and interval comparisons, in that order. */
  function MajorsOf(fullGroups: seq<seq<Range>>, fullBars: Dict<int, seq<int>>,
                    rhythmGroups: seq<seq<Range>>, rhythmBars: Dict<int, seq<int>>,
                    intervalGroups: seq<seq<Range>>, intervalBars: Dict<int, seq<int>>, bars: nat): string
    requires Weighable(fullGroups, fullBars, bars) && Weighable(rhythmGroups, rhythmBars, bars)
    requires Weighable(intervalGroups, intervalBars, bars)
  {
    MajorOf(fullGroups, fullBars, "pitch and rhythm", bars)
    + MajorOf(rhythmGroups, rhythmBars, "rhythm", bars)
    + MajorOf(intervalGroups, intervalBars, "intervals", bars)
  }

  /** `describe_repetition_summary` over the groups and the repeated single bars of the full-match,
      rhythm and interval comparisons, the class lists of the rhythm and interval registries,
      the number of bars analysed, the number of bars in the part and the three unique-bar counts. */
  function SummaryOf(fullGroups: seq<seq<Range>>, fullBars: Dict<int, seq<int>>,
                     rhythmGroups: seq<seq<Range>>, rhythmBars: Dict<int, seq<int>>,
                     intervalGroups: seq<seq<Range>>, intervalBars: Dict<int, seq<int>>,
                     rhythmClasses: seq<seq<int>>, intervalClasses: seq<seq<int>>, bars: nat,
                     measureCount: nat, uniqueMeasures: nat, uniqueRhythms: nat, uniqueIntervals: nat): string
    requires Weighable(fullGroups, fullBars, bars) && Weighable(rhythmGroups, rhythmBars, bars)
    requires Weighable(intervalGroups, intervalBars, bars)
    requires SmallerDescribable(rhythmClasses, intervalClasses, bars)
  {
    var (major, smaller, structure) := SummaryParts(fullGroups, fullBars, rhythmGroups, rhythmBars, intervalGroups, intervalBars,
                                                    rhythmClasses, intervalClasses, bars);
    SummaryOpening(Assemble(major, smaller, structure, TallyIf(measureCount, uniqueMeasures, uniqueRhythms, uniqueIntervals)))
  }

  /** The three computed parts of the summary: the major sentences, the smaller patterns and the structure sentences. */
  function SummaryParts(fullGroups: seq<seq<Range>>, fullBars: Dict<int, seq<int>>,
                        rhythmGroups: seq<seq<Range>>, rhythmBars: Dict<int, seq<int>>,
                        intervalGroups: seq<seq<Range>>, intervalBars: Dict<int, seq<int>>,
                        rhythmClasses: seq<seq<int>>, intervalClasses: seq<seq<int>>, bars: nat): (string, string, string)
    requires Weighable(fullGroups, fullBars, bars) && Weighable(rhythmGroups, rhythmBars, bars)
    requires Weighable(intervalGroups, intervalBars, bars)
    requires SmallerDescribable(rhythmClasses, intervalClasses, bars)
  {
    (MajorsOf(fullGroups, fullBars, rhythmGroups, rhythmBars, intervalGroups, intervalBars, bars),
     SmallerText(rhythmClasses, intervalClasses, bars),
     StructureOf(fullGroups, |fullBars.keys|, rhythmGroups, |rhythmBars.keys|, intervalGroups, |intervalBars.keys|))
  }

  /** A part of more than one bar always gets a summary, and it closes with the uniqueness tally. */
  lemma SummaryEndsWithTally(fullGroups: seq<seq<Range>>, fullBars: Dict<int, seq<int>>,
                             rhythmGroups: seq<seq<Range>>, rhythmBars: Dict<int, seq<int>>,
                             intervalGroups: seq<seq<Range>>, intervalBars: Dict<int, seq<int>>,
                             rhythmClasses: seq<seq<int>>, intervalClasses: seq<seq<int>>, bars: nat,
                             measureCount: nat, uniqueMeasures: nat, uniqueRhythms: nat, uniqueIntervals: nat)
    requires Weighable(fullGroups, fullBars, bars) && Weighable(rhythmGroups, rhythmBars, bars)
    requires Weighable(intervalGroups, intervalBars, bars)
    requires SmallerDescribable(rhythmClasses, intervalClasses, bars)
    requires measureCount > 1
    ensures var summary := SummaryOf(fullGroups, fullBars, rhythmGroups, rhythmBars, intervalGroups, intervalBars,
                                     rhythmClasses, intervalClasses, bars, measureCount,
                                     uniqueMeasures, uniqueRhythms, uniqueIntervals);
            summary != "" && EndsWith(summary, UniqueTally(uniqueMeasures, uniqueRhythms, uniqueIntervals))
  {
    var tally := UniqueTally(uniqueMeasures, uniqueRhythms, uniqueIntervals);
    assert tally[0] == 'T';
    var (major, smaller, structure) := SummaryParts(fullGroups, fullBars, rhythmGroups, rhythmBars, intervalGroups, intervalBars,
                                                    rhythmClasses, intervalClasses, bars);
    AssembleEndsWith(major, smaller, structure, tally);
  }

  /** Once some group or single bar is used for more than a third of the piece, the smaller
      patterns are not consulted: the summary is the same whatever the class lists. */
  lemma MajorHidesSmaller(fullGroups: seq<seq<Range>>, fullBars: Dict<int, seq<int>>,
                          rhythmGroups: seq<seq<Range>>, rhythmBars: Dict<int, seq<int>>,
                          intervalGroups: seq<seq<Range>>, intervalBars: Dict<int, seq<int>>,
                          rhythmClasses: seq<seq<int>>, intervalClasses: seq<seq<int>>,
                          rhythmClasses': seq<seq<int>>, intervalClasses': seq<seq<int>>, bars: nat,
                          measureCount: nat, uniqueMeasures: nat, uniqueRhythms: nat, uniqueIntervals: nat)
    requires Weighable(fullGroups, fullBars, bars) && Weighable(rhythmGroups, rhythmBars, bars)
    requires Weighable(intervalGroups, intervalBars, bars)
    requires SmallerDescribable(rhythmClasses, intervalClasses, bars)
    requires SmallerDescribable(rhythmClasses', intervalClasses', bars)
    requires !NoneMajor(fullGroups, fullBars, bars) || !NoneMajor(rhythmGroups, rhythmBars, bars)
             || !NoneMajor(intervalGroups, intervalBars, bars)
    ensures SummaryOf(fullGroups, fullBars, rhythmGroups, rhythmBars, intervalGroups, intervalBars,
                      rhythmClasses, intervalClasses, bars, measureCount, uniqueMeasures, uniqueRhythms, uniqueIntervals) ==
            SummaryOf(fullGroups, fullBars, rhythmGroups, rhythmBars, intervalGroups, intervalBars,
                      rhythmClasses', intervalClasses', bars, measureCount, uniqueMeasures, uniqueRhythms, uniqueIntervals)
  {
    MajorOfEmptyIff(fullGroups, fullBars, "pitch and rhythm", bars);
    MajorOfEmptyIff(rhythmGroups, rhythmBars, "rhythm", bars);
    MajorOfEmptyIff(intervalGroups, intervalBars, "intervals", bars);
  }

  /** `describe_repetition_summary`; `bars` is the number of bars analysed and `measureCount`
      the number of bars in the part, which the score supplies. */
  method DescribeRepetitionSummary(fullGroups: seq<seq<Range>>, fullBars: Dict<int, seq<int>>,
                                   rhythmGroups: seq<seq<Range>>, rhythmBars: Dict<int, seq<int>>,
                                   intervalGroups: seq<seq<Range>>, intervalBars: Dict<int, seq<int>>,
                                   rhythmClasses: seq<seq<int>>, intervalClasses: seq<seq<int>>, bars: nat,
                                   measureCount: nat, uniqueMeasures: nat, uniqueRhythms: nat, uniqueIntervals: nat)
    returns (repetition: string)
    requires Weighable(fullGroups, fullBars, bars) && Weighable(rhythmGroups, rhythmBars, bars)
    requires Weighable(intervalGroups, intervalBars, bars)
    requires SmallerDescribable(rhythmClasses, intervalClasses, bars)
    ensures repetition == SummaryOf(fullGroups, fullBars, rhythmGroups, rhythmBars, intervalGroups, intervalBars,
                                    rhythmClasses, intervalClasses, bars, measureCount,
                                    uniqueMeasures, uniqueRhythms, uniqueIntervals)
  {
    ghost var parts := SummaryParts(fullGroups, fullBars, rhythmGroups, rhythmBars, intervalGroups, intervalBars,
                                    rhythmClasses, intervalClasses, bars);
    var lead := SummaryLead(fullGroups, fullBars, rhythmGroups, rhythmBars, intervalGroups, intervalBars,
                            rhythmClasses, intervalClasses, bars);
    var structure := DescribeRepetitionStructure(fullGroups, |fullBars.keys|, rhythmGroups, |rhythmBars.keys|,
                                                 intervalGroups, |intervalBars.keys|);
    assert lead == (if parts.0 == "" then parts.1 else parts.0) && structure == parts.2;
    repetition := FinishSummary(lead, structure, measureCount, uniqueMeasures, uniqueRhythms, uniqueIntervals);
  }

  /** The close of `describe_repetition_summary`: the tally for a part of more than one bar, then the opening. */
  method FinishSummary(lead: string, structure: string, measureCount: nat,
                       uniqueMeasures: nat, uniqueRhythms: nat, uniqueIntervals: nat) returns (repetition: string)
    ensures repetition == SummaryOpening(lead + structure + TallyIf(measureCount, uniqueMeasures, uniqueRhythms, uniqueIntervals))
  {
    repetition := lead + structure;
    if measureCount > 1 {
      repetition := repetition + UniqueTally(uniqueMeasures, uniqueRhythms, uniqueIntervals);
    }
    if repetition != "" {
      repetition := "<br/>" + UpperFirst(repetition);
    }
  }

  /** The opening sentences of `describe_repetition_summary`: the major sentences of the three
      comparisons, or the smaller patterns when there are none. */
  method SummaryLead(fullGroups: seq<seq<Range>>, fullBars: Dict<int, seq<int>>,
                     rhythmGroups: seq<seq<Range>>, rhythmBars: Dict<int, seq<int>>,
                     intervalGroups: seq<seq<Range>>, intervalBars: Dict<int, seq<int>>,
                     rhythmClasses: seq<seq<int>>, intervalClasses: seq<seq<int>>, bars: nat)
    returns (repetition: string)
    requires Weighable(fullGroups, fullBars, bars) && Weighable(rhythmGroups, rhythmBars, bars)
    requires Weighable(intervalGroups, intervalBars, bars)
    requires SmallerDescribable(rhythmClasses, intervalClasses, bars)
    ensures var major := MajorsOf(fullGroups, fullBars, rhythmGroups, rhythmBars, intervalGroups, intervalBars, bars);
            repetition == if major == "" then SmallerText(rhythmClasses, intervalClasses, bars) else major
  {
    var full := DescribeMajor(fullGroups, fullBars, "pitch and rhythm", bars);
    var rhythm := DescribeMajor(rhythmGroups, rhythmBars, "rhythm", bars);
    var intervals := DescribeMajor(intervalGroups, intervalBars, "intervals", bars);
    repetition := full + rhythm + intervals;
    if repetition == "" {
      var smaller := DescribeSmallerRepetitionPatterns(rhythmClasses, intervalClasses, bars);
      repetition := repetition + smaller;
    }
  }

  /** The notes of `describe_repetition_in_context`: the group uses of the full-match, rhythm
      and interval comparisons, then their single repeated bars. */
  ghost function InContextNotes(fullGroups: seq<seq<Range>>, fullBars: Dict<int, seq<int>>,
                                rhythmGroups: seq<seq<Range>>, rhythmBars: Dict<int, seq<int>>,
                                intervalGroups: seq<seq<Range>>, intervalBars: Dict<int, seq<int>>): Notes
    requires fullBars.Valid() && rhythmBars.Valid() && intervalBars.Valid()
  {
    var n3 := GroupNotes(fullGroups, rhythmGroups, intervalGroups);
    var n4 := MeasuresNoted(fullBars.Entries(), |fullBars.keys|, MeasureTexts(fullBars.Entries(), "Bar "), n3);
    var n5 := MeasuresNoted(rhythmBars.Entries(), |rhythmBars.keys|, MeasureTexts(rhythmBars.Entries(), "The rhythm in bar "), n4);
    MeasuresNoted(intervalBars.Entries(), |intervalBars.keys|, MeasureTexts(intervalBars.Entries(), "The intervals in bar "), n5)
  }

  /** The notes of the group uses alone, starting from no notes. */
  ghost function GroupNotes(fullGroups: seq<seq<Range>>, rhythmGroups: seq<seq<Range>>, intervalGroups: seq<seq<Range>>): Notes {
    var n1 := Apply(SectionEntries(fullGroups, SectionTexts(fullGroups, "Bars ")), map[]);
    var n2 := Apply(SectionEntries(rhythmGroups, SectionTexts(rhythmGroups, "The rhythm in bars ")), n1);
    Apply(SectionEntries(intervalGroups, SectionTexts(intervalGroups, "The intervals in bars ")), n2)
  }

  /** A bar gets a note exactly when some group use starts there or it is a repeated single bar
      (a first bar or a later use). */
  ghost predicate HasContext(fullGroups: seq<seq<Range>>, fullBars: Dict<int, seq<int>>,
                             rhythmGroups: seq<seq<Range>>, rhythmBars: Dict<int, seq<int>>,
                             intervalGroups: seq<seq<Range>>, intervalBars: Dict<int, seq<int>>, k: int)
    requires fullBars.Valid() && rhythmBars.Valid() && intervalBars.Valid()
  {
    || StartsAUse(fullGroups, k) || StartsAUse(rhythmGroups, k) || StartsAUse(intervalGroups, k)
    || NotedBar(fullBars.Entries(), |fullBars.keys|, k)
    || NotedBar(rhythmBars.Entries(), |rhythmBars.keys|, k)
    || NotedBar(intervalBars.Entries(), |intervalBars.keys|, k)
  }

  /** Every bar's note opens with what the full-match groups say about it, and the noted bars are
      exactly the bars with some repetition context. */
  lemma InContextNotesSpec(fullGroups: seq<seq<Range>>, fullBars: Dict<int, seq<int>>,
                           rhythmGroups: seq<seq<Range>>, rhythmBars: Dict<int, seq<int>>,
                           intervalGroups: seq<seq<Range>>, intervalBars: Dict<int, seq<int>>)
    requires fullBars.Valid() && rhythmBars.Valid() && intervalBars.Valid()
    ensures var notes := InContextNotes(fullGroups, fullBars, rhythmGroups, rhythmBars, intervalGroups, intervalBars);
            Extends(Apply(SectionEntries(fullGroups, SectionTexts(fullGroups, "Bars ")), map[]), notes)
            && forall k :: k in notes <==> HasContext(fullGroups, fullBars, rhythmGroups, rhythmBars, intervalGroups, intervalBars, k)
  {
    var n1 := Apply(SectionEntries(fullGroups, SectionTexts(fullGroups, "Bars ")), map[]);
    var n2 := Apply(SectionEntries(rhythmGroups, SectionTexts(rhythmGroups, "The rhythm in bars ")), n1);
    var n3 := GroupNotes(fullGroups, rhythmGroups, intervalGroups);
    var n4 := MeasuresNoted(fullBars.Entries(), |fullBars.keys|, MeasureTexts(fullBars.Entries(), "Bar "), n3);
    var n5 := MeasuresNoted(rhythmBars.Entries(), |rhythmBars.keys|, MeasureTexts(rhythmBars.Entries(), "The rhythm in bar "), n4);
    var n6 := InContextNotes(fullGroups, fullBars, rhythmGroups, rhythmBars, intervalGroups, intervalBars);
    SectionNotesGrow(fullGroups, SectionTexts(fullGroups, "Bars "), map[]);
    SectionNotesGrow(rhythmGroups, SectionTexts(rhythmGroups, "The rhythm in bars "), n1);
    SectionNotesGrow(intervalGroups, SectionTexts(intervalGroups, "The intervals in bars "), n2);
    MeasureNotesGrow(fullBars.Entries(), MeasureTexts(fullBars.Entries(), "Bar "), n3);
    MeasureNotesGrow(rhythmBars.Entries(), MeasureTexts(rhythmBars.Entries(), "The rhythm in bar "), n4);
    MeasureNotesGrow(intervalBars.Entries(), MeasureTexts(intervalBars.Entries(), "The intervals in bar "), n5);
    ExtendsTransitive(n1, n2, n3);
    ExtendsTransitive(n1, n3, n4);
    ExtendsTransitive(n1, n4, n5);
    ExtendsTransitive(n1, n5, n6);
  }

  /** `describe_repetition_in_context`. */
  method DescribeRepetitionInContext(fullGroups: seq<seq<Range>>, fullBars: Dict<int, seq<int>>,
                                     rhythmGroups: seq<seq<Range>>, rhythmBars: Dict<int, seq<int>>,
                                     intervalGroups: seq<seq<Range>>, intervalBars: Dict<int, seq<int>>)
    returns (repetitionInContext: Notes)
    requires fullBars.Valid() && rhythmBars.Valid() && intervalBars.Valid()
    ensures repetitionInContext == InContextNotes(fullGroups, fullBars, rhythmGroups, rhythmBars, intervalGroups, intervalBars)
  {
    repetitionInContext := DescribeSectionUsageInContext(fullGroups, "Bars ", map[]);
    repetitionInContext := DescribeSectionUsageInContext(rhythmGroups, "The rhythm in bars ", repetitionInContext);
    repetitionInContext := DescribeSectionUsageInContext(intervalGroups, "The intervals in bars ", repetitionInContext);
    repetitionInContext := DescribeMeasureUsageInContext(fullBars, "Bar ", repetitionInContext);
    repetitionInContext := DescribeMeasureUsageInContext(rhythmBars, "The rhythm in bar ", repetitionInContext);
    repetitionInContext := DescribeMeasureUsageInContext(intervalBars, "The intervals in bar ", repetitionInContext);
  }
}
