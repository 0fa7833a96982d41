/** The MIDI handler's bookkeeping: the file name it derives from the request, the instrument
    selection it decodes from the score page's masks, the parts it picks for playback and the
    cache plan.

    The request's query string is a map from parameter name to text, as `request.GET` gives it;
    the masks arrive as text and are taken here already converted to integers.  Rendering MIDI,
    the file system and the music21 score are outside the model: the score enters only as the
    list of its parts' ids, in score order. */
module MidiHandler {
  import opened Wrappers
  import opened Text
  import Bitmasks
  import Dicts
  import TalkingScore
  import opened MidiNames

  // ---------------------------------------------------------------------
  // Decoding the masks

  /** Reversing a sequence with one more element at the end puts that element first. */
  lemma {:induction false} ReversedSnoc<T>(s: seq<T>, x: T)
    ensures Bitmasks.Reversed(s + [x]) == [x] + Bitmasks.Reversed(s)
    decreases |s|
  {
    if s != [] {
      assert (s + [x])[1..] == s[1..] + [x];
      ReversedSnoc(s[1..], x);
    } else {
      assert [x][1..] == [];
    }
  }

  /** Peels the low bit off while more than the leading 1 is left, then reverses the bits read. */
  method ParseBinarySelectionInteger(binaryInt: int) returns (selections: seq<bool>)
    ensures selections == Bitmasks.Decode(binaryInt)
  {
    var read := [];
    var b := binaryInt;
    while b > 1
      invariant Bitmasks.Decode(binaryInt) == Bitmasks.Decode(b) + Bitmasks.Reversed(read)
      decreases b
    {
      ReversedSnoc(read, b % 2 == 1);
      read := read + [b % 2 == 1];
      b := b / 2;
    }
    selections := Bitmasks.Reversed(read);
  }

  // ---------------------------------------------------------------------
  // Instrument numbers of the parts

  /** The instrument a part belongs to, counted from 0: a part opens a new instrument when its id
      differs from the previous part's id, and the first part always opens instrument 0. */
  function InstrumentIndex(ids: seq<string>, p: nat): (k: nat)
    requires p < |ids|
    ensures k <= p
  {
    if p == 0 then 0 else InstrumentIndex(ids, p - 1) + (if ids[p] != ids[p - 1] then 1 else 0)
  }

  /** The instrument index as the handler counts it: it starts at -1 with the empty text as the
      previous id, so a first part whose id is empty does not open an instrument. */
  function InstrumentIndexAsWritten(ids: seq<string>, p: nat): (k: int)
    requires p < |ids|
    ensures -1 <= k <= p
  {
    var opens := if p == 0 then ids[0] != "" else ids[p] != ids[p - 1];
    (if p == 0 then -1 else InstrumentIndexAsWritten(ids, p - 1)) + (if opens then 1 else 0)
  }

  /** Python's `flags[k]`, a negative `k` counting from the end. */
  function PyIndex(flags: seq<bool>, k: int): bool
    requires -|flags| <= k < |flags|
  {
    if k >= 0 then flags[k] else flags[|flags| + k]
  }

  /** Whether the handler, as written, plays part `p` with the selected instruments; `None` is the
      index error of reading flag -1 of an empty selection. */
  function SelectedAsWritten(flags: seq<bool>, ids: seq<string>, p: nat): Option<bool>
    requires p < |ids|
  {
    var k := InstrumentIndexAsWritten(ids, p);
    if k >= |flags| then Some(false)
    else if k < -|flags| then None
    else Some(PyIndex(flags, k))
  }

  /** Whether part `p` belongs to a selected instrument. */
  function Selected(flags: seq<bool>, ids: seq<string>, p: nat): bool
    requires p < |ids|
  {
    var k := InstrumentIndex(ids, p);
    k < |flags| && flags[k]
  }

  /** Apart from an empty first id, the handler's count is the intended one. */
  lemma {:induction false} AsWrittenAgrees(ids: seq<string>, p: nat)
    requires p < |ids| && ids[0] != ""
    ensures InstrumentIndexAsWritten(ids, p) == InstrumentIndex(ids, p)
    ensures forall flags: seq<bool> :: SelectedAsWritten(flags, ids, p) == Some(Selected(flags, ids, p))
    decreases p
  {
    if p > 0 {
      AsWrittenAgrees(ids, p - 1);
    }
  }

  /** With an empty first id the counts are one apart, so the first part reads the last flag: with
      the first of two instruments selected, the handler plays the second one instead. */
  lemma EmptyFirstIdSwapsSelection()
    ensures var ids, flags := ["", "violin"], [true, false];
      && SelectedAsWritten(flags, ids, 0) == Some(false) && SelectedAsWritten(flags, ids, 1) == Some(true)
      && Selected(flags, ids, 0) && !Selected(flags, ids, 1)
  {
    var ids: seq<string> := ["", "violin"];
    assert ids[1] != ids[0];
  }

  /** The parts below `n` whose selection is `want`, in score order. */
  function PartsWhere(flags: seq<bool>, ids: seq<string>, n: nat, want: bool): (r: seq<nat>)
    requires n <= |ids|
    ensures |r| <= n
    decreases n
  {
    if n == 0 then []
    else PartsWhere(flags, ids, n - 1, want) + (if Selected(flags, ids, n - 1) == want then [n - 1] else [])
  }

  /** The selected parts below `n`, grouped by instrument index, each group in score order. */
  function GroupParts(d: Dicts.Dict<int, seq<int>>, flags: seq<bool>, ids: seq<string>, n: nat): Dicts.Dict<int, seq<int>>
    requires n <= |ids|
    decreases n
  {
    if n == 0 then d
    else
      var g := GroupParts(d, flags, ids, n - 1);
      if Selected(flags, ids, n - 1) then Dicts.AppendTo(g, InstrumentIndex(ids, n - 1), n - 1) else g
  }

  /** The parts below `n` of instrument `k`, in score order. */
  function PartsOf(ids: seq<string>, n: nat, k: int): (r: seq<nat>)
    requires n <= |ids|
    decreases n
  {
    if n == 0 then [] else PartsOf(ids, n - 1, k) + (if InstrumentIndex(ids, n - 1) == k then [n - 1] else [])
  }

  /** Every part lands in exactly one of the two lists, each list in strictly ascending order. */
  lemma {:induction false} PartsPartition(flags: seq<bool>, ids: seq<string>, n: nat, want: bool)
    requires n <= |ids|
    ensures forall p: nat :: p in PartsWhere(flags, ids, n, want) <==> p < n && Selected(flags, ids, p) == want
    ensures forall i, j :: 0 <= i < j < |PartsWhere(flags, ids, n, want)| ==>
      PartsWhere(flags, ids, n, want)[i] < PartsWhere(flags, ids, n, want)[j]
    decreases n
  {
    if n > 0 {
      PartsPartition(flags, ids, n - 1, want);
      var r := PartsWhere(flags, ids, n - 1, want);
      var r' := PartsWhere(flags, ids, n, want);
      assert r' == r + (if Selected(flags, ids, n - 1) == want then [n - 1] else []);
      forall i, j | 0 <= i < j < |r'| ensures r'[i] < r'[j] {
        if j < |r| {
          assert r'[i] == r[i] && r'[j] == r[j];
        } else {
          assert r'[i] == r[i] && r[i] in r;
        }
      }
    }
  }

  /** `g` holds a group exactly for each selected instrument that owns a part below `n`, and that
      group lists the instrument's parts in score order. */
  ghost predicate GroupsMatch(g: Dicts.Dict<int, seq<int>>, flags: seq<bool>, ids: seq<string>, n: nat)
    requires n <= |ids|
  {
    && g.Valid()
    && (forall k :: k in g.items <==> 0 <= k < |flags| && flags[k] && PartsOf(ids, n, k) != [])
    && (forall k :: k in g.items ==> g.items[k] == PartsOf(ids, n, k))
  }

  /** Starting from no groups, the groups are those of the selected instruments, each listing all
      its parts in score order. */
  lemma {:induction false} GroupPartsSpec(flags: seq<bool>, ids: seq<string>, n: nat)
    requires n <= |ids|
    ensures GroupsMatch(GroupParts(Dicts.Empty(), flags, ids, n), flags, ids, n)
    decreases n
  {
    if n > 0 {
      GroupPartsSpec(flags, ids, n - 1);
      var g := GroupParts(Dicts.Empty(), flags, ids, n - 1);
      if Selected(flags, ids, n - 1) {
        GroupSelectedPart(g, flags, ids, n);
      } else {
        GroupUnselectedPart(g, flags, ids, n);
      }
    }
  }

  /** The parts of instrument `k` below `n`: those below `n - 1`, and part `n - 1` if it is one. */
  lemma PartsOfStep(ids: seq<string>, n: nat, k: int)
    requires 0 < n <= |ids|
    ensures PartsOf(ids, n, k) == PartsOf(ids, n - 1, k) + (if InstrumentIndex(ids, n - 1) == k then [n - 1] else [])
  {
  }

  /** A selected part joins its instrument's group, which it opens if it is the first. */
  lemma GroupSelectedPart(g: Dicts.Dict<int, seq<int>>, flags: seq<bool>, ids: seq<string>, n: nat)
    requires 0 < n <= |ids| && GroupsMatch(g, flags, ids, n - 1) && Selected(flags, ids, n - 1)
    ensures GroupsMatch(Dicts.AppendTo(g, InstrumentIndex(ids, n - 1), n - 1), flags, ids, n)
  {
    var k := InstrumentIndex(ids, n - 1);
    var g' := Dicts.AppendTo(g, k, n - 1);
    Dicts.AppendToSpec(g, k, n - 1);
    forall k' ensures k' in g'.items <==> 0 <= k' < |flags| && flags[k'] && PartsOf(ids, n, k') != [] {
      PartsOfStep(ids, n, k');
    }
    forall k' | k' in g'.items ensures g'.items[k'] == PartsOf(ids, n, k') {
      PartsOfStep(ids, n, k');
      if k' == k && k !in g.items {
        assert PartsOf(ids, n - 1, k) == [];
      }
    }
  }

  /** An unselected part changes no group: its instrument has none. */
  lemma GroupUnselectedPart(g: Dicts.Dict<int, seq<int>>, flags: seq<bool>, ids: seq<string>, n: nat)
    requires 0 < n <= |ids| && GroupsMatch(g, flags, ids, n - 1) && !Selected(flags, ids, n - 1)
    ensures GroupsMatch(g, flags, ids, n)
  {
    var k := InstrumentIndex(ids, n - 1);
    forall k' ensures k' in g.items <==> 0 <= k' < |flags| && flags[k'] && PartsOf(ids, n, k') != [] {
      PartsOfStep(ids, n, k');
    }
    forall k' | k' in g.items ensures g.items[k'] == PartsOf(ids, n, k') {
      PartsOfStep(ids, n, k');
    }
  }

  /** A later part never belongs to an earlier instrument. */
  lemma IndexGrows(ids: seq<string>, p: nat)
    requires 0 < p < |ids|
    ensures InstrumentIndex(ids, p - 1) <= InstrumentIndex(ids, p) <= InstrumentIndex(ids, p - 1) + 1
  {
  }

  /** The groups' lists one after another, in key order. */
  function ConcatGroups(keys: seq<int>, items: map<int, seq<int>>): seq<int>
    requires forall k :: k in keys ==> k in items
    decreases |keys|
  {
    if keys == [] then []
    else
      var init, last := keys[..|keys| - 1], keys[|keys| - 1];
      assert last in keys && forall k :: k in init ==> k in keys;
      ConcatGroups(init, items) + items[last]
  }

  /** Changing the list of a key that is not listed changes nothing. */
  lemma {:induction false} ConcatGroupsFrame(keys: seq<int>, items: map<int, seq<int>>, k: int, v: seq<int>)
    requires forall k' :: k' in keys ==> k' in items
    requires k !in keys
    ensures ConcatGroups(keys, items[k := v]) == ConcatGroups(keys, items)
    decreases |keys|
  {
    if keys != [] {
      var init := keys[..|keys| - 1];
      assert forall k' :: k' in init ==> k' in keys;
      ConcatGroupsFrame(init, items, k, v);
    }
  }

  /** Extending the list of the last key extends the concatenation. */
  lemma ConcatExtendLast(keys: seq<int>, items: map<int, seq<int>>, p: int)
    requires forall k' :: k' in keys ==> k' in items
    requires |keys| > 0 && keys[|keys| - 1] !in keys[..|keys| - 1]
    ensures var k := keys[|keys| - 1];
            ConcatGroups(keys, items[k := items[k] + [p]]) == ConcatGroups(keys, items) + [p]
  {
    var init, k := keys[..|keys| - 1], keys[|keys| - 1];
    assert forall k' :: k' in init ==> k' in keys;
    ConcatGroupsFrame(init, items, k, items[k] + [p]);
  }

  /** A new key at the end adds its list at the end of the concatenation. */
  lemma ConcatAppendKey(keys: seq<int>, items: map<int, seq<int>>, k: int, v: seq<int>)
    requires forall k' :: k' in keys ==> k' in items
    requires k !in keys
    ensures forall k' :: k' in keys + [k] ==> k' in items[k := v]
    ensures ConcatGroups(keys + [k], items[k := v]) == ConcatGroups(keys, items) + v
  {
    assert (keys + [k])[..|keys|] == keys;
    ConcatGroupsFrame(keys, items, k, v);
  }

  /** A key above all others keeps the keys ascending. */
  lemma AscendingSnoc(keys: seq<int>, k: int)
    requires Ascending(keys) && forall i :: 0 <= i < |keys| ==> keys[i] < k
    ensures Ascending(keys + [k]) && AtMost(keys + [k], k)
  {
  }

  /** Keys in strictly ascending order. */
  ghost predicate Ascending(keys: seq<int>) {
    forall i, j :: 0 <= i < j < |keys| ==> keys[i] < keys[j]
  }

  /** No key above `bound`. */
  ghost predicate AtMost(keys: seq<int>, bound: int) {
    forall i :: 0 <= i < |keys| ==> keys[i] <= bound
  }

  /** A well-formed dictionary whose keys ascend up to at most `bound`. */
  ghost predicate OrderedUpTo(g: Dicts.Dict<int, seq<int>>, bound: int) {
    g.Valid() && Ascending(g.keys) && AtMost(g.keys, bound)
  }

  /** The instrument index of the last of the first `n` parts; -1 when there are none. */
  function LastIndex(ids: seq<string>, n: nat): int
    requires n <= |ids|
  {
    if n == 0 then -1 else InstrumentIndex(ids, n - 1)
  }

  /** The groups of the first `n` parts, starting from none: keys in ascending order, the last
      part's instrument the largest key (and a key when that part is selected), and the lists
      in key order add up to the selected parts in score order. */
  ghost predicate GroupsInOrder(g: Dicts.Dict<int, seq<int>>, flags: seq<bool>, ids: seq<string>, n: nat)
    requires n <= |ids|
  {
    && OrderedUpTo(g, LastIndex(ids, n))
    && (n == 0 ==> g.keys == [])
    && (n > 0 && Selected(flags, ids, n - 1) ==> InstrumentIndex(ids, n - 1) in g.items)
    && ConcatGroups(g.keys, g.items) == PartsWhere(flags, ids, n, true)
  }

  /** Listing the groups in key order lists the selected parts in score order. A selected part
      either joins the newest group (its instrument already has one, which is then the last key) or
      opens a group after all others. */
  lemma {:induction false} GroupsConcatenate(flags: seq<bool>, ids: seq<string>, n: nat)
    requires n <= |ids|
    ensures GroupsInOrder(GroupParts(Dicts.Empty(), flags, ids, n), flags, ids, n)
    decreases n
  {
    if n > 0 {
      GroupsConcatenate(flags, ids, n - 1);
      var g := GroupParts(Dicts.Empty(), flags, ids, n - 1);
      var k := InstrumentIndex(ids, n - 1);
      if n > 1 {
        IndexGrows(ids, n - 1);
      }
      assert LastIndex(ids, n - 1) <= k;
      if Selected(flags, ids, n - 1) {
        GroupsSelectedStep(g, flags, ids, n);
      } else {
        assert GroupParts(Dicts.Empty(), flags, ids, n) == g;
      }
    }
  }

  /** A selected part joins the newest group or opens a new last one. */
  lemma GroupsSelectedStep(g: Dicts.Dict<int, seq<int>>, flags: seq<bool>, ids: seq<string>, n: nat)
    requires 0 < n <= |ids| && GroupsInOrder(g, flags, ids, n - 1) && Selected(flags, ids, n - 1)
    requires LastIndex(ids, n - 1) <= InstrumentIndex(ids, n - 1)
    ensures GroupsInOrder(Dicts.AppendTo(g, InstrumentIndex(ids, n - 1), n - 1), flags, ids, n)
  {
    var p := n - 1;
    var k := InstrumentIndex(ids, p);
    var b := LastIndex(ids, p);
    if k in g.items {
      JoinLastDict(g, k, b, p);
    } else {
      assert g.keys != [] ==> b < k;
      OpenNextDict(g, k, b, p);
    }
    var g' := Dicts.AppendTo(g, k, p);
    GroupsInOrderStep(g, g', flags, ids, n);
  }

  /** Among ascending keys none above `bound`, a listed key `k >= bound` is the last one. */
  lemma LastKeyIs(keys: seq<int>, k: int, bound: int)
    requires Ascending(keys) && AtMost(keys, bound)
    requires bound <= k && k in keys
    ensures keys[|keys| - 1] == k && k !in keys[..|keys| - 1]
  {
    assert forall j :: 0 <= j < |keys| - 1 ==> keys[j] < keys[|keys| - 1];
  }

  /** `AppendTo` on a key that has a list. */
  lemma AppendToOld(g: Dicts.Dict<int, seq<int>>, k: int, p: int)
    requires k in g.items
    ensures Dicts.AppendTo(g, k, p) == Dicts.Dict(g.keys, g.items[k := g.items[k] + [p]])
  {
  }

  /** `AppendTo` on a key that has none. */
  lemma AppendToNew(g: Dicts.Dict<int, seq<int>>, k: int, p: int)
    requires k !in g.items
    ensures Dicts.AppendTo(g, k, p) == Dicts.Dict(g.keys + [k], g.items[k := [p]])
  {
    assert g.Get(k, []) + [p] == [p];
  }

  /** Appending to the group of `k`, the largest key, appends to the concatenation. */
  lemma JoinLastDict(g: Dicts.Dict<int, seq<int>>, k: int, bound: int, p: int)
    requires OrderedUpTo(g, bound) && bound <= k && k in g.items
    ensures var g' := Dicts.AppendTo(g, k, p);
            && OrderedUpTo(g', k) && k in g'.items
            && ConcatGroups(g'.keys, g'.items) == ConcatGroups(g.keys, g.items) + [p]
  {
    AppendToOld(g, k, p);
    LastKeyIs(g.keys, k, bound);
    ConcatExtendLast(g.keys, g.items, p);
  }

  /** A key above every key opens a new group at the end. */
  lemma OpenNextDict(g: Dicts.Dict<int, seq<int>>, k: int, bound: int, p: int)
    requires OrderedUpTo(g, bound) && bound <= k && k !in g.items
    requires g.keys != [] ==> bound < k
    ensures var g' := Dicts.AppendTo(g, k, p);
            && OrderedUpTo(g', k) && k in g'.items
            && ConcatGroups(g'.keys, g'.items) == ConcatGroups(g.keys, g.items) + [p]
  {
    AppendToNew(g, k, p);
    ConcatAppendKey(g.keys, g.items, k, [p]);
    AscendingSnoc(g.keys, k);
  }

  /** The last step of either case: the new groups keep the order and their lists gain part `n - 1`. */
  lemma GroupsInOrderStep(g: Dicts.Dict<int, seq<int>>, g': Dicts.Dict<int, seq<int>>, flags: seq<bool>, ids: seq<string>, n: nat)
    requires 0 < n <= |ids| && GroupsInOrder(g, flags, ids, n - 1) && Selected(flags, ids, n - 1)
    requires OrderedUpTo(g', InstrumentIndex(ids, n - 1)) && InstrumentIndex(ids, n - 1) in g'.items
    requires ConcatGroups(g'.keys, g'.items) == ConcatGroups(g.keys, g.items) + [n - 1]
    ensures GroupsInOrder(g', flags, ids, n)
  {
    assert PartsWhere(flags, ids, n, true) == PartsWhere(flags, ids, n - 1, true) + [n - 1];
  }

  /** The handler's instrument indices are the builder's instrument numbers less one: part `p`
      lies in the run of instrument `InstrumentIndex(ids, p) + 1` of the grouping. */
  lemma {:induction false} IndexMatchesGrouping(tags: seq<TalkingScore.PartTag>, es: seq<TalkingScore.InstrumentEntry>, p: nat)
    requires TalkingScore.Runs(tags, es)
    requires p < |tags|
    ensures InstrumentIndex(IdsOf(tags), p) < |es|
    ensures TalkingScore.InRun(es[InstrumentIndex(IdsOf(tags), p)], p)
    decreases p
  {
    var ids := IdsOf(tags);
    if p == 0 {
      TalkingScore.RunOfFirst(tags, es);
    } else {
      IndexMatchesGrouping(tags, es, p - 1);
      TalkingScore.RunStep(tags, es, p, InstrumentIndex(ids, p - 1));
    }
  }

  /** End to end: with the selection mask the score page builds from the chosen instrument numbers,
      the handler plays a part with the selected ones exactly when the instrument the part belongs
      to in the builder's grouping was chosen. */
  lemma SelectedPartsOfChosenInstruments(tags: seq<TalkingScore.PartTag>, es: seq<TalkingScore.InstrumentEntry>,
                                         chosen: seq<int>, p: nat)
    requires TalkingScore.Runs(tags, es) && p < |tags|
    ensures var k := InstrumentIndex(IdsOf(tags), p);
      && k < |es| && TalkingScore.InRun(es[k], p)
      && (Selected(Bitmasks.Decode(Bitmasks.Encode(TalkingScore.SelectionFlags(|es|, chosen))), IdsOf(tags), p)
          <==> k + 1 in chosen)
  {
    IndexMatchesGrouping(tags, es, p);
    TalkingScore.SelectionMaskReadsBack(|es|, chosen);
  }

  /** The part ids in score order. */
  function IdsOf(tags: seq<TalkingScore.PartTag>): (ids: seq<string>)
    ensures |ids| == |tags| && forall p :: 0 <= p < |tags| ==> ids[p] == tags[p].partId
  {
    seq(|tags|, p requires 0 <= p < |tags| => tags[p].partId)
  }

  // ---------------------------------------------------------------------
  // The handler

  class Handler {
    var query: map<string, string>
    var folder: string
    var filename: string
    var selectedInstruments: seq<bool>
    var allSelectedParts: seq<nat>
    var allUnselectedParts: seq<nat>
    var selectedInstrumentParts: Dicts.Dict<int, seq<int>>
    var playTogetherUnselected: bool
    var playTogetherSelected: bool
    var playTogetherAll: bool
    var midiName: string

    /** Keeps the request and folder, strips every ".mid" from the file name and starts with
        nothing selected and every play-together option off. */
    constructor(query: map<string, string>, folder: string, filename: string)
      ensures this.query == query && this.folder == folder
      ensures this.filename == RemoveAll(filename, ".mid")
      ensures selectedInstruments == [] && allSelectedParts == [] && allUnselectedParts == []
      ensures selectedInstrumentParts == Dicts.Empty()
      ensures !playTogetherUnselected && !playTogetherSelected && !playTogetherAll
    {
      this.query := query;
      this.folder := folder;
      this.filename := RemoveAll(filename, ".mid");
      selectedInstruments := [];
      allSelectedParts := [];
      allUnselectedParts := [];
      selectedInstrumentParts := Dicts.Empty();
      playTogetherUnselected := false;
      playTogetherSelected := false;
      playTogetherAll := false;
      midiName := "";
    }

    /** Reads play-unselected from bit 0, play-selected from bit 1 and play-all from bit 2. */
    method GetPlaybackOptions(binaryPlaybackInt: int)
      modifies this
      ensures Bitmasks.PlayOptions(playTogetherAll, playTogetherSelected, playTogetherUnselected)
           == Bitmasks.UnpackPlayOptions(binaryPlaybackInt)
      ensures query == old(query) && folder == old(folder) && filename == old(filename)
      ensures selectedInstruments == old(selectedInstruments)
      ensures allSelectedParts == old(allSelectedParts) && allUnselectedParts == old(allUnselectedParts)
      ensures selectedInstrumentParts == old(selectedInstrumentParts) && midiName == old(midiName)
    {
      var b := binaryPlaybackInt;
      playTogetherUnselected := b % 2 == 1;
      b := b / 2;
      playTogetherSelected := b % 2 == 1;
      b := b / 2;
      playTogetherAll := b % 2 == 1;
    }

    /** Walks the parts in score order and files each under the selected or the unselected parts,
        and a selected one also under its instrument's group. */
    method MapInstrumentsToParts(ids: seq<string>)
      modifies this
      ensures query == old(query) && folder == old(folder) && filename == old(filename)
      ensures selectedInstruments == old(selectedInstruments) && midiName == old(midiName)
      ensures playTogetherAll == old(playTogetherAll) && playTogetherSelected == old(playTogetherSelected)
      ensures playTogetherUnselected == old(playTogetherUnselected)
      ensures allSelectedParts == old(allSelectedParts) + PartsWhere(selectedInstruments, ids, |ids|, true)
      ensures allUnselectedParts == old(allUnselectedParts) + PartsWhere(selectedInstruments, ids, |ids|, false)
      ensures selectedInstrumentParts == GroupParts(old(selectedInstrumentParts), selectedInstruments, ids, |ids|)
    {
      var sel, unsel, groups := MapParts(selectedInstruments, ids, allSelectedParts, allUnselectedParts, selectedInstrumentParts);
      allSelectedParts, allUnselectedParts, selectedInstrumentParts := sel, unsel, groups;
    }

    /** Decodes the instrument selection, maps it onto the parts from scratch and reads the
        play-together options. */
    method GetSelectedInstruments(binarySelectionInt: int, binaryPlaybackInt: int, ids: seq<string>)
      modifies this
      ensures query == old(query) && folder == old(folder) && filename == old(filename) && midiName == old(midiName)
      ensures selectedInstruments == Bitmasks.Decode(binarySelectionInt)
      ensures allSelectedParts == PartsWhere(selectedInstruments, ids, |ids|, true)
      ensures allUnselectedParts == PartsWhere(selectedInstruments, ids, |ids|, false)
      ensures selectedInstrumentParts == GroupParts(Dicts.Empty(), selectedInstruments, ids, |ids|)
      ensures Bitmasks.PlayOptions(playTogetherAll, playTogetherSelected, playTogetherUnselected)
           == Bitmasks.UnpackPlayOptions(binaryPlaybackInt)
    {
      var flags := ParseBinarySelectionInteger(binarySelectionInt);
      selectedInstruments := flags;
      allSelectedParts := [];
      allUnselectedParts := [];
      selectedInstrumentParts := Dicts.Empty();
      MapInstrumentsToParts(ids);
      GetPlaybackOptions(binaryPlaybackInt);
    }

    /** The MIDI file name for the given options: the base name, the options' segments and ".mid". */
    function MakeMidiPathFromOptions(o: MidiOptions): (name: string)
      reads this
      ensures |name| >= |filename| + 4 && name[..|filename|] == filename && EndsWith(name, ".mid")
      ensures o == MidiOptions(None, None, None, None, None, None, None) ==> name == filename + ".mid"
    {
      filename + OptionSegments(o) + ".mid"
    }

    /** Builds the file name from the query, parameter by parameter. */
    method GetOrMakeMidiName()
      modifies this
      ensures midiName == MakeMidiPathFromOptions(QueryOptions(query))
      ensures query == old(query) && folder == old(folder) && filename == old(filename)
      ensures selectedInstruments == old(selectedInstruments)
      ensures allSelectedParts == old(allSelectedParts) && allUnselectedParts == old(allUnselectedParts)
      ensures selectedInstrumentParts == old(selectedInstrumentParts)
      ensures playTogetherAll == old(playTogetherAll) && playTogetherSelected == old(playTogetherSelected)
      ensures playTogetherUnselected == old(playTogetherUnselected)
    {
      var name := NameFromQuery(filename, query);
      QueryNamesMatchOptions(query);
      midiName := name + ".mid";
    }
  }

  /** The part lists and groups after filing the parts one by one onto the given ones. */
  method MapParts(flags: seq<bool>, ids: seq<string>, sel0: seq<nat>, unsel0: seq<nat>, groups0: Dicts.Dict<int, seq<int>>)
    returns (sel: seq<nat>, unsel: seq<nat>, groups: Dicts.Dict<int, seq<int>>)
    ensures sel == sel0 + PartsWhere(flags, ids, |ids|, true)
    ensures unsel == unsel0 + PartsWhere(flags, ids, |ids|, false)
    ensures groups == GroupParts(groups0, flags, ids, |ids|)
  {
    sel, unsel, groups := sel0, unsel0, groups0;
    var instrumentIndex := -1;
    var previous: Option<string> := None;
    var partIndex := 0;
    while partIndex < |ids|
      invariant 0 <= partIndex <= |ids|
      invariant partIndex == 0 <==> previous == None
      invariant partIndex > 0 ==> previous == Some(ids[partIndex - 1]) && instrumentIndex == InstrumentIndex(ids, partIndex - 1)
      invariant partIndex == 0 ==> instrumentIndex == -1
      invariant sel == sel0 + PartsWhere(flags, ids, partIndex, true)
      invariant unsel == unsel0 + PartsWhere(flags, ids, partIndex, false)
      invariant groups == GroupParts(groups0, flags, ids, partIndex)
    {
      var partId := ids[partIndex];
      if previous != Some(partId) {
        instrumentIndex := instrumentIndex + 1;
      }
      assert instrumentIndex == InstrumentIndex(ids, partIndex);
      if instrumentIndex < |flags| && flags[instrumentIndex] {
        sel := sel + [partIndex];
        groups := Dicts.AppendTo(groups, instrumentIndex, partIndex);
      } else {
        unsel := unsel + [partIndex];
      }
      previous := Some(partId);
      partIndex := partIndex + 1;
    }
  }
}
