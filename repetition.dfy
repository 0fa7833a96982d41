/** Repetition detection over a bar registry: when a bar's pattern is
    next used, the greedy search for runs of consecutive bars that repeat
    together, the lists of repeated bars, the repeated bars left outside
    every run, and the "same as previous bar" annotations. */
module Repetition {
  import opened Dicts
  import opened Registries
  import Sorting

  /** `[start, end]`: bars `start` to `end`, both included. */
  datatype Range = Range(start: int, end: int)

  /** `when_is_measure_next_used`: the number filed right after `m` in `m`'s class, or -1. */
  function NextUse<T>(r: Registry<T>, m: int): int
    requires Wf(r)
  {
    if m !in r.all.items then -1
    else
      var (c, o) := r.all.items[m];
      if |r.classes[c]| - 1 > o then r.classes[c][o + 1] else -1
  }

  /** The next use is the following occurrence of the same pattern, and -1 when `m` is not
      filed or is its pattern's last occurrence; in an ordered registry it is the nearest
      later bar of the pattern. */
  lemma NextUseIsNextOccurrence<T>(r: Registry<T>, m: int)
    requires Wf(r)
    ensures m !in r.all.items || r.all.items[m].1 == |r.classes[r.all.items[m].0]| - 1 ==> NextUse(r, m) == -1
    ensures m in r.all.items && r.all.items[m].1 < |r.classes[r.all.items[m].0]| - 1 ==>
              && SameClass(r, m, NextUse(r, m))
              && r.all.items[NextUse(r, m)].1 == r.all.items[m].1 + 1
              && (Ordered(r) ==> m < NextUse(r, m) && forall k :: m < k < NextUse(r, m) ==> !SameClass(r, m, k))
  {
    if m in r.all.items {
      var (c, o) := r.all.items[m];
      if |r.classes[c]| - 1 > o && Ordered(r) {
        var n := r.classes[c][o + 1];
        assert m == r.classes[c][o];
        forall ok | 0 <= ok < |r.classes[c]| ensures r.classes[c][ok] <= m || n <= r.classes[c][ok] {
          if ok < o {
            assert r.classes[c][ok] < r.classes[c][o];
          } else if ok > o + 1 {
            assert r.classes[c][o + 1] < r.classes[c][ok];
          }
        }
      }
    }
  }

  /** `is_measure_used_at` is `SameClass`; its absent cases read false. */
  lemma UsedAtNeedsBoth<T>(r: Registry<T>, a: int, b: int)
    requires a !in r.all.items || b !in r.all.items
    ensures !SameClass(r, a, b)
  {
  }

  /** `find_measure_group`: the first group holding `target` among its ranges, or -1. */
  method FindMeasureGroup(target: Range, groups: seq<seq<Range>>) returns (i: int)
    ensures -1 <= i < |groups|
    ensures i >= 0 ==> target in groups[i] && forall j :: 0 <= j < i ==> target !in groups[j]
    ensures i == -1 ==> forall j :: 0 <= j < |groups| ==> target !in groups[j]
  {
    i := 0;
    while i < |groups|
      invariant 0 <= i <= |groups|
      invariant forall j :: 0 <= j < i ==> target !in groups[j]
    {
      var k := 0;
      while k < |groups[i]|
        invariant 0 <= k <= |groups[i]|
        invariant target !in groups[i][..k]
      {
        if groups[i][k] == target {
          return;
        }
        assert groups[i][..k + 1] == groups[i][..k] + [groups[i][k]];
        k := k + 1;
      }
      assert groups[i][..k] == groups[i];
      i := i + 1;
    }
    i := -1;
  }

  /** Bar `m` lies inside one of the ranges. */
  predicate InGroups(m: int, groups: seq<seq<Range>>) {
    exists i, k :: 0 <= i < |groups| && 0 <= k < |groups[i]| && groups[i][k].start <= m <= groups[i][k].end
  }

  /** `in_measure_groups`. */
  method InMeasureGroups(m: int, groups: seq<seq<Range>>) returns (inside: bool)
    ensures inside <==> InGroups(m, groups)
  {
    var i := 0;
    while i < |groups|
      invariant 0 <= i <= |groups|
      invariant forall j, k :: 0 <= j < i && 0 <= k < |groups[j]| ==> !(groups[j][k].start <= m <= groups[j][k].end)
    {
      var k := 0;
      while k < |groups[i]|
        invariant 0 <= k <= |groups[i]|
        invariant forall j, k' :: 0 <= j < i && 0 <= k' < |groups[j]| ==> !(groups[j][k'].start <= m <= groups[j][k'].end)
        invariant forall k' :: 0 <= k' < k ==> !(groups[i][k'].start <= m <= groups[i][k'].end)
      {
        if groups[i][k].start <= m <= groups[i][k].end {
          return true;
        }
        k := k + 1;
      }
      i := i + 1;
    }
    return false;
  }

  /** What the greedy search promises of every group it records: at least two
      occurrences, each of at least two bars and all of one length, every later one
      starting after the first ends, and bar `i` of every occurrence filed in the same
      class as bar `i` of the first. */
  ghost predicate GroupShape<T>(r: Registry<T>, g: seq<Range>) {
    && |g| >= 2
    && g[0].start < g[0].end
    && (forall k :: 0 <= k < |g| ==> g[k].end - g[k].start == g[0].end - g[0].start)
    && (forall k :: 1 <= k < |g| ==> g[0].end < g[k].start)
    && (forall k, i :: 0 <= k < |g| && 0 <= i <= g[0].end - g[0].start ==> AlignedSame(r, g[0].start, g[k].start, i))
  }

  /** Bar `a + i` and bar `b + i` share a class. */
  ghost predicate AlignedSame<T>(r: Registry<T>, a: int, b: int, i: int) {
    SameClass(r, a + i, b + i)
  }

  /** The range `[p, p + size]` repeats at `[q, q + size]`, bar for bar. */
  ghost predicate RepeatsAt<T>(r: Registry<T>, p: int, q: int, size: int) {
    forall i :: 0 <= i <= size ==> AlignedSame(r, p, q, i)
  }

  /** Adding the repeat `[p + gap, p + gap + size]` of a recorded occurrence `[p, p + size]`
      keeps the group's shape. */
  lemma ExtendGroup<T>(r: Registry<T>, g: seq<Range>, k: int, p: int, size: int, gap: int)
    requires GroupShape(r, g) && 0 <= k < |g| && g[k] == Range(p, p + size)
    requires size < gap && RepeatsAt(r, p, p + gap, size)
    ensures GroupShape(r, g + [Range(p + gap, p + gap + size)])
  {
    var g' := g + [Range(p + gap, p + gap + size)];
    forall k', i | 0 <= k' < |g'| && 0 <= i <= g'[0].end - g'[0].start
      ensures AlignedSame(r, g'[0].start, g'[k'].start, i)
    {
      if k' == |g| {
        assert AlignedSame(r, g[0].start, g[k].start, i);
        assert AlignedSame(r, p, p + gap, i);
      } else {
        assert g'[k'] == g[k'];
      }
    }
  }

  /** The run grown from bar `p` whose bars come back `gap` bars later: the largest `size` below
      `gap` such that bars `p` to `p + size` each share a class with the bar `gap` later. */
  method RunLength<T>(r: Registry<T>, p: int, gap: int) returns (size: int)
    requires gap > 1 && SameClass(r, p, p + gap)
    ensures 0 <= size < gap && RepeatsAt(r, p, p + gap, size)
    ensures size + 1 < gap ==> !SameClass(r, p + size + 1, p + size + 1 + gap)
  {
    var q := p + gap;
    assert AlignedSame(r, p, q, 0);
    size := 1;
    while size < gap && p + size + gap in r.all.items && SameClass(r, p + size, p + size + gap)
      invariant 1 <= size <= gap
      invariant forall i :: 0 <= i < size ==> AlignedSame(r, p, q, i)
      decreases gap - size
    {
      assert AlignedSame(r, p, q, size);
      size := size + 1;
    }
    size := size - 1;
  }

  /** Record the run `[p, p + size]` and its repeat `gap` bars later: added to the group
      already holding the first range, or as a new group of the two. */
  method RecordRun<T>(r: Registry<T>, groups: seq<seq<Range>>, p: int, gap: int, size: int)
    returns (groups': seq<seq<Range>>)
    requires forall j :: 0 <= j < |groups| ==> GroupShape(r, groups[j])
    requires 0 < size < gap && RepeatsAt(r, p, p + gap, size)
    ensures forall j :: 0 <= j < |groups'| ==> GroupShape(r, groups'[j])
    ensures exists j :: 0 <= j < |groups'| && Range(p, p + size) in groups'[j] && Range(p + gap, p + gap + size) in groups'[j]
  {
    var first := Range(p, p + size);
    var later := Range(p + gap, p + gap + size);
    var found := FindMeasureGroup(first, groups);
    if found == -1 {
      forall i | 0 <= i <= size ensures AlignedSame(r, p, p, i) {
        assert AlignedSame(r, p, p + gap, i);
      }
      groups' := groups + [[first, later]];
      assert groups'[|groups|] == [first, later];
    } else {
      var k :| 0 <= k < |groups[found]| && groups[found][k] == first;
      ExtendGroup(r, groups[found], k, p, size, gap);
      groups' := groups[found := groups[found] + [later]];
      assert first in groups'[found];
    }
  }

  /** `calculate_measure_groups`: scan the filed bars in filing order; for a bar whose
      pattern comes back more than one bar later, grow the run of following bars that
      come back at the same distance, record it, and skip the run's remaining bars. */
  method CalculateMeasureGroups<T>(r: Registry<T>) returns (groups: seq<seq<Range>>)
    requires Wf(r)
    ensures forall j :: 0 <= j < |groups| ==> GroupShape(r, groups[j])
  {
    groups := [];
    var skip := 0;
    var n := 0;
    while n < |r.all.keys|
      invariant 0 <= n <= |r.all.keys|
      invariant forall j :: 0 <= j < |groups| ==> GroupShape(r, groups[j])
    {
      var p := r.all.keys[n];
      n := n + 1;
      if skip > 0 {
        skip := skip - 1;
        continue;
      }
      var next := NextUse(r, p);
      if next > -1 {
        var gap := next - p;
        if gap > 1 {
          NextUseIsNextOccurrence(r, p);
          var size := RunLength(r, p, gap);
          if size > 0 {
            groups := RecordRun(r, groups, p, gap, size);
            skip := size;
          }
        }
      }
    }
  }

  /** A recorded run is at least two bars and its two occurrences do not overlap. */
  lemma GroupRangesDisjoint<T>(r: Registry<T>, g: seq<Range>, k: int, m: int)
    requires GroupShape(r, g) && 1 <= k < |g|
    ensures g[k].end - g[k].start >= 1
    ensures !(g[0].start <= m <= g[0].end && g[k].start <= m <= g[k].end)
  {
  }

  /** Bar `m` is kept when full-match classes do not matter, or when its own full-match class has one member. */
  predicate Keep<S>(m: int, notFullMatch: bool, full: Registry<S>)
    requires notFullMatch ==> Wf(full) && m in full.all.items
  {
    !notFullMatch || |full.classes[full.all.items[m].0]| == 1
  }

  ghost predicate AllFiledIn<S>(lists: seq<seq<int>>, full: Registry<S>) {
    forall c, o :: 0 <= c < |lists| && 0 <= o < |lists[c]| ==> lists[c][o] in full.all.items
  }

  function KeptOf<S>(list: seq<int>, notFullMatch: bool, full: Registry<S>): (kept: seq<int>)
    requires notFullMatch ==> Wf(full) && forall o :: 0 <= o < |list| ==> list[o] in full.all.items
    ensures forall x :: x in kept ==> x in list
    ensures forall x :: x in kept ==> (notFullMatch ==> x in full.all.items) && Keep(x, notFullMatch, full)
  {
    if list == [] then []
    else
      var rest := KeptOf(list[..|list| - 1], notFullMatch, full);
      var m := list[|list| - 1];
      if Keep(m, notFullMatch, full) then rest + [m] else rest
  }

  /** The lists `calculate_repeated_measures_lists` returns for the first classes. */
  function RepeatedLists<S>(classes: seq<seq<int>>, notFullMatch: bool, full: Registry<S>): seq<seq<int>>
    requires notFullMatch ==> Wf(full) && AllFiledIn(classes, full)
  {
    if classes == [] then []
    else
      var rest := RepeatedLists(classes[..|classes| - 1], notFullMatch, full);
      var list := classes[|classes| - 1];
      if |list| > 1 then
        var kept := KeptOf(list, notFullMatch, full);
        if |kept| > 1 then rest + [kept] else rest
      else rest
  }

  /** Every bar of `list` is in one and the same class. */
  predicate WithinOneClass(list: seq<int>, classes: seq<seq<int>>) {
    exists c :: 0 <= c < |classes| && forall x :: x in list ==> x in classes[c]
  }

  /** Every repeated list has more than one bar, all from one class, and with
      `notFullMatch` every kept bar is the only bar of its full-match class. */
  lemma {:induction false} RepeatedListsAreClasses<S>(classes: seq<seq<int>>, notFullMatch: bool, full: Registry<S>)
    requires notFullMatch ==> Wf(full) && AllFiledIn(classes, full)
    ensures forall j :: 0 <= j < |RepeatedLists(classes, notFullMatch, full)| ==>
              |RepeatedLists(classes, notFullMatch, full)[j]| > 1
    ensures forall j :: 0 <= j < |RepeatedLists(classes, notFullMatch, full)| ==>
              WithinOneClass(RepeatedLists(classes, notFullMatch, full)[j], classes)
    ensures notFullMatch ==>
              forall j, x :: 0 <= j < |RepeatedLists(classes, notFullMatch, full)| && x in RepeatedLists(classes, notFullMatch, full)[j] ==>
                x in full.all.items && |full.classes[full.all.items[x].0]| == 1
  {
    if classes != [] {
      var init := classes[..|classes| - 1];
      RepeatedListsAreClasses(init, notFullMatch, full);
      var rest := RepeatedLists(init, notFullMatch, full);
      var out := RepeatedLists(classes, notFullMatch, full);
      forall j | 0 <= j < |out|
        ensures |out[j]| > 1
        ensures WithinOneClass(out[j], classes)
        ensures notFullMatch ==> forall x :: x in out[j] ==> x in full.all.items && |full.classes[full.all.items[x].0]| == 1
      {
        if j < |rest| {
          assert out[j] == rest[j];
          var c :| 0 <= c < |init| && forall x :: x in rest[j] ==> x in init[c];
          assert classes[c] == init[c];
          assert WithinOneClass(out[j], classes);
        } else {
          var list := classes[|classes| - 1];
          var kept := KeptOf(list, notFullMatch, full);
          assert |list| > 1 && |kept| > 1 && out == rest + [kept];
          assert out[j] == kept;
          assert forall x :: x in out[j] ==> x in classes[|classes| - 1];
          assert WithinOneClass(out[j], classes);
        }
      }
    }
  }

  /** The kept bars of one class, in filing order. */
  method KeepBars<S>(list: seq<int>, notFullMatch: bool, full: Registry<S>) returns (kept: seq<int>)
    requires notFullMatch ==> Wf(full) && forall o :: 0 <= o < |list| ==> list[o] in full.all.items
    ensures kept == KeptOf(list, notFullMatch, full)
  {
    kept := [];
    var o := 0;
    while o < |list|
      invariant 0 <= o <= |list|
      invariant kept == KeptOf(list[..o], notFullMatch, full)
    {
      assert list[..o + 1][..o] == list[..o];
      if Keep(list[o], notFullMatch, full) {
        kept := kept + [list[o]];
      }
      o := o + 1;
    }
    assert list[..o] == list;
  }

  /** `calculate_repeated_measures_lists`. */
  method CalculateRepeatedMeasuresLists<S>(classes: seq<seq<int>>, notFullMatch: bool, full: Registry<S>)
    returns (lists: seq<seq<int>>)
    requires notFullMatch ==> Wf(full) && AllFiledIn(classes, full)
    ensures lists == RepeatedLists(classes, notFullMatch, full)
  {
    lists := [];
    var c := 0;
    while c < |classes|
      invariant 0 <= c <= |classes|
      invariant lists == RepeatedLists(classes[..c], notFullMatch, full)
    {
      var list := classes[c];
      assert classes[..c + 1][..c] == classes[..c];
      if |list| > 1 {
        var kept := KeepBars(list, notFullMatch, full);
        if |kept| > 1 {
          lists := lists + [kept];
        }
      }
      c := c + 1;
    }
    assert classes[..c] == classes;
  }

  function Outside(list: seq<int>, groups: seq<seq<Range>>): (out: seq<int>)
    ensures forall x :: x in out ==> x in list && !InGroups(x, groups)
    ensures forall x :: x in list && !InGroups(x, groups) ==> x in out
  {
    if list == [] then []
    else
      var rest := Outside(list[..|list| - 1], groups);
      var m := list[|list| - 1];
      assert forall x :: x in list ==> x in list[..|list| - 1] || x == m;
      if InGroups(m, groups) then rest else rest + [m]
  }

  /** The dictionary `calculate_repeated_measures_not_in_groups` returns for the first lists. */
  function NotInGroups(lists: seq<seq<int>>, groups: seq<seq<Range>>): Dict<int, seq<int>> {
    if lists == [] then Empty()
    else
      var d := NotInGroups(lists[..|lists| - 1], groups);
      var list := lists[|lists| - 1];
      if |list| > 1 then
        var out := Outside(list, groups);
        if |out| > 1 then d.Put(out[0], out[1..]) else d
      else d
  }

  /** Exclusivity: no key and no listed bar lies inside a recorded range, every list is
      non-empty, and every key and its bars are the bars outside the ranges of one input list. */
  lemma {:induction false} NotInGroupsIsExclusive(lists: seq<seq<int>>, groups: seq<seq<Range>>)
    ensures NotInGroups(lists, groups).Valid()
    ensures forall k :: k in NotInGroups(lists, groups).items ==>
              && !InGroups(k, groups)
              && |NotInGroups(lists, groups).items[k]| > 0
              && (forall x :: x in NotInGroups(lists, groups).items[k] ==> !InGroups(x, groups))
              && exists j :: 0 <= j < |lists| && [k] + NotInGroups(lists, groups).items[k] == Outside(lists[j], groups)
  {
    if lists != [] {
      var init := lists[..|lists| - 1];
      NotInGroupsIsExclusive(init, groups);
      var d := NotInGroups(init, groups);
      var d' := NotInGroups(lists, groups);
      var list := lists[|lists| - 1];
      forall k | k in d'.items
        ensures && !InGroups(k, groups)
                && |d'.items[k]| > 0
                && (forall x :: x in d'.items[k] ==> !InGroups(x, groups))
                && exists j :: 0 <= j < |lists| && [k] + d'.items[k] == Outside(lists[j], groups)
      {
        var out := Outside(list, groups);
        if |list| > 1 && |out| > 1 && k == out[0] {
          assert out == [k] + out[1..];
          assert d'.items[k] == out[1..];
          assert out[0] in out;
        } else {
          assert d'.items[k] == d.items[k];
          var j :| 0 <= j < |init| && [k] + d.items[k] == Outside(init[j], groups);
          assert lists[j] == init[j];
        }
      }
    }
  }

  /** The bars of one list outside every recorded range, in order. */
  method BarsOutside(list: seq<int>, groups: seq<seq<Range>>) returns (out: seq<int>)
    ensures out == Outside(list, groups)
  {
    out := [];
    var o := 0;
    while o < |list|
      invariant 0 <= o <= |list|
      invariant out == Outside(list[..o], groups)
    {
      assert list[..o + 1][..o] == list[..o];
      var inside := InMeasureGroups(list[o], groups);
      if !inside {
        out := out + [list[o]];
      }
      o := o + 1;
    }
    assert list[..o] == list;
  }

  /** `calculate_repeated_measures_not_in_groups`. */
  method CalculateRepeatedMeasuresNotInGroups(lists: seq<seq<int>>, groups: seq<seq<Range>>)
    returns (d: Dict<int, seq<int>>)
    ensures d == NotInGroups(lists, groups)
  {
    d := Empty();
    var j := 0;
    while j < |lists|
      invariant 0 <= j <= |lists|
      invariant d == NotInGroups(lists[..j], groups)
    {
      var list := lists[j];
      assert lists[..j + 1][..j] == lists[..j];
      if |list| > 1 {
        var out := BarsOutside(list, groups);
        if |out| > 1 {
          d := d.Put(out[0], out[1..]);
        }
      }
      j := j + 1;
    }
    assert lists[..j] == lists;
  }

  /** One "same as previous bar" annotation: `{'type': ..., 'text': ...}`. */
  datatype Immediate = Immediate(kind: string, text: string)

  const ExactRepeat := Immediate("exact", "Same as previous bar.")
  const RhythmRepeat := Immediate("rhythm", "Same rhythm as previous bar.")

  /** In a strictly increasing list of integers, values grow at least as fast as positions. */
  lemma {:induction false} IncreasingGap(s: seq<int>)
    requires forall a, b :: 0 <= a < b < |s| ==> s[a] < s[b]
    ensures forall a, b :: 0 <= a <= b < |s| ==> s[b] - s[a] >= b - a
  {
    if |s| > 1 {
      var init := s[..|s| - 1];
      IncreasingGap(init);
      forall a, b | 0 <= a <= b < |s| ensures s[b] - s[a] >= b - a {
        if b == |s| - 1 && a < b {
          assert init[a] == s[a] && init[b - 1] == s[b - 1];
          assert s[b - 1] - s[a] >= b - 1 - a;
        } else if b < |s| - 1 {
          assert init[a] == s[a] && init[b] == s[b];
        }
      }
    }
  }

  /** In a strictly increasing list, the number just below an entry occurs exactly when it is the entry before. */
  lemma PredecessorIsNeighbour(s: seq<int>, i: int)
    requires forall a, b :: 0 <= a < b < |s| ==> s[a] < s[b]
    requires 0 <= i < |s|
    ensures s[i] - 1 in s <==> i > 0 && s[i - 1] + 1 == s[i]
  {
    IncreasingGap(s);
    if s[i] - 1 in s {
      var j :| 0 <= j < |s| && s[j] == s[i] - 1;
      assert j + 1 == i;
    }
  }

  lemma DistinctSortedIncreases(keys: seq<int>, s: seq<int>)
    requires forall a, b :: 0 <= a < b < |keys| ==> keys[a] != keys[b]
    requires Sorting.SortedAsc(s) && multiset(s) == multiset(keys)
    ensures forall a, b :: 0 <= a < b < |s| ==> s[a] < s[b]
    ensures forall x :: x in s <==> x in keys
  {
    forall a, b | 0 <= a < b < |s| ensures s[a] < s[b] {
      if s[a] == s[b] {
        assert multiset(s)[s[a]] >= 2 by {
          assert s == s[..a] + [s[a]] + s[a + 1..b] + [s[b]] + s[b + 1..];
        }
        DistinctCountsOnce(keys, s[a]);
      }
    }
    forall x ensures x in s <==> x in keys {
      assert x in multiset(s) <==> x in multiset(keys);
    }
  }

  lemma {:induction false} DistinctCountsOnce(keys: seq<int>, x: int)
    requires forall a, b :: 0 <= a < b < |keys| ==> keys[a] != keys[b]
    ensures multiset(keys)[x] <= 1
  {
    if keys != [] {
      var init := keys[..|keys| - 1];
      DistinctCountsOnce(init, x);
      assert keys == init + [keys[|keys| - 1]];
      if keys[|keys| - 1] == x {
        assert x !in init;
      }
    }
  }

  /** Bar `b` follows bar `b - 1` and repeats it in full or in rhythm. */
  ghost predicate RepeatsPrevious<S>(bars: seq<int>, full: Registry<S>, rhythm: Registry<S>, b: int) {
    b - 1 in bars && (SameClass(full, b - 1, b) || SameClass(rhythm, b - 1, b))
  }

  /** The context built from the first `n` sorted bars: a note for each of them that repeats
      its predecessor, "same as previous bar" for a full match and "same rhythm" otherwise. */
  ghost predicate ImmediateUpTo<S>(context: Dict<int, Immediate>, bars: seq<int>, n: nat, full: Registry<S>, rhythm: Registry<S>)
    requires n <= |bars|
  {
    && (forall b :: b in context.items <==> b in bars[..n] && RepeatsPrevious(bars, full, rhythm, b))
    && (forall b :: b in context.items ==> context.items[b] == if SameClass(full, b - 1, b) then ExactRepeat else RhythmRepeat)
  }

  /** One round of `describe_immediate_repetition`: the note for the `i`th sorted bar. */
  method NoteImmediate<S>(bars: seq<int>, i: nat, full: Registry<S>, rhythm: Registry<S>, context: Dict<int, Immediate>)
    returns (context': Dict<int, Immediate>)
    requires forall a, b :: 0 <= a < b < |bars| ==> bars[a] < bars[b]
    requires i < |bars| && ImmediateUpTo(context, bars, i, full, rhythm)
    ensures ImmediateUpTo(context', bars, i + 1, full, rhythm)
    ensures context.Valid() ==> context'.Valid()
  {
    PredecessorIsNeighbour(bars, i);
    assert bars[..i + 1] == bars[..i] + [bars[i]];
    context' := context;
    if i > 0 {
      var previous := bars[i - 1];
      var current := bars[i];
      if current == previous + 1 {
        if SameClass(full, previous, current) {
          context' := context.Put(current, ExactRepeat);
        } else if SameClass(rhythm, previous, current) {
          context' := context.Put(current, RhythmRepeat);
        }
      }
    }
  }

  /** `describe_immediate_repetition`: for each bar whose predecessor number is also a bar,
      "same as previous bar" when the two share a full-match class, otherwise "same rhythm"
      when they share a rhythm class. */
  method DescribeImmediateRepetition<S>(measureIndexes: Dict<int, nat>, full: Registry<S>, rhythm: Registry<S>)
    returns (context: Dict<int, Immediate>)
    requires measureIndexes.Valid()
    ensures context.Valid()
    ensures forall b :: b in context.items <==>
              b in measureIndexes.items && b - 1 in measureIndexes.items && (SameClass(full, b - 1, b) || SameClass(rhythm, b - 1, b))
    ensures forall b :: b in context.items ==>
              context.items[b] == if SameClass(full, b - 1, b) then ExactRepeat else RhythmRepeat
  {
    var bars := Sorting.SortInts(measureIndexes.keys);
    DistinctSortedIncreases(measureIndexes.keys, bars);
    context := Empty();
    var i := 0;
    while i < |bars|
      invariant 0 <= i <= |bars|
      invariant context.Valid() && ImmediateUpTo(context, bars, i, full, rhythm)
    {
      context := NoteImmediate(bars, i, full, rhythm, context);
      i := i + 1;
    }
    assert bars[..i] == bars;
  }
}
