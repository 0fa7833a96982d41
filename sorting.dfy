/** Python's `sorted` / `list.sort` as used by the core: a stable sort on an
    integer key.  `key=..., reverse=True` is a descending stable sort; an
    ascending sort is the descending sort on the negated key. */
module Sorting {

  ghost predicate SortedDesc<T>(s: seq<T>, key: T -> int) {
    forall i, j :: 0 <= i < j < |s| ==> key(s[i]) >= key(s[j])
  }

  predicate SortedAsc(s: seq<int>) {
    forall i, j :: 0 <= i < j < |s| ==> s[i] <= s[j]
  }

  /** Inserts `x` after every element whose key is at least `key(x)`, which keeps equal keys in arrival order. */
  function Insert<T>(x: T, s: seq<T>, key: T -> int): seq<T> {
    if s == [] then [x]
    else if key(s[0]) >= key(x) then [s[0]] + Insert(x, s[1..], key)
    else [x] + s
  }

  /** Inserting keeps every element and adds `x`. */
  lemma {:induction false} InsertPermutes<T>(x: T, s: seq<T>, key: T -> int)
    ensures |Insert(x, s, key)| == |s| + 1
    ensures multiset(Insert(x, s, key)) == multiset(s) + multiset{x}
  {
    if s != [] && key(s[0]) >= key(x) {
      InsertPermutes(x, s[1..], key);
      assert s == [s[0]] + s[1..];
    }
  }

  /** A bound on every key of `s` and on `x` bounds every key after inserting. */
  lemma {:induction false} InsertBelow<T>(x: T, s: seq<T>, key: T -> int, bound: int)
    requires forall i :: 0 <= i < |s| ==> key(s[i]) <= bound
    requires key(x) <= bound
    ensures forall i :: 0 <= i < |Insert(x, s, key)| ==> key(Insert(x, s, key)[i]) <= bound
  {
    if s != [] && key(s[0]) >= key(x) {
      InsertBelow(x, s[1..], key, bound);
    }
  }

  lemma {:induction false} InsertSorted<T>(x: T, s: seq<T>, key: T -> int)
    requires SortedDesc(s, key)
    ensures SortedDesc(Insert(x, s, key), key)
  {
    if s != [] && key(s[0]) >= key(x) {
      var rest := Insert(x, s[1..], key);
      InsertSorted(x, s[1..], key);
      InsertBelow(x, s[1..], key, key(s[0]));
      var r := Insert(x, s, key);
      assert r == [s[0]] + rest;
      forall i, j | 0 <= i < j < |r| ensures key(r[i]) >= key(r[j]) {
        assert r[j] == rest[j - 1];
        if i > 0 { assert r[i] == rest[i - 1]; }
      }
    }
  }

  lemma InsertKeeps<T>(x: T, s: seq<T>, key: T -> int)
    requires SortedDesc(s, key)
    ensures |Insert(x, s, key)| == |s| + 1
    ensures multiset(Insert(x, s, key)) == multiset(s) + multiset{x}
    ensures SortedDesc(Insert(x, s, key), key)
  {
    InsertPermutes(x, s, key);
    InsertSorted(x, s, key);
  }

  /** `sorted(s, key=key, reverse=True)`. */
  function SortDesc<T>(s: seq<T>, key: T -> int): (r: seq<T>)
    ensures SortedDesc(r, key)
    ensures multiset(r) == multiset(s)
    ensures |r| == |s|
  {
    if s == [] then []
    else
      assert s == s[..|s| - 1] + [s[|s| - 1]];
      var sorted := SortDesc(s[..|s| - 1], key);
      InsertKeeps(s[|s| - 1], sorted, key);
      Insert(s[|s| - 1], sorted, key)
  }

  /** The elements of `s` whose key is `v`, in their order in `s`. */
  function Only<T>(s: seq<T>, key: T -> int, v: int): seq<T> {
    if s == [] then []
    else (if key(s[0]) == v then [s[0]] else []) + Only(s[1..], key, v)
  }

  lemma {:induction false} OnlyAppend<T>(a: seq<T>, b: seq<T>, key: T -> int, v: int)
    ensures Only(a + b, key, v) == Only(a, key, v) + Only(b, key, v)
  {
    if a == [] {
      assert a + b == b;
    } else {
      assert (a + b)[1..] == a[1..] + b;
      OnlyAppend(a[1..], b, key, v);
    }
  }

  /** No element of `s` has key `v`. */
  lemma {:induction false} OnlyNone<T>(s: seq<T>, key: T -> int, v: int)
    requires forall i :: 0 <= i < |s| ==> key(s[i]) != v
    ensures Only(s, key, v) == []
  {
    if s != [] {
      OnlyNone(s[1..], key, v);
    }
  }

  /** Inserting into a sorted sequence puts `x` after every element of its own key. */
  lemma {:induction false} InsertStable<T>(x: T, s: seq<T>, key: T -> int, v: int)
    requires SortedDesc(s, key)
    ensures Only(Insert(x, s, key), key, v) == Only(s, key, v) + (if key(x) == v then [x] else [])
  {
    var own: seq<T> := if key(x) == v then [x] else [];
    if s == [] {
      assert Only([x], key, v) == own + Only([], key, v);
    } else {
      var head: seq<T> := if key(s[0]) == v then [s[0]] else [];
      assert Only(s, key, v) == head + Only(s[1..], key, v);
      if key(s[0]) >= key(x) {
        var rest := Insert(x, s[1..], key);
        assert SortedDesc(s[1..], key) by {
          forall i, j | 0 <= i < j < |s[1..]| ensures key(s[1..][i]) >= key(s[1..][j]) {
            assert s[1..][i] == s[i + 1] && s[1..][j] == s[j + 1];
          }
        }
        InsertStable(x, s[1..], key, v);
        OnlyAppend([s[0]], rest, key, v);
        assert Only([s[0]], key, v) == head + Only([], key, v);
      } else {
        OnlyAppend([x], s, key, v);
        assert Only([x], key, v) == own + Only([], key, v);
        if key(x) == v {
          forall i | 0 <= i < |s| ensures key(s[i]) != v {
            if i > 0 { assert key(s[0]) >= key(s[i]); }
          }
          OnlyNone(s, key, v);
        }
      }
    }
  }

  /** `sorted` is stable: the elements of any one key keep their input order. */
  lemma {:induction false} SortDescStable<T>(s: seq<T>, key: T -> int, v: int)
    ensures Only(SortDesc(s, key), key, v) == Only(s, key, v)
  {
    if s != [] {
      var init := s[..|s| - 1];
      var last := s[|s| - 1];
      assert s == init + [last];
      SortDescStable(init, key, v);
      InsertStable(last, SortDesc(init, key), key, v);
      OnlyAppend(init, [last], key, v);
      assert [last][1..] == [];
    }
  }

  function Negate(x: int): int { -x }

  /** `sorted(s)` for integers: ascending, and a permutation of the input. */
  function SortInts(s: seq<int>): (r: seq<int>)
    ensures SortedAsc(r)
    ensures multiset(r) == multiset(s)
    ensures |r| == |s|
  {
    var r := SortDesc(s, Negate);
    assert forall i, j :: 0 <= i < j < |r| ==> Negate(r[i]) >= Negate(r[j]);
    r
  }

  /** The first element of an ascending sequence is at most every element in it. */
  lemma HeadIsLeast(a: seq<int>, x: int)
    requires SortedAsc(a) && x in multiset(a)
    ensures |a| > 0 && a[0] <= x
  {
    var i :| 0 <= i < |a| && a[i] == x;
  }

  lemma SortedTail(a: seq<int>)
    requires SortedAsc(a) && |a| > 0
    ensures SortedAsc(a[1..])
    ensures multiset(a) == multiset{a[0]} + multiset(a[1..])
  {
    assert a == [a[0]] + a[1..];
  }

  lemma SortedHeadsAgree(a: seq<int>, b: seq<int>)
    requires SortedAsc(a) && SortedAsc(b) && multiset(a) == multiset(b) && |a| > 0
    ensures |b| > 0 && a[0] == b[0]
  {
    assert a[0] in multiset(b);
    HeadIsLeast(b, a[0]);
    assert b[0] in multiset(a);
    HeadIsLeast(a, b[0]);
  }

  lemma Cancel(x: int, ta: multiset<int>, tb: multiset<int>)
    requires multiset{x} + ta == multiset{x} + tb
    ensures ta == tb
  {
    assert ta == (multiset{x} + ta) - multiset{x};
    assert tb == (multiset{x} + tb) - multiset{x};
  }

  /** There is only one ascending arrangement of a multiset, so chords with the same pitches
      in any order have the same sorted pitch list. */
  lemma {:induction false} SortedUnique(a: seq<int>, b: seq<int>)
    requires SortedAsc(a) && SortedAsc(b) && multiset(a) == multiset(b)
    ensures a == b
    decreases |a|
  {
    if |a| > 0 {
      SortedHeadsAgree(a, b);
      SortedTail(a);
      SortedTail(b);
      Cancel(a[0], multiset(a[1..]), multiset(b[1..]));
      SortedUnique(a[1..], b[1..]);
      assert a == [a[0]] + a[1..];
      assert b == [b[0]] + b[1..];
    }
  }
}
