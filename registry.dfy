/** The canonical-class registries of the analyser.

    For bars and for single events the analyser keeps three containers
    that are updated together:
    - `list`: the first-seen member of each class, in order of discovery;
    - the class dictionary, from class number to the numbers filed under
      that class in filing order.  Its keys are always 0, 1, 2, ... in
      insertion order, so it is a sequence here;
    - `all`: from filed number (bar number or event position) to
      `[class, ordinal]`, in filing order.
    A member is filed under the class of the first listed member it
    matches, or opens a new class when it matches none. */
module Registries {
  import opened Dicts

  datatype Registry<T> = Registry(list: seq<T>, classes: seq<seq<int>>, all: Dict<int, (nat, nat)>)

  function EmptyRegistry<T>(): (r: Registry<T>)
    ensures Wf(r) && Ordered(r) && r.list == [] && r.all.keys == []
  {
    Registry([], [], Empty())
  }

  /** The class dictionary and `all` point at each other:
      `classes[all[m].0][all[m].1] == m`, every class is non-empty and there is one
      class per listed representative. */
  ghost predicate Wf<T>(r: Registry<T>) {
    && |r.list| == |r.classes|
    && r.all.Valid()
    && (forall c :: 0 <= c < |r.classes| ==> |r.classes[c]| > 0)
    && (forall c, o :: 0 <= c < |r.classes| && 0 <= o < |r.classes[c]| ==>
          r.classes[c][o] in r.all.items && r.all.items[r.classes[c][o]] == (c, o))
    && (forall m :: m in r.all.items ==>
          && r.all.items[m].0 < |r.classes|
          && r.all.items[m].1 < |r.classes[r.all.items[m].0]|
          && r.classes[r.all.items[m].0][r.all.items[m].1] == m)
  }

  /** Numbers are filed in increasing order, so each class lists its numbers in increasing order. */
  ghost predicate Ordered<T>(r: Registry<T>) {
    && (forall c, i, j :: 0 <= c < |r.classes| && 0 <= i < j < |r.classes[c]| ==> r.classes[c][i] < r.classes[c][j])
    && (forall i, j :: 0 <= i < j < |r.all.keys| ==> r.all.keys[i] < r.all.keys[j])
  }

  ghost predicate IsEquivalence<T(!new)>(eq: (T, T) -> bool) {
    && (forall a :: eq(a, a))
    && (forall a, b :: eq(a, b) ==> eq(b, a))
    && (forall a, b, c :: eq(a, b) && eq(b, c) ==> eq(a, c))
  }

  /** No two listed representatives match: a class is opened only when nothing listed matches. */
  ghost predicate Canonical<T>(r: Registry<T>, eq: (T, T) -> bool) {
    forall i, j :: 0 <= i < j < |r.list| ==> !eq(r.list[i], r.list[j])
  }

  /** Against the members filed so far: every filed member matches its class's
      representative, and the representative is the class's first member. */
  ghost predicate Classifies<T>(r: Registry<T>, eq: (T, T) -> bool, members: map<int, T>)
    requires Wf(r)
  {
    && (forall m :: m in r.all.items ==> m in members && eq(r.list[r.all.items[m].0], members[m]))
    && (forall c :: 0 <= c < |r.list| ==> r.classes[c][0] in members && r.list[c] == members[r.classes[c][0]])
  }

  /** `find_section` / `find_analyse_index` as a specification: the first listed position matching `x`, or -1. */
  function FirstMatch<T>(list: seq<T>, x: T, eq: (T, T) -> bool): (i: int)
    ensures -1 <= i < |list|
    ensures i >= 0 ==> eq(list[i], x) && forall k :: 0 <= k < i ==> !eq(list[k], x)
    ensures i == -1 ==> forall k :: 0 <= k < |list| ==> !eq(list[k], x)
  {
    if list == [] then -1
    else if eq(list[0], x) then 0
    else
      var j := FirstMatch(list[1..], x, eq);
      assert forall k :: 0 < k < |list| ==> list[k] == list[1..][k - 1];
      if j == -1 then -1 else j + 1
  }

  /** `find_section`, `find_analyse_index`: a linear scan with the comparison. */
  method FindSection<T>(list: seq<T>, x: T, eq: (T, T) -> bool) returns (i: int)
    ensures i == FirstMatch(list, x, eq)
  {
    i := 0;
    while i < |list|
      invariant 0 <= i <= |list|
      invariant forall k :: 0 <= k < i ==> !eq(list[k], x)
    {
      if eq(list[i], x) {
        return;
      }
      i := i + 1;
    }
    i := -1;
  }

  /** The registry after filing `x` under number `m`. */
  function Filed<T>(r: Registry<T>, x: T, m: int, eq: (T, T) -> bool): (r': Registry<T>)
    requires |r.list| == |r.classes|
    ensures |r'.list| == |r'.classes|
  {
    var i := FirstMatch(r.list, x, eq);
    if i == -1 then Registry(r.list + [x], r.classes + [[m]], r.all.Put(m, (|r.list|, 0)))
    else Registry(r.list, r.classes[i := r.classes[i] + [m]], r.all.Put(m, (i, |r.classes[i]|)))
  }

  /** `_add_measure_to_analysis` and `_add_to_analysis_indexes`. */
  method AddToRegistry<T>(r: Registry<T>, x: T, m: int, eq: (T, T) -> bool) returns (r': Registry<T>)
    requires |r.list| == |r.classes|
    ensures r' == Filed(r, x, m, eq)
    ensures m in r'.all.items && r'.all.items[m].0 < |r'.classes| && r'.all.items[m].1 < |r'.classes[r'.all.items[m].0]|
    ensures r'.classes[r'.all.items[m].0][r'.all.items[m].1] == m
    ensures |r'.list| == |r'.classes|
    ensures eq(r'.list[r'.all.items[m].0], x) || r'.list[r'.all.items[m].0] == x
    ensures |r'.list| == |r.list| + 1 <==> forall k :: 0 <= k < |r.list| ==> !eq(r.list[k], x)
  {
    var i := FindSection(r.list, x, eq);
    if i == -1 {
      r' := Registry(r.list + [x], r.classes + [[m]], r.all.Put(m, (|r.list|, 0)));
    } else {
      r' := Registry(r.list, r.classes[i := r.classes[i] + [m]], r.all.Put(m, (i, |r.classes[i]|)));
    }
  }

  /** Filing a new number keeps the class dictionary and `all` pointing at each other. */
  lemma FiledKeepsWf<T>(r: Registry<T>, x: T, m: int, eq: (T, T) -> bool)
    requires Wf(r) && m !in r.all.items
    ensures Wf(Filed(r, x, m, eq))
  {
    var r' := Filed(r, x, m, eq);
    var i := FirstMatch(r.list, x, eq);
    forall c, o | 0 <= c < |r'.classes| && 0 <= o < |r'.classes[c]|
      ensures r'.classes[c][o] in r'.all.items && r'.all.items[r'.classes[c][o]] == (c, o)
    {
      if (i == -1 && c == |r.classes|) || (c == i && o == |r.classes[i]|) {
        assert r'.classes[c][o] == m;
      } else {
        assert r'.classes[c][o] == r.classes[c][o];
      }
    }
  }

  /** Filing a number larger than every filed number keeps every class in increasing order. */
  lemma FiledKeepsOrder<T>(r: Registry<T>, x: T, m: int, eq: (T, T) -> bool)
    requires Wf(r) && Ordered(r)
    requires forall k :: k in r.all.items ==> k < m
    ensures Ordered(Filed(r, x, m, eq))
  {
    var r' := Filed(r, x, m, eq);
    var i := FirstMatch(r.list, x, eq);
    assert m !in r.all.items;
    assert r'.all.keys == r.all.keys + [m];
    forall j | 0 <= j < |r.all.keys| ensures r.all.keys[j] < m {
      assert r.all.keys[j] in r.all.items;
    }
    if i != -1 {
      forall j | 0 <= j < |r.classes[i]| ensures r.classes[i][j] < m {
        assert r.classes[i][j] in r.all.items;
      }
    }
  }

  /** Filing keeps the representatives pairwise distinct classes. */
  lemma FiledKeepsCanonical<T>(r: Registry<T>, x: T, m: int, eq: (T, T) -> bool)
    requires |r.list| == |r.classes| && Canonical(r, eq)
    requires forall a, b :: eq(a, b) ==> eq(b, a)
    ensures Canonical(Filed(r, x, m, eq), eq)
  {
    var i := FirstMatch(r.list, x, eq);
    if i == -1 {
      var l' := r.list + [x];
      forall a, b | 0 <= a < b < |l'| ensures !eq(l'[a], l'[b]) {
        if b == |r.list| {
          assert !eq(r.list[a], x);
        }
      }
    }
  }

  /** Filing `x` under `m` keeps every filed member matching its representative. */
  lemma FiledKeepsClassifies<T>(r: Registry<T>, x: T, m: int, eq: (T, T) -> bool, members: map<int, T>)
    requires Wf(r) && m !in r.all.items && Classifies(r, eq, members)
    requires forall a :: eq(a, a)
    ensures Wf(Filed(r, x, m, eq)) && Classifies(Filed(r, x, m, eq), eq, members[m := x])
  {
    FiledKeepsWf(r, x, m, eq);
    var r' := Filed(r, x, m, eq);
    var i := FirstMatch(r.list, x, eq);
    var ms := members[m := x];
    forall k | k in r'.all.items ensures k in ms && eq(r'.list[r'.all.items[k].0], ms[k]) {
      if k != m {
        assert r'.all.items[k] == r.all.items[k];
      }
    }
    forall c | 0 <= c < |r'.list| ensures r'.classes[c][0] in ms && r'.list[c] == ms[r'.classes[c][0]] {
      if i == -1 && c == |r.list| {
      } else {
        assert r'.classes[c][0] == r.classes[c][0];
        assert r.classes[c][0] in r.all.items;
      }
    }
  }

  /** `is_measure_used_at`: both numbers are filed and share a class. */
  predicate SameClass<T>(r: Registry<T>, a: int, b: int) {
    a in r.all.items && b in r.all.items && r.all.items[a].0 == r.all.items[b].0
  }

  /** In a canonical registry over an equivalence, two filed members share a
      class exactly when they match: the class numbers decide the comparison. */
  lemma {:induction false} SameClassIffMatch<T(!new)>(r: Registry<T>, eq: (T, T) -> bool, members: map<int, T>, a: int, b: int)
    requires Wf(r) && Canonical(r, eq) && Classifies(r, eq, members) && IsEquivalence(eq)
    requires a in r.all.items && b in r.all.items
    ensures a in members && b in members
    ensures SameClass(r, a, b) <==> eq(members[a], members[b])
  {
    var ca, cb := r.all.items[a].0, r.all.items[b].0;
    var ra, rb := r.list[ca], r.list[cb];
    assert eq(ra, members[a]) && eq(rb, members[b]);
    if eq(members[a], members[b]) {
      assert eq(ra, members[b]);
      assert eq(ra, rb);
    }
  }
}
