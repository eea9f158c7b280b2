/**
 * The placement grouper shared by every script: rows are read in row-major
 * order, each placement is tagged with its glyph, and the tagged list is
 * partitioned into one list per glyph (a dictionary filled by push), the
 * glyphs being listed in first-seen order (an array filled when
 * `!list.includes(glyph)`).
 */
module Grouping {

  /** Row-major concatenation of rows. */
  function Flatten<T>(rows: seq<seq<T>>): seq<T>
  {
    if |rows| == 0 then [] else Flatten(rows[..|rows| - 1]) + rows[|rows| - 1]
  }

  lemma {:induction false} FlattenAppend<T>(a: seq<seq<T>>, b: seq<seq<T>>)
    ensures Flatten(a + b) == Flatten(a) + Flatten(b)
  {
    if |b| == 0 {
      assert a + b == a;
    } else {
      assert (a + b)[..|a + b| - 1] == a + b[..|b| - 1];
      FlattenAppend(a, b[..|b| - 1]);
    }
  }

  /** One more row flattens onto the end. */
  lemma FlattenSnoc<T>(rows: seq<seq<T>>, row: seq<T>)
    ensures Flatten(rows + [row]) == Flatten(rows) + row
  {
    assert (rows + [row])[..|rows|] == rows;
  }

  /** The distinct keys of `ks`, each kept at its first occurrence. */
  function Distinct<K(==,!new)>(ks: seq<K>): (r: seq<K>)
    ensures forall k :: k in r <==> k in ks
    ensures forall i, j :: 0 <= i < j < |r| ==> r[i] != r[j]
  {
    if |ks| == 0 then []
    else
      var p := Distinct(ks[..|ks| - 1]);
      var k := ks[|ks| - 1];
      assert forall x :: x in ks <==> x in ks[..|ks| - 1] || x == k by {
        assert ks == ks[..|ks| - 1] + [k];
      }
      if k in p then p else p + [k]
  }

  /** Every element of the flattened rows comes from some row. */
  lemma FlattenIndex<T>(rows: seq<seq<T>>, i: nat)
    requires i < |Flatten(rows)|
    ensures exists j, k :: 0 <= j < |rows| && 0 <= k < |rows[j]| && rows[j][k] == Flatten(rows)[i]
    decreases |rows|
  {
    var n := |rows| - 1;
    var front := Flatten(rows[..n]);
    assert Flatten(rows) == front + rows[n];
    if i < |front| {
      FlattenIndex(rows[..n], i);
      var j, k :| 0 <= j < n && 0 <= k < |rows[..n][j]| && rows[..n][j][k] == front[i];
      assert rows[j][k] == Flatten(rows)[i];
    } else {
      assert rows[n][i - |front|] == Flatten(rows)[i];
    }
  }

  /** The flattened rows are at least as long as any one of them. */
  lemma {:induction false} FlatAtLeast<T>(rows: seq<seq<T>>, j: nat)
    requires j < |rows|
    ensures |Flatten(rows)| >= |rows[j]|
  {
    var n := |rows| - 1;
    assert Flatten(rows) == Flatten(rows[..n]) + rows[n];
    if j < n {
      FlatAtLeast(rows[..n], j);
      assert rows[..n][j] == rows[j];
    }
  }

  lemma FlattenStep<T>(lines: seq<seq<T>>, i: nat)
    requires i < |lines|
    ensures Flatten(lines[..i + 1]) == Flatten(lines[..i]) + lines[i]
  {
    assert lines[..i + 1][..i] == lines[..i];
  }

  lemma DistinctSnoc<K(!new)>(ks: seq<K>, k: K)
    ensures Distinct(ks + [k]) == if k in Distinct(ks) then Distinct(ks) else Distinct(ks) + [k]
  {
    assert (ks + [k])[..|ks|] == ks;
  }

  /** Index of the first occurrence of k. */
  function FirstIndex<K(==,!new)>(ks: seq<K>, k: K): (i: nat)
    requires k in ks
    ensures i < |ks| && ks[i] == k && k !in ks[..i]
  {
    if ks[0] == k then 0 else 1 + FirstIndex(ks[1..], k)
  }

  /** indexOf: the first position of k, or -1 when k is absent. */
  function IndexOf<K(==,!new)>(ks: seq<K>, k: K): (i: int)
    ensures i == -1 <==> k !in ks
    ensures 0 <= i ==> i < |ks| && ks[i] == k && k !in ks[..i]
  {
    if k in ks then FirstIndex(ks, k) else -1
  }

  lemma FirstIndexPrefix<K(!new)>(ks: seq<K>, n: nat, k: K)
    requires n <= |ks| && k in ks[..n]
    ensures FirstIndex(ks[..n], k) == FirstIndex(ks, k)
  {
    var i := FirstIndex(ks[..n], k);
    var j := FirstIndex(ks, k);
    assert ks[..n][..i] == ks[..i];
  }

  /** Distinct lists keys in the order of their first occurrence. */
  lemma {:induction false} DistinctInFirstSeenOrder<K(!new)>(ks: seq<K>, i: nat, j: nat)
    requires i < j < |Distinct(ks)|
    ensures FirstIndex(ks, Distinct(ks)[i]) < FirstIndex(ks, Distinct(ks)[j])
  {
    var n := |ks| - 1;
    var p := Distinct(ks[..n]);
    var k := ks[n];
    var r := Distinct(ks);
    assert ks[..n + 1] == ks;
    if j < |p| {
      assert r[i] == p[i] && r[j] == p[j];
      DistinctInFirstSeenOrder(ks[..n], i, j);
      FirstIndexPrefix(ks, n, r[i]);
      FirstIndexPrefix(ks, n, r[j]);
    } else {
      assert k !in p && r[j] == k && r[i] == p[i];
      assert k !in ks[..n];
      assert FirstIndex(ks, k) == n;
      FirstIndexPrefix(ks, n, r[i]);
    }
  }

  /** The keys of a tagged list, in order. */
  function Tags<K(==,!new), V>(ps: seq<(K, V)>): (r: seq<K>)
    ensures |r| == |ps| && forall i :: 0 <= i < |ps| ==> r[i] == ps[i].0
  {
    if |ps| == 0 then [] else Tags(ps[..|ps| - 1]) + [ps[|ps| - 1].0]
  }

  /** The values of a tagged list, in order. */
  function Values<K(==,!new), V>(ps: seq<(K, V)>): (r: seq<V>)
    ensures |r| == |ps| && forall i :: 0 <= i < |ps| ==> r[i] == ps[i].1
  {
    if |ps| == 0 then [] else Values(ps[..|ps| - 1]) + [ps[|ps| - 1].1]
  }

  /** The values tagged with k, in their original order. */
  function Select<K(==,!new), V>(ps: seq<(K, V)>, k: K): seq<V>
  {
    if |ps| == 0 then []
    else Select(ps[..|ps| - 1], k) + (if ps[|ps| - 1].0 == k then [ps[|ps| - 1].1] else [])
  }

  lemma {:induction false} SelectAppend<K(!new), V>(a: seq<(K, V)>, b: seq<(K, V)>, k: K)
    ensures Select(a + b, k) == Select(a, k) + Select(b, k)
  {
    if |b| == 0 {
      assert a + b == a;
    } else {
      assert (a + b)[..|a + b| - 1] == a + b[..|b| - 1];
      SelectAppend(a, b[..|b| - 1], k);
    }
  }

  /** A run of one key selects all its values, and no other key selects any. */
  lemma {:induction false} SelectUniform<K(!new), V>(ps: seq<(K, V)>, c: K, k: K)
    requires forall i :: 0 <= i < |ps| ==> ps[i].0 == c
    ensures Select(ps, k) == if k == c then Values(ps) else []
  {
    if |ps| > 0 {
      SelectUniform(ps[..|ps| - 1], c, k);
    }
  }

  /** Select is empty exactly for the keys that do not occur. */
  lemma {:induction false} SelectEmpty<K(!new), V>(ps: seq<(K, V)>, k: K)
    ensures Select(ps, k) == [] <==> k !in Tags(ps)
  {
    if |ps| > 0 {
      SelectEmpty(ps[..|ps| - 1], k);
      assert Tags(ps) == Tags(ps[..|ps| - 1]) + [ps[|ps| - 1].0];
    }
  }

  /** Pushing v onto the list of key k, creating the list on first use. */
  function Push<K(==,!new), V>(m: map<K, seq<V>>, k: K, v: V): map<K, seq<V>>
  {
    m[k := (if k in m then m[k] else []) + [v]]
  }

  /** The dictionary the scripts build by push, one list per key. */
  function Groups<K(==,!new), V>(ps: seq<(K, V)>): (m: map<K, seq<V>>)
    ensures forall k :: k in m <==> k in Tags(ps)
    ensures forall k :: k in m ==> m[k] == Select(ps, k)
  {
    if |ps| == 0 then map[]
    else
      var q := ps[..|ps| - 1];
      assert Tags(ps) == Tags(q) + [ps[|ps| - 1].0];
      forall k | k !in Tags(q) ensures Select(q, k) == [] { SelectEmpty(q, k); }
      Push(Groups(q), ps[|ps| - 1].0, ps[|ps| - 1].1)
  }

  /** The groups read back in the given key order. */
  function Regroup<K(==,!new), V>(order: seq<K>, m: map<K, seq<V>>): seq<V>
    requires forall i :: 0 <= i < |order| ==> order[i] in m
  {
    if |order| == 0 then [] else Regroup(order[..|order| - 1], m) + m[order[|order| - 1]]
  }

  lemma {:induction false} RegroupOther<K(!new), V>(order: seq<K>, m: map<K, seq<V>>, k: K, s: seq<V>)
    requires forall i :: 0 <= i < |order| ==> order[i] in m
    requires k !in order
    ensures Regroup(order, m[k := s]) == Regroup(order, m)
  {
    if |order| > 0 {
      RegroupOther(order[..|order| - 1], m, k, s);
    }
  }

  lemma {:induction false} RegroupPush<K(!new), V>(order: seq<K>, m: map<K, seq<V>>, k: K, v: V)
    requires forall i :: 0 <= i < |order| ==> order[i] in m
    requires forall i, j :: 0 <= i < j < |order| ==> order[i] != order[j]
    requires k in order
    ensures multiset(Regroup(order, Push(m, k, v))) == multiset(Regroup(order, m)) + multiset{v}
  {
    var n := |order| - 1;
    var front := order[..n];
    var last := order[n];
    var p := Push(m, k, v);
    SplitLast(order, m, k, p);
    if last == k {
      RegroupOther(front, m, k, m[k] + [v]);
      MultisetGrow(Regroup(front, m), Regroup(front, p), m[last], p[last], multiset{}, multiset{v});
    } else {
      RegroupPush(front, m, k, v);
      MultisetGrow(Regroup(front, m), Regroup(front, p), m[last], p[last], multiset{v}, multiset{});
    }
  }

  /** Splitting the last key off an order that lists each key once. */
  lemma SplitLast<K(!new), V>(order: seq<K>, m: map<K, seq<V>>, k: K, p: map<K, seq<V>>)
    requires forall i :: 0 <= i < |order| ==> order[i] in m
    requires forall i, j :: 0 <= i < j < |order| ==> order[i] != order[j]
    requires k in order && p.Keys == m.Keys + {k}
    ensures var front := order[..|order| - 1];
      && (forall i :: 0 <= i < |front| ==> front[i] in m && front[i] in p)
      && (forall i, j :: 0 <= i < j < |front| ==> front[i] != front[j])
      && Regroup(order, m) == Regroup(front, m) + m[order[|order| - 1]]
      && Regroup(order, p) == Regroup(front, p) + p[order[|order| - 1]]
      && (k == order[|order| - 1] <==> k !in front)
  {
    var n := |order| - 1;
    if k != order[n] {
      var i :| 0 <= i < |order| && order[i] == k;
      assert order[..n][i] == k;
    }
  }

  lemma RegroupFresh<K(!new), V>(d: seq<K>, m: map<K, seq<V>>, k: K, v: V)
    requires forall i :: 0 <= i < |d| ==> d[i] in m
    requires k !in d && k !in m
    ensures forall i :: 0 <= i < |d + [k]| ==> (d + [k])[i] in Push(m, k, v)
    ensures Regroup(d + [k], Push(m, k, v)) == Regroup(d, m) + [v]
  {
    assert (d + [k])[..|d|] == d;
    var empty: seq<V> := [];
    assert empty + [v] == [v];
    assert Push(m, k, v) == m[k := [v]];
    RegroupOther(d, m, k, [v]);
  }

  /**
   * Grouping is a partition: reading the groups back in first-seen key order
   * gives a permutation of the tagged values (each group keeping its original
   * relative order, as Select does), so no placement is lost or repeated.
   */
  lemma {:induction false} RegroupIsPermutation<K(!new), V>(ps: seq<(K, V)>)
    ensures forall i :: 0 <= i < |Distinct(Tags(ps))| ==> Distinct(Tags(ps))[i] in Groups(ps)
    ensures multiset(Regroup(Distinct(Tags(ps)), Groups(ps))) == multiset(Values(ps))
  {
    if |ps| > 0 {
      var q := ps[..|ps| - 1];
      var k := ps[|ps| - 1].0;
      var v := ps[|ps| - 1].1;
      RegroupIsPermutation(q);
      var d := Distinct(Tags(q));
      var m := Groups(q);
      assert Tags(ps) == Tags(q) + [k];
      assert Tags(ps)[..|Tags(ps)| - 1] == Tags(q);
      assert Values(ps) == Values(q) + [v];
      assert Groups(ps) == Push(m, k, v);
      if k in d {
        assert Distinct(Tags(ps)) == d;
        RegroupPush(d, m, k, v);
      } else {
        RegroupFresh(d, m, k, v);
      }
    }
  }

  /** No key occurs twice. */
  predicate Unique<K(==)>(ks: seq<K>)
  {
    forall i, j :: 0 <= i < j < |ks| ==> ks[i] != ks[j]
  }

  /** In a list without repeats, indexOf finds every element at its own position. */
  lemma IndexOfUnique<K(!new)>(ks: seq<K>, i: nat)
    requires Unique(ks) && i < |ks|
    ensures IndexOf(ks, ks[i]) == i
  {
  }

  /** The groups of the keys in `order`, a key without a group contributing nothing. */
  function Gather<K(==,!new), V>(order: seq<K>, m: map<K, seq<V>>): seq<V>
  {
    if |order| == 0 then []
    else Gather(order[..|order| - 1], m) + Slot(m, order[|order| - 1])
  }

  /** A key's group, empty when the key has none. */
  function Slot<K(==,!new), V>(m: map<K, seq<V>>, k: K): seq<V>
  {
    if k in m then m[k] else []
  }

  /** Appending two sequences whose contents grew by e1 and e2 grows their
      concatenation's contents by both. */
  lemma MultisetGrow<V>(a: seq<V>, a2: seq<V>, b: seq<V>, b2: seq<V>, e1: multiset<V>, e2: multiset<V>)
    requires multiset(a2) == multiset(a) + e1 && multiset(b2) == multiset(b) + e2
    ensures multiset(a2 + b2) == multiset(a + b) + (e1 + e2)
  {
  }

  lemma {:induction false} GatherRegroup<K(!new), V>(order: seq<K>, m: map<K, seq<V>>)
    requires forall i :: 0 <= i < |order| ==> order[i] in m
    ensures Gather(order, m) == Regroup(order, m)
  {
    if |order| > 0 {
      GatherRegroup(order[..|order| - 1], m);
    }
  }

  lemma {:induction false} GatherEmpty<K(!new), V>(order: seq<K>, m: map<K, seq<V>>)
    requires m == map[]
    ensures Gather(order, m) == []
  {
    if |order| > 0 {
      GatherEmpty(order[..|order| - 1], m);
    }
  }

  /** Pushing a value adds it once to the gathered groups when its key is listed. */
  lemma {:induction false} GatherPush<K(!new), V>(order: seq<K>, m: map<K, seq<V>>, k: K, v: V)
    requires Unique(order)
    ensures multiset(Gather(order, Push(m, k, v)))
            == multiset(Gather(order, m)) + (if k in order then multiset{v} else multiset{})
  {
    if |order| > 0 {
      var n := |order| - 1;
      var front := order[..n];
      var last := order[n];
      assert order == front + [last];
      assert Unique(front);
      GatherPush(front, m, k, v);
      var frontExtra: multiset<V> := if k in front then multiset{v} else multiset{};
      var lastExtra: multiset<V> := if last == k then multiset{v} else multiset{};
      if last == k {
        assert k !in front;
        assert Slot(Push(m, k, v), last) == Slot(m, last) + [v];
      } else {
        assert Slot(Push(m, k, v), last) == Slot(m, last);
      }
      MultisetGrow(Gather(front, m), Gather(front, Push(m, k, v)), Slot(m, last), Slot(Push(m, k, v), last),
                   frontExtra, lastExtra);
      assert frontExtra + lastExtra == if k in order then multiset{v} else multiset{};
    }
  }

  /** Gathering in an order that lists every key once loses and repeats nothing. */
  lemma {:induction false} GatherAll<K(!new), V>(order: seq<K>, ps: seq<(K, V)>)
    requires Unique(order) && forall i :: 0 <= i < |ps| ==> ps[i].0 in order
    ensures multiset(Gather(order, Groups(ps))) == multiset(Values(ps))
  {
    if |ps| == 0 {
      GatherEmpty(order, Groups(ps));
    } else {
      var q := ps[..|ps| - 1];
      var p := ps[|ps| - 1];
      GatherAll(order, q);
      assert Groups(ps) == Push(Groups(q), p.0, p.1);
      GatherPush(order, Groups(q), p.0, p.1);
      assert Values(ps) == Values(q) + [p.1];
    }
  }

  /**
   * Grouping is a partition whatever order the groups are read back in: any
   * order listing each key once, every key of the placements among them,
   * gives a permutation of the tagged values.
   */
  lemma RegroupCovers<K(!new), V>(order: seq<K>, ps: seq<(K, V)>)
    requires Unique(order) && forall i :: 0 <= i < |ps| ==> ps[i].0 in order
    requires forall i :: 0 <= i < |order| ==> order[i] in Groups(ps)
    ensures multiset(Regroup(order, Groups(ps))) == multiset(Values(ps))
  {
    GatherRegroup(order, Groups(ps));
    GatherAll(order, ps);
  }

  /** Sum of the group sizes equals the number of placements. */
  lemma GroupSizes<K(!new), V>(ps: seq<(K, V)>)
    ensures forall i :: 0 <= i < |Distinct(Tags(ps))| ==> Distinct(Tags(ps))[i] in Groups(ps)
    ensures |Regroup(Distinct(Tags(ps)), Groups(ps))| == |ps|
  {
    RegroupIsPermutation(ps);
    assert |multiset(Regroup(Distinct(Tags(ps)), Groups(ps)))| == |multiset(Values(ps))|;
  }

  /** The first-seen key list the scripts build with `if (!list.includes(k)) list.push(k)`. */
  method CollectKeys<K(==,!new)>(ks: seq<K>) returns (r: seq<K>)
    ensures r == Distinct(ks)
  {
    r := [];
    var i := 0;
    while i < |ks|
      invariant i <= |ks|
      invariant r == Distinct(ks[..i])
    {
      assert ks[..i + 1][..i] == ks[..i];
      if ks[i] !in r {
        r := r + [ks[i]];
      }
      i := i + 1;
    }
    assert ks[..i] == ks;
  }

  lemma TagsStep<K(!new), V>(ps: seq<(K, V)>, i: nat)
    requires i < |ps|
    ensures Tags(ps[..i + 1]) == Tags(ps[..i]) + [ps[i].0]
    ensures Groups(ps[..i + 1]) == Push(Groups(ps[..i]), ps[i].0, ps[i].1)
  {
    assert ps[..i + 1][..i] == ps[..i];
  }

  /** Making room for a new key and then pushing is Push. */
  lemma PushInPlace<K(!new), V>(g: map<K, seq<V>>, k: K, v: V)
    ensures var g1 := if k in g then g else g[k := []]; g1[k := g1[k] + [v]] == Push(g, k, v)
  {
  }

  /** `(map[k] ??= []).push(v)` as one step: room for a new key, then the push. */
  method PushOnto<K(==,!new), V>(groups0: map<K, seq<V>>, k: K, v: V) returns (groups: map<K, seq<V>>)
    ensures groups == Push(groups0, k, v)
  {
    PushInPlace(groups0, k, v);
    groups := groups0;
    if k !in groups {
      groups := groups[k := []];
    }
    groups := groups[k := groups[k] + [v]];
  }

  lemma KeysStep<K(!new), V>(ps: seq<(K, V)>, i: nat)
    requires i < |ps|
    ensures var d := Distinct(Tags(ps[..i]));
      Distinct(Tags(ps[..i + 1])) == if ps[i].0 in d then d else d + [ps[i].0]
  {
    TagsStep(ps, i);
    var ks := Tags(ps[..i + 1]);
    assert ks[..|ks| - 1] == Tags(ps[..i]);
  }

  /** One more tagged placement: its key is listed if new, and its value pushed. */
  lemma SnocStep<K(!new), V>(ps: seq<(K, V)>, p: (K, V))
    ensures var d := Distinct(Tags(ps));
      Distinct(Tags(ps + [p])) == if p.0 in d then d else d + [p.0]
    ensures Groups(ps + [p]) == Push(Groups(ps), p.0, p.1)
  {
    var qs := ps + [p];
    assert qs[..|qs| - 1] == ps;
    var ks := Tags(qs);
    assert ks == Tags(ps) + [p.0];
    assert ks[..|ks| - 1] == Tags(ps);
  }

  /** The dictionary filled by `(map[k] ??= []).push(v)` over the tagged placements. */
  method GroupByPush<K(==,!new), V>(ps: seq<(K, V)>) returns (groups: map<K, seq<V>>)
    ensures groups == Groups(ps)
  {
    groups := map[];
    var i := 0;
    while i < |ps|
      invariant i <= |ps|
      invariant groups == Groups(ps[..i])
    {
      TagsStep(ps, i);
      var k := ps[i].0;
      ghost var g0 := groups;
      PushInPlace(groups, k, ps[i].1);
      if k !in groups {
        groups := groups[k := []];
      }
      groups := groups[k := groups[k] + [ps[i].1]];
      assert groups == Push(g0, k, ps[i].1);
      i := i + 1;
    }
    assert ps[..i] == ps;
  }

  /** Both at once: a key list extended on first sight, whose new keys get an empty list. */
  method GroupWithKeys<K(==,!new), V>(ps: seq<(K, V)>) returns (keys: seq<K>, groups: map<K, seq<V>>)
    ensures keys == Distinct(Tags(ps)) && groups == Groups(ps)
  {
    keys := [];
    groups := map[];
    var i := 0;
    while i < |ps|
      invariant i <= |ps|
      invariant keys == Distinct(Tags(ps[..i])) && groups == Groups(ps[..i])
    {
      TagsStep(ps, i);
      KeysStep(ps, i);
      var k := ps[i].0;
      ghost var g0 := groups;
      PushInPlace(groups, k, ps[i].1);
      assert k in keys <==> k in groups;
      if k !in keys {
        keys := keys + [k];
        groups := groups[k := []];
      }
      groups := groups[k := groups[k] + [ps[i].1]];
      assert groups == Push(g0, k, ps[i].1);
      i := i + 1;
    }
    assert ps[..i] == ps;
  }

}
