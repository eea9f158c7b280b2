/**
 * What flowfields/field5-stamp.js promises about its grid, its angles and its
 * toolpath, proved about the FlowField model.
 */
module FlowFieldFacts {
  import opened Wrappers
  import opened GCode
  import opened Grouping
  import opened Stamping
  import opened Emission
  import opened FlowField

  // ---------------------------------------------------------------- the grid

  /** The stamps are centred: the two borders and the stamps fill the extent
      exactly, each border at least the requested one and less than half a
      stamp more. */
  lemma GridCentred(extent: real, border: real, size: real)
    requires size > 0.0 && extent >= 2.0 * border
    ensures var n := Fit(extent, border, size); var m := Margin(extent, n, size);
      2.0 * m + n as real * size == extent && border <= m < border + size / 2.0
  {
  }

  /** The script's grid: 70 columns and 51 rows of 100-unit cells, 300 units from every edge. */
  lemma ScriptGrid()
    ensures Columns == 70 && Rows == 51 && SideBorder == 300.0 && TopBorder == 300.0
  {
    assert Columns as real * 100.0 <= 7000.0 < (Columns as real + 1.0) * 100.0;
    assert Rows as real * 100.0 <= 5100.0 < (Rows as real + 1.0) * 100.0;
  }

  /** Every cell centre lies inside the bordered frame, half a stamp in from it,
      and different cells have different centres. */
  lemma CentreFacts(i: nat, j: nat, a: nat, b: nat)
    requires i < Columns && j < Rows
    ensures SideBorder + StampSize / 2.0 <= Centre(i, j).x <= Width - SideBorder - StampSize / 2.0
    ensures TopBorder + StampSize / 2.0 <= Centre(i, j).y <= Height - TopBorder - StampSize / 2.0
    ensures Centre(i, j) == Centre(a, b) ==> i == a && j == b
  {
    ScriptGrid();
  }

  // ---------------------------------------------------------------- the range

  /** minNoise is the least of 1000 and every value scanned. */
  lemma {:induction false} LowFacts(vs: seq<real>)
    ensures Low(vs) <= 1000.0
    ensures forall i :: 0 <= i < |vs| ==> Low(vs) <= vs[i]
    ensures Low(vs) == 1000.0 || Low(vs) in vs
  {
    if |vs| > 0 {
      var n := |vs| - 1;
      LowFacts(vs[..n]);
      assert vs == vs[..n] + [vs[n]];
    }
  }

  /** maxNoise is the greatest of -1000 and every value scanned. */
  lemma {:induction false} HighFacts(vs: seq<real>)
    ensures High(vs) >= -1000.0
    ensures forall i :: 0 <= i < |vs| ==> vs[i] <= High(vs)
    ensures High(vs) == -1000.0 || High(vs) in vs
  {
    if |vs| > 0 {
      var n := |vs| - 1;
      HighFacts(vs[..n]);
      assert vs == vs[..n] + [vs[n]];
    }
  }

  /** A value between minNoise and maxNoise maps into [rot, rot + 360]. */
  lemma RawRange(v: real, lo: real, hi: real, rot: real)
    requires lo <= v <= hi && lo < hi
    ensures rot <= Raw(v, lo, hi - lo, rot) <= rot + 360.0
  {
    var f := (v - lo) / (hi - lo);
    DivMul(v - lo, hi - lo);
    MulMono(f, 1.0, hi - lo);
    MulMono(0.0, f, hi - lo);
    MulMono(0.0, f, 360.0);
    MulMono(f, 1.0, 360.0);
  }

  // ---------------------------------------------------------------- the sector

  /** Direction k covers the angles within half a sector (7.5 degrees) of
      k * 15 degrees; sector 0 wraps around 0/360. */
  predicate Centred(angle: real, k: nat)
  {
    if k == 0 then angle < 7.5 || angle >= 352.5
    else k as real * 15.0 - 7.5 <= angle < k as real * 15.0 + 7.5
  }

  /** The index is k exactly for the angles centred on sector k; the `% 24`
      never wraps. */
  lemma SectorIff(angle: real, k: nat)
    requires 0.0 <= angle <= 360.0 && k < |Directions|
    ensures SectorIndex(angle) == k <==> Centred(angle, k)
  {
    assert SectorSize == 15.0 && HalfSector == 7.5;
    if !(angle >= 352.5 || angle < 7.5) {
      var f := ((angle + 7.5) / 15.0).Floor;
      assert f as real <= (angle + 7.5) / 15.0 < f as real + 1.0;
      assert 1 <= f < 24;
      assert SectorIndex(angle) == f;
    }
  }

  // ---------------------------------------------------------------- the groups

  /** The cell centres, column by column. */
  function Centres(): seq<Point>
  {
    Flatten(seq(Columns, i requires 0 <= i < Columns => seq(Rows, j requires 0 <= j < Rows => Centre(i, j))))
  }

  lemma ValuesAppend<K(!new), V>(a: seq<(K, V)>, b: seq<(K, V)>)
    ensures Values(a + b) == Values(a) + Values(b)
  {
    var l := Values(a + b);
    var r := Values(a) + Values(b);
    forall i | 0 <= i < |l|
      ensures l[i] == r[i]
    {
      if i >= |a| {
        assert r[i] == Values(b)[i - |a|];
      }
    }
  }

  lemma {:induction false} ValuesFlatten<K(!new), V>(rows: seq<seq<(K, V)>>, cs: seq<seq<V>>)
    requires |rows| == |cs| && forall i :: 0 <= i < |rows| ==> Values(rows[i]) == cs[i]
    ensures Values(Flatten(rows)) == Flatten(cs)
  {
    if |rows| > 0 {
      var n := |rows| - 1;
      ValuesFlatten(rows[..n], cs[..n]);
      ValuesAppend(Flatten(rows[..n]), rows[n]);
    }
  }

  /** The tagged cells carry the centres in scan order, i outer and j inner. */
  lemma TaggedCentres(noise: Noise, lo: real, hi: real, rot: real)
    ensures Values(Flatten(Tagged(noise, lo, hi, rot))) == Centres()
  {
    var g := Tagged(noise, lo, hi, rot);
    var cs := seq(Columns, i requires 0 <= i < Columns => seq(Rows, j requires 0 <= j < Rows => Centre(i, j)));
    forall i | 0 <= i < Columns
      ensures Values(g[i]) == cs[i]
    {
    }
    ValuesFlatten(g, cs);
  }

  /** Every key is a direction, or None for all cells at once. */
  lemma TaggedKeys(noise: Noise, lo: real, hi: real, rot: real)
    ensures var ps := Flatten(Tagged(noise, lo, hi, rot));
      forall t :: 0 <= t < |ps| ==> ps[t].0 == None || (ps[t].0.Some? && ps[t].0.value in Directions)
  {
    var g := Tagged(noise, lo, hi, rot);
    var ps := Flatten(g);
    forall t | 0 <= t < |ps|
      ensures ps[t].0 == None || (ps[t].0.Some? && ps[t].0.value in Directions)
    {
      FlattenIndex(g, t);
    }
  }

  /** A direction among ds with a group is listed by Present. */
  lemma {:induction false} PresentHas(m: map<Option<int>, seq<Point>>, ds: seq<int>, d: int)
    requires d in ds && Some(d) in m
    ensures Some(d) in Present(m, ds)
  {
    var n := |ds| - 1;
    if ds[n] != d {
      assert d in ds[..n];
      PresentHas(m, ds[..n], d);
    }
  }

  /** Present lists its directions in the order of ds, every one taken from ds. */
  lemma {:induction false} PresentSorted(m: map<Option<int>, seq<Point>>, ds: seq<int>)
    requires forall i, j :: 0 <= i < j < |ds| ==> ds[i] < ds[j]
    ensures forall i :: 0 <= i < |Present(m, ds)| ==> Present(m, ds)[i].value in ds
    ensures forall i, j :: 0 <= i < j < |Present(m, ds)| ==> Present(m, ds)[i].value < Present(m, ds)[j].value
  {
    if |ds| > 0 {
      var n := |ds| - 1;
      PresentSorted(m, ds[..n]);
      var p := Present(m, ds[..n]);
      assert forall i :: 0 <= i < |p| ==> p[i].value in ds[..n] && p[i].value < ds[n];
    }
  }

  /** For any map keyed by directions and None, the visiting order lists each
      key once, the directions ascending. */
  lemma OrderKeys(m: map<Option<int>, seq<Point>>)
    requires forall k :: k in m ==> k == None || (k.Some? && k.value in Directions)
    ensures var order := Order(m);
      && Unique(order)
      && (forall k :: k in m <==> k in order)
      && forall i, j :: 0 <= i < j < |order| && order[j].Some? ==> order[i].Some? && order[i].value < order[j].value
  {
    var p := Present(m, Directions);
    var order := Order(m);
    PresentSorted(m, Directions);
    assert order == p + (if None in m then [None] else []);
    forall i, j | 0 <= i < j < |order|
      ensures order[i] != order[j]
      ensures order[j].Some? ==> order[i].Some? && order[i].value < order[j].value
    {
      assert order[i] == p[i];
      if j < |p| {
        assert order[j] == p[j];
      } else {
        assert order[j] == None;
      }
    }
    forall k | k in m
      ensures k in order
    {
      if k.Some? {
        PresentHas(m, Directions, k.value);
      }
    }
  }

  /** The visiting order lists each key of directionsMap once, the
      directions ascending. */
  lemma OrderFacts(noise: Noise, lo: real, hi: real, rot: real)
    ensures var m := Groups(Flatten(Tagged(noise, lo, hi, rot))); var order := Order(m);
      && Unique(order)
      && (forall k :: k in m <==> k in order)
      && forall i, j :: 0 <= i < j < |order| && order[j].Some? ==> order[i].Some? && order[i].value < order[j].value
  {
    var ps := Flatten(Tagged(noise, lo, hi, rot));
    var m := Groups(ps);
    TaggedKeys(noise, lo, hi, rot);
    forall k | k in m
      ensures k == None || (k.Some? && k.value in Directions)
    {
      var t :| 0 <= t < |Tags(ps)| && Tags(ps)[t] == k;
      assert Tags(ps)[t] == ps[t].0;
    }
    OrderKeys(m);
  }

  lemma {:induction false} InOrderFlat(m: map<Option<int>, seq<Point>>, order: seq<Option<int>>)
    requires forall i :: 0 <= i < |order| ==> order[i] in m
    ensures Flatten(InOrder(m, order)) == Regroup(order, m)
  {
    if |order| > 0 {
      var n := |order| - 1;
      InOrderFlat(m, order[..n]);
      assert InOrder(m, order)[..n] == InOrder(m, order[..n]);
    }
  }

  /** Grouping is a partition: read back in visiting order, the groups hold
      every cell centre exactly once. */
  lemma GroupsPartition(noise: Noise, lo: real, hi: real, rot: real)
    ensures var m := Groups(Flatten(Tagged(noise, lo, hi, rot)));
      multiset(Flatten(InOrder(m, Order(m)))) == multiset(Centres())
  {
    var ps := Flatten(Tagged(noise, lo, hi, rot));
    var m := Groups(ps);
    var order := Order(m);
    OrderFacts(noise, lo, hi, rot);
    forall t | 0 <= t < |ps|
      ensures ps[t].0 in order
    {
      assert Tags(ps)[t] == ps[t].0;
    }
    RegroupCovers(order, ps);
    InOrderFlat(m, order);
    TaggedCentres(noise, lo, hi, rot);
  }

  /** When every noise value is equal, every angle is NaN: one group under the
      key "undefined", holding every centre in scan order. */
  lemma FlatField(noise: Noise, rot: real)
    requires var vs := Flatten(NoiseGrid(noise)); High(vs) == Low(vs)
    ensures var m := DirectionsMap(noise, rot); Order(m) == [None] && m[None] == Centres()
  {
    var vs := Flatten(NoiseGrid(noise));
    var g := Tagged(noise, Low(vs), High(vs), rot);
    var ps := Flatten(g);
    var m := Groups(ps);
    TagKinds(noise, Low(vs), High(vs), rot);
    FlatAtLeast(g, 0);
    ScriptGrid();
    assert Tags(ps)[0] == None;
    OnlyNone(ps);
    PresentNone(m, Directions);
    SelectUniform(ps, None, None);
    TaggedCentres(noise, Low(vs), High(vs), rot);
  }

  // ---------------------------------------------------------------- the emission

  /** The press points of a list of canvas points. */
  function Papered(pts: seq<Point>): (r: seq<Point>)
    ensures |r| == |pts| && forall i :: 0 <= i < |pts| ==> r[i] == OnPaper(pts[i])
  {
    seq(|pts|, i requires 0 <= i < |pts| => OnPaper(pts[i]))
  }

  lemma PaperedAppend(a: seq<Point>, b: seq<Point>)
    ensures Papered(a + b) == Papered(a) + Papered(b)
  {
    var l := Papered(a + b);
    var r := Papered(a) + Papered(b);
    assert |l| == |r|;
    forall i | 0 <= i < |l|
      ensures l[i] == r[i]
    {
      if i < |a| {
        assert (a + b)[i] == a[i];
      } else {
        assert (a + b)[i] == b[i - |a|];
      }
    }
  }

  /** A group of n points makes n presses and a dip before every other one: n + (n + 1) / 2 actions. */
  lemma {:induction false} AlternateLength(pts: seq<Point>, rand: nat -> Draw, d0: nat)
    ensures |Alternate(pts, rand, d0)| == |pts| + (|pts| + 1) / 2
  {
    if |pts| > 0 {
      AlternateLength(pts[..|pts| - 1], rand, d0);
    }
  }

  /** Press k of a group is action k + k / 2 + 1. */
  lemma {:induction false} AlternateHitAt(pts: seq<Point>, rand: nat -> Draw, d0: nat, k: nat)
    requires k < |pts|
    ensures |Alternate(pts, rand, d0)| == |pts| + (|pts| + 1) / 2
    ensures Alternate(pts, rand, d0)[k + k / 2 + 1] == Hit(OnPaper(pts[k]))
  {
    AlternateLength(pts, rand, d0);
    var n := |pts| - 1;
    var front := Alternate(pts[..n], rand, d0);
    var dips := InkBefore(n, rand, d0);
    var a := Alternate(pts, rand, d0);
    assert a == front + dips + [Hit(OnPaper(pts[n]))];
    AlternateLength(pts[..n], rand, d0);
    if k < n {
      AlternateHitAt(pts[..n], rand, d0, k);
      assert pts[..n][k] == pts[k];
      assert k + k / 2 + 1 < |front|;
      assert a[k + k / 2 + 1] == front[k + k / 2 + 1];
    } else {
      assert k + k / 2 + 1 == |front| + |dips|;
    }
  }

  /** Before the 1st, 3rd, 5th, ... press comes a dip at the ink point of its own draws. */
  lemma {:induction false} AlternateDipAt(pts: seq<Point>, rand: nat -> Draw, d0: nat, k: nat)
    requires k < |pts| && k % 2 == 0
    ensures |Alternate(pts, rand, d0)| == |pts| + (|pts| + 1) / 2
    ensures Alternate(pts, rand, d0)[k + k / 2] == Dip(InkPoint(InkRange, rand(d0 + 2 * k), rand(d0 + 2 * k + 1)))
  {
    AlternateLength(pts, rand, d0);
    var n := |pts| - 1;
    var front := Alternate(pts[..n], rand, d0);
    var dips := InkBefore(n, rand, d0);
    var a := Alternate(pts, rand, d0);
    assert a == front + dips + [Hit(OnPaper(pts[n]))];
    AlternateLength(pts[..n], rand, d0);
    if k < n {
      AlternateDipAt(pts[..n], rand, d0, k);
      assert k + k / 2 < |front|;
      assert a[k + k / 2] == front[k + k / 2];
    } else {
      assert k + k / 2 == |front| && |dips| == 1;
      assert a[|front|] == dips[0];
    }
  }

  /** Press k of a group is action k + k / 2 + 1, and the 1st, 3rd, 5th, ...
      presses come straight after a dip at the ink point of their own draws. */
  lemma AlternateAt(pts: seq<Point>, rand: nat -> Draw, d0: nat, k: nat)
    requires k < |pts|
    ensures |Alternate(pts, rand, d0)| == |pts| + (|pts| + 1) / 2
    ensures Alternate(pts, rand, d0)[k + k / 2 + 1] == Hit(OnPaper(pts[k]))
    ensures k % 2 == 0 ==> Alternate(pts, rand, d0)[k + k / 2] == Dip(InkPoint(InkRange, rand(d0 + 2 * k), rand(d0 + 2 * k + 1)))
  {
    AlternateHitAt(pts, rand, d0, k);
    if k % 2 == 0 {
      AlternateDipAt(pts, rand, d0, k);
    }
  }

  lemma DipsAppend(a: seq<Action>, b: seq<Action>, r: Rect)
    requires DipsWithin(a, r) && DipsWithin(b, r)
    ensures DipsWithin(a + b, r)
  {
    forall i | 0 <= i < |a + b| && (a + b)[i].Dip?
      ensures InRect((a + b)[i].at, r)
    {
      if i >= |a| {
        assert (a + b)[i] == b[i - |a|];
      }
    }
  }

  lemma PaperedSnoc(pts: seq<Point>)
    requires |pts| > 0
    ensures Papered(pts) == Papered(pts[..|pts| - 1]) + [OnPaper(pts[|pts| - 1])]
  {
    var n := |pts| - 1;
    assert pts == pts[..n] + [pts[n]];
    PaperedAppend(pts[..n], [pts[n]]);
  }

  /** The last point of a group adds one press and no tool change. */
  lemma AlternateSnoc(pts: seq<Point>, rand: nat -> Draw, d0: nat)
    requires |pts| > 0
    ensures var n := |pts| - 1;
      && Hits(Alternate(pts, rand, d0)) == Hits(Alternate(pts[..n], rand, d0)) + [OnPaper(pts[n])]
      && Tools(Alternate(pts, rand, d0)) == Tools(Alternate(pts[..n], rand, d0))
  {
    var n := |pts| - 1;
    var front := Alternate(pts[..n], rand, d0);
    var hit := Hit(OnPaper(pts[n]));
    var dips := InkBefore(n, rand, d0);
    assert Alternate(pts, rand, d0) == (front + dips) + [hit];
    PressAfter(front, dips, OnPaper(pts[n]));
  }

  /** A group's presses are its points on paper, in order, with no tool changes. */
  lemma {:induction false} AlternateHits(pts: seq<Point>, rand: nat -> Draw, d0: nat)
    ensures Hits(Alternate(pts, rand, d0)) == Papered(pts)
    ensures Tools(Alternate(pts, rand, d0)) == []
  {
    if |pts| > 0 {
      AlternateHits(pts[..|pts| - 1], rand, d0);
      AlternateSnoc(pts, rand, d0);
      PaperedSnoc(pts);
    }
  }

  /** Every dip of a group is inside the ink range. */
  lemma {:induction false} AlternateDips(pts: seq<Point>, rand: nat -> Draw, d0: nat)
    ensures DipsWithin(Alternate(pts, rand, d0), InkRange)
  {
    if |pts| > 0 {
      var n := |pts| - 1;
      var front := Alternate(pts[..n], rand, d0);
      var dips := InkBefore(n, rand, d0);
      var tail := dips + [Hit(OnPaper(pts[n]))];
      assert Alternate(pts, rand, d0) == front + tail;
      AlternateDips(pts[..n], rand, d0);
      assert DipsWithin(tail, InkRange);
      DipsAppend(front, tail, InkRange);
    }
  }

  /** Tool i is labelled directions[i], counting groups from 0. */
  function Labels(n: nat): (r: seq<(int, Layer)>)
    requires n <= |Directions|
    ensures |r| == n && forall i :: 0 <= i < n ==> r[i] == (i, Layer.Direction(Directions[i]))
  {
    seq(n, i requires 0 <= i < n => (i, Layer.Direction(Directions[i])))
  }

  /** The emission presses every group's points on paper in visiting order
      and installs one tool per group, tool i labelled directions[i]. */
  lemma {:induction false} FieldHits(groups: seq<seq<Point>>, rand: nat -> Draw)
    requires |groups| <= |Directions|
    ensures Hits(FieldSession(groups, rand)) == Papered(Flatten(groups))
    ensures Tools(FieldSession(groups, rand)) == Labels(|groups|)
  {
    if |groups| > 0 {
      var n := |groups| - 1;
      var s := FieldSession(groups[..n], rand);
      var a := Alternate(groups[n], rand, 2 * |Flatten(groups[..n])|);
      assert FieldSession(groups, rand) == s + [Tool(n, Direction(Directions[n]))] + a;
      FieldHits(groups[..n], rand);
      AlternateHits(groups[n], rand, 2 * |Flatten(groups[..n])|);
      ToolBetween(s, n, Direction(Directions[n]), a);
      assert Flatten(groups) == Flatten(groups[..n]) + groups[n];
      PaperedAppend(Flatten(groups[..n]), groups[n]);
      assert Labels(|groups|) == Labels(n) + [(n, Layer.Direction(Directions[n]))];
    }
  }

  /** Every dip of the emission is inside the ink range. */
  lemma {:induction false} FieldDips(groups: seq<seq<Point>>, rand: nat -> Draw)
    requires |groups| <= |Directions|
    ensures DipsWithin(FieldSession(groups, rand), InkRange)
  {
    if |groups| > 0 {
      var n := |groups| - 1;
      var s := FieldSession(groups[..n], rand);
      var t: seq<Action> := [Tool(n, Direction(Directions[n]))];
      var a := Alternate(groups[n], rand, 2 * |Flatten(groups[..n])|);
      assert FieldSession(groups, rand) == s + t + a;
      FieldDips(groups[..n], rand);
      AlternateDips(groups[n], rand, 2 * |Flatten(groups[..n])|);
      DipsAppend(s, t, InkRange);
      DipsAppend(s + t, a, InkRange);
    }
  }

  // ---------------------------------------------------------------- the labels

  lemma {:induction false} PresentPrefix(m: map<Option<int>, seq<Point>>, ds: seq<int>, t: nat)
    requires t <= |ds|
    ensures Present(m, ds[..t]) <= Present(m, ds)
    decreases |ds|
  {
    if t < |ds| {
      var n := |ds| - 1;
      assert ds[..n][..t] == ds[..t];
      PresentPrefix(m, ds[..n], t);
    } else {
      assert ds[..t] == ds;
    }
  }

  /** Among the first t directions at most t are present, all t exactly when none is missing. */
  lemma {:induction false} PresentCount(m: map<Option<int>, seq<Point>>, ds: seq<int>, t: nat)
    requires t <= |ds|
    ensures |Present(m, ds[..t])| <= t
    ensures |Present(m, ds[..t])| == t <==> forall e :: 0 <= e < t ==> Some(ds[e]) in m
  {
    if t > 0 {
      PresentCount(m, ds, t - 1);
      assert ds[..t][..t - 1] == ds[..t - 1];
      assert Present(m, ds[..t]) == Present(m, ds[..t - 1]) + (if Some(ds[t - 1]) in m then [Some(ds[t - 1])] else []);
    }
  }

  /** Key i of the order is some ds[t] with exactly i keys listed before t. */
  lemma {:induction false} PresentAt(m: map<Option<int>, seq<Point>>, ds: seq<int>, i: nat)
    requires i < |Present(m, ds)|
    ensures exists t :: 0 <= t < |ds| && Present(m, ds)[i] == Some(ds[t]) && |Present(m, ds[..t])| == i
  {
    var n := |ds| - 1;
    var p := Present(m, ds[..n]);
    if i < |p| {
      PresentAt(m, ds[..n], i);
      var t :| 0 <= t < n && p[i] == Some(ds[..n][t]) && |Present(m, ds[..n][..t])| == i;
      assert ds[..n][..t] == ds[..t];
    } else {
      assert ds[..n] == ds[..n];
      assert Present(m, ds)[i] == Some(ds[n]);
    }
  }

  /** A group labelled with its own direction has no missing direction before it. */
  lemma LabelOwn(m: map<Option<int>, seq<Point>>, ds: seq<int>, i: nat)
    requires forall a, b :: 0 <= a < b < |ds| ==> ds[a] < ds[b]
    requires i < |Present(m, ds)| && i < |ds| && Present(m, ds)[i] == Some(ds[i])
    ensures forall e :: 0 <= e <= i ==> Some(ds[e]) in m
  {
    PresentAt(m, ds, i);
    var t :| 0 <= t < |ds| && Present(m, ds)[i] == Some(ds[t]) && |Present(m, ds[..t])| == i;
    assert ds[t] == ds[i];
    assert t == i;
    PresentCount(m, ds, i);
  }

  /** With no missing direction up to i, group i is labelled with its own direction. */
  lemma LabelAll(m: map<Option<int>, seq<Point>>, ds: seq<int>, i: nat)
    requires i < |ds| && forall e :: 0 <= e <= i ==> Some(ds[e]) in m
    ensures i < |Present(m, ds)| && Present(m, ds)[i] == Some(ds[i])
  {
    PresentCount(m, ds, i);
    PresentPrefix(m, ds, i + 1);
    assert ds[..i + 1][..i] == ds[..i];
    assert ds[..i + 1][i] == ds[i];
    assert Present(m, ds[..i + 1]) == Present(m, ds[..i]) + [Some(ds[i])];
  }

  /** The label of group i, directions[i], is its own direction exactly when
      none of the first i + 1 directions is missing from directionsMap. */
  lemma LabelMatches(m: map<Option<int>, seq<Point>>, i: nat)
    requires i < |Present(m, Directions)|
    ensures Present(m, Directions)[i] == Some(Directions[i])
        <==> forall e :: 0 <= e <= i ==> Some(Directions[e]) in m
  {
    if Present(m, Directions)[i] == Some(Directions[i]) {
      LabelOwn(m, Directions, i);
    }
    if forall e :: 0 <= e <= i ==> Some(Directions[e]) in m {
      LabelAll(m, Directions, i);
    }
  }

  /** With a single key Some(d), Present lists it once when d is among ds. */
  lemma {:induction false} PresentSingle(m: map<Option<int>, seq<Point>>, ds: seq<int>, d: int)
    requires m.Keys == {Some(d)}
    requires forall i, j :: 0 <= i < j < |ds| ==> ds[i] < ds[j]
    ensures Present(m, ds) == if d in ds then [Some(d)] else []
  {
    if |ds| > 0 {
      var n := |ds| - 1;
      PresentSingle(m, ds[..n], d);
      assert ds == ds[..n] + [ds[n]];
      if ds[n] == d {
        assert d !in ds[..n];
      }
    }
  }

  /** A worked illustration of the offset labels, not a general property:
      cells pointing only in direction 3 are pressed with the tool labelled 1.
      The general fact is LabelMatches. */
  lemma LabelOffset()
    ensures var m := map[Some(3) := [Point(0.0, 0.0)]];
      Present(m, Directions) == [Some(3)] && Labels(1)[0].1 == Layer.Direction(1)
  {
    var m := map[Some(3) := [Point(0.0, 0.0)]];
    assert Directions[2] == 3;
    PresentSingle(m, Directions, 3);
  }

  // ---------------------------------------------------------------- the toolpath

  /** The script's ink range. */
  lemma ScriptInkRange()
    ensures InkRange == Rect(809.5, 868.5, 282.5, 257.5)
  {
  }

  /** A finished toolpath: the header with the canvas size as paper size, one
      tool per group labelled directions[i], every cell centre pressed exactly
      once at (x / 10, y / 10), every dip inside the ink range, the head never
      travelling lowered, M2 last. */
  lemma ScriptToolpath(noise: Noise, rot: real, rand: nat -> Draw)
    ensures var groups := Grouped(noise, rot); var acts := FieldSession(groups, rand);
      var g := Output(noise, rot, rand);
      && g == Program(Heads, 7600.0, 5700.0, "love", acts)
      && SafeTravel(g, Heads.up) && g[|g| - 1] == ProgramEnd
      && Tools(acts) == Labels(|groups|)
      && Hits(acts) == Papered(Flatten(groups))
      && multiset(Flatten(groups)) == multiset(Centres())
      && DipsWithin(acts, InkRange)
  {
    var vs := Flatten(NoiseGrid(noise));
    var groups := Grouped(noise, rot);
    FieldHits(groups, rand);
    FieldDips(groups, rand);
    ProgramSafe(Heads, Width, Height, "love", FieldSession(groups, rand));
    GroupsPartition(noise, Low(vs), High(vs), rot);
  }
}
