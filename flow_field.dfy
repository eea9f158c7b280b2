/**
 * flowfields/field5-stamp.js: a grid of arrow stamps, each turned to one of
 * 24 directions read off a noise field, grouped by direction and pressed one
 * direction after another, inking before every other press.
 *
 * The noise field is a parameter (the value of noise() at cell (i, j), the
 * offsets and the scale folded in), rot is Math.random() * 360, and the
 * emission's Math.random draws are the stream rand. The millimetre values are
 * exact reals; a NaN angle is modelled as None.
 */
module FlowField {
  import opened Wrappers
  import opened GCode
  import opened Grouping
  import opened Stamping
  import opened Emission

  // ---------------------------------------------------------------- constants

  /** The preview canvas is the paper times sizeMod; presses divide by it again. */
  const SizeMod: real := 10.0
  const Width: real := 760.0 * SizeMod
  const Height: real := 570.0 * SizeMod
  const Border: real := 30.0 * SizeMod
  const StampSize: real := 10.0 * SizeMod

  const Pad: Rect := Rect(802.0, 876.0, 290.0, 250.0)
  const Heads: Heights := Heights(60.0, 14.0, 26.0)

  /** inkPosition.inkRange: the pad shrunk by three quarters of the stamp in millimetres. */
  const InkRange: Rect := Shrink(Pad, StampSize / SizeMod * 0.75)

  /** The direction labels; a sector index selects one. */
  const Directions: seq<int> := [1, 2, 3, 4, 5, 6, 7, 8, 9, 10, 11, 12, 13, 14, 15, 16, 17, 18, 19, 20, 21, 22, 23, 24]

  // ---------------------------------------------------------------- the grid

  /** Math.floor((extent - border * 2) / size): how many stamps fit between the borders. */
  function Fit(extent: real, border: real, size: real): (n: nat)
    requires size > 0.0 && extent >= 2.0 * border
    ensures n as real * size <= extent - 2.0 * border < (n as real + 1.0) * size
  {
    var q := (extent - border * 2.0) / size;
    var n := q.Floor;
    assert n as real <= q < n as real + 1.0;
    DivMul(extent - border * 2.0, size);
    MulMono(n as real, q, size);
    MulMono(q, n as real + 1.0, size);
    assert n as real * size <= q * size == extent - border * 2.0;
    assert extent - 2.0 * border < (n as real + 1.0) * size;
    n
  }

  lemma DivMul(x: real, y: real)
    requires y != 0.0
    ensures x / y * y == x
  {
  }

  lemma MulMono(a: real, b: real, c: real)
    requires c > 0.0 && a <= b
    ensures a * c <= b * c && (a < b ==> a * c < b * c)
  {
    MulNonneg(b - a, c);
    if a < b {
      MulPos(b - a, c);
    }
  }

  /** The border left on each side once n stamps are centred. */
  function Margin(extent: real, n: nat, size: real): real
  {
    (extent - n as real * size) / 2.0
  }

  const Columns: nat := Fit(Width, Border, StampSize)
  const Rows: nat := Fit(Height, Border, StampSize)
  const SideBorder: real := Margin(Width, Columns, StampSize)
  const TopBorder: real := Margin(Height, Rows, StampSize)

  /** The centre of cell (i, j) on the canvas. */
  function Centre(i: nat, j: nat): Point
  {
    Point(SideBorder + i as real * StampSize + StampSize / 2.0, TopBorder + j as real * StampSize + StampSize / 2.0)
  }

  // ---------------------------------------------------------------- the noise range

  /** The noise value of cell (i, j). */
  type Noise = (nat, nat) -> real

  /** The noise values of the grid, column by column. */
  function NoiseGrid(noise: Noise): (g: seq<seq<real>>)
    ensures |g| == Columns && forall i :: 0 <= i < Columns ==> |g[i]| == Rows
  {
    seq(Columns, i requires 0 <= i < Columns => seq(Rows, j requires 0 <= j < Rows => noise(i, j)))
  }

  /** minNoise after scanning vs: starts at 1000, lowered by every smaller value. */
  function Low(vs: seq<real>): real
  {
    if |vs| == 0 then 1000.0
    else
      var m := Low(vs[..|vs| - 1]);
      if vs[|vs| - 1] < m then vs[|vs| - 1] else m
  }

  /** maxNoise after scanning vs: starts at -1000, raised by every larger value. */
  function High(vs: seq<real>): real
  {
    if |vs| == 0 then -1000.0
    else
      var m := High(vs[..|vs| - 1]);
      if vs[|vs| - 1] > m then vs[|vs| - 1] else m
  }

  lemma ScanStep(p: seq<real>, v: real)
    ensures Low(p + [v]) == if v < Low(p) then v else Low(p)
    ensures High(p + [v]) == if v > High(p) then v else High(p)
  {
    assert (p + [v])[..|p|] == p;
  }

  /** The first double loop: minNoise and maxNoise over every cell. */
  method ScanRange(noise: Noise) returns (lo: real, hi: real)
    ensures lo == Low(Flatten(NoiseGrid(noise))) && hi == High(Flatten(NoiseGrid(noise)))
  {
    ghost var g := NoiseGrid(noise);
    lo := 1000.0;
    hi := -1000.0;
    var i := 0;
    while i < Columns
      invariant i <= Columns
      invariant lo == Low(Flatten(g[..i])) && hi == High(Flatten(g[..i]))
    {
      var j := 0;
      assert Flatten(g[..i]) + g[i][..0] == Flatten(g[..i]);
      while j < Rows
        invariant j <= Rows
        invariant lo == Low(Flatten(g[..i]) + g[i][..j]) && hi == High(Flatten(g[..i]) + g[i][..j])
      {
        var v := noise(i, j);
        ghost var p := Flatten(g[..i]) + g[i][..j];
        assert Flatten(g[..i]) + g[i][..j + 1] == p + [v];
        ScanStep(p, v);
        if v < lo {
          lo := v;
        }
        if v > hi {
          hi := v;
        }
        j := j + 1;
      }
      assert g[i][..j] == g[i];
      FlattenStep(g, i);
      i := i + 1;
    }
    assert g[..i] == g;
  }

  // ---------------------------------------------------------------- the angle

  /** (v - minNoise) / noiseRange * 360 + rotRandom. */
  function Raw(v: real, lo: real, range: real, rot: real): real
    requires range != 0.0
  {
    (v - lo) / range * 360.0 + rot
  }

  /** a turned by k whole turns. */
  function Turn(a: real, k: int): real
  {
    a + 360.0 * k as real
  }

  /**
   * The angle after the two normalisation loops: a itself when it lies in
   * [0, 360], otherwise the representative of a modulo 360 in [0, 360), or
   * in (0, 360] when a was above 360.
   */
  function Normal(a: real): (b: real)
    ensures 0.0 <= b <= 360.0
    ensures 0.0 <= a <= 360.0 ==> b == a
    ensures a < 0.0 ==> b < 360.0
    ensures a > 360.0 ==> 0.0 < b
    ensures exists k: int :: b == Turn(a, k)
  {
    var q := (a / 360.0).Floor;
    var r := a - 360.0 * q as real;
    assert q as real <= a / 360.0 < q as real + 1.0;
    assert 0.0 <= r < 360.0;
    assert r == Turn(a, -q) && r + 360.0 == Turn(a, 1 - q) && a == Turn(a, 0);
    if a < 0.0 then r
    else if a > 360.0 then (if r == 0.0 then 360.0 else r)
    else a
  }

  /** Two whole-turn images of one angle closer than a turn are the same. */
  lemma SameTurn(a: real, k1: int, k2: int)
    requires -360.0 < Turn(a, k1) - Turn(a, k2) < 360.0
    ensures k1 == k2
  {
    assert -1.0 < (k1 - k2) as real < 1.0;
  }

  lemma NormalByTurn(a: real, k: int, b: real)
    requires b == Turn(a, k) && 0.0 <= b <= 360.0
    requires 0.0 <= a <= 360.0 ==> b == a
    requires a < 0.0 ==> b < 360.0
    requires a > 360.0 ==> 0.0 < b
    ensures b == Normal(a)
  {
    var n := Normal(a);
    var k2 :| n == Turn(a, k2);
    if a < 0.0 || a > 360.0 {
      SameTurn(a, k, k2);
    }
  }

  /** `while (angle1 < 0) angle1 += 360` then `while (angle1 > 360) angle1 -= 360`. */
  method Normalise(a: real) returns (b: real)
    ensures b == Normal(a)
  {
    b := a;
    ghost var k: int := 0;
    while b < 0.0
      invariant b == Turn(a, k)
      invariant a < 0.0 ==> b < 360.0
      invariant a >= 0.0 ==> b == a
      decreases (-b).Floor
    {
      b := b + 360.0;
      k := k + 1;
    }
    while b > 360.0
      invariant b == Turn(a, k) && b >= 0.0
      invariant a < 0.0 ==> b < 360.0
      invariant 0.0 <= a <= 360.0 ==> b == a
      invariant a > 360.0 ==> b > 0.0
      decreases b.Floor
    {
      b := b - 360.0;
      k := k - 1;
    }
    NormalByTurn(a, k, b);
  }

  // ---------------------------------------------------------------- the sector

  const SectorSize: real := 360.0 / |Directions| as real
  const HalfSector: real := SectorSize / 2.0

  /** The direction index: 0 within half a sector of 0/360 degrees, otherwise
      Math.floor((angle + halfSector) / sectorSize) % 24. */
  function SectorIndex(angle: real): (idx: nat)
    requires 0.0 <= angle <= 360.0
    ensures idx < |Directions|
  {
    if angle >= 360.0 - HalfSector || angle < HalfSector then 0
    else ((angle + HalfSector) / SectorSize).Floor % |Directions|
  }

  /** The angle of a cell, None where it is NaN: when every value equals the
      minimum, (v - minNoise) / noiseRange is 0 / 0. */
  function Angle(noise: Noise, lo: real, hi: real, rot: real, i: nat, j: nat): (a: Option<real>)
    ensures a.Some? ==> 0.0 <= a.value <= 360.0
  {
    if hi - lo == 0.0 then None else Some(Normal(Raw(noise(i, j), lo, hi - lo, rot)))
  }

  /** The directionsMap key of an angle: directions[index], None for the key
      "undefined" that directions[NaN] gives. */
  function Key(a: Option<real>): Option<int>
    requires a.Some? ==> 0.0 <= a.value <= 360.0
  {
    if a.None? then None else Some(Directions[SectorIndex(a.value)])
  }

  /** Every cell's key and centre, column by column. */
  function Tagged(noise: Noise, lo: real, hi: real, rot: real): (g: seq<seq<(Option<int>, Point)>>)
    ensures |g| == Columns
    ensures forall i :: 0 <= i < Columns ==> |g[i]| == Rows
    ensures forall i, j :: 0 <= i < Columns && 0 <= j < Rows ==> g[i][j] == (Key(Angle(noise, lo, hi, rot, i, j)), Centre(i, j))
  {
    seq(Columns, i requires 0 <= i < Columns =>
      seq(Rows, j requires 0 <= j < Rows => (Key(Angle(noise, lo, hi, rot, i, j)), Centre(i, j))))
  }

  /** One cell's key: the angle normalised and quantised, None when it is NaN. */
  method CellKey(noise: Noise, lo: real, hi: real, rot: real, i: nat, j: nat) returns (key: Option<int>)
    ensures key == Key(Angle(noise, lo, hi, rot, i, j))
  {
    var range := hi - lo;
    if range == 0.0 {
      key := None;
    } else {
      var angle := Normalise(Raw(noise(i, j), lo, range, rot));
      key := Some(Directions[SectorIndex(angle)]);
    }
  }

  /** One turn of the inner grouping loop, after the placements p of the columns before. */
  lemma CellStep(noise: Noise, lo: real, hi: real, rot: real, p: seq<(Option<int>, Point)>, i: nat, j: nat)
    requires i < Columns && j < Rows
    ensures var g := Tagged(noise, lo, hi, rot);
      Groups(p + g[i][..j + 1]) == Push(Groups(p + g[i][..j]), Key(Angle(noise, lo, hi, rot, i, j)), Centre(i, j))
  {
    var g := Tagged(noise, lo, hi, rot);
    assert p + g[i][..j + 1] == (p + g[i][..j]) + [g[i][j]];
    SnocStep(p + g[i][..j], g[i][j]);
  }

  /** The inner grouping loop: column i's centres pushed onto their directions' lists. */
  method GroupColumn(noise: Noise, lo: real, hi: real, rot: real, i: nat,
                     m0: map<Option<int>, seq<Point>>, ghost p: seq<(Option<int>, Point)>)
    returns (m: map<Option<int>, seq<Point>>)
    requires i < Columns && m0 == Groups(p)
    ensures m == Groups(p + Tagged(noise, lo, hi, rot)[i])
  {
    ghost var col := Tagged(noise, lo, hi, rot)[i];
    m := m0;
    var j := 0;
    assert p + col[..0] == p;
    while j < Rows
      invariant j <= Rows
      invariant m == Groups(p + col[..j])
    {
      var x := SideBorder + i as real * StampSize + StampSize / 2.0;
      var y := TopBorder + j as real * StampSize + StampSize / 2.0;
      var key := CellKey(noise, lo, hi, rot, i, j);
      CellStep(noise, lo, hi, rot, p, i, j);
      assert Point(x, y) == Centre(i, j);
      m := PushOnto(m, key, Point(x, y));
      j := j + 1;
    }
    assert col[..j] == col;
  }

  /** The second double loop: every cell's centre pushed onto its direction's list. */
  method GroupCells(noise: Noise, lo: real, hi: real, rot: real) returns (m: map<Option<int>, seq<Point>>)
    ensures m == Groups(Flatten(Tagged(noise, lo, hi, rot)))
  {
    ghost var g := Tagged(noise, lo, hi, rot);
    m := map[];
    var i := 0;
    while i < Columns
      invariant i <= Columns
      invariant m == Groups(Flatten(g[..i]))
    {
      m := GroupColumn(noise, lo, hi, rot, i, m, Flatten(g[..i]));
      FlattenStep(g, i);
      i := i + 1;
    }
    assert g[..i] == g;
  }

  // ---------------------------------------------------------------- the key order

  /** The keys among ds that have a group, in the order of ds. */
  function Present(m: map<Option<int>, seq<Point>>, ds: seq<int>): (r: seq<Option<int>>)
    ensures |r| <= |ds|
    ensures forall i :: 0 <= i < |r| ==> r[i] in m && r[i].Some?
  {
    if |ds| == 0 then []
    else
      var n := |ds| - 1;
      Present(m, ds[..n]) + (if Some(ds[n]) in m then [Some(ds[n])] else [])
  }

  /** The order `for (const direction in directionsMap)` visits the keys:
      integer keys ascending, then the non-integer key "undefined". */
  function Order(m: map<Option<int>, seq<Point>>): (r: seq<Option<int>>)
    ensures forall i :: 0 <= i < |r| ==> r[i] in m
  {
    Present(m, Directions) + (if None in m then [None] else [])
  }

  /** The groups in visiting order. */
  function InOrder(m: map<Option<int>, seq<Point>>, order: seq<Option<int>>): (r: seq<seq<Point>>)
    requires forall i :: 0 <= i < |order| ==> order[i] in m
    ensures |r| == |order| && forall i :: 0 <= i < |order| ==> r[i] == m[order[i]]
  {
    seq(|order|, i requires 0 <= i < |order| => m[order[i]])
  }

  // ---------------------------------------------------------------- the emission

  /** The press point: the canvas point divided by sizeMod, y not flipped. */
  function OnPaper(p: Point): Point
  {
    Point(p.x / SizeMod, p.y / SizeMod)
  }

  /** The dip before press n of a group: one when shallWeInk (n even), none otherwise. */
  function InkBefore(n: nat, rand: nat -> Draw, d0: nat): (r: seq<Action>)
    ensures |r| <= 1 && forall i :: 0 <= i < |r| ==> r[i].Dip?
  {
    if n % 2 == 0 then [Dip(InkPoint(InkRange, rand(d0 + 2 * n), rand(d0 + 2 * n + 1)))] else []
  }

  /** One group's presses, with an ink dip before the 1st, 3rd, 5th, ... of
      them; press k takes draws d0 + 2k and d0 + 2k + 1 whether it inks or not. */
  function Alternate(pts: seq<Point>, rand: nat -> Draw, d0: nat): (r: seq<Action>)
  {
    if |pts| == 0 then []
    else
      var n := |pts| - 1;
      Alternate(pts[..n], rand, d0)
        + InkBefore(n, rand, d0)
        + [Hit(OnPaper(pts[n]))]
  }

  /** The emission loop: group n installs tool n labelled directions[n], then
      its presses; draws count across groups. */
  function FieldSession(groups: seq<seq<Point>>, rand: nat -> Draw): seq<Action>
    requires |groups| <= |Directions|
  {
    if |groups| == 0 then []
    else
      var n := |groups| - 1;
      FieldSession(groups[..n], rand) + [Tool(n, Direction(Directions[n]))]
        + Alternate(groups[n], rand, 2 * |Flatten(groups[..n])|)
  }

  /** Each tag is None exactly when the noise range is zero. */
  lemma TagKinds(noise: Noise, lo: real, hi: real, rot: real)
    ensures var ps := Flatten(Tagged(noise, lo, hi, rot));
      forall t :: 0 <= t < |ps| ==> (ps[t].0.None? <==> hi - lo == 0.0)
  {
    var g := Tagged(noise, lo, hi, rot);
    var ps := Flatten(g);
    forall t | 0 <= t < |ps|
      ensures ps[t].0.None? <==> hi - lo == 0.0
    {
      FlattenIndex(g, t);
    }
  }

  /** At most one group per direction, or the single "undefined" group. */
  lemma OrderFits(noise: Noise, lo: real, hi: real, rot: real)
    ensures |Order(Groups(Flatten(Tagged(noise, lo, hi, rot))))| <= |Directions|
  {
    var ps := Flatten(Tagged(noise, lo, hi, rot));
    var m := Groups(ps);
    TagKinds(noise, lo, hi, rot);
    if None in m {
      var t :| 0 <= t < |Tags(ps)| && Tags(ps)[t] == None;
      OnlyNone(ps);
      PresentNone(m, Directions);
    }
  }

  lemma {:induction false} PresentNone(m: map<Option<int>, seq<Point>>, ds: seq<int>)
    requires forall k :: k in m ==> k == None
    ensures Present(m, ds) == []
  {
    if |ds| > 0 {
      PresentNone(m, ds[..|ds| - 1]);
    }
  }

  /** Cells all keyed None make None the only key. */
  lemma OnlyNone<V>(ps: seq<(Option<int>, V)>)
    requires forall t :: 0 <= t < |ps| ==> ps[t].0.None?
    ensures forall k :: k in Groups(ps) ==> k == None
  {
    var ks := Tags(ps);
    assert forall i :: 0 <= i < |ks| ==> ks[i] == ps[i].0;
  }

  /** directionsMap once both double loops have run. */
  function DirectionsMap(noise: Noise, rot: real): map<Option<int>, seq<Point>>
  {
    var vs := Flatten(NoiseGrid(noise));
    Groups(Flatten(Tagged(noise, Low(vs), High(vs), rot)))
  }

  /** The groups in the order the emission visits them: at most one per direction. */
  function Grouped(noise: Noise, rot: real): (groups: seq<seq<Point>>)
    ensures |groups| <= |Directions|
  {
    var vs := Flatten(NoiseGrid(noise));
    OrderFits(noise, Low(vs), High(vs), rot);
    var m := DirectionsMap(noise, rot);
    InOrder(m, Order(m))
  }

  /** The whole file for a noise field, a rotation and the emission's draws. */
  function Output(noise: Noise, rot: real, rand: nat -> Draw): seq<Cmd>
  {
    Program(Heads, Width, Height, "love", FieldSession(Grouped(noise, rot), rand))
  }

  /** One press of the emission loop: the dip when shallWeInk, then the press. */
  lemma AlternateStep(pts: seq<Point>, k: nat, rand: nat -> Draw, d0: nat)
    requires k < |pts|
    ensures var ink := InkPoint(InkRange, rand(d0 + 2 * k), rand(d0 + 2 * k + 1));
      Render(Heads, Alternate(pts[..k + 1], rand, d0))
        == Render(Heads, Alternate(pts[..k], rand, d0))
           + (if k % 2 == 0 then InkDip(Heads, ink.x, ink.y) else [])
           + Press(Heads, OnPaper(pts[k]).x, OnPaper(pts[k]).y)
  {
    var ink := InkPoint(InkRange, rand(d0 + 2 * k), rand(d0 + 2 * k + 1));
    assert pts[..k + 1][..k] == pts[..k];
    var before := Alternate(pts[..k], rand, d0);
    var dips := InkBefore(k, rand, d0);
    assert Alternate(pts[..k + 1], rand, d0) == before + dips + [Hit(OnPaper(pts[k]))];
    RenderSnoc(Heads, before + dips, Hit(OnPaper(pts[k])));
    RenderAppend(Heads, before, dips);
    if k % 2 == 0 {
      RenderSnoc(Heads, [], Dip(ink));
    }
  }

  /** The inner loop's state after k presses of a group. */
  ghost predicate Alternating(pts: seq<Point>, rand: nat -> Draw, d0: nat, gcode0: seq<Cmd>,
                              k: nat, d: nat, shallWeInk: bool, gcode: seq<Cmd>)
  {
    && k <= |pts| && d == d0 + 2 * k && shallWeInk == (k % 2 == 0)
    && gcode == gcode0 + Render(Heads, Alternate(pts[..k], rand, d0))
  }

  /** One turn of the inner loop: a dip when shallWeInk, then the press,
      extend the rendered group by one point and flip shallWeInk. */
  lemma GroupStep(pts: seq<Point>, rand: nat -> Draw, d0: nat, gcode0: seq<Cmd>,
                  k: nat, d: nat, shallWeInk: bool, gcode: seq<Cmd>)
    requires k < |pts| && Alternating(pts, rand, d0, gcode0, k, d, shallWeInk, gcode)
    ensures var ink := InkPoint(InkRange, rand(d), rand(d + 1));
      var p := OnPaper(pts[k]);
      && (shallWeInk ==> Alternating(pts, rand, d0, gcode0, k + 1, d + 2, !shallWeInk,
                                     gcode + InkDip(Heads, ink.x, ink.y) + Press(Heads, p.x, p.y)))
      && (!shallWeInk ==> Alternating(pts, rand, d0, gcode0, k + 1, d + 2, !shallWeInk, gcode + Press(Heads, p.x, p.y)))
  {
    var ink := InkPoint(InkRange, rand(d), rand(d + 1));
    var p := OnPaper(pts[k]);
    var dip: seq<Cmd> := if shallWeInk then InkDip(Heads, ink.x, ink.y) else [];
    var before := Render(Heads, Alternate(pts[..k], rand, d0));
    AlternateStep(pts, k, rand, d0);
    Regroup4(gcode0, before, dip, Press(Heads, p.x, p.y));
    if !shallWeInk {
      assert gcode + dip == gcode;
    }
    ParityFlip(k);
  }

  /** The inner emission loop over one group, with shallWeInk toggling. */
  method EmitGroup(pts: seq<Point>, rand: nat -> Draw, d0: nat, gcode0: seq<Cmd>) returns (gcode: seq<Cmd>, d: nat)
    ensures gcode == gcode0 + Render(Heads, Alternate(pts, rand, d0))
    ensures d == d0 + 2 * |pts|
  {
    gcode := gcode0;
    d := d0;
    var shallWeInk := true;
    var k := 0;
    assert pts[..0] == [];
    while k < |pts|
      invariant Alternating(pts, rand, d0, gcode0, k, d, shallWeInk, gcode)
      decreases |pts| - k
    {
      var ink := InkPoint(InkRange, rand(d), rand(d + 1));
      var p := OnPaper(pts[k]);
      GroupStep(pts, rand, d0, gcode0, k, d, shallWeInk, gcode);
      if shallWeInk {
        gcode := gcode + InkDip(Heads, ink.x, ink.y);
      }
      gcode := gcode + Press(Heads, p.x, p.y);
      shallWeInk := !shallWeInk;
      d := d + 2;
      k := k + 1;
    }
    assert pts[..k] == pts;
  }

  lemma FieldStep(groups: seq<seq<Point>>, n: nat, rand: nat -> Draw)
    requires n < |groups| <= |Directions|
    ensures Render(Heads, FieldSession(groups[..n + 1], rand))
         == Render(Heads, FieldSession(groups[..n], rand)) + ToolChange(Heads, n, Direction(Directions[n]))
            + Render(Heads, Alternate(groups[n], rand, 2 * |Flatten(groups[..n])|))
  {
    var g := groups[..n + 1];
    assert g[..n] == groups[..n] && g[n] == groups[n];
    var s := FieldSession(groups[..n], rand);
    var t := Tool(n, Direction(Directions[n]));
    var a := Alternate(groups[n], rand, 2 * |Flatten(groups[..n])|);
    assert FieldSession(g, rand) == s + [t] + a;
    RenderAppend(Heads, s + [t], a);
    RenderSnoc(Heads, s, t);
  }

  /** The outer emission loop: header, a tool change and the group's presses
      per key, the end block. */
  method Emit(groups: seq<seq<Point>>, rand: nat -> Draw) returns (gcode: seq<Cmd>)
    requires |groups| <= |Directions|
    ensures gcode == Program(Heads, Width, Height, "love", FieldSession(groups, rand))
  {
    var head := Header(Width, Height, "love");
    gcode := head;
    var d := 0;
    var index := 0;
    assert groups[..0] == [];
    while index < |groups|
      invariant index <= |groups| && d == 2 * |Flatten(groups[..index])|
      invariant gcode == head + Render(Heads, FieldSession(groups[..index], rand))
    {
      FieldStep(groups, index, rand);
      FlattenStep(groups, index);
      ghost var done := Render(Heads, FieldSession(groups[..index], rand));
      ghost var change := ToolChange(Heads, index, Direction(Directions[index]));
      ghost var more := Render(Heads, Alternate(groups[index], rand, d));
      Regroup4(head, done, change, more);
      gcode := gcode + ToolChange(Heads, index, Direction(Directions[index]));
      gcode, d := EmitGroup(groups[index], rand, d, gcode);
      assert gcode == head + (done + change + more);
      index := index + 1;
    }
    assert groups[..index] == groups;
    gcode := gcode + Finish(Heads);
  }

  /** The script: scan the range, group the cells, emit in key order. */
  method Generate(noise: Noise, rot: real, rand: nat -> Draw) returns (gcode: seq<Cmd>)
    ensures gcode == Output(noise, rot, rand)
  {
    var lo, hi := ScanRange(noise);
    var m := GroupCells(noise, lo, hi, rot);
    OrderFits(noise, lo, hi, rot);
    var groups := InOrder(m, Order(m));
    assert groups == Grouped(noise, rot);
    gcode := Emit(groups, rand);
  }
}
