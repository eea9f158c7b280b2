/**
 * What the scripts ask the machine to do, one step above G-code: install a
 * tool, dip the stamp on the ink pad, press it on the paper. A list of such
 * actions renders to commands block by block, so facts about where the head
 * goes can be stated on the actions and carried to the toolpath.
 */
module Emission {
  import opened Wrappers
  import opened GCode
  import opened Grouping
  import opened Stamping

  datatype Action = Tool(index: int, layer: Layer) | Dip(at: Point) | Hit(at: Point)

  /** The block each helper (installTool, ink, stamp) appends for one action. */
  function Block(h: Heights, a: Action): seq<Cmd>
  {
    match a
    case Tool(i, l) => ToolChange(h, i, l)
    case Dip(p) => InkDip(h, p.x, p.y)
    case Hit(p) => Press(h, p.x, p.y)
  }

  /** The blocks of a list of items, one after another. */
  function Concat<A, B>(f: A -> seq<B>, s: seq<A>): seq<B>
  {
    if |s| == 0 then [] else Concat(f, s[..|s| - 1]) + f(s[|s| - 1])
  }

  lemma ConcatSnoc<A, B>(f: A -> seq<B>, s: seq<A>, x: A)
    ensures Concat(f, s + [x]) == Concat(f, s) + f(x)
  {
    assert (s + [x])[..|s|] == s;
  }

  lemma {:induction false} ConcatAppend<A, B>(f: A -> seq<B>, a: seq<A>, b: seq<A>)
    ensures Concat(f, a + b) == Concat(f, a) + Concat(f, b)
  {
    if |b| == 0 {
      assert a + b == a;
    } else {
      var n := |b| - 1;
      assert (a + b)[..|a + b| - 1] == a + b[..n];
      assert (a + b)[|a + b| - 1] == b[n];
      ConcatAppend(f, a, b[..n]);
    }
  }

  function BlockOf(h: Heights): Action -> seq<Cmd>
  {
    a => Block(h, a)
  }

  function Render(h: Heights, acts: seq<Action>): seq<Cmd>
  {
    Concat(BlockOf(h), acts)
  }

  /** A whole output file: header, the rendered actions, the end block. */
  function Program(h: Heights, width: real, height: real, generator: string, acts: seq<Action>): seq<Cmd>
  {
    Header(width, height, generator) + Render(h, acts) + Finish(h)
  }

  lemma RenderSnoc(h: Heights, acts: seq<Action>, a: Action)
    ensures Render(h, acts + [a]) == Render(h, acts) + Block(h, a)
  {
    ConcatSnoc(BlockOf(h), acts, a);
  }

  lemma RenderAppend(h: Heights, a: seq<Action>, b: seq<Action>)
    ensures Render(h, a + b) == Render(h, a) + Render(h, b)
  {
    ConcatAppend(BlockOf(h), a, b);
  }

  /** Whatever the actions, the rendered toolpath never travels with the head lowered. */
  lemma {:induction false} RenderSafe(h: Heights, acts: seq<Action>)
    ensures SafeTravel(Render(h, acts), h.up)
    ensures |acts| > 0 ==> LastZ(Render(h, acts)) == Some(h.up)
  {
    if |acts| > 0 {
      var a := acts[|acts| - 1];
      RenderSafe(h, acts[..|acts| - 1]);
      var p := if a.Tool? then Point(0.0, 0.0) else a.at;
      BlocksSafe(h, if a.Tool? then a.index else 0, if a.Tool? then a.layer else Glyph(' '), p.x, p.y);
      AppendBlock(Render(h, acts[..|acts| - 1]), Block(h, a), h.up);
    }
  }

  /** Every complete program is safe, and it stops with M2. */
  lemma ProgramSafe(h: Heights, width: real, height: real, generator: string, acts: seq<Action>)
    ensures SafeTravel(Program(h, width, height, generator, acts), h.up)
    ensures Program(h, width, height, generator, acts)[|Program(h, width, height, generator, acts)| - 1] == ProgramEnd
  {
    HeaderSafe(width, height, generator, h.up);
    RenderSafe(h, acts);
    SafeAppend(Header(width, height, generator), Render(h, acts), h.up);
    BlocksSafe(h, 0, Glyph(' '), 0.0, 0.0);
    AppendBlock(Header(width, height, generator) + Render(h, acts), Finish(h), h.up);
  }

  predicate InRect(p: Point, r: Rect)
  {
    r.left <= p.x < r.right && r.bottom <= p.y < r.top
  }

  /** Every ink dip lands inside r. */
  predicate DipsWithin(acts: seq<Action>, r: Rect)
  {
    forall i :: 0 <= i < |acts| && acts[i].Dip? ==> InRect(acts[i].at, r)
  }

  /** Every press comes straight after an ink dip. */
  predicate HitsInked(acts: seq<Action>)
  {
    forall i :: 0 <= i < |acts| && acts[i].Hit? ==> 0 < i && acts[i - 1].Dip?
  }

  function HitOf(a: Action): seq<Point>
  {
    if a.Hit? then [a.at] else []
  }

  function ToolOf(a: Action): seq<(int, Layer)>
  {
    if a.Tool? then [(a.index, a.layer)] else []
  }

  /** The points pressed, in order. */
  function Hits(acts: seq<Action>): seq<Point>
  {
    Concat(HitOf, acts)
  }

  /** The tools installed, in order. */
  function Tools(acts: seq<Action>): seq<(int, Layer)>
  {
    Concat(ToolOf, acts)
  }

  lemma HitsToolsAppend(a: seq<Action>, b: seq<Action>)
    ensures Hits(a + b) == Hits(a) + Hits(b)
    ensures Tools(a + b) == Tools(a) + Tools(b)
  {
    ConcatAppend(HitOf, a, b);
    ConcatAppend(ToolOf, a, b);
  }

  /** A press after at most one dip adds that one point and no tool. */
  lemma PressAfter(front: seq<Action>, dips: seq<Action>, p: Point)
    requires |dips| <= 1 && forall i :: 0 <= i < |dips| ==> dips[i].Dip?
    ensures Hits(front + dips + [Hit(p)]) == Hits(front) + [p]
    ensures Tools(front + dips + [Hit(p)]) == Tools(front)
  {
    assert Hits(dips) == [] && Tools(dips) == [] by {
      if |dips| == 1 {
        ConcatSnoc(HitOf, [], dips[0]);
        ConcatSnoc(ToolOf, [], dips[0]);
        assert [] + [dips[0]] == dips;
      }
    }
    HitsToolsAppend(front, dips);
    ConcatSnoc(HitOf, front + dips, Hit(p));
    ConcatSnoc(ToolOf, front + dips, Hit(p));
  }

  /** A tool change between two runs of actions adds that one tool and no press. */
  lemma ToolBetween(s: seq<Action>, i: int, l: Layer, a: seq<Action>)
    ensures Hits(s + [Tool(i, l)] + a) == Hits(s) + Hits(a)
    ensures Tools(s + [Tool(i, l)] + a) == Tools(s) + [(i, l)] + Tools(a)
  {
    ConcatSnoc(HitOf, s, Tool(i, l));
    ConcatSnoc(ToolOf, s, Tool(i, l));
    HitsToolsAppend(s + [Tool(i, l)], a);
  }

  /** One ink dip then one press per point; the k-th dip uses draws d0 + 2k and d0 + 2k + 1. */
  function InkedPresses(pts: seq<Point>, range: Rect, rand: nat -> Draw, d0: nat): (r: seq<Action>)
    ensures |r| == 2 * |pts|
  {
    if |pts| == 0 then []
    else
      var n := |pts| - 1;
      InkedPresses(pts[..n], range, rand, d0) + [Dip(InkPoint(range, rand(d0 + 2 * n), rand(d0 + 2 * n + 1))), Hit(pts[n])]
  }

  /** Action 2k dips at the ink point of draws d0 + 2k and d0 + 2k + 1; action 2k + 1 presses point k. */
  lemma {:induction false} InkedPressesAt(pts: seq<Point>, range: Rect, rand: nat -> Draw, d0: nat, k: nat)
    requires k < |pts|
    ensures InkedPresses(pts, range, rand, d0)[2 * k] == Dip(InkPoint(range, rand(d0 + 2 * k), rand(d0 + 2 * k + 1)))
    ensures InkedPresses(pts, range, rand, d0)[2 * k + 1] == Hit(pts[k])
  {
    var n := |pts| - 1;
    if k < n {
      InkedPressesAt(pts[..n], range, rand, d0, k);
      assert pts[..n][k] == pts[k];
    }
  }

  lemma {:induction false} InkedPressesHits(pts: seq<Point>, range: Rect, rand: nat -> Draw, d0: nat)
    ensures Hits(InkedPresses(pts, range, rand, d0)) == pts
    ensures Tools(InkedPresses(pts, range, rand, d0)) == []
  {
    if |pts| > 0 {
      var n := |pts| - 1;
      var q := InkedPresses(pts[..n], range, rand, d0);
      InkedPressesHits(pts[..n], range, rand, d0);
      var dip := Dip(InkPoint(range, rand(d0 + 2 * n), rand(d0 + 2 * n + 1)));
      ConcatSnoc(HitOf, q, dip);
      ConcatSnoc(HitOf, q + [dip], Hit(pts[n]));
      ConcatSnoc(ToolOf, q, dip);
      ConcatSnoc(ToolOf, q + [dip], Hit(pts[n]));
      assert q + [dip] + [Hit(pts[n])] == InkedPresses(pts, range, rand, d0);
      assert pts == pts[..n] + [pts[n]];
    }
  }

  lemma {:induction false} InkedPressesShape(pts: seq<Point>, range: Rect, rand: nat -> Draw, d0: nat)
    ensures HitsInked(InkedPresses(pts, range, rand, d0))
    ensures range.left < range.right && range.bottom < range.top ==> DipsWithin(InkedPresses(pts, range, rand, d0), range)
  {
    if |pts| > 0 {
      var n := |pts| - 1;
      var q := InkedPresses(pts[..n], range, rand, d0);
      var tail := [Dip(InkPoint(range, rand(d0 + 2 * n), rand(d0 + 2 * n + 1))), Hit(pts[n])];
      InkedPressesShape(pts[..n], range, rand, d0);
      ShapeAppend(q, tail, range);
    }
  }

  /**
   * The emission every always-inking script performs: for tool i, install it,
   * then dip and press once per point of its group. Draws are consumed two per
   * press, counting across groups.
   */
  function Session(tools: seq<(int, Layer)>, groups: seq<seq<Point>>, range: Rect, rand: nat -> Draw): seq<Action>
    requires |tools| == |groups|
  {
    if |tools| == 0 then []
    else
      var n := |tools| - 1;
      Session(tools[..n], groups[..n], range, rand)
        + [Tool(tools[n].0, tools[n].1)] + InkedPresses(groups[n], range, rand, 2 * |Flatten(groups[..n])|)
  }

  lemma ShapeAppend(a: seq<Action>, b: seq<Action>, r: Rect)
    requires HitsInked(a) && HitsInked(b)
    ensures HitsInked(a + b)
    ensures DipsWithin(a, r) && DipsWithin(b, r) ==> DipsWithin(a + b, r)
  {
    forall i | 0 <= i < |a + b| && (a + b)[i].Hit?
      ensures 0 < i && (a + b)[i - 1].Dip?
    {
      if i < |a| {
        assert (a + b)[i] == a[i];
      } else {
        assert (a + b)[i] == b[i - |a|];
      }
    }
  }

  /** The presses of a session are exactly the group points in order, and the
      tools are installed in the order given. */
  lemma {:induction false} SessionHits(tools: seq<(int, Layer)>, groups: seq<seq<Point>>, range: Rect, rand: nat -> Draw)
    requires |tools| == |groups|
    ensures Hits(Session(tools, groups, range, rand)) == Flatten(groups)
    ensures Tools(Session(tools, groups, range, rand)) == tools
  {
    if |tools| > 0 {
      var n := |tools| - 1;
      var s := Session(tools[..n], groups[..n], range, rand);
      var t := [Tool(tools[n].0, tools[n].1)];
      var ip := InkedPresses(groups[n], range, rand, 2 * |Flatten(groups[..n])|);
      assert Session(tools, groups, range, rand) == s + t + ip;
      SessionHits(tools[..n], groups[..n], range, rand);
      InkedPressesHits(groups[n], range, rand, 2 * |Flatten(groups[..n])|);
      HitsToolsAppend(s, t);
      HitsToolsAppend(s + t, ip);
      assert t[..0] == [];
      assert Hits(t) == [] && Tools(t) == [tools[n]];
      assert tools == tools[..n] + [tools[n]];
      assert groups[..n + 1] == groups;
    }
  }

  /** Every press of a session comes straight after a dip, and every dip lands in the range. */
  lemma {:induction false} SessionShape(tools: seq<(int, Layer)>, groups: seq<seq<Point>>, range: Rect, rand: nat -> Draw)
    requires |tools| == |groups|
    ensures HitsInked(Session(tools, groups, range, rand))
    ensures range.left < range.right && range.bottom < range.top ==> DipsWithin(Session(tools, groups, range, rand), range)
  {
    if |tools| > 0 {
      var n := |tools| - 1;
      var s := Session(tools[..n], groups[..n], range, rand);
      var t := [Tool(tools[n].0, tools[n].1)];
      var ip := InkedPresses(groups[n], range, rand, 2 * |Flatten(groups[..n])|);
      assert Session(tools, groups, range, rand) == s + t + ip;
      SessionShape(tools[..n], groups[..n], range, rand);
      InkedPressesShape(groups[n], range, rand, 2 * |Flatten(groups[..n])|);
      ShapeAppend(s, t, range);
      ShapeAppend(s + t, ip, range);
    }
  }

  lemma Regroup4<T>(a: seq<T>, b: seq<T>, c: seq<T>, d: seq<T>)
    ensures a + b + c + d == a + (b + c + d)
  {
  }

  lemma PressStep(h: Heights, pts: seq<Point>, j: nat, range: Rect, rand: nat -> Draw, d0: nat)
    requires j < |pts|
    ensures Render(h, InkedPresses(pts[..j + 1], range, rand, d0))
         == Render(h, InkedPresses(pts[..j], range, rand, d0))
            + InkDip(h, InkPoint(range, rand(d0 + 2 * j), rand(d0 + 2 * j + 1)).x,
                        InkPoint(range, rand(d0 + 2 * j), rand(d0 + 2 * j + 1)).y)
            + Press(h, pts[j].x, pts[j].y)
  {
    var ink := InkPoint(range, rand(d0 + 2 * j), rand(d0 + 2 * j + 1));
    assert pts[..j + 1][..j] == pts[..j];
    var before := InkedPresses(pts[..j], range, rand, d0);
    assert InkedPresses(pts[..j + 1], range, rand, d0) == before + [Dip(ink)] + [Hit(pts[j])];
    RenderSnoc(h, before + [Dip(ink)], Hit(pts[j]));
    RenderSnoc(h, before, Dip(ink));
  }

  lemma SessionStep(tools: seq<(int, Layer)>, groups: seq<seq<Point>>, i: nat, range: Rect, rand: nat -> Draw)
    requires |tools| == |groups| && i < |tools|
    ensures Session(tools[..i + 1], groups[..i + 1], range, rand)
         == Session(tools[..i], groups[..i], range, rand) + [Tool(tools[i].0, tools[i].1)]
            + InkedPresses(groups[i], range, rand, 2 * |Flatten(groups[..i])|)
    ensures |Flatten(groups[..i + 1])| == |Flatten(groups[..i])| + |groups[i]|
  {
    assert tools[..i + 1][..i] == tools[..i] && groups[..i + 1][..i] == groups[..i];
  }

  /** One group's presses (the inner forEach): per point, two draws, a dip and a press. */
  method EmitGroup(h: Heights, pts: seq<Point>, range: Rect, rand: nat -> Draw, d0: nat, gcode0: seq<Cmd>)
    returns (gcode: seq<Cmd>)
    ensures gcode == gcode0 + Render(h, InkedPresses(pts, range, rand, d0))
  {
    gcode := gcode0;
    var j := 0;
    while j < |pts|
      invariant j <= |pts|
      invariant gcode == gcode0 + Render(h, InkedPresses(pts[..j], range, rand, d0))
    {
      var ink := InkPoint(range, rand(d0 + 2 * j), rand(d0 + 2 * j + 1));
      PressStep(h, pts, j, range, rand, d0);
      Regroup4(gcode0, Render(h, InkedPresses(pts[..j], range, rand, d0)), InkDip(h, ink.x, ink.y), Press(h, pts[j].x, pts[j].y));
      gcode := gcode + InkDip(h, ink.x, ink.y);
      gcode := gcode + Press(h, pts[j].x, pts[j].y);
      j := j + 1;
    }
    assert pts[..j] == pts;
  }

  /** The session loop written out: per tool, install it, then run its group;
      the gcode grows by one block per helper call. */
  method EmitSession(h: Heights, tools: seq<(int, Layer)>, groups: seq<seq<Point>>, range: Rect,
                     rand: nat -> Draw, gcode0: seq<Cmd>) returns (gcode: seq<Cmd>)
    requires |tools| == |groups|
    ensures gcode == gcode0 + Render(h, Session(tools, groups, range, rand))
  {
    gcode := gcode0;
    var draw := 0;
    var i := 0;
    while i < |tools|
      invariant i <= |tools|
      invariant draw == 2 * |Flatten(groups[..i])|
      invariant gcode == gcode0 + Render(h, Session(tools[..i], groups[..i], range, rand))
    {
      SessionStep(tools, groups, i, range, rand);
      var done := Session(tools[..i], groups[..i], range, rand);
      var t := Tool(tools[i].0, tools[i].1);
      RenderSnoc(h, done, t);
      RenderAppend(h, done + [t], InkedPresses(groups[i], range, rand, draw));
      Regroup4(gcode0, Render(h, done), ToolChange(h, tools[i].0, tools[i].1),
               Render(h, InkedPresses(groups[i], range, rand, draw)));
      gcode := gcode + ToolChange(h, tools[i].0, tools[i].1);
      gcode := EmitGroup(h, groups[i], range, rand, draw, gcode);
      draw := draw + 2 * |groups[i]|;
      i := i + 1;
    }
    assert tools[..i] == tools && groups[..i] == groups;
  }
}
