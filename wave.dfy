/**
 * The wave-stepped layout of love-notes/makeDesign.js and aaaaaggggh/index.js:
 * stamps march along a line in steps of stampOffset * stepMod, stepMod being
 * the injected sine modulation in [1, 2]; once a step crosses the right edge
 * the line closes, y moves down one line height, and the overshoot past the
 * edge is carried into the start of the next line. Placement n (counting
 * across lines) takes letter letterAt(n) and step modulation step(n).
 */
module Wave {
  import opened Grouping
  import opened Stamping

  /** One stamp placement: its letter and the centre of the stamp. */
  datatype Mark = Mark(letter: char, x: real, y: real)

  /** The layout constants: start = border + stampSize / 2, edges = page - border - stampSize / 2. */
  datatype Geometry = Geometry(startX: real, startY: real, rightEdge: real, bottomEdge: real,
                               stampOffset: real, lineHeight: real)

  /** The measure of the layout loops: whole units left before x reaches edge. */
  function Remaining(edge: real, x: real): nat
  {
    if x < edge then (edge - x).Floor + 1 else 0
  }

  /** Moving on by at least one unit takes a loop measure down. */
  lemma LineDecreases(edge: real, y: real, h: real)
    requires h >= 1.0 && y < edge
    ensures Remaining(edge, y + h) < Remaining(edge, y)
  {
  }

  /** A step of at least one unit takes the loop measure down. */
  lemma StepDecreases(edge: real, x: real, d: real, s: real)
    requires d >= 1.0 && s >= 1.0 && x < edge
    ensures Remaining(edge, x + d * s) < Remaining(edge, x)
  {
    MulNonneg(d - 1.0, s - 1.0);
    assert d * s >= 1.0;
    LineDecreases(edge, x, d * s);
  }

  /** The stamps of one line, from x with placement number n. */
  function LineFrom(g: Geometry, letterAt: nat -> char, step: nat -> StepMod, x: real, y: real, n: nat): seq<Mark>
    requires g.stampOffset >= 1.0
    decreases Remaining(g.rightEdge, x)
  {
    if x >= g.rightEdge then []
    else
      StepDecreases(g.rightEdge, x, g.stampOffset, step(n));
      [Mark(letterAt(n), x, y)] + LineFrom(g, letterAt, step, x + g.stampOffset * step(n), y, n + 1)
  }

  /** The x reached when the line closes: the first step at or past the right edge. */
  function EndX(g: Geometry, step: nat -> StepMod, x: real, n: nat): real
    requires g.stampOffset >= 1.0
    decreases Remaining(g.rightEdge, x)
  {
    if x >= g.rightEdge then x
    else
      StepDecreases(g.rightEdge, x, g.stampOffset, step(n));
      EndX(g, step, x + g.stampOffset * step(n), n + 1)
  }

  /** One step of a line: the stamp at x, then the line from the next step. */
  lemma LineStep(g: Geometry, letterAt: nat -> char, step: nat -> StepMod, x: real, y: real, n: nat)
    requires g.stampOffset >= 1.0 && x < g.rightEdge
    ensures LineFrom(g, letterAt, step, x, y, n)
         == [Mark(letterAt(n), x, y)] + LineFrom(g, letterAt, step, x + g.stampOffset * step(n), y, n + 1)
    ensures EndX(g, step, x, n) == EndX(g, step, x + g.stampOffset * step(n), n + 1)
  {
  }

  /** The lines from the one starting at (x, y) with placement number n. */
  function WaveFrom(g: Geometry, letterAt: nat -> char, step: nat -> StepMod, x: real, y: real, n: nat): seq<seq<Mark>>
    requires g.stampOffset >= 1.0 && g.lineHeight >= 1.0
    decreases Remaining(g.bottomEdge, y)
  {
    if y >= g.bottomEdge then []
    else
      var line := LineFrom(g, letterAt, step, x, y, n);
      LineDecreases(g.bottomEdge, y, g.lineHeight);
      [line] + WaveFrom(g, letterAt, step, g.startX + (EndX(g, step, x, n) - g.rightEdge), y + g.lineHeight, n + |line|)
  }

  /** The whole page. */
  function Wave(g: Geometry, letterAt: nat -> char, step: nat -> StepMod): seq<seq<Mark>>
    requires g.stampOffset >= 1.0 && g.lineHeight >= 1.0
  {
    WaveFrom(g, letterAt, step, g.startX, g.startY, 0)
  }

  /** One turn of the inner loop keeps the line built so far a prefix of the whole line. */
  lemma FillStep(g: Geometry, letterAt: nat -> char, step: nat -> StepMod, line: seq<Mark>,
                 x: real, y: real, n: nat, whole: seq<Mark>)
    requires g.stampOffset >= 1.0 && x < g.rightEdge
    requires line + LineFrom(g, letterAt, step, x, y, n) == whole
    ensures line + [Mark(letterAt(n), x, y)] + LineFrom(g, letterAt, step, x + g.stampOffset * step(n), y, n + 1) == whole
    ensures EndX(g, step, x + g.stampOffset * step(n), n + 1) == EndX(g, step, x, n)
    ensures Remaining(g.rightEdge, x + g.stampOffset * step(n)) < Remaining(g.rightEdge, x)
  {
    StepDecreases(g.rightEdge, x, g.stampOffset, step(n));
    LineStep(g, letterAt, step, x, y, n);
    Regroup3(line, [Mark(letterAt(n), x, y)], LineFrom(g, letterAt, step, x + g.stampOffset * step(n), y, n + 1));
  }

  /** The inner loop: place stamps from x0 until a step crosses the right edge. */
  method FillLine(g: Geometry, letterAt: nat -> char, step: nat -> StepMod, x0: real, y: real, base: nat)
    returns (line: seq<Mark>, x: real)
    requires g.stampOffset >= 1.0
    ensures line == LineFrom(g, letterAt, step, x0, y, base)
    ensures x == EndX(g, step, x0, base)
  {
    line := [];
    x := x0;
    var counter: nat := base;
    while x < g.rightEdge
      invariant line + LineFrom(g, letterAt, step, x, y, counter) == LineFrom(g, letterAt, step, x0, y, base)
      invariant EndX(g, step, x, counter) == EndX(g, step, x0, base)
      decreases Remaining(g.rightEdge, x)
    {
      FillStep(g, letterAt, step, line, x, y, counter, LineFrom(g, letterAt, step, x0, y, base));
      line := line + [Mark(letterAt(counter), x, y)];
      x := x + g.stampOffset * step(counter);
      counter := counter + 1;
    }
    assert line + [] == line;
  }

  lemma Regroup3<T>(a: seq<T>, b: seq<T>, c: seq<T>)
    ensures a + b + c == a + (b + c)
  {
  }

  /** One turn of the outer loop keeps the lines built so far a prefix of the page. */
  lemma LayoutStep(g: Geometry, letterAt: nat -> char, step: nat -> StepMod, lines: seq<seq<Mark>>,
                   x: real, y: real, n: nat)
    requires g.stampOffset >= 1.0 && g.lineHeight >= 1.0 && y < g.bottomEdge
    requires lines + WaveFrom(g, letterAt, step, x, y, n) == Wave(g, letterAt, step)
    ensures var line := LineFrom(g, letterAt, step, x, y, n);
      lines + [line] + WaveFrom(g, letterAt, step, g.startX + (EndX(g, step, x, n) - g.rightEdge), y + g.lineHeight, n + |line|)
        == Wave(g, letterAt, step)
  {
    WaveStep(g, letterAt, step, x, y, n);
    var line := LineFrom(g, letterAt, step, x, y, n);
    Regroup3(lines, [line], WaveFrom(g, letterAt, step, g.startX + (EndX(g, step, x, n) - g.rightEdge), y + g.lineHeight, n + |line|));
  }

  /** Past the bottom edge the page has no more lines. */
  lemma LayoutDone(g: Geometry, letterAt: nat -> char, step: nat -> StepMod, lines: seq<seq<Mark>>,
                   x: real, y: real, n: nat)
    requires g.stampOffset >= 1.0 && g.lineHeight >= 1.0 && y >= g.bottomEdge
    requires lines + WaveFrom(g, letterAt, step, x, y, n) == Wave(g, letterAt, step)
    ensures lines == Wave(g, letterAt, step)
  {
    assert lines + [] == lines;
  }

  /** The two nested while loops of the layout. */
  method Layout(g: Geometry, letterAt: nat -> char, step: nat -> StepMod) returns (lines: seq<seq<Mark>>)
    requires g.stampOffset >= 1.0 && g.lineHeight >= 1.0
    ensures lines == Wave(g, letterAt, step)
  {
    lines := [];
    var x := g.startX;
    var y := g.startY;
    var counter: nat := 0;
    while y < g.bottomEdge
      invariant lines + WaveFrom(g, letterAt, step, x, y, counter) == Wave(g, letterAt, step)
      decreases Remaining(g.bottomEdge, y)
    {
      var line, xEnd := FillLine(g, letterAt, step, x, y, counter);
      LineDecreases(g.bottomEdge, y, g.lineHeight);
      LayoutStep(g, letterAt, step, lines, x, y, counter);
      y := y + g.lineHeight;
      x := g.startX + (xEnd - g.rightEdge);
      counter := counter + |line|;
      lines := lines + [line];
    }
    LayoutDone(g, letterAt, step, lines, x, y, counter);
  }

  /** Within a line the letters come from the stream in order, y is fixed
      and every stamp lies left of the right edge. */
  lemma {:induction false} LineMarks(g: Geometry, letterAt: nat -> char, step: nat -> StepMod, x: real, y: real, n: nat)
    requires g.stampOffset >= 1.0
    ensures var l := LineFrom(g, letterAt, step, x, y, n);
      && (forall k :: 0 <= k < |l| ==> l[k].letter == letterAt(n + k) && l[k].y == y && l[k].x < g.rightEdge)
      && (|l| > 0 ==> l[0].x == x)
    decreases Remaining(g.rightEdge, x)
  {
    if x < g.rightEdge {
      StepDecreases(g.rightEdge, x, g.stampOffset, step(n));
      var x' := x + g.stampOffset * step(n);
      LineMarks(g, letterAt, step, x', y, n + 1);
      LineStep(g, letterAt, step, x, y, n);
      var l := LineFrom(g, letterAt, step, x, y, n);
      var r := LineFrom(g, letterAt, step, x', y, n + 1);
      forall k | 0 < k < |l|
        ensures l[k] == r[k - 1]
      {
      }
    }
  }

  /** Each mark of l lies off * step(n + k) right of the one before it. */
  predicate SpacedFrom(l: seq<Mark>, off: real, step: nat -> StepMod, n: nat)
  {
    forall k :: 0 <= k < |l| - 1 ==> l[k + 1].x == l[k].x + off * step(n + k)
  }

  /** A mark in front of a spaced line starting one step to its right. */
  lemma SpacingCons(l: seq<Mark>, m: Mark, r: seq<Mark>, off: real, step: nat -> StepMod, n: nat)
    requires l == [m] + r
    requires |r| > 0 ==> r[0].x == m.x + off * step(n)
    requires SpacedFrom(r, off, step, n + 1)
    ensures SpacedFrom(l, off, step, n)
  {
    forall k | 0 <= k < |l| - 1
      ensures l[k + 1].x == l[k].x + off * step(n + k)
    {
      if k > 0 {
        assert l[k + 1] == r[k] && l[k] == r[k - 1];
        assert n + 1 + (k - 1) == n + k;
      }
    }
  }

  /** Each stamp of a line lies stampOffset * stepMod right of the one before. */
  lemma {:induction false} LineSpacing(g: Geometry, letterAt: nat -> char, step: nat -> StepMod, x: real, y: real, n: nat)
    requires g.stampOffset >= 1.0
    ensures SpacedFrom(LineFrom(g, letterAt, step, x, y, n), g.stampOffset, step, n)
    decreases Remaining(g.rightEdge, x)
  {
    if x < g.rightEdge {
      StepDecreases(g.rightEdge, x, g.stampOffset, step(n));
      var x' := x + g.stampOffset * step(n);
      LineSpacing(g, letterAt, step, x', y, n + 1);
      LineMarks(g, letterAt, step, x', y, n + 1);
      LineStep(g, letterAt, step, x, y, n);
      SpacingCons(LineFrom(g, letterAt, step, x, y, n), Mark(letterAt(n), x, y), LineFrom(g, letterAt, step, x', y, n + 1),
                  g.stampOffset, step, n);
    }
  }

  /** The line closes on the first step that reaches the right edge: EndX is
      one step past the last stamp (or x itself for an empty line) and is at
      or past the edge. */
  lemma {:induction false} LineEnd(g: Geometry, letterAt: nat -> char, step: nat -> StepMod, x: real, y: real, n: nat)
    requires g.stampOffset >= 1.0
    ensures var l := LineFrom(g, letterAt, step, x, y, n);
      && (|l| > 0 ==> EndX(g, step, x, n) == l[|l| - 1].x + g.stampOffset * step(n + |l| - 1))
      && (|l| == 0 <==> x >= g.rightEdge)
      && (|l| == 0 ==> EndX(g, step, x, n) == x)
      && EndX(g, step, x, n) >= g.rightEdge
    decreases Remaining(g.rightEdge, x)
  {
    if x < g.rightEdge {
      StepDecreases(g.rightEdge, x, g.stampOffset, step(n));
      var x' := x + g.stampOffset * step(n);
      LineEnd(g, letterAt, step, x', y, n + 1);
      LineStep(g, letterAt, step, x, y, n);
      var l := LineFrom(g, letterAt, step, x, y, n);
      var r := LineFrom(g, letterAt, step, x', y, n + 1);
      if |r| > 0 {
        assert l[|l| - 1] == r[|r| - 1];
      }
    }
  }

  /** The overshoot carried to the next line is below two stamp offsets. */
  lemma CarryBound(g: Geometry, letterAt: nat -> char, step: nat -> StepMod, x: real, y: real, n: nat)
    requires g.stampOffset >= 1.0 && x < g.rightEdge
    ensures g.rightEdge <= EndX(g, step, x, n) < g.rightEdge + 2.0 * g.stampOffset
  {
    LineEnd(g, letterAt, step, x, y, n);
    LineMarks(g, letterAt, step, x, y, n);
    var l := LineFrom(g, letterAt, step, x, y, n);
    var s: real := step(n + |l| - 1);
    MulNonneg(g.stampOffset, 2.0 - s);
  }

  /** One turn of the outer loop: the current line, then the page from the next line. */
  lemma WaveStep(g: Geometry, letterAt: nat -> char, step: nat -> StepMod, x: real, y: real, n: nat)
    requires g.stampOffset >= 1.0 && g.lineHeight >= 1.0 && y < g.bottomEdge
    ensures var line := LineFrom(g, letterAt, step, x, y, n);
      WaveFrom(g, letterAt, step, x, y, n)
        == [line] + WaveFrom(g, letterAt, step, g.startX + (EndX(g, step, x, n) - g.rightEdge), y + g.lineHeight, n + |line|)
  {
  }

  /** Line j of the page lies j line heights below the first and above the bottom edge. */
  lemma {:induction false} WaveRows(g: Geometry, letterAt: nat -> char, step: nat -> StepMod, x: real, y: real, n: nat)
    requires g.stampOffset >= 1.0 && g.lineHeight >= 1.0
    ensures RowsAt(WaveFrom(g, letterAt, step, x, y, n), y, g.lineHeight, g.bottomEdge)
    decreases Remaining(g.bottomEdge, y)
  {
    if y < g.bottomEdge {
      var line := LineFrom(g, letterAt, step, x, y, n);
      var x' := g.startX + (EndX(g, step, x, n) - g.rightEdge);
      var y' := y + g.lineHeight;
      LineDecreases(g.bottomEdge, y, g.lineHeight);
      WaveRows(g, letterAt, step, x', y', n + |line|);
      LineMarks(g, letterAt, step, x, y, n);
      WaveStep(g, letterAt, step, x, y, n);
      RowsCons(WaveFrom(g, letterAt, step, x, y, n), line, WaveFrom(g, letterAt, step, x', y', n + |line|),
               y, g.lineHeight, g.bottomEdge);
    }
  }

  /** Line j of w lies j steps of h below y, and every line above bottom. */
  predicate RowsAt(w: seq<seq<Mark>>, y: real, h: real, bottom: real)
  {
    forall j, k :: 0 <= j < |w| && 0 <= k < |w[j]| ==> w[j][k].y == y + j as real * h && w[j][k].y < bottom
  }

  /** Putting a line at y (above the bottom edge) in front of lines stepped from y + h. */
  lemma RowsCons(w: seq<seq<Mark>>, line: seq<Mark>, rest: seq<seq<Mark>>, y: real, h: real, bottom: real)
    requires w == [line] + rest
    requires y < bottom && forall k :: 0 <= k < |line| ==> line[k].y == y
    requires RowsAt(rest, y + h, h, bottom)
    ensures RowsAt(w, y, h, bottom)
  {
    forall j, k | 0 <= j < |w| && 0 <= k < |w[j]|
      ensures w[j][k].y == y + j as real * h && w[j][k].y < bottom
    {
      if j > 0 {
        assert w[j] == rest[j - 1];
        assert (y + h) + (j - 1) as real * h == y + j as real * h;
      }
    }
  }

  /** On a page at least two stamp offsets wide every line holds a stamp, and
      every line but the first starts at startX plus an overshoot below two
      stamp offsets. */
  lemma {:induction false} WaveStarts(g: Geometry, letterAt: nat -> char, step: nat -> StepMod, x: real, y: real, n: nat)
    requires g.stampOffset >= 1.0 && g.lineHeight >= 1.0
    requires g.startX + 2.0 * g.stampOffset <= g.rightEdge && x < g.rightEdge
    ensures var w := WaveFrom(g, letterAt, step, x, y, n);
      && (forall j :: 0 <= j < |w| ==> |w[j]| > 0)
      && (forall j :: 0 < j < |w| ==> g.startX <= w[j][0].x < g.startX + 2.0 * g.stampOffset)
    decreases Remaining(g.bottomEdge, y)
  {
    if y < g.bottomEdge {
      var line := LineFrom(g, letterAt, step, x, y, n);
      var x' := g.startX + (EndX(g, step, x, n) - g.rightEdge);
      var y' := y + g.lineHeight;
      LineDecreases(g.bottomEdge, y, g.lineHeight);
      CarryBound(g, letterAt, step, x, y, n);
      WaveStarts(g, letterAt, step, x', y', n + |line|);
      WaveStep(g, letterAt, step, x, y, n);
      LineEnd(g, letterAt, step, x, y, n);
      LineMarks(g, letterAt, step, x', y', n + |line|);
      LineEnd(g, letterAt, step, x', y', n + |line|);
      var w: seq<seq<Mark>> := WaveFrom(g, letterAt, step, x, y, n);
      var rest: seq<seq<Mark>> := WaveFrom(g, letterAt, step, x', y', n + |line|);
      forall j | 0 < j < |w|
        ensures |w[j]| > 0 && g.startX <= w[j][0].x < g.startX + 2.0 * g.stampOffset
      {
        assert w[j] == rest[j - 1];
      }
    }
  }

  /** The page stops at the first line height that reaches the bottom edge. */
  lemma {:induction false} WaveCovers(g: Geometry, letterAt: nat -> char, step: nat -> StepMod, x: real, y: real, n: nat)
    requires g.stampOffset >= 1.0 && g.lineHeight >= 1.0
    ensures var w := WaveFrom(g, letterAt, step, x, y, n);
      && y + |w| as real * g.lineHeight >= g.bottomEdge
      && (|w| > 0 ==> y + (|w| as real - 1.0) * g.lineHeight < g.bottomEdge)
    decreases Remaining(g.bottomEdge, y)
  {
    if y < g.bottomEdge {
      var line := LineFrom(g, letterAt, step, x, y, n);
      var x' := g.startX + (EndX(g, step, x, n) - g.rightEdge);
      var y' := y + g.lineHeight;
      LineDecreases(g.bottomEdge, y, g.lineHeight);
      WaveCovers(g, letterAt, step, x', y', n + |line|);
      WaveStep(g, letterAt, step, x, y, n);
      var rest := WaveFrom(g, letterAt, step, x', y', n + |line|);
      assert y' + |rest| as real * g.lineHeight == y + (|rest| as real + 1.0) * g.lineHeight;
      assert y' + (|rest| as real - 1.0) * g.lineHeight == y + |rest| as real * g.lineHeight;
    }
  }
  /** A laid line: its letters from `letters`, every stamp left of the right
      edge, and each step between one and two stamp offsets. */
  ghost predicate Paced(l: seq<Mark>, g: Geometry, letters: set<char>)
  {
    && (forall k :: 0 <= k < |l| ==> l[k].letter in letters && l[k].x < g.rightEdge)
    && (forall k :: 0 <= k < |l| - 1 ==> l[k].x + g.stampOffset <= l[k + 1].x <= l[k].x + 2.0 * g.stampOffset)
  }

  /** A step of stampOffset * stepMod lies between one and two stamp offsets. */
  lemma StepBounds(off: real, s: StepMod)
    requires off >= 0.0
    ensures off <= off * s <= 2.0 * off
  {
    MulNonneg(off, s - 1.0);
    MulNonneg(off, 2.0 - s);
  }

  /** Every line the layout draws is paced. */
  lemma LinePaced(g: Geometry, letterAt: nat -> char, step: nat -> StepMod, x: real, y: real, n: nat, letters: set<char>)
    requires g.stampOffset >= 1.0
    requires forall m: nat :: letterAt(m) in letters
    ensures Paced(LineFrom(g, letterAt, step, x, y, n), g, letters)
  {
    var l := LineFrom(g, letterAt, step, x, y, n);
    LineMarks(g, letterAt, step, x, y, n);
    LineSpacing(g, letterAt, step, x, y, n);
    forall k | 0 <= k < |l| - 1
      ensures l[k].x + g.stampOffset <= l[k + 1].x <= l[k].x + 2.0 * g.stampOffset
    {
      var s := step(n + k);
      assert l[k + 1].x == l[k].x + g.stampOffset * s;
      StepBounds(g.stampOffset, s);
    }
  }

  /** Every line of the page is paced. */
  lemma {:induction false} WavePaced(g: Geometry, letterAt: nat -> char, step: nat -> StepMod, x: real, y: real, n: nat,
                                     letters: set<char>)
    requires g.stampOffset >= 1.0 && g.lineHeight >= 1.0
    requires forall m: nat :: letterAt(m) in letters
    ensures var w := WaveFrom(g, letterAt, step, x, y, n); forall j :: 0 <= j < |w| ==> Paced(w[j], g, letters)
    decreases Remaining(g.bottomEdge, y)
  {
    if y < g.bottomEdge {
      var line := LineFrom(g, letterAt, step, x, y, n);
      var x' := g.startX + (EndX(g, step, x, n) - g.rightEdge);
      var y' := y + g.lineHeight;
      LineDecreases(g.bottomEdge, y, g.lineHeight);
      WavePaced(g, letterAt, step, x', y', n + |line|, letters);
      LinePaced(g, letterAt, step, x, y, n, letters);
      WaveStep(g, letterAt, step, x, y, n);
      var w := WaveFrom(g, letterAt, step, x, y, n);
      var rest := WaveFrom(g, letterAt, step, x', y', n + |line|);
      forall j | 0 < j < |w|
        ensures Paced(w[j], g, letters)
      {
        assert w[j] == rest[j - 1];
      }
    }
  }

  /** A line starting k steps of two stamp offsets short of the right edge
      holds more than k stamps. */
  lemma {:induction false} LineAtLeast(g: Geometry, letterAt: nat -> char, step: nat -> StepMod, x: real, y: real, n: nat, k: nat)
    requires g.stampOffset >= 1.0 && x + k as real * (2.0 * g.stampOffset) < g.rightEdge
    ensures |LineFrom(g, letterAt, step, x, y, n)| > k
    decreases k
  {
    MulNonneg(k as real, 2.0 * g.stampOffset);
    LineStep(g, letterAt, step, x, y, n);
    if k > 0 {
      StepBounds(g.stampOffset, step(n));
      assert (k - 1) as real * (2.0 * g.stampOffset) + 2.0 * g.stampOffset == k as real * (2.0 * g.stampOffset);
      LineAtLeast(g, letterAt, step, x + g.stampOffset * step(n), y, n + 1, k - 1);
    }
  }

  /** When the first line and every carried start leave room for k steps of
      two stamp offsets, every line of the page holds more than k stamps. */
  lemma {:induction false} WaveLong(g: Geometry, letterAt: nat -> char, step: nat -> StepMod, x: real, y: real, n: nat, k: nat)
    requires g.stampOffset >= 1.0 && g.lineHeight >= 1.0
    requires x + k as real * (2.0 * g.stampOffset) < g.rightEdge
    requires g.startX + (k as real + 1.0) * (2.0 * g.stampOffset) <= g.rightEdge
    ensures var w := WaveFrom(g, letterAt, step, x, y, n); forall j :: 0 <= j < |w| ==> |w[j]| > k
    decreases Remaining(g.bottomEdge, y)
  {
    if y < g.bottomEdge {
      var line := LineFrom(g, letterAt, step, x, y, n);
      var x' := g.startX + (EndX(g, step, x, n) - g.rightEdge);
      var y' := y + g.lineHeight;
      MulNonneg(k as real, 2.0 * g.stampOffset);
      LineDecreases(g.bottomEdge, y, g.lineHeight);
      CarryBound(g, letterAt, step, x, y, n);
      assert x' + k as real * (2.0 * g.stampOffset) < g.startX + (k as real + 1.0) * (2.0 * g.stampOffset);
      LineAtLeast(g, letterAt, step, x, y, n, k);
      WaveLong(g, letterAt, step, x', y', n + |line|, k);
      WaveStep(g, letterAt, step, x, y, n);
      var w := WaveFrom(g, letterAt, step, x, y, n);
      var rest := WaveFrom(g, letterAt, step, x', y', n + |line|);
      forall j | 0 < j < |w|
        ensures |w[j]| > k
      {
        assert w[j] == rest[j - 1];
      }
    }
  }
}
