/**
 * What 10mm/makeDesign1.js promises about its layout and toolpath, proved
 * about the LetterRows model: lines pitched by their letters' widths and
 * centred between the first and the last letter's start, one draw per
 * letter, lines stacked by the line height, and a toolpath that presses
 * every placement exactly once, tool by tool in possibleChars order.
 */
module LetterRowsFacts {
  import opened Wrappers
  import opened GCode
  import opened Grouping
  import opened Stamping
  import opened Emission
  import opened Placements
  import opened LetterRows

  // ---------------------------------------------------------------- lines

  lemma {:induction false} MovedPitched(dz: Design, es: seq<Entry>, off: real, x: real, xEnd: real)
    requires Pitched(dz, es, x, xEnd)
    ensures Pitched(dz, Moved(es, off), x + off, xEnd + off)
    decreases |es|
  {
    if |es| > 0 {
      MovedPitched(dz, es[1..], off, x + dz.widths[es[0].letter], xEnd);
      assert Moved(es, off)[1..] == Moved(es[1..], off);
    }
  }

  /** A laid line: nonempty, letters of possibleChars on line y, pitched by
      their widths, and its first and last letter starts symmetric about the
      middle of the paper. */
  ghost predicate LaidLine(dz: Design, l: seq<Entry>, y: real)
  {
    && |l| > 0
    && (forall i :: 0 <= i < |l| ==> l[i].letter in dz.possible && l[i].y == y)
    && (exists xEnd :: Pitched(dz, l, l[0].x, xEnd))
    && l[0].x + l[|l| - 1].x == dz.width
  }

  /** A line is its fill shifted uniformly by half of what the paper leaves
      beside the start of its last letter, and it is laid. */
  lemma LineLaid(dz: Design, rand: nat -> Draw, y: real, d: nat)
    requires Sound(dz)
    ensures var f := RowFill(dz, rand, y, d);
      && |f.entries| > 0
      && Line(dz, rand, y, d).entries == Moved(f.entries, (dz.width - f.entries[|f.entries| - 1].x) / 2.0)
      && LaidLine(dz, Line(dz, rand, y, d).entries, y)
      && Line(dz, rand, y, d).next == d + |Line(dz, rand, y, d).entries|
  {
    var f := RowFill(dz, rand, y, d);
    FillFacts(dz, rand, y, 0.0, d);
    PitchedLast(dz, f.entries, 0.0, f.x);
    var off := (dz.width - f.entries[|f.entries| - 1].x) / 2.0;
    var l := Moved(f.entries, off);
    MovedPitched(dz, f.entries, off, 0.0, f.x);
    assert l[0].x == off;
  }

  /** What the line loop needs of a line: it is laid, and it read one draw per letter. */
  lemma LineDraws(dz: Design, rand: nat -> Draw, y: real, d: nat)
    requires Sound(dz)
    ensures LaidLine(dz, Line(dz, rand, y, d).entries, y)
    ensures Line(dz, rand, y, d).next == d + |Line(dz, rand, y, d).entries|
  {
    LineLaid(dz, rand, y, d);
  }

  /** Every line of the first k: line j laid at LineY(j), which LineYAt
      puts at yOffset + j * lineHeight. */
  ghost predicate Stacked(dz: Design, lines: seq<seq<Entry>>)
    requires dz.lineHeight > 0.0
  {
    forall j :: 0 <= j < |lines| ==> LaidLine(dz, lines[j], LineY(SheetOf(dz), j))
  }

  /** The line loop reads exactly one draw per letter placed. */
  lemma {:induction false} LinesCount(dz: Design, rand: nat -> Draw, k: nat)
    requires Sound(dz)
    ensures |LinesUpTo(dz, rand, k).lines| == k
    ensures LinesUpTo(dz, rand, k).next == |Flatten(LinesUpTo(dz, rand, k).lines)|
  {
    if k > 0 {
      LinesCount(dz, rand, k - 1);
      var l := LinesUpTo(dz, rand, k - 1);
      var r := Line(dz, rand, LineY(SheetOf(dz), k - 1), l.next);
      LineDraws(dz, rand, LineY(SheetOf(dz), k - 1), l.next);
      FlattenSnoc(l.lines, r.entries);
    }
  }

  /** One more laid line at the next height keeps the lines stacked. */
  lemma StackedSnoc(dz: Design, lines: seq<seq<Entry>>, l: seq<Entry>, y: real)
    requires dz.lineHeight > 0.0 && Stacked(dz, lines) && y == LineY(SheetOf(dz), |lines|) && LaidLine(dz, l, y)
    ensures Stacked(dz, lines + [l])
  {
    var sh := SheetOf(dz);
    forall j | 0 <= j < |lines| + 1
      ensures LaidLine(dz, (lines + [l])[j], LineY(sh, j))
    {
      if j < |lines| {
        assert (lines + [l])[j] == lines[j];
      }
    }
  }

  /** The line loop: each of the first k lines laid at its height. */
  lemma {:induction false} LinesAt(dz: Design, rand: nat -> Draw, k: nat)
    requires Sound(dz)
    ensures Stacked(dz, LinesUpTo(dz, rand, k).lines)
  {
    if k > 0 {
      LinesAt(dz, rand, k - 1);
      LinesCount(dz, rand, k - 1);
      var l := LinesUpTo(dz, rand, k - 1);
      var y := LineY(SheetOf(dz), k - 1);
      var r := Line(dz, rand, y, l.next);
      LineDraws(dz, rand, y, l.next);
      StackedSnoc(dz, l.lines, r.entries, y);
    }
  }

  // ---------------------------------------------------------------- toolpath

  /** The placements of the whole layout, in row-major order. */
  function AllPlacements(dz: Design, rand: nat -> Draw): seq<(char, Point)>
    requires Sound(dz)
  {
    Pairs(Flatten(LinesUpTo(dz, rand, LineCount(SheetOf(dz))).lines))
  }

  /** Every placement is of a letter of possibleChars. */
  lemma PlacedPossible(dz: Design, rand: nat -> Draw)
    requires Sound(dz)
    ensures forall i :: 0 <= i < |AllPlacements(dz, rand)| ==> AllPlacements(dz, rand)[i].0 in dz.possible
  {
    var lines := LinesUpTo(dz, rand, LineCount(SheetOf(dz))).lines;
    LinesAt(dz, rand, LineCount(SheetOf(dz)));
    forall i | 0 <= i < |AllPlacements(dz, rand)|
      ensures AllPlacements(dz, rand)[i].0 in dz.possible
    {
      FlattenIndex(lines, i);
      var j, k :| 0 <= j < |lines| && 0 <= k < |lines[j]| && lines[j][k] == Flatten(lines)[i];
      assert LaidLine(dz, lines[j], LineY(SheetOf(dz), j));
    }
  }

  /** The script stops exactly when a letter of possibleChars was never
      drawn, naming the first such letter. */
  lemma OutputFails(dz: Design, rand: nat -> Draw)
    requires Sound(dz)
    ensures var ps := AllPlacements(dz, rand);
      && (Output(dz, rand).Err? <==> exists i :: 0 <= i < |dz.possible| && dz.possible[i] !in Tags(ps))
      && (Output(dz, rand).Err? ==>
            exists i :: 0 <= i < |dz.possible| && Output(dz, rand).error == Unplaced(dz.possible[i])
                        && dz.possible[i] !in Tags(ps) && forall j :: 0 <= j < i ==> dz.possible[j] in Tags(ps))
  {
  }

  /** A finished toolpath: the header, one tool per letter of possibleChars
      numbered by its position, the presses being every placement exactly
      once (each letter's positions in row order, sent through the press
      transform), each press after an ink dip inside the ink range when that
      range is not empty, the head never travelling lowered, and M2 last. */
  lemma ToolpathShape(dz: Design, rand: nat -> Draw)
    requires Sound(dz) && Unique(dz.possible) && Output(dz, rand).Ok?
    ensures var p := Placement(dz, rand);
      var acts := Presses(dz, rand, p);
      var g := Output(dz, rand).value;
      && g == Program(dz.heights, dz.width, dz.height, "love", acts)
      && SafeTravel(g, dz.heights.up) && g[|g| - 1] == ProgramEnd
      && |Tools(acts)| == |dz.possible|
      && (forall i :: 0 <= i < |dz.possible| ==> Tools(acts)[i] == (i, Layer.Glyph(dz.possible[i])))
      && (forall i :: 0 <= i < |dz.possible| ==> dz.possible[i] in p.groups)
      && Hits(acts) == Plotted(SetupOf(dz), Regroup(dz.possible, p.groups))
      && multiset(Regroup(dz.possible, p.groups)) == multiset(Values(AllPlacements(dz, rand)))
      && HitsInked(acts)
      && (InkRange(dz).left < InkRange(dz).right && InkRange(dz).bottom < InkRange(dz).top ==> DipsWithin(acts, InkRange(dz)))
  {
    var p := Placement(dz, rand);
    var st := SetupOf(dz);
    SessionFacts(st, dz.possible, p.groups, After(rand, p.next));
    ProgramSafe(dz.heights, dz.width, dz.height, "love", Presses(dz, rand, p));
    PressedInOrder(st, dz.possible, p.groups);
    forall i | 0 <= i < |dz.possible|
      ensures LetterTools(st, dz.possible)[i] == (i, Layer.Glyph(dz.possible[i]))
    {
      IndexOfUnique(dz.possible, i);
    }
    PlacedPossible(dz, rand);
    RegroupCovers(dz.possible, AllPlacements(dz, rand));
  }

  /** Each letter's presses are its placements in row-major order, each at
      half a millimetre right of and 3.7 mm below its position (y flipped),
      which is what the script computes through the preview canvas. */
  lemma LetterPresses(dz: Design, rand: nat -> Draw, i: nat)
    requires Sound(dz) && i < |dz.possible| && dz.possible[i] in Tags(AllPlacements(dz, rand))
    ensures var p := Placement(dz, rand);
      var q := Select(AllPlacements(dz, rand), dz.possible[i]);
      && LetterGroups(SetupOf(dz), dz.possible, p.groups)[i] == Plotted(SetupOf(dz), q)
      && forall k :: 0 <= k < |q| ==> Plotted(SetupOf(dz), q)[k] == CanvasPress(dz.width, dz.height, false, q[k])
                                        && Plotted(SetupOf(dz), q)[k] == Point(q[k].x + 0.5, dz.height - (q[k].y + 3.7))
  {
    var q := Select(AllPlacements(dz, rand), dz.possible[i]);
    forall k | 0 <= k < |q|
      ensures Plotted(SetupOf(dz), q)[k] == CanvasPress(dz.width, dz.height, false, q[k])
    {
      CanvasRoundTrip(dz.width, dz.height, false, q[k]);
    }
  }

  // ---------------------------------------------------------------- the script

  /** A4 less two 20 mm borders holds 25 lines of 10 mm; the loop lays 26,
      from 23.5 mm down. */
  lemma ScriptLines()
    ensures SheetRows(SheetOf(Script)) == 25 && LineCount(SheetOf(Script)) == 26
    ensures YOffset(Script.height, SheetRows(SheetOf(Script)), Script.lineHeight) == 23.5
  {
    assert (297.0 - 20.0 - 20.0) / 10.0 == 25.7;
  }

  /** The script's ink range, the pad shrunk by 7.5 mm, is not empty. */
  lemma ScriptInkRange()
    ensures InkRange(Script) == Rect(297.5, 362.5, 156.5, 121.5)
  {
  }
}
