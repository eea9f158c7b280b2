/**
 * aaaaaggggh/index.js: a page of 'A' stamps laid out by the wave-stepped
 * layout, the last line shortened by a quarter, the last six stamps turned
 * into 'G' and then the last two into 'H', and stamped tool by tool, every
 * stamp inked first.
 */
module Aaaaaggggh {
  import opened GCode
  import opened Grouping
  import opened Stamping
  import opened Emission
  import opened Wave

  // ---------------------------------------------------------------- the page

  const Width: real := 297.0
  const Height: real := 210.0
  const StampSize: real := 20.0
  const Border: real := 20.0
  const Pad: Rect := Rect(315.0, 390.0, 54.0, 6.0)
  const Heads: Heights := Heights(60.0, 18.0, 32.0)

  /** currentX/currentY start at border + stampSize / 2, the edges are the
      paper less border + stampSize / 2, steps are stampSize * 0.4 and lines
      stampSize * 0.9 apart. */
  const Page: Geometry := Geometry(Border + StampSize / 2.0, Border + StampSize / 2.0,
                                   Width - (Border + StampSize / 2.0), Height - (Border + StampSize / 2.0),
                                   StampSize * 0.4, StampSize * 0.9)

  /** inkPosition.inkRange: the pad shrunk by 0.75 * stampSize. */
  const InkRange: Rect := Shrink(Pad, StampSize * 0.75)

  /** Every placement starts as an 'A'. */
  function Plain(n: nat): char
  {
    'A'
  }

  /** The stamps array after the two layout loops. */
  function Stamps(step: nat -> StepMod): seq<seq<Mark>>
  {
    Wave.Wave(Page, Plain, step)
  }

  // ---------------------------------------------------------------- the last line

  /**
   * How many stamps `line.slice(0, -line.length / 4)` keeps: the end index
   * -length / 4 is truncated toward zero, so a quarter rounded down is cut,
   * except that an end of -0 is 0 and keeps nothing.
   */
  function Kept(len: nat): (k: nat)
    ensures k <= len
  {
    if len / 4 == 0 then 0 else len - len / 4
  }

  /** The stamps with the last line shortened. */
  function Truncated(lines: seq<seq<Mark>>): (r: seq<seq<Mark>>)
    requires |lines| > 0
  {
    var n := |lines| - 1;
    lines[n := lines[n][..Kept(|lines[n]|)]]
  }

  // ---------------------------------------------------------------- setLastLetters

  /** The stamps s with their letter set to c. */
  function Renamed(s: seq<Mark>, c: char): (r: seq<Mark>)
    ensures |r| == |s| && forall i :: 0 <= i < |s| ==> r[i] == s[i].(letter := c)
  {
    seq(|s|, i requires 0 <= i < |s| => s[i].(letter := c))
  }

  /** setLastLetters(c, count): from the last line up, each line's stamps
      from its end are relabelled while any of count remain. */
  function Relabel(lines: seq<seq<Mark>>, c: char, count: nat): seq<seq<Mark>>
  {
    if |lines| == 0 then []
    else
      var n := |lines| - 1;
      var l := lines[n];
      var t := if count < |l| then count else |l|;
      Relabel(lines[..n], c, count - t) + [l[..|l| - t] + Renamed(l[|l| - t..], c)]
  }

  /** Nothing left to relabel. */
  lemma {:induction false} RelabelNone(lines: seq<seq<Mark>>, c: char)
    ensures Relabel(lines, c, 0) == lines
  {
    if |lines| > 0 {
      var n := |lines| - 1;
      RelabelNone(lines[..n], c);
      var l := lines[n];
      assert l[..|l| - 0] + Renamed(l[|l| - 0..], c) == l;
      assert lines == lines[..n] + [lines[n]];
    }
  }

  /** The outer loop's turn on line i, which relabels t of its stamps. */
  lemma RelabelStep(lines: seq<seq<Mark>>, i: nat, c: char, count: nat, t: nat)
    requires i < |lines| && t == (if count < |lines[i]| then count else |lines[i]|)
    ensures Relabel(lines[..i + 1], c, count)
         == Relabel(lines[..i], c, count - t) + [lines[i][..|lines[i]| - t] + Renamed(lines[i][|lines[i]| - t..], c)]
  {
    assert lines[..i + 1][..i] == lines[..i];
  }

  /** The inner loop's turn: stamp i of the line is relabelled. */
  lemma RenameStep(l: seq<Mark>, line: seq<Mark>, i: nat, c: char)
    requires i < |l| && line == l[..i + 1] + Renamed(l[i + 1..], c)
    ensures line[i := line[i].(letter := c)] == l[..i] + Renamed(l[i..], c)
  {
    var after := line[i := line[i].(letter := c)];
    var want := l[..i] + Renamed(l[i..], c);
    assert |after| == |want|;
    forall k | 0 <= k < |after|
      ensures after[k] == want[k]
    {
      if k > i {
        assert line[k] == Renamed(l[i + 1..], c)[k - (i + 1)] == l[k].(letter := c);
      }
    }
  }

  /** The outer loop's invariant: lines 0..i untouched, and relabelling them
      with what remains finishes the job. */
  ghost predicate RelabelledBelow(stamps: seq<seq<Mark>>, out: seq<seq<Mark>>, i: int, c: char, remaining: nat, count: nat)
  {
    && -1 <= i < |stamps| == |out|
    && out[..i + 1] == stamps[..i + 1]
    && Relabel(stamps[..i + 1], c, remaining) + out[i + 1..] == Relabel(stamps, c, count)
  }

  lemma RelabelStart(stamps: seq<seq<Mark>>, c: char, count: nat)
    ensures RelabelledBelow(stamps, stamps, |stamps| - 1, c, count, count)
  {
    assert stamps[..|stamps|] == stamps && stamps[|stamps|..] == [];
  }

  /** The outer loop's invariant is kept once line i has had its t stamps relabelled. */
  lemma OuterStep(stamps: seq<seq<Mark>>, out: seq<seq<Mark>>, i: nat, c: char, count: nat, r0: nat, remaining: nat,
                  line: seq<Mark>)
    requires RelabelledBelow(stamps, out, i, c, r0, count)
    requires remaining <= r0 && r0 - remaining == (if r0 < |stamps[i]| then r0 else |stamps[i]|)
    requires line == stamps[i][..|stamps[i]| - (r0 - remaining)] + Renamed(stamps[i][|stamps[i]| - (r0 - remaining)..], c)
    ensures RelabelledBelow(stamps, out[i := line], i - 1, c, remaining, count)
  {
    RelabelStep(stamps, i, c, r0, r0 - remaining);
    assert out[i := line][i..] == [line] + out[i + 1..];
    assert out[i := line][..i] == out[..i + 1][..i] == stamps[..i + 1][..i];
  }

  /** The outer loop stops with nothing left or no line left: the lines are relabelled. */
  lemma RelabelEnd(stamps: seq<seq<Mark>>, out: seq<seq<Mark>>, i: int, c: char, remaining: nat, count: nat)
    requires RelabelledBelow(stamps, out, i, c, remaining, count) && (remaining == 0 || i < 0)
    ensures out == Relabel(stamps, c, count)
  {
    RelabelNone(stamps[..i + 1], c);
    assert out == out[..i + 1] + out[i + 1..];
  }

  /** The line currently relabelled is still the original one. */
  lemma Untouched(stamps: seq<seq<Mark>>, out: seq<seq<Mark>>, i: int, c: char, remaining: nat, count: nat)
    requires RelabelledBelow(stamps, out, i, c, remaining, count) && 0 <= i
    ensures out[i] == stamps[i]
  {
    assert out[i] == out[..i + 1][i];
  }

  /** The inner for loop stops at the line's start or with nothing left: the renamed tail is its last min(r0, |l|) stamps. */
  lemma RelabelExit(l: seq<Mark>, line: seq<Mark>, letter: char, r0: nat, remaining: nat, i: int)
    requires -1 <= i < |l| && remaining + (|l| - 1 - i) == r0 && !(i >= 0 && remaining > 0)
    requires line == l[..i + 1] + Renamed(l[i + 1..], letter)
    ensures remaining <= r0 && r0 - remaining == (if r0 < |l| then r0 else |l|)
    ensures line == l[..|l| - (r0 - remaining)] + Renamed(l[|l| - (r0 - remaining)..], letter)
  {
    assert |l| - (r0 - remaining) == i + 1;
  }

  /** The inner for loop: from the end of the line, relabel while any remain. */
  method RelabelLine(l: seq<Mark>, letter: char, r0: nat) returns (line: seq<Mark>, remaining: nat)
    ensures remaining <= r0 && r0 - remaining == (if r0 < |l| then r0 else |l|)
    ensures line == l[..|l| - (r0 - remaining)] + Renamed(l[|l| - (r0 - remaining)..], letter)
  {
    line := l;
    remaining := r0;
    var i := |line| - 1;
    assert l[|l|..] == [];
    while i >= 0 && remaining > 0
      invariant -1 <= i < |l|
      invariant remaining + (|l| - 1 - i) == r0
      invariant line == l[..i + 1] + Renamed(l[i + 1..], letter)
      decreases i + 1
    {
      RenameStep(l, line, i, letter);
      line := line[i := line[i].(letter := letter)];
      remaining := remaining - 1;
      i := i - 1;
    }
    RelabelExit(l, line, letter, r0, remaining, i);
  }

  /** setLastLetters with its two counters; the lines are updated by value. */
  method SetLastLetters(letter: char, count: nat, stamps: seq<seq<Mark>>) returns (out: seq<seq<Mark>>)
    ensures out == Relabel(stamps, letter, count)
  {
    out := stamps;
    var remaining: nat := count;
    var currentLine := |stamps| - 1;
    RelabelStart(stamps, letter, count);
    while remaining > 0 && currentLine >= 0
      invariant RelabelledBelow(stamps, out, currentLine, letter, remaining, count)
      decreases currentLine + 1
    {
      ghost var r0 := remaining;
      Untouched(stamps, out, currentLine, letter, remaining, count);
      var line;
      line, remaining := RelabelLine(out[currentLine], letter, remaining);
      OuterStep(stamps, out, currentLine, letter, count, r0, remaining, line);
      out := out[currentLine := line];
      currentLine := currentLine - 1;
    }
    RelabelEnd(stamps, out, currentLine, letter, remaining, count);
  }

  // ---------------------------------------------------------------- letterList

  function LettersOf(s: seq<Mark>): (r: seq<char>)
    ensures |r| == |s| && forall k :: 0 <= k < |s| ==> r[k] == s[k].letter
  {
    seq(|s|, k requires 0 <= k < |s| => s[k].letter)
  }

  /** The distinct letters of the page in first-seen row-major order. */
  function LetterList(lines: seq<seq<Mark>>): seq<char>
  {
    Distinct(LettersOf(Flatten(lines)))
  }

  /** One turn of the inner letterList loop, after the stamps p of the lines before. */
  lemma ListStep(p: seq<Mark>, line: seq<Mark>, j: nat)
    requires j < |line|
    ensures var seen := Distinct(LettersOf(p + line[..j]));
      Distinct(LettersOf(p + line[..j + 1])) == if line[j].letter in seen then seen else seen + [line[j].letter]
  {
    var a := p + line[..j];
    assert p + line[..j + 1] == a + [line[j]];
    assert LettersOf(a + [line[j]]) == LettersOf(a) + [line[j].letter];
    DistinctSnoc(LettersOf(a), line[j].letter);
  }

  /** The inner letterList loop over one line. */
  method CollectLine(line: seq<Mark>, letters0: seq<char>, ghost p: seq<Mark>) returns (letters: seq<char>)
    requires letters0 == Distinct(LettersOf(p))
    ensures letters == Distinct(LettersOf(p + line))
  {
    letters := letters0;
    var j := 0;
    assert p + line[..0] == p;
    while j < |line|
      invariant j <= |line|
      invariant letters == Distinct(LettersOf(p + line[..j]))
    {
      ListStep(p, line, j);
      if line[j].letter !in letters {
        letters := letters + [line[j].letter];
      }
      j := j + 1;
    }
    assert line[..j] == line;
  }

  /** The nested loops filling letterList with `if (!letterList.includes(..)) push`. */
  method CollectLetters(lines: seq<seq<Mark>>) returns (letters: seq<char>)
    ensures letters == LetterList(lines)
  {
    letters := [];
    var i := 0;
    while i < |lines|
      invariant i <= |lines|
      invariant letters == Distinct(LettersOf(Flatten(lines[..i])))
    {
      letters := CollectLine(lines[i], letters, Flatten(lines[..i]));
      FlattenStep(lines, i);
      i := i + 1;
    }
    assert lines[..i] == lines;
  }

  // ---------------------------------------------------------------- the emission

  /** Each stamp tagged with its letter and its press point (x, height - y). */
  function Pressed(s: seq<Mark>): (r: seq<(char, Point)>)
    ensures |r| == |s| && forall k :: 0 <= k < |s| ==> r[k] == (s[k].letter, Point(s[k].x, Height - s[k].y))
  {
    seq(|s|, k requires 0 <= k < |s| => (s[k].letter, Point(s[k].x, Height - s[k].y)))
  }

  /** The press points of the stamps of letter c, in order. */
  function Matching(s: seq<Mark>, c: char): seq<Point>
  {
    Select(Pressed(s), c)
  }

  /** The press points of letter c, in row-major order. */
  function Targets(lines: seq<seq<Mark>>, c: char): seq<Point>
  {
    Matching(Flatten(lines), c)
  }

  /** installTool(i + 1, letter) for letter i of letterList. */
  function ToolList(letters: seq<char>): (r: seq<(int, Layer)>)
    ensures |r| == |letters| && forall i :: 0 <= i < |letters| ==> r[i] == (i + 1, Layer.Glyph(letters[i]))
  {
    seq(|letters|, i requires 0 <= i < |letters| => (i + 1, Layer.Glyph(letters[i])))
  }

  function Targeted(letters: seq<char>, lines: seq<seq<Mark>>): (r: seq<seq<Point>>)
    ensures |r| == |letters| && forall i :: 0 <= i < |letters| ==> r[i] == Targets(lines, letters[i])
  {
    seq(|letters|, i requires 0 <= i < |letters| => Targets(lines, letters[i]))
  }

  /** Per letter its tool, then per matching stamp an ink dip (two draws,
      counted across letters) and a press. */
  function Toolpath(letters: seq<char>, lines: seq<seq<Mark>>, rand: nat -> Draw): seq<Action>
  {
    Session(ToolList(letters), Targeted(letters, lines), InkRange, rand)
  }

  lemma PressedAppend(a: seq<Mark>, b: seq<Mark>)
    ensures Pressed(a + b) == Pressed(a) + Pressed(b)
  {
  }

  /** One more point pressed: its dip on the next two draws, then the press. */
  lemma PressSnoc(before: seq<Point>, p: Point, rand: nat -> Draw, d0: nat)
    ensures var ink := InkPoint(InkRange, rand(d0 + 2 * |before|), rand(d0 + 2 * |before| + 1));
      Render(Heads, InkedPresses(before + [p], InkRange, rand, d0))
        == Render(Heads, InkedPresses(before, InkRange, rand, d0)) + InkDip(Heads, ink.x, ink.y) + Press(Heads, p.x, p.y)
  {
    var after := before + [p];
    assert after[..|before|] == before && after[..|before| + 1] == after;
    PressStep(Heads, after, |before|, InkRange, rand, d0);
  }

  /** The presses of a + b: those of a, then those of b on the draws after a's. */
  lemma {:induction false} InkedAppend(a: seq<Point>, b: seq<Point>, rand: nat -> Draw, d0: nat)
    ensures InkedPresses(a + b, InkRange, rand, d0)
         == InkedPresses(a, InkRange, rand, d0) + InkedPresses(b, InkRange, rand, d0 + 2 * |a|)
  {
    if |b| == 0 {
      assert a + b == a;
    } else {
      var n := |b| - 1;
      assert (a + b)[..|a + b| - 1] == a + b[..n];
      assert (a + b)[|a + b| - 1] == b[n];
      InkedAppend(a, b[..n], rand, d0);
      assert d0 + 2 * (|a| + n) == d0 + 2 * |a| + 2 * n;
    }
  }

  /** One stamp of the innermost loop. */
  lemma SelectStep(row: seq<Mark>, k: nat, c: char)
    requires k < |row|
    ensures row[k].letter == c ==> Matching(row[..k + 1], c) == Matching(row[..k], c) + [Point(row[k].x, Height - row[k].y)]
    ensures row[k].letter != c ==> Matching(row[..k + 1], c) == Matching(row[..k], c)
  {
    var ps := Pressed(row[..k + 1]);
    assert ps[..|ps| - 1] == Pressed(row[..k]);
    assert Matching(row[..k], c) + [] == Matching(row[..k], c);
  }

  /** The innermost loop: the stamps of letter c in one line. */
  method EmitRow(row: seq<Mark>, c: char, rand: nat -> Draw, d0: nat, gcode0: seq<Cmd>)
    returns (gcode: seq<Cmd>, d: nat)
    ensures gcode == gcode0 + Render(Heads, InkedPresses(Matching(row, c), InkRange, rand, d0))
    ensures d == d0 + 2 * |Matching(row, c)|
  {
    gcode := gcode0;
    d := d0;
    var k := 0;
    ghost var done: seq<Point> := [];
    assert row[..0] == [];
    while k < |row|
      invariant k <= |row| && done == Matching(row[..k], c)
      invariant gcode == gcode0 + Render(Heads, InkedPresses(done, InkRange, rand, d0))
      invariant d == d0 + 2 * |done|
    {
      var m := row[k];
      SelectStep(row, k, c);
      if m.letter == c {
        var ink := InkPoint(InkRange, rand(d), rand(d + 1));
        var p := Point(m.x, Height - m.y);
        PressSnoc(done, p, rand, d0);
        ghost var so_far := Render(Heads, InkedPresses(done, InkRange, rand, d0));
        Emission.Regroup4(gcode0, so_far, InkDip(Heads, ink.x, ink.y), Press(Heads, p.x, p.y));
        gcode := gcode + InkDip(Heads, ink.x, ink.y);
        gcode := gcode + Press(Heads, p.x, p.y);
        assert gcode == gcode0 + (so_far + InkDip(Heads, ink.x, ink.y) + Press(Heads, p.x, p.y));
        d := d + 2;
        done := done + [p];
      }
      k := k + 1;
    }
    assert row[..k] == row;
  }

  /** One line of the middle loop: its stamps of c follow those of the lines before. */
  lemma TargetStep(lines: seq<seq<Mark>>, j: nat, c: char)
    requires j < |lines|
    ensures Matching(Flatten(lines[..j + 1]), c) == Matching(Flatten(lines[..j]), c) + Matching(lines[j], c)
  {
    FlattenStep(lines, j);
    PressedAppend(Flatten(lines[..j]), lines[j]);
    SelectAppend(Pressed(Flatten(lines[..j])), Pressed(lines[j]), c);
  }

  /** The code of the presses of a + b: a's, then b's on the draws after a's. */
  lemma InkedRender(a: seq<Point>, b: seq<Point>, rand: nat -> Draw, d0: nat)
    ensures Render(Heads, InkedPresses(a + b, InkRange, rand, d0))
         == Render(Heads, InkedPresses(a, InkRange, rand, d0)) + Render(Heads, InkedPresses(b, InkRange, rand, d0 + 2 * |a|))
  {
    InkedAppend(a, b, rand, d0);
    RenderAppend(Heads, InkedPresses(a, InkRange, rand, d0), InkedPresses(b, InkRange, rand, d0 + 2 * |a|));
  }

  /** The two inner emission loops for letter c: every stamp of c, in row-major order. */
  method EmitLetter(lines: seq<seq<Mark>>, c: char, rand: nat -> Draw, d0: nat, gcode0: seq<Cmd>)
    returns (gcode: seq<Cmd>, d: nat)
    ensures gcode == gcode0 + Render(Heads, InkedPresses(Targets(lines, c), InkRange, rand, d0))
    ensures d == d0 + 2 * |Targets(lines, c)|
  {
    gcode := gcode0;
    d := d0;
    var j := 0;
    ghost var before: seq<Point> := [];
    assert lines[..0] == [];
    while j < |lines|
      invariant j <= |lines| && before == Matching(Flatten(lines[..j]), c)
      invariant gcode == gcode0 + Render(Heads, InkedPresses(before, InkRange, rand, d0))
      invariant d == d0 + 2 * |before|
    {
      TargetStep(lines, j, c);
      ghost var row := Matching(lines[j], c);
      InkedRender(before, row, rand, d0);
      ghost var done := Render(Heads, InkedPresses(before, InkRange, rand, d0));
      ghost var more := Render(Heads, InkedPresses(row, InkRange, rand, d));
      assert Render(Heads, InkedPresses(before + row, InkRange, rand, d0)) == done + more;
      Wave.Regroup3(gcode0, done, more);
      gcode, d := EmitRow(lines[j], c, rand, d, gcode);
      assert gcode == gcode0 + done + more;
      before := before + row;
      j := j + 1;
    }
    assert lines[..j] == lines;
  }

  /** The emission: header, per letter of letterList its tool and its
      stamps, then the end block. */
  method Emit(letters: seq<char>, lines: seq<seq<Mark>>, rand: nat -> Draw) returns (gcode: seq<Cmd>)
    ensures gcode == Program(Heads, Width, Height, "BT_SVG", Toolpath(letters, lines, rand))
  {
    var head := Header(Width, Height, "BT_SVG");
    gcode := head;
    ghost var tools := ToolList(letters);
    ghost var groups := Targeted(letters, lines);
    var draw := 0;
    var i := 0;
    while i < |letters|
      invariant i <= |letters|
      invariant draw == 2 * |Flatten(groups[..i])|
      invariant gcode == head + Render(Heads, Session(tools[..i], groups[..i], InkRange, rand))
    {
      SessionStep(tools, groups, i, InkRange, rand);
      ghost var done := Session(tools[..i], groups[..i], InkRange, rand);
      var t := Tool(i + 1, Layer.Glyph(letters[i]));
      RenderSnoc(Heads, done, t);
      RenderAppend(Heads, done + [t], InkedPresses(groups[i], InkRange, rand, draw));
      Emission.Regroup4(head, Render(Heads, done), ToolChange(Heads, i + 1, Layer.Glyph(letters[i])),
                        Render(Heads, InkedPresses(groups[i], InkRange, rand, draw)));
      gcode := gcode + ToolChange(Heads, i + 1, Layer.Glyph(letters[i]));
      gcode, draw := EmitLetter(lines, letters[i], rand, draw, gcode);
      i := i + 1;
    }
    assert tools[..i] == tools && groups[..i] == groups;
    gcode := gcode + Finish(Heads);
  }

  // ---------------------------------------------------------------- the script

  /** The page the emission reads: the layout with its last line shortened,
      then the last six stamps made 'G' and the last two 'H'. */
  function FinalPage(step: nat -> StepMod): seq<seq<Mark>>
  {
    var w := Stamps(step);
    Wave.WaveCovers(Page, Plain, step, Page.startX, Page.startY, 0);
    Relabel(Relabel(Truncated(w), 'G', 6), 'H', 2)
  }

  /** The toolpath of a run; rand is the stream of ink draws. */
  function Output(rand: nat -> Draw, step: nat -> StepMod): seq<Cmd>
  {
    var page := FinalPage(step);
    Program(Heads, Width, Height, "BT_SVG", Toolpath(LetterList(page), page, rand))
  }

  /** The script's steps in order. */
  method Generate(rand: nat -> Draw, step: nat -> StepMod) returns (gcode: seq<Cmd>)
    ensures gcode == Output(rand, step)
  {
    var stamps := Wave.Layout(Page, Plain, step);
    Wave.WaveCovers(Page, Plain, step, Page.startX, Page.startY, 0);
    var n := |stamps| - 1;
    stamps := stamps[n := stamps[n][..Kept(|stamps[n]|)]];
    stamps := SetLastLetters('G', 6, stamps);
    stamps := SetLastLetters('H', 2, stamps);
    var letters := CollectLetters(stamps);
    gcode := Emit(letters, stamps, rand);
  }
}
