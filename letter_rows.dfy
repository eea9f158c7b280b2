/**
 * 10mm/makeDesign1.js: rows of random capital letters set in 10 mm letter
 * stamps. Each line is filled from x = 0 with letters drawn uniformly from
 * possibleChars, each advancing x by its width, until x reaches the usable
 * width; the line is then shifted right by half of what the paper leaves
 * beside the start of its last letter, and its placements are pushed into a
 * dictionary keyed by letter. The toolpath walks possibleChars in order, one
 * tool per letter numbered by its position, and inks before every press.
 *
 * Math.random is one stream `rand` indexed by a draw counter: the layout
 * consumes the first draws (one per letter placed), the ink jitter the next
 * (two per press).
 */
module LetterRows {
  import opened Wrappers
  import opened GCode
  import opened Grouping
  import opened Stamping
  import opened Emission
  import opened Placements
  import Wave

  /** The script's constants. */
  datatype Design = Design(
    width: real, height: real,                          // paperSize
    left: real, right: real, top: real, bottom: real,   // border
    stampSize: real, lineHeight: real,                  // baseStampSize, lineHeight
    pad: Rect, heights: Heights,                        // inkPosition, stamp heights
    possible: string, widths: map<char, real>)          // possibleChars, charSize

  /** The width the row fill runs to: paperSize.width - (border.left + border.right). */
  function Bound(dz: Design): real
  {
    dz.width - (dz.left + dz.right)
  }

  /** What the script needs of its constants: a width of at least 1 mm for
      every possible letter (x += undefined would stop the fill with NaN), a
      positive usable width (otherwise a line is empty and reading its last
      letter throws), a positive line height (the line loop never ends
      otherwise), and a positive paper (the press coordinates divide by the
      canvas size). */
  predicate Sound(dz: Design)
  {
    && dz.width > 0.0 && dz.height > 0.0 && dz.lineHeight > 0.0 && Bound(dz) > 0.0
    && |dz.possible| > 0
    && forall i :: 0 <= i < |dz.possible| ==> dz.possible[i] in dz.widths && dz.widths[dz.possible[i]] >= 1.0
  }

  /** The charSize entries of the capitals, the only letters possibleChars holds. */
  const Widths: map<char, real> := map[
    'A' := 6.2, 'B' := 5.2, 'C' := 5.3, 'D' := 6.5, 'E' := 5.3, 'F' := 4.7, 'G' := 6.4,
    'H' := 6.4, 'I' := 3.7, 'J' := 3.9, 'K' := 5.9, 'L' := 5.0, 'M' := 7.5, 'N' := 6.3,
    'O' := 5.8, 'P' := 4.9, 'Q' := 6.0, 'R' := 6.0, 'S' := 4.8, 'T' := 5.9, 'U' := 6.5,
    'V' := 6.3, 'W' := 8.0, 'X' := 6.2, 'Y' := 6.1, 'Z' := 5.8]

  const Capitals: string := "ABCDEFGHIJKLMNOPQRSTUVWXYZ"

  /** The script as configured: A4 paper, 20 mm borders. */
  const Script: Design := Design(210.0, 297.0, 20.0, 20.0, 20.0, 20.0, 10.0, 10.0,
                                 Rect(290.0, 370.0, 164.0, 114.0), Heights(60.0, 35.0, 49.0),
                                 Capitals, Widths)

  /** Every capital has a width of at least 3.7 mm. */
  lemma CapitalWidths()
    ensures forall i :: 0 <= i < |Capitals| ==> Capitals[i] in Widths && Widths[Capitals[i]] >= 3.7
  {
  }

  /** The capitals come in strictly ascending order, so none repeats. */
  lemma CapitalsUnique()
    ensures Unique(Capitals)
  {
    assert forall i :: 0 <= i < |Capitals| ==> Capitals[i] as int == 'A' as int + i;
  }

  lemma ScriptSound()
    ensures Sound(Script)
  {
    CapitalWidths();
  }

  // ---------------------------------------------------------------- row fill

  /** possibleChars[Math.floor(Math.random() * possibleChars.length)]. */
  function Drawn(dz: Design, r: Draw): (c: char)
    requires Sound(dz)
    ensures c in dz.possible && c in dz.widths && dz.widths[c] >= 1.0
  {
    dz.possible[Pick(r, |dz.possible|)]
  }

  /** Entries produced, where x stopped, and the next unused draw. */
  datatype Fill = Fill(entries: seq<Entry>, x: real, next: nat)

  /** The fill loop from cursor x with draw d next: a drawn letter is stored
      at (x, y) and advances x by its width; the loop stops once x >= Bound. */
  function FillFrom(dz: Design, rand: nat -> Draw, y: real, x: real, d: nat): (r: Fill)
    requires Sound(dz)
    decreases Wave.Remaining(Bound(dz), x)
  {
    if x >= Bound(dz) then Fill([], x, d)
    else
      var c := Drawn(dz, rand(d));
      Wave.LineDecreases(Bound(dz), x, dz.widths[c]);
      var rest := FillFrom(dz, rand, y, x + dz.widths[c], d + 1);
      Fill([Entry(c, x, y)] + rest.entries, rest.x, rest.next)
  }

  /** One line's fill: x = 0. */
  function RowFill(dz: Design, rand: nat -> Draw, y: real, d: nat): Fill
    requires Sound(dz)
  {
    FillFrom(dz, rand, y, 0.0, d)
  }

  /** The state of the row fill: row followed by the fill from (x, d) is the whole row. */
  ghost predicate Filling(dz: Design, rand: nat -> Draw, y: real, d0: nat, row: seq<Entry>, x: real, d: nat)
    requires Sound(dz)
  {
    var f := FillFrom(dz, rand, y, x, d);
    Fill(row + f.entries, f.x, f.next) == RowFill(dz, rand, y, d0)
  }

  /** One turn of the row fill: push the drawn letter and advance by its width. */
  lemma FillingStep(dz: Design, rand: nat -> Draw, y: real, d0: nat, row: seq<Entry>, x: real, d: nat)
    requires Sound(dz) && Filling(dz, rand, y, d0, row, x, d) && x < Bound(dz)
    ensures var c := Drawn(dz, rand(d));
      && Filling(dz, rand, y, d0, row + [Entry(c, x, y)], x + dz.widths[c], d + 1)
      && Wave.Remaining(Bound(dz), x + dz.widths[c]) < Wave.Remaining(Bound(dz), x)
  {
    var c := Drawn(dz, rand(d));
    Wave.LineDecreases(Bound(dz), x, dz.widths[c]);
    Snoc1(row, Entry(c, x, y), FillFrom(dz, rand, y, x + dz.widths[c], d + 1).entries);
  }

  /** The loop ended at the bound: the row is the whole fill. */
  lemma FillingDone(dz: Design, rand: nat -> Draw, y: real, d0: nat, row: seq<Entry>, x: real, d: nat)
    requires Sound(dz) && Filling(dz, rand, y, d0, row, x, d) && x >= Bound(dz)
    ensures Fill(row, x, d) == RowFill(dz, rand, y, d0)
  {
    assert row + [] == row;
  }

  /** One turn of the inner while loop: draw a letter, push it at (x, y), add its width. */
  method FillTurn(dz: Design, rand: nat -> Draw, y: real, ghost first: nat, row0: seq<Entry>, x0: real, d0: nat)
    returns (row: seq<Entry>, x: real, d: nat)
    requires Sound(dz) && Filling(dz, rand, y, first, row0, x0, d0) && x0 < Bound(dz)
    ensures Filling(dz, rand, y, first, row, x, d)
    ensures Wave.Remaining(Bound(dz), x) < Wave.Remaining(Bound(dz), x0)
  {
    FillingStep(dz, rand, y, first, row0, x0, d0);
    var c := dz.possible[Pick(rand(d0), |dz.possible|)];
    row, x, d := row0 + [Entry(c, x0, y)], x0 + dz.widths[c], d0 + 1;
  }

  /** The inner while loop of a line, entries pushed onto the row. */
  method FillRow(dz: Design, rand: nat -> Draw, y: real, d0: nat) returns (row: seq<Entry>, x: real, d: nat)
    requires Sound(dz)
    ensures Fill(row, x, d) == RowFill(dz, rand, y, d0)
  {
    x := 0.0;
    row := [];
    d := d0;
    var bound := Bound(dz);
    while x < bound
      invariant Filling(dz, rand, y, d0, row, x, d)
      decreases Wave.Remaining(bound, x)
    {
      row, x, d := FillTurn(dz, rand, y, d0, row, x, d);
    }
    FillingDone(dz, rand, y, d0, row, x, d);
  }

  // ---------------------------------------------------------------- fill facts

  /** Each entry starts where the previous one ended (the first at x), and
      xEnd is where the last one ends. */
  predicate Pitched(dz: Design, es: seq<Entry>, x: real, xEnd: real)
    decreases |es|
  {
    if |es| == 0 then xEnd == x
    else es[0].letter in dz.widths && es[0].x == x && Pitched(dz, es[1..], x + dz.widths[es[0].letter], xEnd)
  }

  /** Every entry is a possible letter on line y starting below the bound. */
  predicate Inside(dz: Design, es: seq<Entry>, y: real)
  {
    forall i :: 0 <= i < |es| ==> es[i].letter in dz.possible && es[i].x < Bound(dz) && es[i].y == y
  }

  lemma InsideCons(dz: Design, es: seq<Entry>, e: Entry, rest: seq<Entry>, y: real)
    requires es == [e] + rest && Inside(dz, rest, y)
    requires e.letter in dz.possible && e.x < Bound(dz) && e.y == y
    ensures Inside(dz, es, y)
  {
    assert forall i :: 1 <= i < |es| ==> es[i] == rest[i - 1];
  }

  /** The fill loop's promises: entries pitched by their widths from x up to
      where the loop stopped, which is at or past the bound; every entry a
      possible letter on line y starting below the bound; one draw per entry;
      and at least one entry when x starts below the bound. */
  lemma {:induction false} FillFacts(dz: Design, rand: nat -> Draw, y: real, x: real, d: nat)
    requires Sound(dz)
    ensures var f := FillFrom(dz, rand, y, x, d);
      && Pitched(dz, f.entries, x, f.x) && Inside(dz, f.entries, y)
      && f.x >= Bound(dz) && f.next == d + |f.entries|
      && (x < Bound(dz) <==> |f.entries| > 0)
    decreases Wave.Remaining(Bound(dz), x)
  {
    if x < Bound(dz) {
      var c := Drawn(dz, rand(d));
      Wave.LineDecreases(Bound(dz), x, dz.widths[c]);
      FillFacts(dz, rand, y, x + dz.widths[c], d + 1);
      var rest := FillFrom(dz, rand, y, x + dz.widths[c], d + 1);
      var f := FillFrom(dz, rand, y, x, d);
      assert f.entries == [Entry(c, x, y)] + rest.entries;
      assert f.entries[1..] == rest.entries;
      InsideCons(dz, f.entries, Entry(c, x, y), rest.entries, y);
    }
  }

  /** Where the loop stopped, less the last letter's width, is where that letter starts. */
  lemma {:induction false} PitchedLast(dz: Design, es: seq<Entry>, x: real, xEnd: real)
    requires Pitched(dz, es, x, xEnd) && |es| > 0
    ensures es[|es| - 1].letter in dz.widths && xEnd - dz.widths[es[|es| - 1].letter] == es[|es| - 1].x
    decreases |es|
  {
    if |es| > 1 {
      PitchedLast(dz, es[1..], x + dz.widths[es[0].letter], xEnd);
      assert es[1..][|es| - 2] == es[|es| - 1];
    }
  }

  // ---------------------------------------------------------------- centring

  /** offset = (paperSize.width - (x - charSize[last.char])) / 2, x being where the fill stopped. */
  function Offset(dz: Design, row: seq<Entry>, x: real): real
    requires |row| > 0 && row[|row| - 1].letter in dz.widths
  {
    (dz.width - (x - dz.widths[row[|row| - 1].letter])) / 2.0
  }

  /** The forEach adding the offset to every x. */
  method CentreRow(dz: Design, row0: seq<Entry>, x: real) returns (row: seq<Entry>)
    requires |row0| > 0 && row0[|row0| - 1].letter in dz.widths
    ensures row == Moved(row0, Offset(dz, row0, x))
  {
    var offset := (dz.width - (x - dz.widths[row0[|row0| - 1].letter])) / 2.0;
    row := row0;
    var i := 0;
    while i < |row|
      invariant i <= |row| == |row0|
      invariant forall k :: 0 <= k < i ==> row[k] == Entry(row0[k].letter, row0[k].x + offset, row0[k].y)
      invariant forall k :: i <= k < |row| ==> row[k] == row0[k]
    {
      row := row[i := Entry(row[i].letter, row[i].x + offset, row[i].y)];
      i := i + 1;
    }
  }

  // ---------------------------------------------------------------- lines

  /** The vertical geometry of the line loop. */
  function SheetOf(dz: Design): Sheet
  {
    Sheet(dz.height, dz.top, dz.bottom, dz.lineHeight)
  }


  /** A centred line and the next unused draw. */
  datatype Row = Row(entries: seq<Entry>, next: nat)

  /** One line: fill, then centre. */
  function Line(dz: Design, rand: nat -> Draw, y: real, d: nat): Row
    requires Sound(dz)
  {
    var f := RowFill(dz, rand, y, d);
    FillFacts(dz, rand, y, 0.0, d);
    PitchedLast(dz, f.entries, 0.0, f.x);
    Row(Moved(f.entries, Offset(dz, f.entries, f.x)), f.next)
  }

  /** The rows laid so far and the next unused draw. */
  datatype Laid = Laid(lines: seq<seq<Entry>>, next: nat)

  /** The first k lines, each line drawing from where the previous one stopped. */
  function LinesUpTo(dz: Design, rand: nat -> Draw, k: nat): Laid
    requires Sound(dz)
  {
    if k == 0 then Laid([], 0)
    else
      var l := LinesUpTo(dz, rand, k - 1);
      var r := Line(dz, rand, LineY(SheetOf(dz), k - 1), l.next);
      Laid(l.lines + [r.entries], r.next)
  }

  /** The filled stampPositionMap after the line loop. */
  function Placement(dz: Design, rand: nat -> Draw): Placed
    requires Sound(dz)
  {
    var l := LinesUpTo(dz, rand, LineCount(SheetOf(dz)));
    Placed(Groups(Pairs(Flatten(l.lines))), l.next)
  }

  /** One line of the layout loop: fill, then centre. */
  method LayLine(dz: Design, rand: nat -> Draw, y: real, d: nat) returns (r: Row)
    requires Sound(dz)
    ensures r == Line(dz, rand, y, d)
  {
    var row, x, next := FillRow(dz, rand, y, d);
    FillFacts(dz, rand, y, 0.0, d);
    PitchedLast(dz, row, 0.0, x);
    var centred := CentreRow(dz, row, x);
    r := Row(centred, next);
  }

  /** The state of the line loop before line k: the lines laid so far, their
      entries grouped by letter, and the next unused draw. */
  ghost predicate LaidOut(dz: Design, rand: nat -> Draw, k: nat, y: real, d: nat, groups: map<char, seq<Point>>,
                          lines: seq<seq<Entry>>, ps: seq<(char, Point)>)
    requires Sound(dz)
  {
    && k <= LineCount(SheetOf(dz)) && y == LineY(SheetOf(dz), k)
    && LinesUpTo(dz, rand, k) == Laid(lines, d)
    && ps == Pairs(Flatten(lines)) && groups == Groups(ps)
  }

  /** After the last line the dictionary is the whole placement. */
  lemma LaidAll(dz: Design, rand: nat -> Draw, k: nat, y: real, d: nat, groups: map<char, seq<Point>>,
                lines: seq<seq<Entry>>, ps: seq<(char, Point)>)
    requires Sound(dz) && LaidOut(dz, rand, k, y, d, groups, lines, ps) && k == LineCount(SheetOf(dz))
    ensures Placement(dz, rand) == Placed(groups, d)
  {
  }

  lemma LinesStep(dz: Design, rand: nat -> Draw, k: nat, lines: seq<seq<Entry>>, d: nat)
    requires Sound(dz) && LinesUpTo(dz, rand, k) == Laid(lines, d)
    ensures LinesUpTo(dz, rand, k + 1)
            == Laid(lines + [Line(dz, rand, LineY(SheetOf(dz), k), d).entries], Line(dz, rand, LineY(SheetOf(dz), k), d).next)
  {
  }

  /** One turn of the line loop: lay the line at y and push its entries. */
  method AddLine(dz: Design, rand: nat -> Draw, k: nat, y: real, d: nat, groups0: map<char, seq<Point>>,
                 ghost lines0: seq<seq<Entry>>, ghost ps0: seq<(char, Point)>)
    returns (r: Placed, ghost lines: seq<seq<Entry>>, ghost ps: seq<(char, Point)>)
    requires Sound(dz) && k < LineCount(SheetOf(dz)) && LaidOut(dz, rand, k, y, d, groups0, lines0, ps0)
    ensures LaidOut(dz, rand, k + 1, y + dz.lineHeight, r.next, r.groups, lines, ps)
  {
    var line := LayLine(dz, rand, y, d);
    LinesStep(dz, rand, k, lines0, d);
    var row := line.entries;
    var groups := RecordRow(groups0, row, ps0);
    FlattenPairs(lines0, row);
    lines := lines0 + [row];
    ps := ps0 + Pairs(row);
    r := Placed(groups, line.next);
  }

  /** The line loop `while (y < H - yOffset + lineHeight)`, each line pushed into the dictionary. */
  method Layout(dz: Design, rand: nat -> Draw) returns (r: Placed)
    requires Sound(dz)
    ensures r == Placement(dz, rand)
  {
    var rows := RowCount(dz.height, dz.top, dz.bottom, dz.lineHeight);
    var yOffset := YOffset(dz.height, rows, dz.lineHeight);
    var groups: map<char, seq<Point>> := map[];
    ghost var lines: seq<seq<Entry>> := [];
    ghost var ps: seq<(char, Point)> := [];
    var d: nat := 0;
    var y := yOffset;
    var k: nat := 0;
    var limit := dz.height - yOffset + dz.lineHeight;
    LineGuard(SheetOf(dz), k, y, limit);
    while y < limit
      invariant LaidOut(dz, rand, k, y, d, groups, lines, ps)
      invariant (y < limit) == (k < LineCount(SheetOf(dz)))
      decreases LineCount(SheetOf(dz)) - k
    {
      var next;
      next, lines, ps := AddLine(dz, rand, k, y, d, groups, lines, ps);
      groups, d := next.groups, next.next;
      y := y + dz.lineHeight;
      k := k + 1;
      LineGuard(SheetOf(dz), k, y, limit);
    }
    LaidAll(dz, rand, k, y, d, groups, lines, ps);
    r := Placed(groups, d);
  }

  // ---------------------------------------------------------------- toolpath

  /** inkPosition.inkRange: the pad shrunk by three quarters of the stamp size. */
  function InkRange(dz: Design): Rect
  {
    Shrink(dz.pad, dz.stampSize * 0.75)
  }

  /** What the emission loop reads of the script: the axes are never swapped. */
  function SetupOf(dz: Design): Setup
  {
    Setup(dz.heights, InkRange(dz), dz.height, false, dz.possible)
  }

  /** Why the script stops: a possible letter that was never drawn (its
      positions are undefined). */
  datatype Fault = Unplaced(letter: char)

  /** The emission loop's actions over possibleChars, the ink jitter reading
      the draws the layout left. */
  function Presses(dz: Design, rand: nat -> Draw, p: Placed): seq<Action>
  {
    LetterSession(SetupOf(dz), dz.possible, p.groups, After(rand, p.next))
  }

  /** The emission from a filled dictionary. */
  function Toolpath(dz: Design, rand: nat -> Draw, p: Placed): Result<seq<Cmd>, Fault>
  {
    match FirstMissing(dz.possible, p.groups)
    case Some(i) => Err(Unplaced(dz.possible[i]))
    case None => Ok(Program(dz.heights, dz.width, dz.height, "love", Presses(dz, rand, p)))
  }

  /** The whole script: layout, then the toolpath. */
  function Output(dz: Design, rand: nat -> Draw): Result<seq<Cmd>, Fault>
    requires Sound(dz)
  {
    Toolpath(dz, rand, Placement(dz, rand))
  }

  /** The script end to end: the layout loop, the G-code header, the
      emission loop over possibleChars, end(). */
  method Generate(dz: Design, rand: nat -> Draw) returns (r: Result<seq<Cmd>, Fault>)
    requires Sound(dz)
    ensures r == Output(dz, rand)
  {
    var placed := Layout(dz, rand);
    var gcode := Header(dz.width, dz.height, "love");
    var emitted := EmitLetters(SetupOf(dz), dz.possible, placed.groups, After(rand, placed.next), gcode);
    if emitted.Err? {
      return Err(Unplaced(emitted.error));
    }
    r := Ok(emitted.value + Finish(dz.heights));
  }
}
