/**
 * What the two 10 mm scripts share: the entries of a row (char, x, y), the
 * stampPositionMap they fill by push, and the emission loop that walks a list
 * of letters, installs each letter's tool (numbered by possibleChars.indexOf)
 * and inks before every press of its positions, stopping where a letter has
 * no positions (the script reads `forEach` of undefined there and throws).
 */
module Placements {
  import opened Wrappers
  import opened GCode
  import opened Grouping
  import opened Stamping
  import opened Emission

  /** An entry of thisRowOfLetters: a letter and where it is placed. */
  datatype Entry = Entry(letter: char, x: real, y: real)

  /** Every entry moved right by d. */
  function Moved(row: seq<Entry>, d: real): (r: seq<Entry>)
    ensures |r| == |row|
    ensures forall i :: 0 <= i < |row| ==> r[i] == Entry(row[i].letter, row[i].x + d, row[i].y)
  {
    seq(|row|, i requires 0 <= i < |row| => Entry(row[i].letter, row[i].x + d, row[i].y))
  }

  /** A placement as the dictionary stores it: letter and position. */
  function Pairs(row: seq<Entry>): (r: seq<(char, Point)>)
    ensures |r| == |row| && forall i :: 0 <= i < |row| ==> r[i] == (row[i].letter, Point(row[i].x, row[i].y))
  {
    seq(|row|, i requires 0 <= i < |row| => (row[i].letter, Point(row[i].x, row[i].y)))
  }

  lemma PairsAppend(a: seq<Entry>, b: seq<Entry>)
    ensures Pairs(a + b) == Pairs(a) + Pairs(b)
  {
  }

  /** The filled stampPositionMap and the next unused draw. */
  datatype Placed = Placed(groups: map<char, seq<Point>>, next: nat)

  lemma RecordStep(ps: seq<(char, Point)>, row: seq<Entry>, j: nat)
    requires j < |row|
    ensures Groups(ps + Pairs(row[..j + 1]))
            == Push(Groups(ps + Pairs(row[..j])), row[j].letter, Point(row[j].x, row[j].y))
  {
    PairsAppend(row[..j], [row[j]]);
    assert row[..j + 1] == row[..j] + [row[j]];
    assert ps + Pairs(row[..j + 1]) == (ps + Pairs(row[..j])) + [(row[j].letter, Point(row[j].x, row[j].y))];
    SnocStep(ps + Pairs(row[..j]), (row[j].letter, Point(row[j].x, row[j].y)));
  }

  lemma FlattenPairs(lines: seq<seq<Entry>>, row: seq<Entry>)
    ensures Pairs(Flatten(lines + [row])) == Pairs(Flatten(lines)) + Pairs(row)
  {
    assert (lines + [row])[..|lines|] == lines;
    PairsAppend(Flatten(lines), row);
  }

  /** The forEach pushing one row's entries into stampPositionMap. */
  method RecordRow(groups0: map<char, seq<Point>>, row: seq<Entry>, ghost ps: seq<(char, Point)>)
    returns (groups: map<char, seq<Point>>)
    requires groups0 == Groups(ps)
    ensures groups == Groups(ps + Pairs(row))
  {
    groups := groups0;
    var j := 0;
    assert ps + Pairs(row[..j]) == ps;
    while j < |row|
      invariant j <= |row|
      invariant groups == Groups(ps + Pairs(row[..j]))
    {
      var c := row[j].letter;
      var pt := Point(row[j].x, row[j].y);
      RecordStep(ps, row, j);
      ghost var g0 := groups;
      PushInPlace(groups, c, pt);
      if c !in groups {
        groups := groups[c := []];
      }
      groups := groups[c := groups[c] + [pt]];
      assert groups == Push(g0, c, pt);
      j := j + 1;
    }
    assert row[..j] == row;
  }

  lemma Snoc1<T>(a: seq<T>, e: T, b: seq<T>)
    ensures a + [e] + b == a + ([e] + b)
  {
  }

  lemma Snoc2<T>(a: seq<T>, e: T, f: T, b: seq<T>)
    ensures a + [e] + [f] + b == a + ([e, f] + b)
  {
  }

  lemma TakeAll<T>(s: seq<T>)
    ensures s[..|s|] == s
  {
  }

  lemma PrefixSnoc<T>(s: seq<T>, i: nat)
    requires i < |s|
    ensures s[..i + 1] == s[..i] + [s[i]]
  {
  }

  // ---------------------------------------------------------------- emission

  /** What the emission loop reads of a script: the head heights, the ink
      range, the paper height and flipXY of the press transform, and
      possibleChars, which numbers the tools. */
  datatype Setup = Setup(heights: Heights, range: Rect, height: real, flipXY: bool, possible: string)

  /** The press points of a letter's positions. */
  function Plotted(st: Setup, pts: seq<Point>): (r: seq<Point>)
    ensures |r| == |pts| && forall k :: 0 <= k < |pts| ==> r[k] == PressAt(st.height, st.flipXY, pts[k])
  {
    seq(|pts|, k requires 0 <= k < |pts| => PressAt(st.height, st.flipXY, pts[k]))
  }

  /** Tool of letter i: its index in possibleChars, labelled with the letter. */
  function LetterTools(st: Setup, letters: seq<char>): (r: seq<(int, Layer)>)
    ensures |r| == |letters|
    ensures forall i :: 0 <= i < |letters| ==> r[i] == (IndexOf(st.possible, letters[i]), Layer.Glyph(letters[i]))
  {
    seq(|letters|, i requires 0 <= i < |letters| => (IndexOf(st.possible, letters[i]), Layer.Glyph(letters[i])))
  }

  /** The press points of each letter's positions (none for a letter without positions). */
  function LetterGroups(st: Setup, letters: seq<char>, groups: map<char, seq<Point>>): (r: seq<seq<Point>>)
    ensures |r| == |letters|
    ensures forall i :: 0 <= i < |letters| ==> r[i] == Plotted(st, if letters[i] in groups then groups[letters[i]] else [])
  {
    seq(|letters|, i requires 0 <= i < |letters| =>
      Plotted(st, if letters[i] in groups then groups[letters[i]] else []))
  }

  /** The emission loop's actions: per letter its tool, then a dip and a press
      per position. */
  function LetterSession(st: Setup, letters: seq<char>, groups: map<char, seq<Point>>, rand: nat -> Draw): seq<Action>
  {
    Session(LetterTools(st, letters), LetterGroups(st, letters, groups), st.range, rand)
  }

  /** The first letter without positions, if any: where the emission loop throws. */
  function FirstMissing(letters: seq<char>, groups: map<char, seq<Point>>): (r: Option<nat>)
    ensures r.None? <==> forall i :: 0 <= i < |letters| ==> letters[i] in groups
    ensures r.Some? ==> r.value < |letters| && letters[r.value] !in groups
                        && forall i :: 0 <= i < r.value ==> letters[i] in groups
  {
    if |letters| == 0 then None
    else if letters[0] !in groups then Some(0)
    else match FirstMissing(letters[1..], groups)
         case None => None
         case Some(i) => Some(i + 1)
  }

  /** With every letter placed, the session installs the letters' tools in
      order, presses exactly their positions letter by letter, and inks
      before every press, inside the ink range when it is not empty. */
  lemma SessionFacts(st: Setup, letters: seq<char>, groups: map<char, seq<Point>>, rand: nat -> Draw)
    ensures var acts := LetterSession(st, letters, groups, rand);
      && Tools(acts) == LetterTools(st, letters)
      && Hits(acts) == Flatten(LetterGroups(st, letters, groups))
      && HitsInked(acts)
      && (st.range.left < st.range.right && st.range.bottom < st.range.top ==> DipsWithin(acts, st.range))
  {
    SessionHits(LetterTools(st, letters), LetterGroups(st, letters, groups), st.range, rand);
    SessionShape(LetterTools(st, letters), LetterGroups(st, letters, groups), st.range, rand);
  }

  lemma PlottedAppend(st: Setup, a: seq<Point>, b: seq<Point>)
    ensures Plotted(st, a + b) == Plotted(st, a) + Plotted(st, b)
  {
  }

  /** Rows that are the plotted groups of some letters flatten to the plotted regrouping. */
  lemma {:induction false} FlattenPlotted(st: Setup, rows: seq<seq<Point>>, letters: seq<char>, groups: map<char, seq<Point>>)
    requires |rows| == |letters|
    requires forall i :: 0 <= i < |letters| ==> letters[i] in groups && rows[i] == Plotted(st, groups[letters[i]])
    ensures Flatten(rows) == Plotted(st, Regroup(letters, groups))
  {
    if |letters| > 0 {
      var n := |letters| - 1;
      FlattenPlotted(st, rows[..n], letters[..n], groups);
      PlottedAppend(st, Regroup(letters[..n], groups), groups[letters[n]]);
    }
  }

  /** With every letter placed, the presses are the letters' groups read back
      in list order, each position sent through the press transform. */
  lemma PressedInOrder(st: Setup, letters: seq<char>, groups: map<char, seq<Point>>)
    requires forall i :: 0 <= i < |letters| ==> letters[i] in groups
    ensures Flatten(LetterGroups(st, letters, groups)) == Plotted(st, Regroup(letters, groups))
  {
    FlattenPlotted(st, LetterGroups(st, letters, groups), letters, groups);
  }

  lemma MissingAt(letters: seq<char>, groups: map<char, seq<Point>>, i: nat)
    requires i < |letters| && letters[i] !in groups
    requires forall c :: c in letters[..i] ==> c in groups
    ensures FirstMissing(letters, groups) == Some(i)
  {
    assert forall j :: 0 <= j < i ==> letters[..i][j] == letters[j];
  }

  /** One more letter of the session: its tool change, then its inked presses. */
  lemma SessionGrows(h: Heights, tools: seq<(int, Layer)>, groups: seq<seq<Point>>, i: nat, range: Rect,
                     rand: nat -> Draw, gcode0: seq<Cmd>)
    requires |tools| == |groups| && i < |tools|
    ensures gcode0 + Render(h, Session(tools[..i + 1], groups[..i + 1], range, rand))
            == gcode0 + Render(h, Session(tools[..i], groups[..i], range, rand)) + ToolChange(h, tools[i].0, tools[i].1)
               + Render(h, InkedPresses(groups[i], range, rand, 2 * |Flatten(groups[..i])|))
    ensures |Flatten(groups[..i + 1])| == |Flatten(groups[..i])| + |groups[i]|
  {
    SessionStep(tools, groups, i, range, rand);
    var done := Session(tools[..i], groups[..i], range, rand);
    var t := Tool(tools[i].0, tools[i].1);
    var ip := InkedPresses(groups[i], range, rand, 2 * |Flatten(groups[..i])|);
    RenderSnoc(h, done, t);
    RenderAppend(h, done + [t], ip);
    Regroup4(gcode0, Render(h, done), ToolChange(h, tools[i].0, tools[i].1), Render(h, ip));
  }

  /** installTool for one letter, then its positions' ink dips and presses. */
  method EmitLetter(st: Setup, c: char, positions: seq<Point>, rand: nat -> Draw, draw: nat, gcode0: seq<Cmd>)
    returns (gcode: seq<Cmd>)
    ensures gcode == gcode0 + ToolChange(st.heights, IndexOf(st.possible, c), Layer.Glyph(c))
                     + Render(st.heights, InkedPresses(Plotted(st, positions), st.range, rand, draw))
  {
    var index := IndexOf(st.possible, c);
    gcode := gcode0 + ToolChange(st.heights, index, Layer.Glyph(c));
    gcode := EmitGroup(st.heights, Plotted(st, positions), st.range, rand, draw, gcode);
  }

  /** One turn of the emission loop, stated on the session it extends. */
  lemma EmitStep(st: Setup, letters: seq<char>, groups: map<char, seq<Point>>, rand: nat -> Draw, i: nat,
                 gcode0: seq<Cmd>)
    requires i < |letters| && letters[i] in groups
    ensures var tools := LetterTools(st, letters);
      var plotted := LetterGroups(st, letters, groups);
      && gcode0 + Render(st.heights, Session(tools[..i], plotted[..i], st.range, rand))
           + ToolChange(st.heights, IndexOf(st.possible, letters[i]), Layer.Glyph(letters[i]))
           + Render(st.heights, InkedPresses(Plotted(st, groups[letters[i]]), st.range, rand, 2 * |Flatten(plotted[..i])|))
         == gcode0 + Render(st.heights, Session(tools[..i + 1], plotted[..i + 1], st.range, rand))
      && |Flatten(plotted[..i + 1])| == |Flatten(plotted[..i])| + |groups[letters[i]]|
  {
    var tools := LetterTools(st, letters);
    var plotted := LetterGroups(st, letters, groups);
    SessionGrows(st.heights, tools, plotted, i, st.range, rand, gcode0);
    assert tools[i] == (IndexOf(st.possible, letters[i]), Layer.Glyph(letters[i]));
    assert plotted[i] == Plotted(st, groups[letters[i]]);
  }

  /** What the emission loop has written after its first i letters, all of
      which have positions: their tool changes and presses, the next ink dip
      reading draw number `draw`. */
  ghost predicate Emitted(st: Setup, letters: seq<char>, groups: map<char, seq<Point>>, rand: nat -> Draw,
                          gcode0: seq<Cmd>, i: nat, draw: nat, gcode: seq<Cmd>)
  {
    && i <= |letters|
    && (forall c :: c in letters[..i] ==> c in groups)
    && draw == 2 * |Flatten(LetterGroups(st, letters, groups)[..i])|
    && gcode == gcode0 + Render(st.heights, Session(LetterTools(st, letters)[..i],
                                                    LetterGroups(st, letters, groups)[..i], st.range, rand))
  }

  /** A letter with positions extends what the loop has written by its block. */
  lemma EmittedStep(st: Setup, letters: seq<char>, groups: map<char, seq<Point>>, rand: nat -> Draw,
                    gcode0: seq<Cmd>, i: nat, draw: nat, gcode: seq<Cmd>)
    requires i < |letters| && letters[i] in groups
    requires Emitted(st, letters, groups, rand, gcode0, i, draw, gcode)
    ensures Emitted(st, letters, groups, rand, gcode0, i + 1, draw + 2 * |groups[letters[i]]|,
                    gcode + ToolChange(st.heights, IndexOf(st.possible, letters[i]), Layer.Glyph(letters[i]))
                    + Render(st.heights, InkedPresses(Plotted(st, groups[letters[i]]), st.range, rand, draw)))
  {
    PrefixSnoc(letters, i);
    EmitStep(st, letters, groups, rand, i, gcode0);
  }

  /** One turn of the emission loop for a letter that has positions. */
  method EmitNext(st: Setup, letters: seq<char>, groups: map<char, seq<Point>>, rand: nat -> Draw,
                  gcode0: seq<Cmd>, i: nat, draw: nat, gcode: seq<Cmd>) returns (draw': nat, gcode': seq<Cmd>)
    requires i < |letters| && letters[i] in groups
    requires Emitted(st, letters, groups, rand, gcode0, i, draw, gcode)
    ensures Emitted(st, letters, groups, rand, gcode0, i + 1, draw', gcode')
  {
    var c := letters[i];
    EmittedStep(st, letters, groups, rand, gcode0, i, draw, gcode);
    gcode' := EmitLetter(st, c, groups[c], rand, draw, gcode);
    draw' := draw + 2 * |groups[c]|;
  }

  /** The loop stopped at a letter without positions: the first such letter. */
  lemma EmittedMissing(st: Setup, letters: seq<char>, groups: map<char, seq<Point>>, rand: nat -> Draw,
                       gcode0: seq<Cmd>, i: nat, draw: nat, gcode: seq<Cmd>)
    requires i < |letters| && letters[i] !in groups
    requires Emitted(st, letters, groups, rand, gcode0, i, draw, gcode)
    ensures FirstMissing(letters, groups) == Some(i)
  {
    MissingAt(letters, groups, i);
  }

  /** The loop went through every letter: all have positions and the whole session is written. */
  lemma EmittedAll(st: Setup, letters: seq<char>, groups: map<char, seq<Point>>, rand: nat -> Draw,
                   gcode0: seq<Cmd>, draw: nat, gcode: seq<Cmd>)
    requires Emitted(st, letters, groups, rand, gcode0, |letters|, draw, gcode)
    ensures FirstMissing(letters, groups).None?
    ensures gcode == gcode0 + Render(st.heights, LetterSession(st, letters, groups, rand))
  {
    var tools := LetterTools(st, letters);
    var plotted := LetterGroups(st, letters, groups);
    TakeAll(tools);
    TakeAll(plotted);
    TakeAll(letters);
  }

  /** The emission loop over a letter list: install the letter's tool, then
      per position ink and stamp; stops at the first letter with no positions,
      which it returns. */
  method EmitLetters(st: Setup, letters: seq<char>, groups: map<char, seq<Point>>, rand: nat -> Draw,
                     gcode0: seq<Cmd>) returns (r: Result<seq<Cmd>, char>)
    ensures FirstMissing(letters, groups).Some? ==> r == Err(letters[FirstMissing(letters, groups).value])
    ensures FirstMissing(letters, groups).None? ==>
              r == Ok(gcode0 + Render(st.heights, LetterSession(st, letters, groups, rand)))
  {
    var gcode := gcode0;
    var draw: nat := 0;
    var i: nat := 0;
    while i < |letters|
      invariant Emitted(st, letters, groups, rand, gcode0, i, draw, gcode)
    {
      if letters[i] !in groups {
        EmittedMissing(st, letters, groups, rand, gcode0, i, draw, gcode);
        return Err(letters[i]);
      }
      draw, gcode := EmitNext(st, letters, groups, rand, gcode0, i, draw, gcode);
      i := i + 1;
    }
    EmittedAll(st, letters, groups, rand, gcode0, draw, gcode);
    r := Ok(gcode);
  }
}
