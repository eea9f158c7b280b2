/**
 * 10mm/fuck.js: rows of whole words set in 10 mm letter stamps. Each line is
 * filled with randomly picked words (each followed by a space) until x
 * passes the usable width, trimmed back to its last complete word, centred
 * on the paper, and its placements are pushed into a dictionary keyed by
 * letter. The toolpath then installs one tool per distinct letter of the
 * word list and inks before every press; spaces are grouped but never pressed.
 *
 * Math.random is one stream `rand` indexed by a draw counter: the layout
 * consumes the first draws (one per word picked), the ink jitter the next.
 */
module WordRows {
  import opened Wrappers
  import opened GCode
  import opened Grouping
  import opened Stamping
  import opened Emission
  import opened Placements
  import Wave

  /** An entry of charSize: the advance width and the nudges added to the stored position. */
  datatype Size = Size(width: real, xNudge: real, yNudge: real)

  /** The script's constants. */
  datatype Design = Design(
    width: real, height: real,                          // paperSize
    left: real, right: real, top: real, bottom: real,   // border
    stampSize: real, lineHeight: real,                  // baseStampSize, lineHeight
    pad: Rect, flipXY: bool, heights: Heights,          // inkPosition, flipXY, stamp heights
    possible: string, sizes: map<char, Size>, words: seq<string>)

  /** What the script needs of its constants: a word list whose letters all
      have a size (charSize[undefined] throws otherwise), a size for the space,
      a positive line height (the line loop never ends otherwise), and a
      positive paper (the press coordinates divide by the canvas size). */
  predicate Sound(dz: Design)
  {
    && dz.width > 0.0 && dz.height > 0.0 && dz.lineHeight > 0.0
    && |dz.words| > 0 && ' ' in dz.sizes
    && (forall i :: 0 <= i < |dz.words| ==> |dz.words[i]| > 0)
    && (forall i, j :: 0 <= i < |dz.words| && 0 <= j < |dz.words[i]| ==>
          dz.words[i][j] in dz.sizes && dz.sizes[dz.words[i][j]].width >= 1.0)
  }

  /** No word contains a space, so the spaces of a row are exactly the word ends. */
  predicate Spaceless(dz: Design)
  {
    forall i, j :: 0 <= i < |dz.words| && 0 <= j < |dz.words[i]| ==> dz.words[i][j] != ' '
  }

  /** The charSize entries of the upper-case stamps and the space. */
  const Sizes: map<char, Size> := map[
    'A' := Size(6.2, 0.0, 0.0), 'B' := Size(5.2, 0.0, 0.0), 'C' := Size(5.3, 0.0, -0.05),
    'D' := Size(6.5, 0.0, 0.0), 'E' := Size(5.3, 0.0, 0.0), 'F' := Size(5.2, 0.0, 0.0),
    'G' := Size(6.4, 0.0, 0.0), 'H' := Size(6.4, 0.0, 0.0), 'I' := Size(4.8, 0.0, 0.0),
    'J' := Size(3.9, 0.0, 0.0), 'K' := Size(5.0, 0.45, 0.0), 'L' := Size(5.0, 0.0, 0.0),
    'M' := Size(7.5, 0.0, 0.0), 'N' := Size(6.3, 1.11, 0.0), 'O' := Size(5.8, 0.0, 0.0),
    'P' := Size(4.9, 0.0, 0.0), 'Q' := Size(6.0, 0.0, 0.0), 'R' := Size(6.0, -0.1, -0.1),
    'S' := Size(4.8, 0.0, 0.0), 'T' := Size(5.9, 0.0, -0.05), 'U' := Size(5.0, 0.9, 0.0),
    'V' := Size(6.3, 0.0, 0.0), 'W' := Size(8.0, 0.0, 0.0), 'X' := Size(6.2, 0.0, 0.0),
    'Y' := Size(6.1, 0.0, 0.0), 'Z' := Size(5.8, 0.0, 0.0), ' ' := Size(10.0, 0.0, 0.0)]

  const Words: seq<string> := ["FUCK", "FUCK", "FUCK", "FUCK", "FUCKITY", "FUCKITY", "FUCKING", "FUCK",
                               "FUCK", "FUCK", "FUCK", "FUCKITY", "FUCKITY", "FUCKING", "FUCKER"]

  /** The script as configured: 560 x 760 mm paper, 30 mm borders, axes swapped. */
  const Script: Design := Design(560.0, 760.0, 30.0, 30.0, 30.0, 30.0, 10.0, 10.0,
                                 Rect(822.0, 902.0, 330.0, 280.0), true, Heights(60.0, 35.0, 49.0),
                                 "ABCDEFGHIJKLMNOPQRSTUVWXYZ ", Sizes, Words)

  /** The letters of the word list. */
  predicate WordLetter(c: char)
  {
    c == 'F' || c == 'U' || c == 'C' || c == 'K' || c == 'I' || c == 'T' || c == 'Y'
    || c == 'N' || c == 'G' || c == 'E' || c == 'R'
  }

  /** The letters the word list uses all have a size, at least 1 mm wide. */
  lemma ScriptSizes()
    ensures forall c :: WordLetter(c) ==> c in Sizes && Sizes[c].width >= 1.0
  {
  }

  lemma ScriptWords()
    ensures forall i, j :: 0 <= i < |Words| && 0 <= j < |Words[i]| ==> WordLetter(Words[i][j])
  {
    forall i, j | 0 <= i < |Words| && 0 <= j < |Words[i]|
      ensures WordLetter(Words[i][j])
    {
      var w := Words[i];
      assert w == "FUCK" || w == "FUCKITY" || w == "FUCKING" || w == "FUCKER";
    }
  }

  lemma ScriptSound()
    ensures Sound(Script) && Spaceless(Script)
  {
    ScriptSizes();
    ScriptWords();
  }

  // ---------------------------------------------------------------- letters

  /** validLetters: the distinct letters of the word list in first-seen order. */
  function Letters(dz: Design): seq<char>
  {
    Distinct(Flatten(dz.words))
  }

  /** One more letter read: it joins the list unless it is already there. */
  lemma DistinctStep(seen: seq<char>, word: string, j: nat)
    requires j < |word|
    ensures Distinct(seen + word[..j + 1])
         == if word[j] in Distinct(seen + word[..j]) then Distinct(seen + word[..j])
            else Distinct(seen + word[..j]) + [word[j]]
  {
    assert seen + word[..j + 1] == (seen + word[..j]) + [word[j]];
    DistinctSnoc(seen + word[..j], word[j]);
  }

  /** The inner for-of loop: the letters of one word. */
  method CollectWord(letters0: seq<char>, ghost seen: seq<char>, word: string) returns (letters: seq<char>)
    requires letters0 == Distinct(seen)
    ensures letters == Distinct(seen + word)
  {
    letters := letters0;
    var j := 0;
    assert seen + word[..j] == seen;
    while j < |word|
      invariant j <= |word|
      invariant letters == Distinct(seen + word[..j])
    {
      DistinctStep(seen, word, j);
      if word[j] !in letters {
        letters := letters + [word[j]];
      }
      j := j + 1;
    }
    TakeAll(word);
  }

  /** The nested for-of loops building validLetters. */
  method CollectLetters(words: seq<string>) returns (letters: seq<char>)
    ensures letters == Distinct(Flatten(words))
  {
    letters := [];
    var i := 0;
    while i < |words|
      invariant i <= |words|
      invariant letters == Distinct(Flatten(words[..i]))
    {
      letters := CollectWord(letters, Flatten(words[..i]), words[i]);
      FlattenStep(words, i);
      i := i + 1;
    }
    TakeAll(words);
  }

  // ---------------------------------------------------------------- row fill

  /** The width the row fill runs to: paperSize.width - (border.left + border.right). */
  function Bound(dz: Design): real
  {
    dz.width - (dz.left + dz.right)
  }

  /** Entries produced and the next unused draw. */
  datatype Fill = Fill(entries: seq<Entry>, next: nat)

  /** The fill loop from cursor x with letter li of word w current and draw d next:
      each letter is stored at x plus its nudges and advances x by its width;
      after a word's last letter a space entry is stored, x advances by 10 and a
      new word is drawn. The loop stops once x >= Bound. */
  function FillFrom(dz: Design, rand: nat -> Draw, y: real, x: real, w: nat, li: nat, d: nat): (r: Fill)
    requires Sound(dz) && w < |dz.words| && li < |dz.words[w]|
    ensures r.next >= d
    ensures forall k :: 0 <= k < |r.entries| ==> r.entries[k].letter in dz.sizes
    decreases Wave.Remaining(Bound(dz), x)
  {
    if x >= Bound(dz) then Fill([], d)
    else
      var c := dz.words[w][li];
      var s := dz.sizes[c];
      var e := Entry(c, x + s.xNudge, y + s.yNudge);
      if li + 1 >= |dz.words[w]| then
        var sp := dz.sizes[' '];
        Wave.LineDecreases(Bound(dz), x, s.width + 10.0);
        var rest := FillFrom(dz, rand, y, x + s.width + 10.0, Pick(rand(d), |dz.words|), 0, d + 1);
        Fill([e, Entry(' ', x + s.width + sp.xNudge, y + sp.yNudge)] + rest.entries, rest.next)
      else
        Wave.LineDecreases(Bound(dz), x, s.width);
        var rest := FillFrom(dz, rand, y, x + s.width, w, li + 1, d);
        Fill([e] + rest.entries, rest.next)
  }

  /** One line's fill: x = 0 and a freshly drawn word. */
  function RowFill(dz: Design, rand: nat -> Draw, y: real, d: nat): (r: Fill)
    requires Sound(dz)
  {
    FillFrom(dz, rand, y, 0.0, Pick(rand(d), |dz.words|), 0, d + 1)
  }

  /** One turn of the fill loop, read off FillFrom. */
  lemma FillStep(dz: Design, rand: nat -> Draw, y: real, x: real, w: nat, li: nat, d: nat)
    requires Sound(dz) && w < |dz.words| && li < |dz.words[w]| && x < Bound(dz)
    ensures var c := dz.words[w][li];
      var e := Entry(c, x + dz.sizes[c].xNudge, y + dz.sizes[c].yNudge);
      var x1 := x + dz.sizes[c].width;
      var gap := Entry(' ', x1 + dz.sizes[' '].xNudge, y + dz.sizes[' '].yNudge);
      if li + 1 >= |dz.words[w]| then
        var rest := FillFrom(dz, rand, y, x1 + 10.0, Pick(rand(d), |dz.words|), 0, d + 1);
        FillFrom(dz, rand, y, x, w, li, d) == Fill([e, gap] + rest.entries, rest.next)
      else
        var rest := FillFrom(dz, rand, y, x1, w, li + 1, d);
        FillFrom(dz, rand, y, x, w, li, d) == Fill([e] + rest.entries, rest.next)
  {
  }

  /** The state of the row fill: row followed by the fill from (x, w, li, d) is the whole row. */
  ghost predicate Filling(dz: Design, rand: nat -> Draw, y: real, d0: nat,
                          row: seq<Entry>, x: real, w: nat, li: nat, d: nat)
    requires Sound(dz)
  {
    && w < |dz.words| && li < |dz.words[w]|
    && row + FillFrom(dz, rand, y, x, w, li, d).entries == RowFill(dz, rand, y, d0).entries
    && FillFrom(dz, rand, y, x, w, li, d).next == RowFill(dz, rand, y, d0).next
  }

  /** One turn of the row fill: push the letter, and at a word end the space, then move on. */
  lemma FillingStep(dz: Design, rand: nat -> Draw, y: real, d0: nat, row: seq<Entry>, x: real, w: nat, li: nat, d: nat)
    requires Sound(dz) && Filling(dz, rand, y, d0, row, x, w, li, d) && x < Bound(dz)
    ensures var c := dz.words[w][li];
      var s := dz.sizes[c];
      var e := Entry(c, x + s.xNudge, y + s.yNudge);
      var gap := Entry(' ', x + s.width + dz.sizes[' '].xNudge, y + dz.sizes[' '].yNudge);
      if li + 1 >= |dz.words[w]| then
        && Filling(dz, rand, y, d0, row + [e] + [gap], x + s.width + 10.0, Pick(rand(d), |dz.words|), 0, d + 1)
        && Wave.Remaining(Bound(dz), x + s.width + 10.0) < Wave.Remaining(Bound(dz), x)
      else
        && Filling(dz, rand, y, d0, row + [e], x + s.width, w, li + 1, d)
        && Wave.Remaining(Bound(dz), x + s.width) < Wave.Remaining(Bound(dz), x)
  {
    var c := dz.words[w][li];
    var s := dz.sizes[c];
    var e := Entry(c, x + s.xNudge, y + s.yNudge);
    FillStep(dz, rand, y, x, w, li, d);
    if li + 1 >= |dz.words[w]| {
      var gap := Entry(' ', x + s.width + dz.sizes[' '].xNudge, y + dz.sizes[' '].yNudge);
      Wave.LineDecreases(Bound(dz), x, s.width + 10.0);
      Snoc2(row, e, gap, FillFrom(dz, rand, y, x + s.width + 10.0, Pick(rand(d), |dz.words|), 0, d + 1).entries);
    } else {
      Wave.LineDecreases(Bound(dz), x, s.width);
      Snoc1(row, e, FillFrom(dz, rand, y, x + s.width, w, li + 1, d).entries);
    }
  }

  /** The loop ended at the bound: the row is the whole fill. */
  lemma FillingDone(dz: Design, rand: nat -> Draw, y: real, d0: nat, row: seq<Entry>, x: real, w: nat, li: nat, d: nat)
    requires Sound(dz) && Filling(dz, rand, y, d0, row, x, w, li, d) && x >= Bound(dz)
    ensures Fill(row, d) == RowFill(dz, rand, y, d0)
  {
    assert row + [] == row;
  }

  /** One turn of the inner while loop: push the letter; at a word end also
      push the space, skip 10 mm and draw the next word. */
  method FillTurn(dz: Design, rand: nat -> Draw, y: real, ghost first: nat, row0: seq<Entry>, x0: real, w0: nat, li0: nat, d0: nat)
    returns (row: seq<Entry>, x: real, w: nat, li: nat, d: nat)
    requires Sound(dz) && Filling(dz, rand, y, first, row0, x0, w0, li0, d0) && x0 < Bound(dz)
    ensures Filling(dz, rand, y, first, row, x, w, li, d)
    ensures Wave.Remaining(Bound(dz), x) < Wave.Remaining(Bound(dz), x0)
  {
    FillingStep(dz, rand, y, first, row0, x0, w0, li0, d0);
    var c := dz.words[w0][li0];
    var s := dz.sizes[c];
    var e := Entry(c, x0 + s.xNudge, y + s.yNudge);
    if li0 + 1 >= |dz.words[w0]| {
      var gap := Entry(' ', x0 + s.width + dz.sizes[' '].xNudge, y + dz.sizes[' '].yNudge);
      row, x, w, li, d := row0 + [e] + [gap], x0 + s.width + 10.0, Pick(rand(d0), |dz.words|), 0, d0 + 1;
    } else {
      row, x, w, li, d := row0 + [e], x0 + s.width, w0, li0 + 1, d0;
    }
  }

  /** The inner while loop of a line, entries pushed onto the row. */
  method FillRow(dz: Design, rand: nat -> Draw, y: real, d0: nat) returns (row: seq<Entry>, d: nat)
    requires Sound(dz)
    ensures Fill(row, d) == RowFill(dz, rand, y, d0)
  {
    var x := 0.0;
    row := [];
    var w: nat := Pick(rand(d0), |dz.words|);
    d := d0 + 1;
    var li: nat := 0;
    var bound := Bound(dz);
    while x < bound
      invariant Filling(dz, rand, y, d0, row, x, w, li, d)
      decreases Wave.Remaining(bound, x)
    {
      row, x, w, li, d := FillTurn(dz, rand, y, d0, row, x, w, li, d);
    }
    FillingDone(dz, rand, y, d0, row, x, w, li, d);
  }

  // ---------------------------------------------------------------- trim

  predicate HasSpace(row: seq<Entry>)
  {
    exists i :: 0 <= i < |row| && row[i].letter == ' '
  }

  /** Popping until the last entry is a space, then popping the space: the row
      up to its last space. None when there is no space, where the script
      reads `.char` of undefined and throws. */
  function Trimmed(row: seq<Entry>): (r: Option<seq<Entry>>)
    ensures r.Some? <==> HasSpace(row)
    ensures r.Some? ==> |r.value| < |row| && r.value == row[..|r.value|] && row[|r.value|].letter == ' '
    ensures r.Some? ==> forall i :: |r.value| < i < |row| ==> row[i].letter != ' '
  {
    if |row| == 0 then None
    else if row[|row| - 1].letter == ' ' then Some(row[..|row| - 1])
    else
      var r := Trimmed(row[..|row| - 1]);
      assert HasSpace(row) ==> HasSpace(row[..|row| - 1]) by {
        if HasSpace(row) {
          var i :| 0 <= i < |row| && row[i].letter == ' ';
          assert row[..|row| - 1][i].letter == ' ';
        }
      }
      r
  }

  /** The two pop loops. */
  method TrimRow(row0: seq<Entry>) returns (r: Option<seq<Entry>>)
    ensures r == Trimmed(row0)
  {
    var row := row0;
    while |row| > 0 && row[|row| - 1].letter != ' '
      invariant Trimmed(row) == Trimmed(row0)
    {
      row := row[..|row| - 1];
    }
    if |row| == 0 {
      return None;
    }
    row := row[..|row| - 1];
    r := Some(row);
  }

  // ---------------------------------------------------------------- centring

  predicate Sized(dz: Design, row: seq<Entry>)
  {
    forall i :: 0 <= i < |row| ==> row[i].letter in dz.sizes
  }

  /** totalLetterWidth: the table widths of the entries, spaces included. */
  function TableWidth(dz: Design, row: seq<Entry>): real
    requires Sized(dz, row)
  {
    if |row| == 0 then 0.0 else TableWidth(dz, row[..|row| - 1]) + dz.sizes[row[|row| - 1].letter].width
  }

  /** offset = (paperSize.width - totalLetterWidth) / 2. */
  function Offset(dz: Design, row: seq<Entry>): real
    requires Sized(dz, row)
  {
    (dz.width - TableWidth(dz, row)) / 2.0
  }

  function Centred(dz: Design, row: seq<Entry>): seq<Entry>
    requires Sized(dz, row)
  {
    Moved(row, Offset(dz, row))
  }

  /** The two forEach passes: sum the widths, then add the offset to every x. */
  method CentreRow(dz: Design, row0: seq<Entry>) returns (row: seq<Entry>)
    requires Sized(dz, row0)
    ensures row == Centred(dz, row0)
  {
    var total := 0.0;
    var i := 0;
    while i < |row0|
      invariant i <= |row0|
      invariant total == TableWidth(dz, row0[..i])
    {
      assert row0[..i + 1][..i] == row0[..i];
      total := total + dz.sizes[row0[i].letter].width;
      i := i + 1;
    }
    assert row0[..i] == row0;
    var offset := (dz.width - total) / 2.0;
    row := row0;
    i := 0;
    while i < |row|
      invariant i <= |row| == |row0|
      invariant forall k :: 0 <= k < i ==> row[k] == Entry(row0[k].letter, row0[k].x + offset, row0[k].y)
      invariant forall k :: i <= k < |row| ==> row[k] == row0[k]
    {
      row := row[i := Entry(row[i].letter, row[i].x + offset, row[i].y)];
      i := i + 1;
    }
  }

  // ---------------------------------------------------------------- lines

  /** Why the script stops: a line with no space (the pop loop runs off the
      front of the row), or a letter of the word list that was never placed
      (positions is undefined). */
  datatype Fault = NoSpace(line: nat) | Unplaced(letter: char)

  /** The vertical geometry of the line loop. */
  function SheetOf(dz: Design): Sheet
  {
    Sheet(dz.height, dz.top, dz.bottom, dz.lineHeight)
  }


  /** One line: fill, trim, centre; None when the row has no space. */
  function Line(dz: Design, rand: nat -> Draw, y: real, d: nat): Option<Fill>
    requires Sound(dz)
  {
    var f := RowFill(dz, rand, y, d);
    match Trimmed(f.entries)
    case None => None
    case Some(t) =>
      assert Sized(dz, t) by { assert forall i :: 0 <= i < |t| ==> t[i] == f.entries[i]; }
      Some(Fill(Centred(dz, t), f.next))
  }

  /** The rows laid so far and the next unused draw. */
  datatype Laid = Laid(lines: seq<seq<Entry>>, next: nat)

  /** The first k lines, each line drawing from where the previous one stopped. */
  function LinesUpTo(dz: Design, rand: nat -> Draw, k: nat): Result<Laid, Fault>
    requires Sound(dz)
  {
    if k == 0 then Ok(Laid([], 0))
    else
      match LinesUpTo(dz, rand, k - 1)
      case Err(f) => Err(f)
      case Ok(l) =>
        match Line(dz, rand, LineY(SheetOf(dz), k - 1), l.next)
        case None => Err(NoSpace(k - 1))
        case Some(f) => Ok(Laid(l.lines + [f.entries], f.next))
  }

  function Placement(dz: Design, rand: nat -> Draw): Result<Placed, Fault>
    requires Sound(dz)
  {
    match LinesUpTo(dz, rand, LineCount(SheetOf(dz)))
    case Err(f) => Err(f)
    case Ok(l) => Ok(Placed(Groups(Pairs(Flatten(l.lines))), l.next))
  }

  lemma LinesStep(dz: Design, rand: nat -> Draw, k: nat, lines: seq<seq<Entry>>, d: nat)
    requires Sound(dz) && LinesUpTo(dz, rand, k) == Ok(Laid(lines, d))
    requires Line(dz, rand, LineY(SheetOf(dz), k), d).Some?
    ensures LinesUpTo(dz, rand, k + 1)
            == Ok(Laid(lines + [Line(dz, rand, LineY(SheetOf(dz), k), d).value.entries], Line(dz, rand, LineY(SheetOf(dz), k), d).value.next))
  {
  }

  /** A line without a space ends the layout with that line's fault. */
  lemma LinesFail(dz: Design, rand: nat -> Draw, k: nat, lines: seq<seq<Entry>>, d: nat)
    requires Sound(dz) && LinesUpTo(dz, rand, k) == Ok(Laid(lines, d)) && k < LineCount(SheetOf(dz))
    requires Line(dz, rand, LineY(SheetOf(dz), k), d).None?
    ensures Placement(dz, rand) == Err(NoSpace(k))
  {
    LinesErrSticks(dz, rand, k + 1, LineCount(SheetOf(dz)));
  }

  /** Once a line fails, every longer layout fails the same way. */
  lemma {:induction false} LinesErrSticks(dz: Design, rand: nat -> Draw, k: nat, n: nat)
    requires Sound(dz) && k <= n && LinesUpTo(dz, rand, k).Err?
    ensures LinesUpTo(dz, rand, n) == LinesUpTo(dz, rand, k)
  {
    if n > k {
      LinesErrSticks(dz, rand, k, n - 1);
    }
  }

  /** One line of the layout loop: fill, trim, centre. */
  method LayLine(dz: Design, rand: nat -> Draw, y: real, d: nat) returns (r: Option<Fill>)
    requires Sound(dz)
    ensures r == Line(dz, rand, y, d)
  {
    var row, next := FillRow(dz, rand, y, d);
    var t := TrimRow(row);
    if t.None? {
      return None;
    }
    assert Sized(dz, t.value) by { assert forall i :: 0 <= i < |t.value| ==> t.value[i] == row[i]; }
    var centred := CentreRow(dz, t.value);
    r := Some(Fill(centred, next));
  }

  /** The state of the line loop before line k: the lines laid so far, their
      entries grouped by letter, and the next unused draw. */
  ghost predicate LaidOut(dz: Design, rand: nat -> Draw, k: nat, y: real, d: nat, groups: map<char, seq<Point>>,
                          lines: seq<seq<Entry>>, ps: seq<(char, Point)>)
    requires Sound(dz)
  {
    && k <= LineCount(SheetOf(dz)) && y == LineY(SheetOf(dz), k)
    && LinesUpTo(dz, rand, k) == Ok(Laid(lines, d))
    && ps == Pairs(Flatten(lines)) && groups == Groups(ps)
  }

  /** After the last line the dictionary is the whole placement. */
  lemma LaidAll(dz: Design, rand: nat -> Draw, k: nat, y: real, d: nat, groups: map<char, seq<Point>>,
                lines: seq<seq<Entry>>, ps: seq<(char, Point)>)
    requires Sound(dz) && LaidOut(dz, rand, k, y, d, groups, lines, ps) && k == LineCount(SheetOf(dz))
    ensures Placement(dz, rand) == Ok(Placed(groups, d))
  {
  }

  /** One turn of the line loop: lay the line at y and push its entries. */
  method AddLine(dz: Design, rand: nat -> Draw, k: nat, y: real, d: nat, groups0: map<char, seq<Point>>,
                 ghost lines0: seq<seq<Entry>>, ghost ps0: seq<(char, Point)>)
    returns (r: Option<Placed>, ghost lines: seq<seq<Entry>>, ghost ps: seq<(char, Point)>)
    requires Sound(dz) && k < LineCount(SheetOf(dz)) && LaidOut(dz, rand, k, y, d, groups0, lines0, ps0)
    ensures r.None? ==> Placement(dz, rand) == Err(NoSpace(k))
    ensures r.Some? ==> LaidOut(dz, rand, k + 1, y + dz.lineHeight, r.value.next, r.value.groups, lines, ps)
  {
    lines, ps := lines0, ps0;
    var line := LayLine(dz, rand, y, d);
    if line.None? {
      LinesFail(dz, rand, k, lines0, d);
      return None, lines, ps;
    }
    LinesStep(dz, rand, k, lines0, d);
    var row := line.value.entries;
    var groups := RecordRow(groups0, row, ps0);
    FlattenPairs(lines0, row);
    lines := lines0 + [row];
    ps := ps0 + Pairs(row);
    r := Some(Placed(groups, line.value.next));
  }

  /** The line loop `while (y < H - yOffset + lineHeight)`, each line pushed into the dictionary. */
  method Layout(dz: Design, rand: nat -> Draw) returns (r: Result<Placed, Fault>)
    requires Sound(dz)
    ensures r == Placement(dz, rand)
  {
    var rows := RowCount(dz.height, dz.top, dz.bottom, dz.lineHeight);
    var yOffset := YOffset(dz.height, rows, dz.lineHeight);
    var groups: map<char, seq<Point>> := map[];
    ghost var lines: seq<seq<Entry>> := [];
    ghost var ps: seq<(char, Point)> := [];
    var d: nat := 0;
    var y := yOffset;
    var k: nat := 0;
    var limit := dz.height - yOffset + dz.lineHeight;
    LineGuard(SheetOf(dz), k, y, limit);
    while y < limit
      invariant LaidOut(dz, rand, k, y, d, groups, lines, ps)
      invariant (y < limit) == (k < LineCount(SheetOf(dz)))
      decreases LineCount(SheetOf(dz)) - k
    {
      var next;
      next, lines, ps := AddLine(dz, rand, k, y, d, groups, lines, ps);
      if next.None? {
        return Err(NoSpace(k));
      }
      groups, d := next.value.groups, next.value.next;
      y := y + dz.lineHeight;
      k := k + 1;
      LineGuard(SheetOf(dz), k, y, limit);
    }
    LaidAll(dz, rand, k, y, d, groups, lines, ps);
    r := Ok(Placed(groups, d));
  }

  // ---------------------------------------------------------------- toolpath

  /** inkPosition.inkRange: the pad shrunk by three quarters of the stamp size. */
  function InkRange(dz: Design): Rect
  {
    Shrink(dz.pad, dz.stampSize * 0.75)
  }

  /** What the emission loop reads of the script. */
  function SetupOf(dz: Design): Setup
  {
    Setup(dz.heights, InkRange(dz), dz.height, dz.flipXY, dz.possible)
  }

  /** The paper-dimensions comment gives height then width when flipXY is set. */
  function SheetWidth(dz: Design): real
  {
    if dz.flipXY then dz.height else dz.width
  }

  function SheetHeight(dz: Design): real
  {
    if dz.flipXY then dz.width else dz.height
  }

  /** The emission loop's actions over validLetters, the ink jitter reading
      the draws the layout left. */
  function Presses(dz: Design, rand: nat -> Draw, p: Placed): seq<Action>
  {
    LetterSession(SetupOf(dz), Letters(dz), p.groups, After(rand, p.next))
  }

  /** The emission from a filled dictionary. */
  function Toolpath(dz: Design, rand: nat -> Draw, p: Placed): Result<seq<Cmd>, Fault>
  {
    var letters := Letters(dz);
    match FirstMissing(letters, p.groups)
    case Some(i) => Err(Unplaced(letters[i]))
    case None => Ok(Program(dz.heights, SheetWidth(dz), SheetHeight(dz), "love", Presses(dz, rand, p)))
  }

  /** The whole script: layout, then the toolpath. */
  function Output(dz: Design, rand: nat -> Draw): Result<seq<Cmd>, Fault>
    requires Sound(dz)
  {
    match Placement(dz, rand)
    case Err(f) => Err(f)
    case Ok(p) => Toolpath(dz, rand, p)
  }

  /** The script end to end: validLetters, the layout loop, the G-code header,
      the emission loop, end(). */
  method Generate(dz: Design, rand: nat -> Draw) returns (r: Result<seq<Cmd>, Fault>)
    requires Sound(dz)
    ensures r == Output(dz, rand)
  {
    var letters := CollectLetters(dz.words);
    var placed := Layout(dz, rand);
    if placed.Err? {
      return Err(placed.error);
    }
    var gcode := Header(SheetWidth(dz), SheetHeight(dz), "love");
    var emitted := EmitLetters(SetupOf(dz), letters, placed.value.groups, After(rand, placed.value.next), gcode);
    if emitted.Err? {
      return Err(Unplaced(emitted.error));
    }
    r := Ok(emitted.value + Finish(dz.heights));
  }
}
