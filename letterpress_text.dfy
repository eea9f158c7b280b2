/**
 * The text side of letterpress/index.js: the input is cut down to the glyphs
 * the font knows, split into lines and words exactly as String.split does,
 * and the words are packed into rows against the right border, a space in
 * front of every word, each input line closing its row, at most 1000 words
 * in all. Afterwards the leading space of every row is dropped.
 */
module LetterpressText {
  import opened Grouping

  /** One glyph of the font file: its advance width and the nudges applied to its stamp centre. */
  datatype Glyph = Glyph(width: real, xNudge: real, yNudge: real)

  /** font.glyphs and font.size of the font file. */
  datatype Font = Font(glyphs: map<char, Glyph>, width: real, height: real)

  /** A packed glyph: its character and the x of its left edge. */
  datatype Entry = Entry(letter: char, x: real)

  /** A word of the input and whether it is the last word of its input line. */
  datatype Word = Word(text: string, closesLine: bool)

  /** Where rows start and end: the left border and width - border.right. */
  datatype Frame = Frame(font: Font, left: real, limit: real)

  predicate Known(s: string, font: Font)
  {
    forall i :: 0 <= i < |s| ==> s[i] in font.glyphs
  }

  /** The font entry of a character. Every character that reaches the layout has
      passed Clean, so the fallback for an unknown one is never used by the source. */
  function GlyphOf(font: Font, c: char): Glyph
  {
    if c in font.glyphs then font.glyphs[c] else Glyph(0.0, 0.0, 0.0)
  }

  /** Every glyph advances x by a non-negative width. */
  predicate Forward(font: Font)
  {
    forall c :: c in font.glyphs ==> font.glyphs[c].width >= 0.0
  }

  // ---------------------------------------------------------------- filtering

  /** input.split('').filter(letter => validLetters.includes(letter)).join('') */
  function Clean(input: string, font: Font): (r: string)
    ensures Known(r, font)
    ensures |r| <= |input|
  {
    if |input| == 0 then []
    else
      var n := |input| - 1;
      Clean(input[..n], font) + (if input[n] in font.glyphs then [input[n]] else [])
  }

  lemma {:induction false} CleanAppend(a: string, b: string, font: Font)
    ensures Clean(a + b, font) == Clean(a, font) + Clean(b, font)
  {
    if |b| > 0 {
      var n := |b| - 1;
      assert (a + b)[..|a + b| - 1] == a + b[..n];
      CleanAppend(a, b[..n], font);
    } else {
      assert a + b == a;
    }
  }

  /** Filtering keeps exactly the characters the font knows: a known text is left as it is. */
  lemma {:induction false} CleanKeepsKnown(s: string, font: Font)
    ensures Clean(s, font) == s <==> Known(s, font)
  {
    if |s| > 0 {
      var n := |s| - 1;
      CleanKeepsKnown(s[..n], font);
      assert s == s[..n] + [s[n]];
      if Clean(s, font) == s {
        assert Clean(s, font)[n] == s[n];
        assert Clean(s[..n], font) == s[..n];
      }
    }
  }

  /** Filtering twice is filtering once. */
  lemma CleanIdempotent(s: string, font: Font)
    ensures Clean(Clean(s, font), font) == Clean(s, font)
  {
    CleanKeepsKnown(Clean(s, font), font);
  }

  // ---------------------------------------------------------------- splitting

  /** String.prototype.split with a one-character separator: the pieces between
      separators, an empty piece wherever two separators meet or the text ends in one. */
  function SplitOn(s: string, c: char): (r: seq<string>)
    ensures |r| > 0
    ensures forall i :: 0 <= i < |r| ==> c !in r[i]
    ensures forall i :: 0 <= i < |r| ==> forall ch :: ch in r[i] ==> ch in s
  {
    if |s| == 0 then [""]
    else
      var rest := SplitOn(s[1..], c);
      if s[0] == c then [""] + rest
      else [[s[0]] + rest[0]] + rest[1..]
  }

  /** Array.prototype.join with a one-character separator. */
  function Join(ps: seq<string>, c: char): string
    requires |ps| > 0
  {
    if |ps| == 1 then ps[0] else ps[0] + [c] + Join(ps[1..], c)
  }

  /** Joining the pieces gives the text back. */
  lemma {:induction false} SplitJoin(s: string, c: char)
    ensures Join(SplitOn(s, c), c) == s
  {
    if |s| > 0 {
      SplitJoin(s[1..], c);
      var rest := SplitOn(s[1..], c);
      if s[0] == c {
        assert ([""] + rest)[1..] == rest;
        assert s == [c] + s[1..];
      } else {
        var r := [[s[0]] + rest[0]] + rest[1..];
        if |rest| == 1 {
          assert s == [s[0]] + s[1..];
        } else {
          assert r[1..] == rest[1..];
          assert Join(rest, c) == rest[0] + [c] + Join(rest[1..], c);
          assert s == [s[0]] + s[1..];
        }
      }
    }
  }

  /** A piece without the separator, then the separator, splits off as one piece. */
  lemma {:induction false} SplitPiece(a: string, b: string, c: char)
    requires c !in a
    ensures SplitOn(a + [c] + b, c) == [a] + SplitOn(b, c)
    ensures SplitOn(a, c) == [a]
  {
    if |a| > 0 {
      SplitPiece(a[1..], b, c);
      assert (a + [c] + b)[1..] == a[1..] + [c] + b;
      assert a == [a[0]] + a[1..];
    } else {
      assert a + [c] + b == [c] + b;
    }
  }

  /** Splitting joined separator-free pieces gives the pieces back. */
  lemma {:induction false} JoinSplit(ps: seq<string>, c: char)
    requires |ps| > 0 && forall i :: 0 <= i < |ps| ==> c !in ps[i]
    ensures SplitOn(Join(ps, c), c) == ps
  {
    if |ps| == 1 {
      SplitPiece(ps[0], [], c);
    } else {
      JoinSplit(ps[1..], c);
      assert Join(ps, c) == ps[0] + [c] + Join(ps[1..], c);
      SplitPiece(ps[0], Join(ps[1..], c), c);
      assert ps == [ps[0]] + ps[1..];
    }
  }

  // ---------------------------------------------------------------- widths and laying out

  function Advance(font: Font, c: char): real
  {
    GlyphOf(font, c).width
  }

  /** The summed advance widths of a text (the reduce over font.glyphs[letter].width). */
  function Width(s: string, font: Font): real
  {
    if |s| == 0 then 0.0 else Advance(font, s[0]) + Width(s[1..], font)
  }

  lemma {:induction false} WidthAppend(a: string, b: string, font: Font)
    ensures Width(a + b, font) == Width(a, font) + Width(b, font)
  {
    if |a| > 0 {
      assert (a + b)[1..] == a[1..] + b;
      WidthAppend(a[1..], b, font);
    } else {
      assert a + b == b;
    }
  }

  lemma {:induction false} WidthNonNegative(s: string, font: Font)
    requires Forward(font)
    ensures Width(s, font) >= 0.0
  {
    if |s| > 0 {
      WidthNonNegative(s[1..], font);
    }
  }

  /** The entries of a text laid from x, each glyph starting where the previous one ends. */
  function Lay(s: string, x: real, font: Font): (r: seq<Entry>)
    ensures |r| == |s|
  {
    if |s| == 0 then [] else [Entry(s[0], x)] + Lay(s[1..], x + Advance(font, s[0]), font)
  }

  /** Laying a text with one more character adds one entry where the text ends. */
  lemma {:induction false} LaySnoc(s: string, c: char, x: real, font: Font)
    ensures Lay(s + [c], x, font) == Lay(s, x, font) + [Entry(c, x + Width(s, font))]
  {
    if |s| > 0 {
      assert (s + [c])[1..] == s[1..] + [c];
      LaySnoc(s[1..], c, x + Advance(font, s[0]), font);
    } else {
      assert s + [c] == [c];
    }
  }

  function Letters(row: seq<Entry>): (r: string)
    ensures |r| == |row|
  {
    if |row| == 0 then [] else [row[0].letter] + Letters(row[1..])
  }

  lemma {:induction false} LettersAppend(a: seq<Entry>, b: seq<Entry>)
    ensures Letters(a + b) == Letters(a) + Letters(b)
  {
    if |a| > 0 {
      assert (a + b)[1..] == a[1..] + b;
      LettersAppend(a[1..], b);
    } else {
      assert a + b == b;
    }
  }

  lemma LayLetters(s: string, x: real, font: Font)
    ensures Letters(Lay(s, x, font)) == s
  {
  }

  /** Each entry of a row starts where the previous glyph ends. */
  predicate Abutting(row: seq<Entry>, font: Font)
  {
    forall k :: 0 <= k < |row| - 1 ==> row[k + 1].x == row[k].x + Advance(font, row[k].letter)
  }

  /** The right edge of the last glyph of a row, or `start` when it is empty. */
  function RowEnd(row: seq<Entry>, start: real, font: Font): real
  {
    if |row| == 0 then start else row[|row| - 1].x + Advance(font, row[|row| - 1].letter)
  }

  /** A laid text abuts, starts at x and ends at x plus its width. */
  lemma {:induction false} LayAbuts(s: string, x: real, font: Font)
    ensures Abutting(Lay(s, x, font), font)
    ensures |s| > 0 ==> Lay(s, x, font)[0].x == x
    ensures RowEnd(Lay(s, x, font), x, font) == x + Width(s, font)
  {
    if |s| > 0 {
      var x' := x + Advance(font, s[0]);
      LayAbuts(s[1..], x', font);
      var r := Lay(s, x, font);
      var t := Lay(s[1..], x', font);
      assert r == [Entry(s[0], x)] + t;
      forall k | 0 <= k < |r| - 1
        ensures r[k + 1].x == r[k].x + Advance(font, r[k].letter)
      {
        if k > 0 {
          assert r[k + 1] == t[k] && r[k] == t[k - 1];
        }
      }
      if |t| > 0 {
        assert r[|r| - 1] == t[|t| - 1];
      }
    }
  }

  lemma AbuttingAppend(a: seq<Entry>, b: seq<Entry>, start: real, font: Font)
    requires Abutting(a, font) && Abutting(b, font)
    requires |b| > 0 ==> b[0].x == RowEnd(a, start, font)
    ensures Abutting(a + b, font)
    ensures RowEnd(a + b, start, font) == RowEnd(b, RowEnd(a, start, font), font)
  {
    var r := a + b;
    forall k | 0 <= k < |r| - 1
      ensures r[k + 1].x == r[k].x + Advance(font, r[k].letter)
    {
      if k + 1 < |a| {
        assert r[k + 1] == a[k + 1] && r[k] == a[k];
      } else if k + 1 == |a| {
        assert r[k + 1] == b[0] && r[k] == a[|a| - 1];
      } else {
        assert r[k + 1] == b[k + 1 - |a|] && r[k] == b[k - |a|];
      }
    }
  }

  // ---------------------------------------------------------------- packing

  /** The words of one input line, each tagged with whether it closes the line. */
  function Tagged(ws: seq<string>): (r: seq<Word>)
    ensures |r| == |ws|
    ensures forall i :: 0 <= i < |ws| ==> r[i] == Word(ws[i], i == |ws| - 1)
  {
    seq(|ws|, i requires 0 <= i < |ws| => Word(ws[i], i == |ws| - 1))
  }

  /** All words of the input, line after line. */
  function Stream(lines: seq<seq<string>>): seq<Word>
  {
    if |lines| == 0 then [] else Tagged(lines[0]) + Stream(lines[1..])
  }

  /** The words of every line of the (filtered) input. */
  function LineWords(lines: seq<string>): (r: seq<seq<string>>)
    ensures |r| == |lines| && forall i :: 0 <= i < |lines| ==> r[i] == SplitOn(lines[i], ' ')
  {
    seq(|lines|, i requires 0 <= i < |lines| => SplitOn(lines[i], ' '))
  }

  function SpaceWidth(f: Frame): real
  {
    Advance(f.font, ' ')
  }

  /** x at the start of a row: border.left - spaceWidth, so the first word begins on its space. */
  function RowStart(f: Frame): real
  {
    f.left - SpaceWidth(f)
  }

  /** What one turn of the packing loop leaves behind. */
  datatype Step = Step(emitted: seq<seq<Entry>>, row: seq<Entry>, x: real)

  /** One word, up to the end-of-line check: break the row if the space and the
      word would pass the limit, then add the space and the letters. */
  function Place(f: Frame, text: string, row: seq<Entry>, x: real): Step
  {
    var brk := x + SpaceWidth(f) + Width(text, f.font) > f.limit;
    var x1 := if brk then RowStart(f) else x;
    Step(if brk then [row] else [],
         (if brk then [] else row) + Lay([' '] + text, x1, f.font),
         x1 + SpaceWidth(f) + Width(text, f.font))
  }

  /** One turn of the loop: place the word, and push the row if the word closes its line. */
  function Turn(f: Frame, w: Word, row: seq<Entry>, x: real): Step
  {
    var s := Place(f, w.text, row, x);
    if w.closesLine then Step(s.emitted + [s.row], [], RowStart(f)) else s
  }

  /** The state after the first k turns of the packing loop: every row pushed
      so far, the open row and x. */
  function Run(f: Frame, items: seq<Word>, k: nat): Step
    requires k <= |items|
  {
    if k == 0 then Step([], [], RowStart(f))
    else
      var s := Run(f, items, k - 1);
      var t := Turn(f, items[k - 1], s.row, s.x);
      Step(s.emitted + t.emitted, t.row, t.x)
  }

  /** The number of turns the loop takes: one per word, the escape counter stopping it at 1000. */
  function Turns(items: seq<Word>): nat
  {
    if |items| < 1000 then |items| else 1000
  }

  /** The rows of the whole input. A row still open when the escape counter
      stops the loop is never pushed. */
  function Packed(f: Frame, lines: seq<string>): seq<seq<Entry>>
  {
    var items := Stream(LineWords(lines));
    Run(f, items, Turns(items)).emitted
  }

  /** The forEach over the letters of a word: push each at x, move x on by its width. */
  method LayWord(font: Font, word: string, row0: seq<Entry>, x0: real) returns (row: seq<Entry>, x: real)
    requires Known(word, font)
    ensures row == row0 + Lay(word, x0, font)
    ensures x == x0 + Width(word, font)
  {
    row := row0;
    x := x0;
    var j := 0;
    while j < |word|
      invariant j <= |word|
      invariant row == row0 + Lay(word[..j], x0, font)
      invariant x == x0 + Width(word[..j], font)
    {
      assert word[..j + 1] == word[..j] + [word[j]];
      LaySnoc(word[..j], word[j], x0, font);
      WidthAppend(word[..j], [word[j]], font);
      row := row + [Entry(word[j], x)];
      x := x + font.glyphs[word[j]].width;
      j := j + 1;
    }
    assert word[..j] == word;
  }

  lemma SpaceFirst(word: string, x: real, font: Font)
    ensures Lay([' '] + word, x, font) == [Entry(' ', x)] + Lay(word, x + Advance(font, ' '), font)
  {
    assert ([' '] + word)[1..] == word;
  }

  /** The first part of the loop body: the break test, the space and the letters. */
  method PlaceWord(f: Frame, word: string, rows0: seq<seq<Entry>>, row0: seq<Entry>, x0: real)
    returns (rows: seq<seq<Entry>>, row: seq<Entry>, x: real)
    requires ' ' in f.font.glyphs && Known(word, f.font)
    ensures rows == rows0 + Place(f, word, row0, x0).emitted
    ensures row == Place(f, word, row0, x0).row && x == Place(f, word, row0, x0).x
  {
    var spaceWidth := f.font.glyphs[' '].width;
    var currentWordWidth := Width(word, f.font);
    var rightEdgeOfCurrentWord := x0 + spaceWidth + currentWordWidth;
    rows, row, x := rows0, row0, x0;
    if rightEdgeOfCurrentWord > f.limit {
      rows := rows + [row];
      row := [];
      x := f.left - spaceWidth;
    }
    SpaceFirst(word, x, f.font);
    row := row + [Entry(' ', x)];
    x := x + spaceWidth;
    row, x := LayWord(f.font, word, row, x);
  }

  /** The words still to come, seen from word `wi` of line `cl`. */
  function Pending(ls: seq<seq<string>>, cl: nat, wi: nat): seq<Word>
    requires cl < |ls| && wi <= |ls[cl]|
  {
    Tagged(ls[cl])[wi..] + Stream(ls[cl + 1..])
  }

  lemma PendingStep(ls: seq<seq<string>>, cl: nat, wi: nat)
    requires cl < |ls| && wi < |ls[cl]|
    ensures Pending(ls, cl, wi) == [Word(ls[cl][wi], wi == |ls[cl]| - 1)] + Pending(ls, cl, wi + 1)
    ensures wi + 1 == |ls[cl]| && cl + 1 < |ls| ==> Pending(ls, cl, wi + 1) == Pending(ls, cl + 1, 0)
    ensures wi + 1 == |ls[cl]| && cl + 1 == |ls| ==> Pending(ls, cl, wi + 1) == []
  {
    assert Tagged(ls[cl])[wi..] == [Tagged(ls[cl])[wi]] + Tagged(ls[cl])[wi + 1..];
    if cl + 1 < |ls| {
      assert ls[cl + 1..][1..] == ls[cl + 2..];
      assert ls[cl + 1..][0] == ls[cl + 1];
      assert Tagged(ls[cl + 1])[0..] == Tagged(ls[cl + 1]);
    }
  }

  lemma PendingStart(ls: seq<seq<string>>)
    requires |ls| > 0
    ensures Pending(ls, 0, 0) == Stream(ls)
  {
    assert Tagged(ls[0])[0..] == Tagged(ls[0]);
  }

  /** Every word of a known line is known. */
  lemma {:induction false} SplitKnown(s: string, c: char, font: Font)
    requires Known(s, font)
    ensures forall i :: 0 <= i < |SplitOn(s, c)| ==> Known(SplitOn(s, c)[i], font)
  {
    if |s| > 0 {
      SplitKnown(s[1..], c, font);
    }
  }

  predicate LinesKnown(lines: seq<string>, font: Font)
  {
    forall i :: 0 <= i < |lines| ==> Known(lines[i], font)
  }

  /** The pending words, read as the suffix of the whole stream after k turns. */
  lemma PendingAt(ls: seq<seq<string>>, cl: nat, wi: nat, items: seq<Word>, k: nat)
    requires cl < |ls| && wi < |ls[cl]| && k <= |items| && Pending(ls, cl, wi) == items[k..]
    ensures k < |items| && items[k] == Word(ls[cl][wi], wi == |ls[cl]| - 1)
    ensures Pending(ls, cl, wi + 1) == items[k + 1..]
  {
    PendingStep(ls, cl, wi);
    assert items[k..][0] == items[k];
    assert items[k..][1..] == items[k + 1..];
  }

  /** One turn of the loop body: place the word, and when it is the last of its
      input line push the row and go back to the left border. */
  method TakeWord(f: Frame, w: Word, rows0: seq<seq<Entry>>, row0: seq<Entry>, x0: real)
    returns (rows: seq<seq<Entry>>, row: seq<Entry>, x: real)
    requires ' ' in f.font.glyphs && Known(w.text, f.font)
    ensures rows == rows0 + Turn(f, w, row0, x0).emitted
    ensures row == Turn(f, w, row0, x0).row && x == Turn(f, w, row0, x0).x
  {
    rows, row, x := PlaceWord(f, w.text, rows0, row0, x0);
    if w.closesLine {
      rows := rows + [row];
      row := [];
      x := f.left - f.font.glyphs[' '].width;
    }
  }

  /** The packing loop of letterpress/index.js. The end-of-line test that
      pushes the row is made before the turn, as `closesLine`; the index
      bookkeeping after it is the same test. */
  method PackRows(f: Frame, lines: seq<string>) returns (rows: seq<seq<Entry>>)
    requires ' ' in f.font.glyphs && |lines| > 0 && LinesKnown(lines, f.font)
    ensures rows == Packed(f, lines)
  {
    ghost var ls := LineWords(lines);
    ghost var items := Stream(ls);
    var spaceWidth := f.font.glyphs[' '].width;
    var currentRow: seq<Entry> := [];
    rows := [];
    var currentInputLine := 0;
    var currentInputLineWords := SplitOn(lines[0], ' ');
    var currentInputLineWordIndex := 0;
    var x := f.left - spaceWidth;
    var finished := false;
    var escapeCounter := 0;
    PendingStart(ls);
    while !finished && escapeCounter < 1000
      invariant escapeCounter <= 1000 && escapeCounter <= |items|
      invariant !finished ==> currentInputLine < |lines| && currentInputLineWords == ls[currentInputLine]
      invariant !finished ==> currentInputLineWordIndex < |currentInputLineWords|
      invariant !finished ==> Pending(ls, currentInputLine, currentInputLineWordIndex) == items[escapeCounter..]
      invariant finished ==> escapeCounter == |items|
      invariant Run(f, items, escapeCounter) == Step(rows, currentRow, x)
      decreases 1000 - escapeCounter
    {
      SplitKnown(lines[currentInputLine], ' ', f.font);
      PendingAt(ls, currentInputLine, currentInputLineWordIndex, items, escapeCounter);
      PendingStep(ls, currentInputLine, currentInputLineWordIndex);
      RunNext(f, items, escapeCounter);
      var w := Word(currentInputLineWords[currentInputLineWordIndex],
                    currentInputLineWordIndex + 1 >= |currentInputLineWords|);
      rows, currentRow, x := TakeWord(f, w, rows, currentRow, x);
      currentInputLineWordIndex := currentInputLineWordIndex + 1;
      if currentInputLineWordIndex >= |currentInputLineWords| {
        currentInputLine := currentInputLine + 1;
        if currentInputLine >= |lines| {
          finished := true;
        } else {
          currentInputLineWords := SplitOn(lines[currentInputLine], ' ');
          currentInputLineWordIndex := 0;
        }
      }
      escapeCounter := escapeCounter + 1;
    }
  }

  // ---------------------------------------------------------------- what packing promises

  /** A row the packer pushes abuts and starts with the space of its first word
      at RowStart, so that word's first letter sits on the left border. */
  predicate PackedRow(f: Frame, row: seq<Entry>)
  {
    && Abutting(row, f.font)
    && (|row| > 0 ==> row[0].x == RowStart(f) && row[0].letter == ' ')
  }

  /** The state between turns: a packed row ending at x. */
  predicate Open(f: Frame, row: seq<Entry>, x: real)
  {
    PackedRow(f, row) && x == RowEnd(row, RowStart(f), f.font)
  }

  lemma SpaceLay(f: Frame, text: string, x: real)
    ensures |Lay([' '] + text, x, f.font)| > 0 && Lay([' '] + text, x, f.font)[0] == Entry(' ', x)
    ensures Width([' '] + text, f.font) == SpaceWidth(f) + Width(text, f.font)
  {
    assert ([' '] + text)[1..] == text;
  }

  lemma PlaceKeepsOpen(f: Frame, text: string, row: seq<Entry>, x: real)
    requires Open(f, row, x)
    ensures Open(f, Place(f, text, row, x).row, Place(f, text, row, x).x)
    ensures forall i :: 0 <= i < |Place(f, text, row, x).emitted| ==> PackedRow(f, Place(f, text, row, x).emitted[i])
  {
    var brk := x + SpaceWidth(f) + Width(text, f.font) > f.limit;
    var x1 := if brk then RowStart(f) else x;
    var t := [' '] + text;
    var l := Lay(t, x1, f.font);
    LayAbuts(t, x1, f.font);
    SpaceLay(f, text, x1);
    var p := Place(f, text, row, x);
    if brk {
      assert p.row == l;
    } else {
      assert p.row == row + l;
      AbuttingAppend(row, l, RowStart(f), f.font);
    }
  }

  lemma TurnKeepsOpen(f: Frame, w: Word, row: seq<Entry>, x: real)
    requires Open(f, row, x)
    ensures Open(f, Turn(f, w, row, x).row, Turn(f, w, row, x).x)
    ensures AllPacked(f, Turn(f, w, row, x).emitted)
  {
    PlaceKeepsOpen(f, w.text, row, x);
    var p := Place(f, w.text, row, x);
    var e := Turn(f, w, row, x).emitted;
    forall i | 0 <= i < |e| ensures PackedRow(f, e[i]) {
      if i < |p.emitted| {
        assert e[i] == p.emitted[i];
      } else {
        assert e[i] == p.row;
      }
    }
  }

  predicate AllPacked(f: Frame, rows: seq<seq<Entry>>)
  {
    forall i :: 0 <= i < |rows| ==> PackedRow(f, rows[i])
  }

  lemma AllPackedAppend(f: Frame, a: seq<seq<Entry>>, b: seq<seq<Entry>>)
    requires AllPacked(f, a) && AllPacked(f, b)
    ensures AllPacked(f, a + b)
  {
    forall i | 0 <= i < |a + b| ensures PackedRow(f, (a + b)[i]) {
      if i < |a| {
        assert (a + b)[i] == a[i];
      } else {
        assert (a + b)[i] == b[i - |a|];
      }
    }
  }

  /** Every row the packer pushes is a PackedRow, and the open row is one too. */
  lemma {:induction false} RunOpen(f: Frame, items: seq<Word>, k: nat)
    requires k <= |items|
    ensures Open(f, Run(f, items, k).row, Run(f, items, k).x)
    ensures AllPacked(f, Run(f, items, k).emitted)
  {
    if k > 0 {
      RunOpen(f, items, k - 1);
      var s := Run(f, items, k - 1);
      var t := Turn(f, items[k - 1], s.row, s.x);
      TurnKeepsOpen(f, items[k - 1], s.row, s.x);
      AllPackedAppend(f, s.emitted, t.emitted);
      RunNext(f, items, k - 1);
    }
  }

  /** The rows of the whole input are PackedRows. */
  lemma PackedRowsAbut(f: Frame, lines: seq<string>)
    ensures forall i :: 0 <= i < |Packed(f, lines)| ==> PackedRow(f, Packed(f, lines)[i])
  {
    var items := Stream(LineWords(lines));
    RunOpen(f, items, Turns(items));
  }

  /** Every word fits between the borders on its own. */
  predicate WordsFit(f: Frame, items: seq<Word>)
  {
    forall i :: 0 <= i < |items| ==> f.left + Width(items[i].text, f.font) <= f.limit
  }

  lemma AdvanceNonNegative(font: Font, c: char)
    requires Forward(font)
    ensures Advance(font, c) >= 0.0
  {
  }

  /** One turn never leaves x or a pushed row past the limit. */
  lemma TurnFits(f: Frame, w: Word, row: seq<Entry>, x: real)
    requires Open(f, row, x) && Forward(f.font) && f.left + Width(w.text, f.font) <= f.limit && x <= f.limit
    ensures Turn(f, w, row, x).x <= f.limit
    ensures AllFit(f, Turn(f, w, row, x).emitted)
  {
    PlaceKeepsOpen(f, w.text, row, x);
    WidthNonNegative(w.text, f.font);
    AdvanceNonNegative(f.font, ' ');
    var p := Place(f, w.text, row, x);
    assert p.x <= f.limit;
    var e := Turn(f, w, row, x).emitted;
    forall i | 0 <= i < |e| ensures RowEnd(e[i], RowStart(f), f.font) <= f.limit {
      if i < |p.emitted| {
        assert e[i] == p.emitted[i] == row;
      } else {
        assert e[i] == p.row;
      }
    }
  }

  predicate AllFit(f: Frame, rows: seq<seq<Entry>>)
  {
    forall i :: 0 <= i < |rows| ==> RowEnd(rows[i], RowStart(f), f.font) <= f.limit
  }

  lemma AllFitAppend(f: Frame, a: seq<seq<Entry>>, b: seq<seq<Entry>>)
    requires AllFit(f, a) && AllFit(f, b)
    ensures AllFit(f, a + b)
  {
    forall i | 0 <= i < |a + b| ensures RowEnd((a + b)[i], RowStart(f), f.font) <= f.limit {
      if i < |a| {
        assert (a + b)[i] == a[i];
      } else {
        assert (a + b)[i] == b[i - |a|];
      }
    }
  }

  /** If no word is wider than the usable width and no glyph moves backwards,
      no row runs past the right border. */
  lemma {:induction false} RunFits(f: Frame, items: seq<Word>, k: nat)
    requires k <= |items| && Forward(f.font) && WordsFit(f, items) && f.left <= f.limit
    ensures Run(f, items, k).x <= f.limit
    ensures AllFit(f, Run(f, items, k).emitted)
  {
    if k == 0 {
      AdvanceNonNegative(f.font, ' ');
    } else {
      RunFits(f, items, k - 1);
      RunOpen(f, items, k - 1);
      var s := Run(f, items, k - 1);
      var w := items[k - 1];
      assert f.left + Width(w.text, f.font) <= f.limit;
      TurnFits(f, w, s.row, s.x);
      AllFitAppend(f, s.emitted, Turn(f, w, s.row, s.x).emitted);
      RunNext(f, items, k - 1);
    }
  }

  /** No row of the whole input runs past the right border when every word fits on its own. */
  lemma PackedRowsFit(f: Frame, lines: seq<string>)
    requires Forward(f.font) && WordsFit(f, Stream(LineWords(lines))) && f.left <= f.limit
    ensures forall i :: 0 <= i < |Packed(f, lines)| ==> RowEnd(Packed(f, lines)[i], RowStart(f), f.font) <= f.limit
  {
    var items := Stream(LineWords(lines));
    RunFits(f, items, Turns(items));
  }

  /** The text the packed words show: a space before every word. */
  function Spaced(items: seq<Word>): string
  {
    if |items| == 0 then [] else [' '] + items[0].text + Spaced(items[1..])
  }

  function AllLetters(rows: seq<seq<Entry>>): string
  {
    if |rows| == 0 then [] else Letters(rows[0]) + AllLetters(rows[1..])
  }

  lemma {:induction false} AllLettersAppend(a: seq<seq<Entry>>, b: seq<seq<Entry>>)
    ensures AllLetters(a + b) == AllLetters(a) + AllLetters(b)
  {
    if |a| > 0 {
      assert (a + b)[1..] == a[1..] + b;
      AllLettersAppend(a[1..], b);
    } else {
      assert a + b == b;
    }
  }

  lemma AllLettersOne(row: seq<Entry>)
    ensures AllLetters([row]) == Letters(row)
  {
    assert [row][1..] == [];
  }

  lemma PlaceLetters(f: Frame, text: string, row: seq<Entry>, x: real)
    ensures AllLetters(Place(f, text, row, x).emitted) + Letters(Place(f, text, row, x).row) == Letters(row) + ([' '] + text)
  {
    var brk := x + SpaceWidth(f) + Width(text, f.font) > f.limit;
    var x1 := if brk then RowStart(f) else x;
    var t := [' '] + text;
    LayLetters(t, x1, f.font);
    if brk {
      AllLettersOne(row);
      assert Place(f, text, row, x).row == Lay(t, x1, f.font);
    } else {
      LettersAppend(row, Lay(t, x1, f.font));
    }
  }

  lemma TurnLetters(f: Frame, w: Word, row: seq<Entry>, x: real)
    ensures AllLetters(Turn(f, w, row, x).emitted) + Letters(Turn(f, w, row, x).row) == Letters(row) + ([' '] + w.text)
    ensures w.closesLine ==> Turn(f, w, row, x).row == []
  {
    PlaceLetters(f, w.text, row, x);
    var p := Place(f, w.text, row, x);
    if w.closesLine {
      AllLettersAppend(p.emitted, [p.row]);
      AllLettersOne(p.row);
    }
  }

  lemma {:induction false} SpacedAppend(a: seq<Word>, b: seq<Word>)
    ensures Spaced(a + b) == Spaced(a) + Spaced(b)
  {
    if |a| > 0 {
      assert (a + b)[1..] == a[1..] + b;
      SpacedAppend(a[1..], b);
    } else {
      assert a + b == b;
    }
  }

  lemma SpacedSnoc(items: seq<Word>, k: nat)
    requires 0 < k <= |items|
    ensures Spaced(items[..k]) == Spaced(items[..k - 1]) + ([' '] + items[k - 1].text)
  {
    var w := items[k - 1];
    assert items[..k] == items[..k - 1] + [w];
    SpacedAppend(items[..k - 1], [w]);
    assert [w][1..] == [];
  }

  /** The pushed rows and the open row, read in order, show the words taken so
      far, each after its space. */
  lemma {:induction false} RunLetters(f: Frame, items: seq<Word>, k: nat)
    requires k <= |items|
    ensures AllLetters(Run(f, items, k).emitted) + Letters(Run(f, items, k).row) == Spaced(items[..k])
  {
    if k > 0 {
      var w := items[k - 1];
      RunLetters(f, items, k - 1);
      var s := Run(f, items, k - 1);
      var t := Turn(f, w, s.row, s.x);
      TurnLetters(f, w, s.row, s.x);
      AllLettersAppend(s.emitted, t.emitted);
      SpacedSnoc(items, k);
      Rejoin(AllLetters(s.emitted), Letters(s.row), AllLetters(t.emitted), Letters(t.row), [' '] + w.text);
      RunNext(f, items, k - 1);
    }
  }

  /** Run, one turn further. */
  lemma RunNext(f: Frame, items: seq<Word>, k: nat)
    requires k < |items|
    ensures var s := Run(f, items, k);
      var t := Turn(f, items[k], s.row, s.x);
      Run(f, items, k + 1) == Step(s.emitted + t.emitted, t.row, t.x)
  {
  }

  lemma Rejoin<T>(a: seq<T>, r: seq<T>, b: seq<T>, r': seq<T>, w: seq<T>)
    requires b + r' == r + w
    ensures (a + b) + r' == (a + r) + w
  {
    calc {
      (a + b) + r';
      a + (b + r');
      a + (r + w);
      (a + r) + w;
    }
  }

  /** A word that ends its input line closes the row: after it nothing is open,
      and everything taken so far is in pushed rows. */
  lemma LineClosesRow(f: Frame, items: seq<Word>, k: nat)
    requires 0 < k <= |items| && items[k - 1].closesLine
    ensures Run(f, items, k).row == [] && Run(f, items, k).x == RowStart(f)
    ensures AllLetters(Run(f, items, k).emitted) == Spaced(items[..k])
  {
    RunLetters(f, items, k);
  }

  /** The state after k turns depends on the first k words only. */
  lemma {:induction false} RunPrefix(f: Frame, items: seq<Word>, more: seq<Word>, k: nat)
    requires k <= |items|
    ensures Run(f, items + more, k) == Run(f, items, k)
  {
    if k > 0 {
      RunPrefix(f, items, more, k - 1);
      assert (items + more)[k - 1] == items[k - 1];
    }
  }

  /** At most 1000 words are processed: the rows are those of the first 1000 words. */
  lemma PackedFirstWords(f: Frame, lines: seq<string>)
    ensures var items := Stream(LineWords(lines));
      Packed(f, lines) == Run(f, items[..Turns(items)], Turns(items)).emitted
  {
    var items := Stream(LineWords(lines));
    var n := Turns(items);
    assert items == items[..n] + items[n..];
    RunPrefix(f, items[..n], items[n..], n);
  }

  /** The stream ends with the last word of the last line, which closes its row. */
  lemma {:induction false} StreamEndsLine(ls: seq<seq<string>>)
    requires |ls| > 0 && forall i :: 0 <= i < |ls| ==> |ls[i]| > 0
    ensures |Stream(ls)| > 0 && Stream(ls)[|Stream(ls)| - 1].closesLine
  {
    var t := Tagged(ls[0]);
    if |ls| == 1 {
      assert ls[1..] == [];
      assert Stream(ls) == t + [];
    } else {
      StreamEndsLine(ls[1..]);
      assert Stream(ls)[|Stream(ls)| - 1] == Stream(ls[1..])[|Stream(ls[1..])| - 1];
    }
  }

  /** Reading the rows in order gives back every word of the input, each after
      its space, when the input has at most 1000 words. */
  lemma PackedRoundTrip(f: Frame, lines: seq<string>)
    requires |lines| > 0 && |Stream(LineWords(lines))| <= 1000
    ensures AllLetters(Packed(f, lines)) == Spaced(Stream(LineWords(lines)))
  {
    var items := Stream(LineWords(lines));
    StreamEndsLine(LineWords(lines));
    LineClosesRow(f, items, |items|);
    assert items[..|items|] == items;
  }

  /** row.shift(): the first entry of a row goes, an empty row stays empty. */
  function Unspaced(row: seq<Entry>): seq<Entry>
  {
    if |row| == 0 then row else row[1..]
  }

  /** After the shift a packed row abuts from the left border, keeps its right
      end, and has lost exactly its leading space. */
  lemma UnspacedFromLeft(f: Frame, row: seq<Entry>)
    requires PackedRow(f, row)
    ensures Abutting(Unspaced(row), f.font)
    ensures |Unspaced(row)| > 0 ==> Unspaced(row)[0].x == f.left
    ensures |row| > 0 ==> Letters(row) == [' '] + Letters(Unspaced(row))
    ensures |row| > 0 ==> RowEnd(Unspaced(row), f.left, f.font) == RowEnd(row, RowStart(f), f.font)
  {
    if |row| > 0 {
      assert row == [row[0]] + row[1..];
      if |row| > 1 {
        assert row[1].x == row[0].x + Advance(f.font, ' ');
        assert row[|row| - 1] == row[1..][|row| - 2];
      }
    }
  }

  /** The shift pass, done in place on each row. */
  method ShiftRows(rows0: seq<seq<Entry>>) returns (rows: seq<seq<Entry>>)
    ensures |rows| == |rows0|
    ensures forall i :: 0 <= i < |rows| ==> rows[i] == Unspaced(rows0[i])
  {
    rows := rows0;
    var i := 0;
    while i < |rows|
      invariant i <= |rows| == |rows0|
      invariant forall j :: 0 <= j < i ==> rows[j] == Unspaced(rows0[j])
      invariant forall j :: i <= j < |rows| ==> rows[j] == rows0[j]
    {
      if |rows[i]| > 0 {
        rows := rows[i := rows[i][1..]];
      }
      i := i + 1;
    }
  }
}
