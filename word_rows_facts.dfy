/**
 * What the layout of 10mm/fuck.js guarantees about its rows: letters are set
 * edge to edge at their table widths, every space follows a letter, a trimmed
 * row ends on a letter, a centred row has equal margins, and a word list
 * whose words fit the usable width always lays out.
 */
module WordRowsFacts {
  import opened Wrappers
  import opened GCode
  import opened Grouping
  import opened Stamping
  import opened Emission
  import opened Placements
  import opened WordRows
  import Wave

  /** Where an entry's cursor stood: its stored x less its xNudge. */
  function Raw(dz: Design, e: Entry): real
    requires e.letter in dz.sizes
  {
    e.x - dz.sizes[e.letter].xNudge
  }

  /** Entries set edge to edge from cursor x on line y: each one's cursor is
      where the previous one's width ended, and its y is y plus its yNudge. */
  predicate Pitched(dz: Design, es: seq<Entry>, x: real, y: real)
    requires Sized(dz, es)
  {
    |es| > 0 ==>
      && Raw(dz, es[0]) == x && es[0].y == y + dz.sizes[es[0].letter].yNudge
      && Pitched(dz, es[1..], x + dz.sizes[es[0].letter].width, y)
  }

  /** The fill sets its entries edge to edge when the space's table width is
      the 10 mm the loop skips after a word. */
  lemma {:induction false} FillPitch(dz: Design, rand: nat -> Draw, y: real, x: real, w: nat, li: nat, d: nat)
    requires Sound(dz) && w < |dz.words| && li < |dz.words[w]| && dz.sizes[' '].width == 10.0
    ensures Sized(dz, FillFrom(dz, rand, y, x, w, li, d).entries)
    ensures Pitched(dz, FillFrom(dz, rand, y, x, w, li, d).entries, x, y)
    decreases Wave.Remaining(Bound(dz), x)
  {
    var es := FillFrom(dz, rand, y, x, w, li, d).entries;
    if x < Bound(dz) {
      var c := dz.words[w][li];
      var s := dz.sizes[c];
      if li + 1 >= |dz.words[w]| {
        Wave.LineDecreases(Bound(dz), x, s.width + 10.0);
        var w' := Pick(rand(d), |dz.words|);
        FillPitch(dz, rand, y, x + s.width + 10.0, w', 0, d + 1);
        var rest := FillFrom(dz, rand, y, x + s.width + 10.0, w', 0, d + 1).entries;
        assert es[1..][1..] == rest;
      } else {
        Wave.LineDecreases(Bound(dz), x, s.width);
        FillPitch(dz, rand, y, x + s.width, w, li + 1, d);
        assert es[1..] == FillFrom(dz, rand, y, x + s.width, w, li + 1, d).entries;
      }
    }
  }

  /** Every space entry comes straight after a letter entry (so the row also starts with a letter). */
  predicate Spaced(es: seq<Entry>)
  {
    forall k :: 0 <= k < |es| && es[k].letter == ' ' ==> 0 < k && es[k - 1].letter != ' '
  }

  /** Every letter entry is a letter of the word list, placed while the
      cursor was inside the usable width. */
  predicate Inside(dz: Design, es: seq<Entry>)
    requires Sized(dz, es)
  {
    forall k :: 0 <= k < |es| && es[k].letter != ' ' ==> es[k].letter in Flatten(dz.words) && Raw(dz, es[k]) < Bound(dz)
  }

  /** A letter in front of a row that starts with a letter. */
  lemma ShapeCons(dz: Design, es: seq<Entry>, e: Entry, rest: seq<Entry>)
    requires es == [e] + rest && e.letter != ' ' && Sized(dz, es)
    requires e.letter in dz.sizes && e.letter in Flatten(dz.words) && Raw(dz, e) < Bound(dz)
    requires Sized(dz, rest) && Spaced(rest) && Inside(dz, rest)
    requires |rest| > 0 ==> rest[0].letter != ' '
    ensures Spaced(es) && Inside(dz, es)
  {
    forall k | 0 <= k < |es| && es[k].letter == ' '
      ensures 0 < k && es[k - 1].letter != ' '
    {
      assert es[k] == rest[k - 1];
      if k > 1 {
        assert es[k - 1] == rest[k - 2];
      }
    }
    forall k | 0 < k < |es|
      ensures es[k] == rest[k - 1]
    {
    }
  }

  /** A word's last letter and its space in front of a row that starts with a letter. */
  lemma ShapeCons2(dz: Design, es: seq<Entry>, e: Entry, gap: Entry, rest: seq<Entry>)
    requires es == [e, gap] + rest && e.letter != ' ' && gap.letter == ' ' && Sized(dz, es)
    requires e.letter in dz.sizes && e.letter in Flatten(dz.words) && Raw(dz, e) < Bound(dz)
    requires Sized(dz, rest) && Spaced(rest) && Inside(dz, rest)
    requires |rest| > 0 ==> rest[0].letter != ' '
    ensures Spaced(es) && Inside(dz, es)
  {
    forall k | 1 < k < |es|
      ensures es[k] == rest[k - 2]
    {
    }
    forall k | 0 <= k < |es| && es[k].letter == ' '
      ensures 0 < k && es[k - 1].letter != ' '
    {
      if k > 2 {
        assert es[k - 1] == rest[k - 3];
      }
    }
  }

  lemma InFlatten<T>(rows: seq<seq<T>>, i: nat, j: nat)
    requires i < |rows| && j < |rows[i]|
    ensures rows[i][j] in Flatten(rows)
  {
    if i < |rows| - 1 {
      InFlatten(rows[..|rows| - 1], i, j);
      assert rows[..|rows| - 1][i] == rows[i];
    }
  }

  /** The fill's entries: spaces only after letters, every letter taken from
      the word list and placed while the cursor was inside the usable width. */
  lemma {:induction false} FillShape(dz: Design, rand: nat -> Draw, y: real, x: real, w: nat, li: nat, d: nat)
    requires Sound(dz) && Spaceless(dz) && w < |dz.words| && li < |dz.words[w]|
    ensures var es := FillFrom(dz, rand, y, x, w, li, d).entries;
      && Spaced(es) && Inside(dz, es)
      && (|es| > 0 ==> es[0].letter == dz.words[w][li])
    decreases Wave.Remaining(Bound(dz), x)
  {
    var es := FillFrom(dz, rand, y, x, w, li, d).entries;
    if x < Bound(dz) {
      var c := dz.words[w][li];
      var s := dz.sizes[c];
      var e := Entry(c, x + s.xNudge, y + s.yNudge);
      InFlatten(dz.words, w, li);
      if li + 1 >= |dz.words[w]| {
        Wave.LineDecreases(Bound(dz), x, s.width + 10.0);
        var w' := Pick(rand(d), |dz.words|);
        FillShape(dz, rand, y, x + s.width + 10.0, w', 0, d + 1);
        var rest := FillFrom(dz, rand, y, x + s.width + 10.0, w', 0, d + 1).entries;
        var gap := Entry(' ', x + s.width + dz.sizes[' '].xNudge, y + dz.sizes[' '].yNudge);
        ShapeCons2(dz, es, e, gap, rest);
      } else {
        Wave.LineDecreases(Bound(dz), x, s.width);
        FillShape(dz, rand, y, x + s.width, w, li + 1, d);
        ShapeCons(dz, es, e, FillFrom(dz, rand, y, x + s.width, w, li + 1, d).entries);
      }
    }
  }

  // ---------------------------------------------------------------- trim and centre

  lemma {:induction false} PitchedPrefix(dz: Design, es: seq<Entry>, n: nat, x: real, y: real)
    requires n <= |es| && Sized(dz, es) && Pitched(dz, es, x, y)
    ensures Sized(dz, es[..n]) && Pitched(dz, es[..n], x, y)
  {
    if n > 0 {
      PitchedPrefix(dz, es[1..], n - 1, x + dz.sizes[es[0].letter].width, y);
      assert es[..n][1..] == es[1..][..n - 1];
    }
  }

  /** The trimmed row is a nonempty run of whole words ending on a letter,
      still set edge to edge. */
  lemma TrimmedShape(dz: Design, row: seq<Entry>, x: real, y: real)
    requires Spaced(row) && Trimmed(row).Some?
    ensures var t := Trimmed(row).value;
      && |t| > 0 && t[|t| - 1].letter != ' ' && Spaced(t)
      && (Sized(dz, row) && Pitched(dz, row, x, y) ==> Sized(dz, t) && Pitched(dz, t, x, y))
  {
    var t := Trimmed(row).value;
    assert row[|t|].letter == ' ';
    assert t[|t| - 1] == row[|t| - 1];
    forall k | 0 <= k < |t| && t[k].letter == ' '
      ensures 0 < k && t[k - 1].letter != ' '
    {
      assert t[k] == row[k];
      if k > 0 {
        assert t[k - 1] == row[k - 1];
      }
    }
    if Sized(dz, row) && Pitched(dz, row, x, y) {
      PitchedPrefix(dz, row, |t|, x, y);
    }
  }

  lemma {:induction false} MovedPitched(dz: Design, es: seq<Entry>, off: real, x: real, y: real)
    requires Sized(dz, es) && Pitched(dz, es, x, y)
    ensures Sized(dz, Moved(es, off)) && Pitched(dz, Moved(es, off), x + off, y)
  {
    if |es| > 0 {
      MovedPitched(dz, es[1..], off, x + dz.sizes[es[0].letter].width, y);
      assert Moved(es, off)[1..] == Moved(es[1..], off);
    }
  }

  lemma {:induction false} TableWidthCons(dz: Design, e: Entry, rest: seq<Entry>)
    requires Sized(dz, [e] + rest)
    ensures e.letter in dz.sizes && Sized(dz, rest)
    ensures TableWidth(dz, [e] + rest) == dz.sizes[e.letter].width + TableWidth(dz, rest)
  {
    assert ([e] + rest)[0] == e;
    assert forall k :: 0 <= k < |rest| ==> rest[k] == ([e] + rest)[k + 1];
    if |rest| > 0 {
      var n := |rest| - 1;
      assert ([e] + rest)[..|rest|] == [e] + rest[..n];
      TableWidthCons(dz, e, rest[..n]);
    }
  }

  lemma {:induction false} MovedWidth(dz: Design, es: seq<Entry>, off: real)
    requires Sized(dz, es)
    ensures Sized(dz, Moved(es, off)) && TableWidth(dz, Moved(es, off)) == TableWidth(dz, es)
  {
    if |es| > 0 {
      var n := |es| - 1;
      MovedWidth(dz, es[..n], off);
      assert Moved(es, off)[..n] == Moved(es[..n], off);
    }
  }

  /** Entries set edge to edge from x end where their table widths do: the
      last entry's width ends at x + TableWidth. */
  lemma {:induction false} PitchedEnd(dz: Design, es: seq<Entry>, x: real, y: real)
    requires Sized(dz, es) && Pitched(dz, es, x, y) && |es| > 0
    ensures Raw(dz, es[|es| - 1]) + dz.sizes[es[|es| - 1].letter].width == x + TableWidth(dz, es)
  {
    TableWidthCons(dz, es[0], es[1..]);
    assert [es[0]] + es[1..] == es;
    if |es| > 1 {
      PitchedEnd(dz, es[1..], x + dz.sizes[es[0].letter].width, y);
      assert es[1..][|es[1..]| - 1] == es[|es| - 1];
    } else {
      assert es[1..] == [];
    }
  }

  /** A laid line: a nonempty run of whole words ending on a letter, set edge
      to edge from half the slack, so that its left margin (from the paper
      edge to the first cursor) equals its right margin (from the end of the
      last letter's width to the other edge). */
  predicate LaidLine(dz: Design, l: seq<Entry>, y: real)
  {
    && |l| > 0 && l[|l| - 1].letter != ' ' && Spaced(l) && Sized(dz, l)
    && Pitched(dz, l, (dz.width - TableWidth(dz, l)) / 2.0, y)
    && Raw(dz, l[0]) == dz.width - (Raw(dz, l[|l| - 1]) + dz.sizes[l[|l| - 1].letter].width)
  }

  /** A trimmed row, centred, is a laid line. */
  lemma CentredLaid(dz: Design, t: seq<Entry>, y: real)
    requires |t| > 0 && t[|t| - 1].letter != ' ' && Spaced(t) && Sized(dz, t) && Pitched(dz, t, 0.0, y)
    ensures LaidLine(dz, Centred(dz, t), y)
  {
    var off := Offset(dz, t);
    MovedPitched(dz, t, off, 0.0, y);
    MovedWidth(dz, t, off);
    var l := Moved(t, off);
    forall k | 0 <= k < |l| && l[k].letter == ' '
      ensures 0 < k && l[k - 1].letter != ' '
    {
      assert l[k].letter == t[k].letter;
      if k > 0 {
        assert l[k - 1].letter == t[k - 1].letter;
      }
    }
    PitchedEnd(dz, l, off, y);
  }

  /** Every line the layout keeps is a laid line. */
  lemma LineLaid(dz: Design, rand: nat -> Draw, y: real, d: nat)
    requires Sound(dz) && Spaceless(dz) && dz.sizes[' '].width == 10.0 && Line(dz, rand, y, d).Some?
    ensures LaidLine(dz, Line(dz, rand, y, d).value.entries, y)
  {
    var w := Pick(rand(d), |dz.words|);
    var row := RowFill(dz, rand, y, d).entries;
    FillPitch(dz, rand, y, 0.0, w, 0, d + 1);
    FillShape(dz, rand, y, 0.0, w, 0, d + 1);
    TrimmedShape(dz, row, 0.0, y);
    CentredLaid(dz, Trimmed(row).value, y);
  }

  // ---------------------------------------------------------------- rows that keep a word

  /** The summed table widths of a run of letters. */
  function Span(dz: Design, s: string): (r: real)
    requires forall k :: 0 <= k < |s| ==> s[k] in dz.sizes && dz.sizes[s[k]].width >= 1.0
    ensures r >= 0.0
  {
    if |s| == 0 then 0.0 else dz.sizes[s[0]].width + Span(dz, s[1..])
  }

  /** The fill from letter li of word w at cursor x pushes a space exactly
      when the word's letters before its last end inside the usable width. */
  lemma {:induction false} FillHasSpace(dz: Design, rand: nat -> Draw, y: real, x: real, w: nat, li: nat, d: nat)
    requires Sound(dz) && Spaceless(dz) && w < |dz.words| && li < |dz.words[w]|
    ensures HasSpace(FillFrom(dz, rand, y, x, w, li, d).entries)
            <==> x + Span(dz, dz.words[w][li..|dz.words[w]| - 1]) < Bound(dz)
    decreases |dz.words[w]| - li
  {
    var word := dz.words[w];
    var es := FillFrom(dz, rand, y, x, w, li, d).entries;
    var c := word[li];
    var s := dz.sizes[c];
    if x >= Bound(dz) {
      assert es == [];
    } else if li + 1 >= |word| {
      assert es[1].letter == ' ';
      assert word[li..|word| - 1] == [];
    } else {
      Wave.LineDecreases(Bound(dz), x, s.width);
      FillHasSpace(dz, rand, y, x + s.width, w, li + 1, d);
      var rest := FillFrom(dz, rand, y, x + s.width, w, li + 1, d).entries;
      assert es == [Entry(c, x + s.xNudge, y + s.yNudge)] + rest;
      assert HasSpace(es) <==> HasSpace(rest) by {
        if HasSpace(es) {
          var i :| 0 <= i < |es| && es[i].letter == ' ';
          assert i > 0 && rest[i - 1] == es[i];
        }
        if HasSpace(rest) {
          var i :| 0 <= i < |rest| && rest[i].letter == ' ';
          assert es[i + 1] == rest[i];
        }
      }
      assert word[li..|word| - 1][1..] == word[li + 1..|word| - 1];
    }
  }

  /** A word fits when its letters before the last end inside the usable width. */
  predicate Fits(dz: Design)
    requires Sound(dz)
  {
    forall i :: 0 <= i < |dz.words| ==> Span(dz, dz.words[i][..|dz.words[i]| - 1]) < Bound(dz)
  }

  /** A line is kept exactly when the word it starts with fits. */
  lemma LineKept(dz: Design, rand: nat -> Draw, y: real, d: nat)
    requires Sound(dz) && Spaceless(dz)
    ensures var w := Pick(rand(d), |dz.words|);
      Line(dz, rand, y, d).Some? <==> Span(dz, dz.words[w][..|dz.words[w]| - 1]) < Bound(dz)
  {
    var w := Pick(rand(d), |dz.words|);
    FillHasSpace(dz, rand, y, 0.0, w, 0, d + 1);
    assert dz.words[w][0..|dz.words[w]| - 1] == dz.words[w][..|dz.words[w]| - 1];
  }

  lemma {:induction false} FitsLines(dz: Design, rand: nat -> Draw, k: nat)
    requires Sound(dz) && Spaceless(dz) && Fits(dz)
    ensures LinesUpTo(dz, rand, k).Ok?
  {
    if k > 0 {
      FitsLines(dz, rand, k - 1);
      LineKept(dz, rand, LineY(SheetOf(dz), k - 1), LinesUpTo(dz, rand, k - 1).value.next);
    }
  }

  /** When every word fits, the layout never meets a line without a space. */
  lemma FitsLayout(dz: Design, rand: nat -> Draw)
    requires Sound(dz) && Spaceless(dz) && Fits(dz)
    ensures Placement(dz, rand).Ok?
  {
    FitsLines(dz, rand, LineCount(SheetOf(dz)));
  }

  lemma {:induction false} SpanAtMost(dz: Design, s: string, m: real)
    requires forall k :: 0 <= k < |s| ==> s[k] in dz.sizes && 1.0 <= dz.sizes[s[k]].width <= m
    ensures Span(dz, s) <= |s| as real * m
  {
    if |s| > 0 {
      SpanAtMost(dz, s[1..], m);
      assert |s[1..]| as real * m + m == |s| as real * m;
    }
  }

  lemma NarrowLetters()
    ensures forall c :: WordLetter(c) ==> c in Sizes && 1.0 <= Sizes[c].width <= 6.4
  {
  }

  lemma ShortWords()
    ensures forall i :: 0 <= i < |Words| ==> 0 < |Words[i]| <= 7
  {
  }

  /** A run of at most 7 of the word-list letters spans under 500 mm. */
  lemma ShortSpan(s: string)
    requires |s| <= 7 && forall k :: 0 <= k < |s| ==> WordLetter(s[k])
    ensures (forall k :: 0 <= k < |s| ==> s[k] in Sizes && Sizes[s[k]].width >= 1.0) && Span(Script, s) < 500.0
  {
    NarrowLetters();
    SpanAtMost(Script, s, 6.4);
  }

  /** In the script every word fits: no word is longer than 7 letters and no
      letter of them is wider than 6.4 mm, against 500 mm of usable width. */
  lemma ScriptFits()
    ensures Sound(Script) && Spaceless(Script) && Fits(Script)
  {
    ScriptSound();
    ScriptWords();
    ShortWords();
    forall i | 0 <= i < |Words|
      ensures Span(Script, Words[i][..|Words[i]| - 1]) < Bound(Script)
    {
      ShortSpan(Words[i][..|Words[i]| - 1]);
    }
  }

  /** So the script never stops for a line without a space, whatever the draws. */
  lemma ScriptLaysOut(rand: nat -> Draw)
    ensures Sound(Script) && Placement(Script, rand).Ok?
  {
    ScriptFits();
    FitsLayout(Script, rand);
  }

  // ---------------------------------------------------------------- toolpath

  /** With every valid letter placed, the program installs the valid letters'
      tools in order, presses exactly their positions letter by letter, inks
      before every press (inside the ink range when it is not empty), never
      travels with the head down, and ends with M2. */
  lemma ToolpathShape(dz: Design, rand: nat -> Draw, p: Placed)
    requires FirstMissing(Letters(dz), p.groups).None?
    ensures var acts := Presses(dz, rand, p);
      var g := Program(dz.heights, SheetWidth(dz), SheetHeight(dz), "love", acts);
      && Toolpath(dz, rand, p) == Ok(g)
      && SafeTravel(g, dz.heights.up) && g[|g| - 1] == ProgramEnd
      && Tools(acts) == LetterTools(SetupOf(dz), Letters(dz))
      && Hits(acts) == Flatten(LetterGroups(SetupOf(dz), Letters(dz), p.groups))
      && HitsInked(acts)
      && (InkRange(dz).left < InkRange(dz).right && InkRange(dz).bottom < InkRange(dz).top ==> DipsWithin(acts, InkRange(dz)))
  {
    SessionFacts(SetupOf(dz), Letters(dz), p.groups, After(rand, p.next));
    ProgramSafe(dz.heights, SheetWidth(dz), SheetHeight(dz), "love", Presses(dz, rand, p));
  }

  /** The script stops for an unplaced letter exactly when a valid letter
      never made it into any kept line; that letter is the first such in validLetters. */
  lemma PlacedLetters(dz: Design, rand: nat -> Draw)
    requires Sound(dz) && Placement(dz, rand).Ok?
    ensures var lines := LinesUpTo(dz, rand, LineCount(SheetOf(dz))).value.lines;
      var ps := Pairs(Flatten(lines));
      var p := Placement(dz, rand).value;
      && (forall c :: c in p.groups <==> c in Tags(ps))
      && (forall c :: c in p.groups ==> p.groups[c] == Select(ps, c))
      && (Output(dz, rand).Err? <==> exists c :: c in Letters(dz) && c !in Tags(ps))
      && (Output(dz, rand).Err? ==> Output(dz, rand).error.Unplaced? && Output(dz, rand).error.letter in Letters(dz)
                                     && Output(dz, rand).error.letter !in Tags(ps))
  {
    var letters := Letters(dz);
    var p := Placement(dz, rand).value;
    if Output(dz, rand).Err? {
      var i := FirstMissing(letters, p.groups).value;
      assert letters[i] in letters;
    } else {
      forall c | c in letters
        ensures c in p.groups
      {
        var i :| 0 <= i < |letters| && letters[i] == c;
      }
    }
  }

  lemma FlattenHas<T>(rows: seq<seq<T>>, x: T)
    requires x in Flatten(rows)
    ensures exists i, j :: 0 <= i < |rows| && 0 <= j < |rows[i]| && rows[i][j] == x
  {
    var n := |rows| - 1;
    FlattenAppend(rows[..n], [rows[n]]);
    assert rows[..n] + [rows[n]] == rows;
    assert Flatten([rows[n]]) == rows[n] by {
      assert [rows[n]][..0] == [];
    }
    if x in Flatten(rows[..n]) {
      FlattenHas(rows[..n], x);
      var i, j :| 0 <= i < n && 0 <= j < |rows[..n][i]| && rows[..n][i][j] == x;
      assert rows[i][j] == x;
    } else {
      var j :| 0 <= j < |rows[n]| && rows[n][j] == x;
    }
  }

  /** A word list without spaces never installs a tool for the space: the
      space entries are grouped but never pressed. */
  lemma SpaceNeverPressed(dz: Design)
    requires Spaceless(dz)
    ensures ' ' !in Letters(dz)
    ensures forall t :: t in LetterTools(SetupOf(dz), Letters(dz)) ==> t.1 != Layer.Glyph(' ')
  {
    if ' ' in Flatten(dz.words) {
      FlattenHas(dz.words, ' ');
    }
  }

  /** The script's ink range, the pad shrunk by 7.5 mm, is not empty. */
  lemma ScriptInkRange()
    ensures InkRange(Script) == Rect(829.5, 894.5, 322.5, 287.5)
  {
  }
}
