/**
 * love-notes/makeDesign.js: a page of random letters of one word, laid out by
 * the wave-stepped layout, re-inked on every other occurrence of a letter,
 * with the word itself forced into the line a third of the way down the page
 * (each of its letters pressed twice), and stamped tool by tool.
 */
module LoveNotes {
  import opened Wrappers
  import opened GCode
  import opened Grouping
  import opened Stamping
  import opened Emission
  import opened Wave

  // ---------------------------------------------------------------- the page

  const Width: real := 297.0
  const Height: real := 210.0
  const StampSize: real := 20.0
  const Border: real := 10.0
  const Pad: Rect := Rect(318.0, 391.0, 42.0, 6.0)
  const Heads: Heights := Heights(60.0, 18.0, 32.0)

  /** Letters left after the forced word on its line. */
  const Padding: nat := 4

  /** currentX/currentY start at border + stampSize / 2, the edges are the
      paper less border + stampSize / 2, steps are stampSize * 0.333 and
      lines stampSize * 0.666 apart. */
  const Page: Geometry := Geometry(Border + StampSize / 2.0, Border + StampSize / 2.0,
                                   Width - (Border + StampSize / 2.0), Height - (Border + StampSize / 2.0),
                                   StampSize * 0.333, StampSize * 0.666)

  /** inkPosition.inkRange: the pad shrunk by 0.75 * stampSize. */
  const InkRange: Rect := Shrink(Pad, StampSize * 0.75)

  /** A stamp of the page: its letter, its centre and the two flags the
      passes set. */
  datatype Stamp = StampAt(letter: char, x: real, y: real, reInk: bool, doubleTap: bool)

  /** word[Math.floor(Math.random() * word.length)], draw n for placement n. */
  function LetterAt(word: string, rand: nat -> Draw): nat -> char
    requires |word| > 0
  {
    (n: nat) => word[Pick(rand(n), |word|)]
  }

  /** The objects the layout pushes: letter, x, y and doubleTap false (reInk
      is not set yet; false stands for it until the re-ink pass overwrites it). */
  function Stamped(line: seq<Mark>): (r: seq<Stamp>)
    ensures |r| == |line|
    ensures forall k :: 0 <= k < |line| ==> r[k] == StampAt(line[k].letter, line[k].x, line[k].y, false, false)
  {
    seq(|line|, k requires 0 <= k < |line| => StampAt(line[k].letter, line[k].x, line[k].y, false, false))
  }

  function StampLines(w: seq<seq<Mark>>): (r: seq<seq<Stamp>>)
    ensures |r| == |w| && forall j :: 0 <= j < |w| ==> r[j] == Stamped(w[j])
  {
    seq(|w|, j requires 0 <= j < |w| => Stamped(w[j]))
  }

  /** The stamps array after the two layout loops. */
  function Layout(word: string, rand: nat -> Draw, step: nat -> StepMod): seq<seq<Stamp>>
    requires |word| > 0
  {
    StampLines(Wave.Wave(Page, LetterAt(word, rand), step))
  }

  // ---------------------------------------------------------------- letterList

  function LettersOf(s: seq<Stamp>): (r: seq<char>)
    ensures |r| == |s| && forall k :: 0 <= k < |s| ==> r[k] == s[k].letter
  {
    seq(|s|, k requires 0 <= k < |s| => s[k].letter)
  }

  lemma LettersAppend(a: seq<Stamp>, b: seq<Stamp>)
    ensures LettersOf(a + b) == LettersOf(a) + LettersOf(b)
  {
  }

  /** The distinct letters of the page in first-seen row-major order. */
  function LetterList(lines: seq<seq<Stamp>>): seq<char>
  {
    Distinct(LettersOf(Flatten(lines)))
  }

  /** One turn of the inner letterList loop, after the stamps p of the lines before. */
  lemma ListStep(p: seq<Stamp>, line: seq<Stamp>, j: nat)
    requires j < |line|
    ensures var seen := Distinct(LettersOf(p + line[..j]));
      Distinct(LettersOf(p + line[..j + 1])) == if line[j].letter in seen then seen else seen + [line[j].letter]
  {
    var a := p + line[..j];
    assert p + line[..j + 1] == a + [line[j]];
    LettersAppend(a, [line[j]]);
    DistinctSnoc(LettersOf(a), line[j].letter);
  }

  /** The inner letterList loop over one line. */
  method CollectLine(line: seq<Stamp>, letters0: seq<char>, ghost p: seq<Stamp>) returns (letters: seq<char>)
    requires letters0 == Distinct(LettersOf(p))
    ensures letters == Distinct(LettersOf(p + line))
  {
    letters := letters0;
    var j := 0;
    assert p + line[..0] == p;
    while j < |line|
      invariant j <= |line|
      invariant letters == Distinct(LettersOf(p + line[..j]))
    {
      ListStep(p, line, j);
      if line[j].letter !in letters {
        letters := letters + [line[j].letter];
      }
      j := j + 1;
    }
    assert line[..j] == line;
  }

  /** The nested loops filling letterList with `if (!letterList.includes(..)) push`. */
  method CollectLetters(lines: seq<seq<Stamp>>) returns (letters: seq<char>)
    ensures letters == LetterList(lines)
  {
    letters := [];
    var i := 0;
    while i < |lines|
      invariant i <= |lines|
      invariant letters == Distinct(LettersOf(Flatten(lines[..i])))
    {
      letters := CollectLine(lines[i], letters, Flatten(lines[..i]));
      FlattenStep(lines, i);
      i := i + 1;
    }
    assert lines[..i] == lines;
  }

  // ---------------------------------------------------------------- re-ink parity

  /** How often letter c occurs in s. */
  function Occurrences(s: seq<Stamp>, c: char): nat
  {
    if |s| == 0 then 0
    else Occurrences(s[..|s| - 1], c) + (if s[|s| - 1].letter == c then 1 else 0)
  }

  lemma OccurrencesSnoc(s: seq<Stamp>, x: Stamp, c: char)
    ensures Occurrences(s + [x], c) == Occurrences(s, c) + (if x.letter == c then 1 else 0)
  {
    assert (s + [x])[..|s|] == s;
  }

  lemma {:induction false} OccurrencesAppend(a: seq<Stamp>, b: seq<Stamp>, c: char)
    ensures Occurrences(a + b, c) == Occurrences(a, c) + Occurrences(b, c)
    decreases |b|
  {
    if |b| > 0 {
      var n := |b| - 1;
      assert a + b == (a + b[..n]) + [b[n]];
      assert b == b[..n] + [b[n]];
      OccurrencesSnoc(a + b[..n], b[n], c);
      OccurrencesSnoc(b[..n], b[n], c);
      OccurrencesAppend(a, b[..n], c);
    } else {
      assert a + b == a;
    }
  }

  /** Occurrences counts the letter in the multiset of the letters. */
  lemma {:induction false} OccurrencesCount(s: seq<Stamp>, c: char)
    ensures Occurrences(s, c) == multiset(LettersOf(s))[c]
    decreases |s|
  {
    if |s| > 0 {
      var n := |s| - 1;
      assert s == s[..n] + [s[n]];
      LettersAppend(s[..n], [s[n]]);
      OccurrencesCount(s[..n], c);
    }
  }

  /** A row once the toggle has passed over it for letter c: its k-th stamp
      of letter c, `seen` such stamps having come before the row, is re-inked
      exactly when an even number of them precede it. */
  function MarkRow(row: seq<Stamp>, c: char, seen: nat): (r: seq<Stamp>)
    ensures |r| == |row|
  {
    seq(|row|, k requires 0 <= k < |row| =>
      if row[k].letter == c then row[k].(reInk := (seen + Occurrences(row[..k], c)) % 2 == 0) else row[k])
  }

  /** The page once the toggle has passed over it for letter c. */
  function MarkAll(lines: seq<seq<Stamp>>, c: char): (r: seq<seq<Stamp>>)
    ensures |r| == |lines|
  {
    seq(|lines|, j requires 0 <= j < |lines| => MarkRow(lines[j], c, Occurrences(Flatten(lines[..j]), c)))
  }

  /** The page after the re-ink pass over `letters`, one letter after another. */
  function ReInked(lines: seq<seq<Stamp>>, letters: seq<char>): seq<seq<Stamp>>
  {
    if |letters| == 0 then lines
    else MarkAll(ReInked(lines, letters[..|letters| - 1]), letters[|letters| - 1])
  }

  /** One turn of the innermost loop. */
  lemma MarkStep(row: seq<Stamp>, c: char, seen: nat, k: nat)
    requires k < |row|
    ensures Occurrences(row[..k + 1], c) == Occurrences(row[..k], c) + (if row[k].letter == c then 1 else 0)
    ensures MarkRow(row, c, seen)[k]
         == if row[k].letter == c then row[k].(reInk := (seen + Occurrences(row[..k], c)) % 2 == 0) else row[k]
  {
    assert row[..k + 1] == row[..k] + [row[k]];
    OccurrencesSnoc(row[..k], row[k], c);
  }

  /** The first k stamps of out are marked, the rest are still the row's. */
  ghost predicate MarkedUpTo(row: seq<Stamp>, c: char, seen: nat, out: seq<Stamp>, k: nat)
  {
    && k <= |row| && |out| == |row|
    && (forall i :: 0 <= i < k ==> out[i] == MarkRow(row, c, seen)[i])
    && (forall i :: k <= i < |row| ==> out[i] == row[i])
  }

  /** One turn of the innermost loop, on plain values. */
  lemma MarkLineStep(row: seq<Stamp>, c: char, seen: nat, out: seq<Stamp>, k: nat, reInk: bool)
    requires MarkedUpTo(row, c, seen, out, k) && k < |row|
    requires reInk == ((seen + Occurrences(row[..k], c)) % 2 == 0)
    ensures MarkedUpTo(row, c, seen, if row[k].letter == c then out[k := out[k].(reInk := reInk)] else out, k + 1)
    ensures Occurrences(row[..k + 1], c) == Occurrences(row[..k], c) + (if row[k].letter == c then 1 else 0)
  {
    MarkStep(row, c, seen, k);
  }

  /** The innermost loop: toggle reInk over one row's stamps of letter c. */
  method MarkLine(row: seq<Stamp>, c: char, reInk0: bool, ghost seen: nat) returns (out: seq<Stamp>, reInk: bool)
    requires reInk0 == (seen % 2 == 0)
    ensures out == MarkRow(row, c, seen)
    ensures reInk == ((seen + Occurrences(row, c)) % 2 == 0)
  {
    out := row;
    reInk := reInk0;
    var k := 0;
    ghost var n := 0;
    assert row[..0] == [];
    while k < |row|
      invariant MarkedUpTo(row, c, seen, out, k)
      invariant n == Occurrences(row[..k], c)
      invariant reInk == ((seen + n) % 2 == 0)
    {
      MarkLineStep(row, c, seen, out, k, reInk);
      if row[k].letter == c {
        out := out[k := out[k].(reInk := reInk)];
        ParityFlip(seen + n);
        reInk := !reInk;
        n := n + 1;
      }
      k := k + 1;
    }
    assert row[..k] == row;
    assert out == MarkRow(row, c, seen);
  }

  /** The two inner loops: reInk starts true for letter c, then toggles over
      its stamps in row-major order. */
  method MarkLetter(lines: seq<seq<Stamp>>, c: char) returns (out: seq<seq<Stamp>>)
    ensures out == MarkAll(lines, c)
  {
    out := lines;
    var reInk := true;
    var j := 0;
    assert lines[..0] == [];
    while j < |lines|
      invariant j <= |lines| && |out| == |lines|
      invariant forall i :: 0 <= i < j ==> out[i] == MarkAll(lines, c)[i]
      invariant forall i :: j <= i < |lines| ==> out[i] == lines[i]
      invariant reInk == (Occurrences(Flatten(lines[..j]), c) % 2 == 0)
    {
      ghost var seen := Occurrences(Flatten(lines[..j]), c);
      var row;
      row, reInk := MarkLine(out[j], c, reInk, seen);
      FlattenStep(lines, j);
      OccurrencesAppend(Flatten(lines[..j]), lines[j], c);
      out := out[j := row];
      j := j + 1;
    }
  }

  /** The re-ink pass: for each letter of letterList, its toggle. */
  method ReInkPass(lines: seq<seq<Stamp>>, letters: seq<char>) returns (out: seq<seq<Stamp>>)
    ensures out == ReInked(lines, letters)
  {
    out := lines;
    var i := 0;
    while i < |letters|
      invariant i <= |letters|
      invariant out == ReInked(lines, letters[..i])
    {
      assert letters[..i + 1][..i] == letters[..i];
      out := MarkLetter(out, letters[i]);
      i := i + 1;
    }
    assert letters[..i] == letters;
  }

  // ---------------------------------------------------------------- the forced word

  /** oneThirdLineIndex = Math.floor(stamps.length / 3). */
  function ThirdLine(lines: seq<seq<Stamp>>): nat
  {
    |lines| / 3
  }

  /** The forced word fits: the line exists and holds the word, the padding
      and one stamp before the word (the script writes to the stamps just
      before and just after the word and throws when one is missing). */
  predicate Fits(lines: seq<seq<Stamp>>, word: string)
  {
    |lines| > 0 && |lines[ThirdLine(lines)]| >= |word| + Padding + 1
  }

  /** startPosition = oneThirdLine.length - (wordLength + padding). */
  function StartOf(lines: seq<seq<Stamp>>, word: string): nat
    requires Fits(lines, word)
  {
    |lines[ThirdLine(lines)]| - (|word| + Padding)
  }

  /** The word's letters written over a run of stamps, each re-inked and double-tapped. */
  function Spelled(run: seq<Stamp>, word: string): (r: seq<Stamp>)
    requires |run| == |word|
    ensures |r| == |word|
  {
    seq(|word|, i requires 0 <= i < |word| => run[i].(letter := word[i], reInk := true, doubleTap := true))
  }

  /** The line with the word spelled from s on and the stamps on either side not re-inked. */
  function Overwrite(line: seq<Stamp>, word: string, s: nat): seq<Stamp>
    requires 1 <= s && s + |word| < |line|
  {
    line[..s - 1] + [line[s - 1].(reInk := false)] + Spelled(line[s..s + |word|], word)
      + [line[s + |word|].(reInk := false)] + line[s + |word| + 1..]
  }

  /** The page after the forced-word loop and the two reInk = false writes. */
  function Forced(lines: seq<seq<Stamp>>, word: string): seq<seq<Stamp>>
    requires Fits(lines, word)
  {
    lines[ThirdLine(lines) := Overwrite(lines[ThirdLine(lines)], word, StartOf(lines, word))]
  }

  /** Stamp k of the forced line: a word letter, a neighbour of the word, or untouched. */
  function ForcedStamp(line: seq<Stamp>, word: string, s: nat, k: nat): Stamp
    requires k < |line|
  {
    if s <= k < s + |word| then line[k].(letter := word[k - s], reInk := true, doubleTap := true)
    else if k + 1 == s || k == s + |word| then line[k].(reInk := false)
    else line[k]
  }

  lemma {:induction false} OverwriteAt(line: seq<Stamp>, word: string, s: nat)
    requires 1 <= s && s + |word| < |line|
    ensures |Overwrite(line, word, s)| == |line|
    ensures forall k :: 0 <= k < |line| ==> Overwrite(line, word, s)[k] == ForcedStamp(line, word, s, k)
  {
    var a := line[..s - 1];
    var b := [line[s - 1].(reInk := false)];
    var w := Spelled(line[s..s + |word|], word);
    var e := [line[s + |word|].(reInk := false)];
    var z := line[s + |word| + 1..];
    var o := Overwrite(line, word, s);
    assert o == a + b + w + e + z;
    forall k | 0 <= k < |line|
      ensures o[k] == ForcedStamp(line, word, s, k)
    {
      if k < s - 1 {
        assert o[k] == a[k];
      } else if k == s - 1 {
        assert o[k] == b[0];
      } else if k < s + |word| {
        assert o[k] == w[k - s];
      } else if k == s + |word| {
        assert o[k] == e[0];
      } else {
        assert o[k] == z[k - (s + |word| + 1)];
      }
    }
  }

  /** The forced-word loop and the two writes around the word. */
  method ForceWord(lines: seq<seq<Stamp>>, word: string) returns (out: seq<seq<Stamp>>)
    requires Fits(lines, word)
    ensures out == Forced(lines, word)
  {
    var t := ThirdLine(lines);
    var s := StartOf(lines, word);
    ghost var line := lines[t];
    var row := lines[t];
    var i := 0;
    while i < |word|
      invariant i <= |word| && |row| == |line|
      invariant forall k :: 0 <= k < |line| && !(s <= k < s + i) ==> row[k] == line[k]
      invariant forall k :: s <= k < s + i ==> row[k] == ForcedStamp(line, word, s, k)
    {
      row := row[s + i := row[s + i].(letter := word[i], reInk := true, doubleTap := true)];
      i := i + 1;
    }
    row := row[s - 1 := row[s - 1].(reInk := false)];
    row := row[s + |word| := row[s + |word|].(reInk := false)];
    OverwriteAt(line, word, s);
    assert row == Overwrite(line, word, s);
    out := lines[t := row];
  }

  // ---------------------------------------------------------------- emission

  /** The stamps tagged with their letters, for grouping. */
  function Keyed(s: seq<Stamp>): (r: seq<(char, Stamp)>)
    ensures |r| == |s| && forall k :: 0 <= k < |s| ==> r[k] == (s[k].letter, s[k])
  {
    seq(|s|, k requires 0 <= k < |s| => (s[k].letter, s[k]))
  }

  lemma KeyedAppend(a: seq<Stamp>, b: seq<Stamp>)
    ensures Keyed(a + b) == Keyed(a) + Keyed(b)
  {
  }

  /** The stamps of letter c, in row-major order. */
  function Matching(s: seq<Stamp>, c: char): seq<Stamp>
  {
    Select(Keyed(s), c)
  }

  lemma MatchingAppend(a: seq<Stamp>, b: seq<Stamp>, c: char)
    ensures Matching(a + b, c) == Matching(a, c) + Matching(b, c)
  {
    KeyedAppend(a, b);
    SelectAppend(Keyed(a), Keyed(b), c);
  }

  lemma MatchingSnoc(s: seq<Stamp>, x: Stamp, c: char)
    ensures Matching(s + [x], c) == Matching(s, c) + (if x.letter == c then [x] else [])
  {
    var ps := Keyed(s);
    assert Keyed(s + [x]) == ps + [(x.letter, x)];
    assert (ps + [(x.letter, x)])[..|ps|] == ps;
  }

  /** What one matching stamp emits: an ink dip when it is re-inked, its
      press at (x, height - y), and a second press at the ink point when it
      is double-tapped. */
  function StampActs(s: Stamp, ink: Point): seq<Action>
  {
    (if s.reInk then [Dip(ink)] else []) + [Hit(Point(s.x, Height - s.y))] + (if s.doubleTap then [Hit(ink)] else [])
  }

  /** The ink points of the stamps visited: the k-th reads two draws from
      2k, inkX then inkY. */
  function Inks(range: Rect, rand: nat -> Draw): nat -> Point
  {
    (k: nat) => InkPoint(range, rand(2 * k), rand(2 * k + 1))
  }

  /** A run of stamps, stamp n paired with its visit number k0 + n. */
  function Visits(ms: seq<Stamp>, k0: nat): (r: seq<(Stamp, nat)>)
    ensures |r| == |ms|
  {
    seq(|ms|, n requires 0 <= n < |ms| => (ms[n], k0 + n))
  }

  function ActsOf(ink: nat -> Point): ((Stamp, nat)) -> seq<Action>
  {
    (v: (Stamp, nat)) => StampActs(v.0, ink(v.1))
  }

  /** The actions of a run of stamps, stamp n taking ink point k0 + n. */
  function Taps(ms: seq<Stamp>, ink: nat -> Point, k0: nat): seq<Action>
  {
    Concat(ActsOf(ink), Visits(ms, k0))
  }

  /** The stamps the emission visits, letter by letter. */
  function Visited(letters: seq<char>, flat: seq<Stamp>): seq<Stamp>
  {
    if |letters| == 0 then []
    else Visited(letters[..|letters| - 1], flat) + Matching(flat, letters[|letters| - 1])
  }

  /** The emission loop's actions: tool i + 1 for letter i, then the
      letter's stamps in row-major order. */
  function Notes(letters: seq<char>, flat: seq<Stamp>, ink: nat -> Point): seq<Action>
  {
    if |letters| == 0 then []
    else
      var n := |letters| - 1;
      Notes(letters[..n], flat, ink) + [Tool(n + 1, Layer.Glyph(letters[n]))]
        + Taps(Matching(flat, letters[n]), ink, |Visited(letters[..n], flat)|)
  }

  lemma TapsAppend(a: seq<Stamp>, b: seq<Stamp>, ink: nat -> Point, k0: nat)
    ensures Taps(a + b, ink, k0) == Taps(a, ink, k0) + Taps(b, ink, k0 + |a|)
  {
    assert Visits(a + b, k0) == Visits(a, k0) + Visits(b, k0 + |a|);
    ConcatAppend(ActsOf(ink), Visits(a, k0), Visits(b, k0 + |a|));
  }

  /** The toolpath of two runs of stamps, the second taking the ink points after the first's. */
  lemma RenderTaps(a: seq<Stamp>, b: seq<Stamp>, ink: nat -> Point, k0: nat)
    ensures Render(Heads, Taps(a + b, ink, k0)) == Render(Heads, Taps(a, ink, k0)) + Render(Heads, Taps(b, ink, k0 + |a|))
  {
    TapsAppend(a, b, ink, k0);
    RenderAppend(Heads, Taps(a, ink, k0), Taps(b, ink, k0 + |a|));
  }

  lemma RenderOne(a: Action)
    ensures Render(Heads, [a]) == Block(Heads, a)
  {
    RenderSnoc(Heads, [], a);
    assert [] + [a] == [a];
  }

  lemma RenderStamp(s: Stamp, ink: Point)
    ensures Render(Heads, StampActs(s, ink))
         == (if s.reInk then InkDip(Heads, ink.x, ink.y) else []) + Press(Heads, s.x, Height - s.y)
            + (if s.doubleTap then Press(Heads, ink.x, ink.y) else [])
  {
    var a: seq<Action> := if s.reInk then [Dip(ink)] else [];
    var b: seq<Action> := [Hit(Point(s.x, Height - s.y))];
    var c: seq<Action> := if s.doubleTap then [Hit(ink)] else [];
    RenderAppend(Heads, a + b, c);
    RenderAppend(Heads, a, b);
    assert Render(Heads, a) == if s.reInk then InkDip(Heads, ink.x, ink.y) else [] by {
      if s.reInk { RenderOne(Dip(ink)); }
    }
    assert Render(Heads, b) == Press(Heads, s.x, Height - s.y) by {
      RenderOne(Hit(Point(s.x, Height - s.y)));
    }
    assert Render(Heads, c) == if s.doubleTap then Press(Heads, ink.x, ink.y) else [] by {
      if s.doubleTap { RenderOne(Hit(ink)); }
    }
  }

  /** One matching stamp: ink if reInk, stamp, stamp again at the ink point if doubleTap. */
  method EmitStamp(s: Stamp, ink: Point, gcode0: seq<Cmd>) returns (gcode: seq<Cmd>)
    ensures gcode == gcode0 + Render(Heads, StampActs(s, ink))
  {
    RenderStamp(s, ink);
    gcode := gcode0;
    if s.reInk {
      gcode := gcode + InkDip(Heads, ink.x, ink.y);
    }
    gcode := gcode + Press(Heads, s.x, Height - s.y);
    if s.doubleTap {
      gcode := gcode + Press(Heads, ink.x, ink.y);
    }
  }

  /** One more stamp visited: its actions follow, at the next ink point. */
  lemma TapsSnoc(done: seq<Stamp>, x: Stamp, ink: nat -> Point, k0: nat)
    ensures Render(Heads, Taps(done + [x], ink, k0))
         == Render(Heads, Taps(done, ink, k0)) + Render(Heads, StampActs(x, ink(k0 + |done|)))
  {
    var v: (Stamp, nat) := (x, k0 + |done|);
    assert Visits(done + [x], k0) == Visits(done, k0) + [v];
    ConcatSnoc(ActsOf(ink), Visits(done, k0), v);
    RenderAppend(Heads, Taps(done, ink, k0), StampActs(x, ink(k0 + |done|)));
  }

  /** One matching stamp: its ink point from the next two draws, then its code. */
  method EmitMatch(s: Stamp, range: Rect, rand: nat -> Draw, seen: nat, gcode0: seq<Cmd>) returns (gcode: seq<Cmd>)
    ensures gcode == gcode0 + Render(Heads, StampActs(s, Inks(range, rand)(seen)))
  {
    var p := InkPoint(range, rand(2 * seen), rand(2 * seen + 1));
    assert p == Inks(range, rand)(seen);
    gcode := EmitStamp(s, p, gcode0);
  }

  /** The code written so far for a run of stamps, followed by one more stamp's code. */
  lemma TapsGrow(done: seq<Stamp>, x: Stamp, ink: nat -> Point, k0: nat, gcode0: seq<Cmd>, gcode: seq<Cmd>)
    requires gcode == gcode0 + Render(Heads, Taps(done, ink, k0))
    ensures gcode + Render(Heads, StampActs(x, ink(k0 + |done|))) == gcode0 + Render(Heads, Taps(done + [x], ink, k0))
  {
    TapsSnoc(done, x, ink, k0);
    Wave.Regroup3(gcode0, Render(Heads, Taps(done, ink, k0)), Render(Heads, StampActs(x, ink(k0 + |done|))));
  }

  /** One turn of the innermost emission loop, on the stamps matched so far. */
  lemma RowStep(row: seq<Stamp>, c: char, k: nat, done: seq<Stamp>)
    requires k < |row| && done == Matching(row[..k], c)
    ensures Matching(row[..k + 1], c) == if row[k].letter == c then done + [row[k]] else done
  {
    assert row[..k + 1] == row[..k] + [row[k]];
    MatchingSnoc(row[..k], row[k], c);
    assert done + [] == done;
  }

  /** The innermost emission loop: the stamps of letter c on one row, each
      matching one reading its ink point from the next two draws; `seen`
      stamps were visited before. */
  method EmitRow(row: seq<Stamp>, c: char, range: Rect, rand: nat -> Draw, seen0: nat, gcode0: seq<Cmd>)
    returns (gcode: seq<Cmd>, seen: nat)
    ensures gcode == gcode0 + Render(Heads, Taps(Matching(row, c), Inks(range, rand), seen0))
    ensures seen == seen0 + |Matching(row, c)|
  {
    gcode := gcode0;
    seen := seen0;
    var k := 0;
    ghost var done: seq<Stamp> := [];
    ghost var ink := Inks(range, rand);
    assert row[..0] == [];
    while k < |row|
      invariant k <= |row| && done == Matching(row[..k], c)
      invariant gcode == gcode0 + Render(Heads, Taps(done, ink, seen0))
      invariant seen == seen0 + |done|
    {
      RowStep(row, c, k, done);
      if row[k].letter == c {
        TapsGrow(done, row[k], ink, seen0, gcode0, gcode);
        gcode := EmitMatch(row[k], range, rand, seen, gcode);
        done := done + [row[k]];
        seen := seen + 1;
        assert gcode == gcode0 + Render(Heads, Taps(done, ink, seen0));
      }
      k := k + 1;
    }
    assert row[..k] == row;
  }

  /** One turn of the loop over lines. */
  lemma LinesStep(lines: seq<seq<Stamp>>, c: char, j: nat)
    requires j < |lines|
    ensures Matching(Flatten(lines[..j + 1]), c) == Matching(Flatten(lines[..j]), c) + Matching(lines[j], c)
  {
    FlattenStep(lines, j);
    MatchingAppend(Flatten(lines[..j]), lines[j], c);
  }

  /** The two inner emission loops: every stamp of letter c, in row-major order. */
  method EmitLetter(lines: seq<seq<Stamp>>, c: char, range: Rect, rand: nat -> Draw, seen0: nat, gcode0: seq<Cmd>)
    returns (gcode: seq<Cmd>, seen: nat)
    ensures gcode == gcode0 + Render(Heads, Taps(Matching(Flatten(lines), c), Inks(range, rand), seen0))
    ensures seen == seen0 + |Matching(Flatten(lines), c)|
  {
    gcode := gcode0;
    seen := seen0;
    var j := 0;
    ghost var before: seq<Stamp> := [];
    ghost var ink := Inks(range, rand);
    assert lines[..0] == [];
    while j < |lines|
      invariant j <= |lines| && before == Matching(Flatten(lines[..j]), c)
      invariant gcode == gcode0 + Render(Heads, Taps(before, ink, seen0))
      invariant seen == seen0 + |before|
    {
      LinesStep(lines, c, j);
      ghost var row := Matching(lines[j], c);
      RenderTaps(before, row, ink, seen0);
      Wave.Regroup3(gcode0, Render(Heads, Taps(before, ink, seen0)), Render(Heads, Taps(row, ink, seen)));
      gcode, seen := EmitRow(lines[j], c, range, rand, seen, gcode);
      before := before + row;
      j := j + 1;
    }
    assert lines[..j] == lines;
  }

  /** One turn of the loop over letterList. */
  lemma NotesStep(letters: seq<char>, flat: seq<Stamp>, i: nat, ink: nat -> Point)
    requires i < |letters|
    ensures Visited(letters[..i + 1], flat) == Visited(letters[..i], flat) + Matching(flat, letters[i])
    ensures Render(Heads, Notes(letters[..i + 1], flat, ink))
         == Render(Heads, Notes(letters[..i], flat, ink)) + ToolChange(Heads, i + 1, Layer.Glyph(letters[i]))
            + Render(Heads, Taps(Matching(flat, letters[i]), ink, |Visited(letters[..i], flat)|))
  {
    assert letters[..i + 1][..i] == letters[..i];
    var done := Notes(letters[..i], flat, ink);
    var t := Tool(i + 1, Layer.Glyph(letters[i]));
    var taps := Taps(Matching(flat, letters[i]), ink, |Visited(letters[..i], flat)|);
    RenderSnoc(Heads, done, t);
    RenderAppend(Heads, done + [t], taps);
  }

  /** The emission: header, then per letter of letterList its tool and its
      stamps, then the end block. */
  method Emit(letters: seq<char>, lines: seq<seq<Stamp>>, range: Rect, rand: nat -> Draw) returns (gcode: seq<Cmd>)
    ensures gcode == Program(Heads, Width, Height, "love", Notes(letters, Flatten(lines), Inks(range, rand)))
  {
    var head := Header(Width, Height, "love");
    gcode := head;
    ghost var flat := Flatten(lines);
    ghost var ink := Inks(range, rand);
    var seen := 0;
    var i := 0;
    assert letters[..0] == [];
    while i < |letters|
      invariant i <= |letters|
      invariant gcode == head + Render(Heads, Notes(letters[..i], flat, ink))
      invariant seen == |Visited(letters[..i], flat)|
    {
      NotesStep(letters, flat, i, ink);
      ghost var tool := ToolChange(Heads, i + 1, Layer.Glyph(letters[i]));
      ghost var taps := Render(Heads, Taps(Matching(flat, letters[i]), ink, seen));
      Emission.Regroup4(head, Render(Heads, Notes(letters[..i], flat, ink)), tool, taps);
      gcode := gcode + ToolChange(Heads, i + 1, Layer.Glyph(letters[i]));
      gcode, seen := EmitLetter(lines, letters[i], range, rand, seen, gcode);
      i := i + 1;
    }
    assert letters[..i] == letters;
    gcode := gcode + Finish(Heads);
  }

  // ---------------------------------------------------------------- the script

  /** Why the script stops without a toolpath: no word given, or the line a
      third of the way down too short for the word and its padding. */
  datatype Fault = NoWord | NoRoom

  /** The toolpath of a run: layout drawing one letter per placement, the
      letterList, the re-ink pass, the forced word, then the emission, whose
      ink points read the draws after the layout's. */
  function Output(word: string, rand: nat -> Draw, step: nat -> StepMod): Result<seq<Cmd>, Fault>
  {
    if |word| == 0 then Err(NoWord)
    else
      var lines := Layout(word, rand, step);
      var letters := LetterList(lines);
      var inked := ReInked(lines, letters);
      if !Fits(inked, word) then Err(NoRoom)
      else
        Ok(Program(Heads, Width, Height, "love",
                   Notes(letters, Flatten(Forced(inked, word)), Inks(InkRange, After(rand, |Flatten(lines)|)))))
  }

  lemma {:induction false} FlattenLength<T>(lines: seq<seq<T>>, i: nat)
    requires i < |lines|
    ensures |Flatten(lines[..i + 1])| == |Flatten(lines[..i])| + |lines[i]|
  {
    FlattenStep(lines, i);
  }

  /** The script's steps in order. */
  method Generate(word: string, rand: nat -> Draw, step: nat -> StepMod) returns (r: Result<seq<Cmd>, Fault>)
    ensures r == Output(word, rand, step)
  {
    if |word| == 0 {
      return Err(NoWord);
    }
    var marks := Wave.Layout(Page, LetterAt(word, rand), step);
    var lines := StampLines(marks);
    var letters := CollectLetters(lines);
    var inked := ReInkPass(lines, letters);
    if !(|inked| > 0 && |inked[|inked| / 3]| >= |word| + Padding + 1) {
      return Err(NoRoom);
    }
    var forced := ForceWord(inked, word);
    var gcode := Emit(letters, forced, InkRange, After(rand, |Flatten(lines)|));
    r := Ok(gcode);
  }
}
