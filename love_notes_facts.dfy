/**
 * What love-notes/makeDesign.js promises about its page and its toolpath,
 * proved about the LoveNotes model: thirteen wave-stepped lines of the
 * word's letters, letterList in first-seen order, reInk alternating over
 * each letter's occurrences, the word forced into line four with nothing
 * else changed, and a toolpath that installs tool i + 1 for letter i and
 * presses every listed stamp once, inking inside the shrunk pad.
 */
module LoveNotesFacts {
  import opened Wrappers
  import opened GCode
  import opened Grouping
  import opened Stamping
  import opened Emission
  import Wave
  import opened LoveNotes

  // ---------------------------------------------------------------- the page

  /** The letters of the word, as a set. */
  function WordLetters(word: string): (r: set<char>)
    ensures forall i :: 0 <= i < |word| ==> word[i] in r
    ensures forall c :: c in r ==> c in word
  {
    set i | 0 <= i < |word| :: word[i]
  }

  /** Every draw picks a letter of the word. */
  lemma LettersDrawn(word: string, rand: nat -> Draw)
    requires |word| > 0
    ensures forall m: nat :: LetterAt(word, rand)(m) in WordLetters(word)
  {
    forall m: nat
      ensures LetterAt(word, rand)(m) in WordLetters(word)
    {
      assert LetterAt(word, rand)(m) == word[Pick(rand(m), |word|)];
    }
  }

  /** Lines start 20 mm down and 13.32 mm apart; the one starting at 193.16 mm
      would cross the bottom edge at 190 mm, so the page holds 13 lines and
      the word goes into line 4. */
  lemma PageLines(word: string, rand: nat -> Draw, step: nat -> StepMod)
    requires |word| > 0
    ensures |Layout(word, rand, step)| == 13 && ThirdLine(Layout(word, rand, step)) == 4
  {
    var at := LetterAt(word, rand);
    var w := Wave.Wave(Page, at, step);
    Wave.WaveCovers(Page, at, step, Page.startX, Page.startY, 0);
    Wave.WaveStep(Page, at, step, Page.startX, Page.startY, 0);
    var n := |w|;
    assert 20.0 + n as real * 13.32 >= 190.0;
    assert 20.0 + (n as real - 1.0) * 13.32 < 190.0;
  }

  /** Line j lies at y = 20 + 13.32 j, above the bottom edge; every stamp has
      a letter of the word, lies left of the right edge at 277 mm, and leaves
      the layout with both flags clear. */
  lemma LayoutStamps(word: string, rand: nat -> Draw, step: nat -> StepMod)
    requires |word| > 0
    ensures var lines := Layout(word, rand, step);
      forall j, k :: 0 <= j < |lines| && 0 <= k < |lines[j]| ==>
        && lines[j][k].letter in word && lines[j][k].x < 277.0
        && lines[j][k].y == 20.0 + j as real * 13.32 && lines[j][k].y < 190.0
        && !lines[j][k].reInk && !lines[j][k].doubleTap
  {
    var at := LetterAt(word, rand);
    var w := Wave.Wave(Page, at, step);
    var lines: seq<seq<Stamp>> := Layout(word, rand, step);
    var letters := WordLetters(word);
    Wave.WaveRows(Page, at, step, Page.startX, Page.startY, 0);
    LettersDrawn(word, rand);
    Wave.WavePaced(Page, at, step, Page.startX, Page.startY, 0, letters);
    assert w == Wave.WaveFrom(Page, at, step, Page.startX, Page.startY, 0);
    forall j: int, k: int | 0 <= j < |lines| && 0 <= k < |lines[j]|
      ensures lines[j][k].letter in word && lines[j][k].x < 277.0
      ensures lines[j][k].y == 20.0 + j as real * 13.32 && lines[j][k].y < 190.0
      ensures !lines[j][k].reInk && !lines[j][k].doubleTap
    {
      assert lines[j] == Stamped(w[j]);
      assert Wave.Paced(w[j], Page, letters);
      assert lines[j][k] == StampAt(w[j][k].letter, w[j][k].x, w[j][k].y, false, false);
    }
  }

  /** Within a line each stamp lies one to two stamp offsets (6.66 to 13.32 mm)
      right of the one before, stepMod being in [1, 2]. */
  lemma LayoutSpacing(word: string, rand: nat -> Draw, step: nat -> StepMod)
    requires |word| > 0
    ensures var lines := Layout(word, rand, step);
      forall j, k :: 0 <= j < |lines| && 0 <= k < |lines[j]| - 1 ==>
        lines[j][k].x + 6.66 <= lines[j][k + 1].x <= lines[j][k].x + 13.32
  {
    var at := LetterAt(word, rand);
    var w := Wave.Wave(Page, at, step);
    var lines: seq<seq<Stamp>> := Layout(word, rand, step);
    var letters := WordLetters(word);
    LettersDrawn(word, rand);
    Wave.WavePaced(Page, at, step, Page.startX, Page.startY, 0, letters);
    assert w == Wave.WaveFrom(Page, at, step, Page.startX, Page.startY, 0);
    forall j: int, k: int | 0 <= j < |lines| && 0 <= k < |lines[j]| - 1
      ensures lines[j][k].x + 6.66 <= lines[j][k + 1].x <= lines[j][k].x + 13.32
    {
      assert lines[j] == Stamped(w[j]);
      assert Wave.Paced(w[j], Page, letters);
    }
  }

  /** Every line holds a stamp; the first starts at 20 mm and every later one
      at 20 mm plus the overshoot of the line before past the right edge,
      which is below two stamp offsets. */
  lemma LayoutStarts(word: string, rand: nat -> Draw, step: nat -> StepMod)
    requires |word| > 0
    ensures var lines := Layout(word, rand, step);
      && (forall j :: 0 <= j < |lines| ==> |lines[j]| > 0)
      && lines[0][0].x == 20.0
      && (forall j :: 0 < j < |lines| ==> 20.0 <= lines[j][0].x < 33.32)
  {
    var at := LetterAt(word, rand);
    var w := Wave.Wave(Page, at, step);
    var lines: seq<seq<Stamp>> := Layout(word, rand, step);
    PageLines(word, rand, step);
    Wave.WaveStarts(Page, at, step, Page.startX, Page.startY, 0);
    Wave.WaveStep(Page, at, step, Page.startX, Page.startY, 0);
    Wave.LineMarks(Page, at, step, Page.startX, Page.startY, 0);
    assert lines[0] == Stamped(w[0]);
    forall j | 0 < j < |lines|
      ensures 20.0 <= lines[j][0].x < 33.32
    {
      assert lines[j] == Stamped(w[j]);
    }
  }

  // ---------------------------------------------------------------- letterList

  /** letterList holds every letter of the page once, in the order the
      row-major scan first meets them. */
  lemma LetterListOrder(lines: seq<seq<Stamp>>)
    ensures var flat := LettersOf(Flatten(lines));
      && (forall c :: c in LetterList(lines) <==> c in flat)
      && Unique(LetterList(lines))
      && forall i, j :: 0 <= i < j < |LetterList(lines)| ==>
           FirstIndex(flat, LetterList(lines)[i]) < FirstIndex(flat, LetterList(lines)[j])
  {
    var flat := LettersOf(Flatten(lines));
    forall i, j | 0 <= i < j < |LetterList(lines)|
      ensures FirstIndex(flat, LetterList(lines)[i]) < FirstIndex(flat, LetterList(lines)[j])
    {
      DistinctInFirstSeenOrder(flat, i, j);
    }
  }
  lemma {:induction false} FlattenContains<T>(rows: seq<seq<T>>, j: nat, k: nat)
    requires j < |rows| && k < |rows[j]|
    ensures rows[j][k] in Flatten(rows)
    decreases |rows|
  {
    var n := |rows| - 1;
    assert Flatten(rows) == Flatten(rows[..n]) + rows[n];
    if j < n {
      FlattenContains(rows[..n], j, k);
      assert rows[..n][j] == rows[j];
    }
  }

  /** Every letter of the page is in letterList. */
  lemma Listed(lines: seq<seq<Stamp>>, j: nat, k: nat)
    requires j < |lines| && k < |lines[j]|
    ensures lines[j][k].letter in LetterList(lines)
  {
    var flat := Flatten(lines);
    FlattenContains(lines, j, k);
    var i :| 0 <= i < |flat| && flat[i] == lines[j][k];
    assert LettersOf(flat)[i] == lines[j][k].letter;
  }

  // ---------------------------------------------------------------- re-ink parity

  /** How many stamps of letter c come before stamp k of line j, in row-major order. */
  function Rank(lines: seq<seq<Stamp>>, j: nat, k: nat, c: char): nat
    requires j < |lines| && k <= |lines[j]|
  {
    Occurrences(Flatten(lines[..j]) + lines[j][..k], c)
  }

  /** Two pages of the same shape with the same letter at every place. */
  ghost predicate SameLetters(a: seq<seq<Stamp>>, b: seq<seq<Stamp>>)
  {
    && |a| == |b|
    && (forall j :: 0 <= j < |a| ==> |a[j]| == |b[j]|)
    && (forall j, k :: 0 <= j < |a| && 0 <= k < |a[j]| ==> a[j][k].letter == b[j][k].letter)
  }

  lemma {:induction false} FlatLetters(a: seq<seq<Stamp>>, b: seq<seq<Stamp>>, j: nat)
    requires SameLetters(a, b) && j <= |a|
    ensures LettersOf(Flatten(a[..j])) == LettersOf(Flatten(b[..j]))
  {
    if j > 0 {
      FlatLetters(a, b, j - 1);
      FlattenStep(a, j - 1);
      FlattenStep(b, j - 1);
      LettersAppend(Flatten(a[..j - 1]), a[j - 1]);
      LettersAppend(Flatten(b[..j - 1]), b[j - 1]);
      assert LettersOf(a[j - 1]) == LettersOf(b[j - 1]);
    } else {
      assert a[..0] == [] && b[..0] == [];
    }
  }

  /** A stamp's rank depends on the letters of the page only. */
  lemma RankSame(a: seq<seq<Stamp>>, b: seq<seq<Stamp>>, j: nat, k: nat, c: char)
    requires SameLetters(a, b) && j < |a| && k <= |a[j]|
    ensures Rank(a, j, k, c) == Rank(b, j, k, c)
  {
    FlatLetters(a, b, j);
    LettersAppend(Flatten(a[..j]), a[j][..k]);
    LettersAppend(Flatten(b[..j]), b[j][..k]);
    assert LettersOf(a[j][..k]) == LettersOf(b[j][..k]);
    OccurrencesCount(Flatten(a[..j]) + a[j][..k], c);
    OccurrencesCount(Flatten(b[..j]) + b[j][..k], c);
  }

  /** The toggle for c sets reInk on each stamp of letter c by the parity of
      its rank and leaves every other stamp alone. */
  lemma MarkAllAt(lines: seq<seq<Stamp>>, c: char, j: nat, k: nat)
    requires j < |lines| && k < |lines[j]|
    ensures |MarkAll(lines, c)[j]| == |lines[j]|
    ensures MarkAll(lines, c)[j][k]
         == if lines[j][k].letter == c then lines[j][k].(reInk := Rank(lines, j, k, c) % 2 == 0) else lines[j][k]
  {
    OccurrencesAppend(Flatten(lines[..j]), lines[j][..k], c);
  }

  lemma MarkAllLetters(lines: seq<seq<Stamp>>, c: char)
    ensures SameLetters(MarkAll(lines, c), lines)
  {
    forall j: int, k: int | 0 <= j < |lines| && 0 <= k < |lines[j]|
      ensures |MarkAll(lines, c)[j]| == |lines[j]| && MarkAll(lines, c)[j][k].letter == lines[j][k].letter
    {
      MarkAllAt(lines, c, j, k);
    }
  }

  /** `out` is `lines` with every stamp whose letter is in `letters` re-inked
      exactly when an even number of stamps of its letter precede it. */
  ghost predicate Alternating(out: seq<seq<Stamp>>, lines: seq<seq<Stamp>>, letters: seq<char>)
  {
    && SameLetters(out, lines)
    && forall j, k :: 0 <= j < |lines| && 0 <= k < |lines[j]| ==>
         out[j][k] == if lines[j][k].letter in letters
                      then lines[j][k].(reInk := Rank(lines, j, k, lines[j][k].letter) % 2 == 0)
                      else lines[j][k]
  }

  lemma AlternatingStep(lines: seq<seq<Stamp>>, prev: seq<seq<Stamp>>, letters: seq<char>, c: char)
    requires Alternating(prev, lines, letters)
    ensures Alternating(MarkAll(prev, c), lines, letters + [c])
  {
    var out: seq<seq<Stamp>> := MarkAll(prev, c);
    MarkAllLetters(prev, c);
    forall j: int, k: int | 0 <= j < |lines| && 0 <= k < |lines[j]|
      ensures |out[j]| == |lines[j]| && out[j][k].letter == lines[j][k].letter
      ensures out[j][k] == if lines[j][k].letter in letters + [c]
                           then lines[j][k].(reInk := Rank(lines, j, k, lines[j][k].letter) % 2 == 0)
                           else lines[j][k]
    {
      MarkAllAt(prev, c, j, k);
      RankSame(prev, lines, j, k, c);
    }
  }

  /** The re-ink pass over `letters`: each letter's stamps, taken in row-major
      order, are re-inked, not, re-inked, and so on; stamps of other letters
      and every other field are unchanged. */
  lemma {:induction false} ReInkParity(lines: seq<seq<Stamp>>, letters: seq<char>)
    ensures Alternating(ReInked(lines, letters), lines, letters)
  {
    if |letters| == 0 {
      assert ReInked(lines, letters) == lines;
    } else {
      var n := |letters| - 1;
      ReInkParity(lines, letters[..n]);
      AlternatingStep(lines, ReInked(lines, letters[..n]), letters[..n], letters[n]);
      assert letters[..n] + [letters[n]] == letters;
    }
  }

  /** With letterList every stamp takes part: the first stamp of each letter
      is re-inked, the second not, and so on. */
  lemma ScriptReInk(lines: seq<seq<Stamp>>)
    ensures var out := ReInked(lines, LetterList(lines));
      && SameLetters(out, lines)
      && forall j, k :: 0 <= j < |lines| && 0 <= k < |lines[j]| ==>
           out[j][k] == lines[j][k].(reInk := Rank(lines, j, k, lines[j][k].letter) % 2 == 0)
  {
    ReInkParity(lines, LetterList(lines));
    forall j: int, k: int | 0 <= j < |lines| && 0 <= k < |lines[j]|
      ensures lines[j][k].letter in LetterList(lines)
    {
      Listed(lines, j, k);
    }
  }

  // ---------------------------------------------------------------- the forced word

  /** The forced word: in line |lines| / 3, from startPosition = length -
      (|word| + 4) on, the word's letters re-inked and double-tapped; the
      stamps just before and just after it not re-inked; every other stamp
      and every other line unchanged, and no stamp moved. */
  lemma ForcedLine(lines: seq<seq<Stamp>>, word: string)
    requires Fits(lines, word)
    ensures var t := ThirdLine(lines); var s := StartOf(lines, word);
      var f := Forced(lines, word); var line := lines[t];
      && s == |line| - (|word| + 4)
      && |f| == |lines| && (forall j :: 0 <= j < |lines| && j != t ==> f[j] == lines[j])
      && |f[t]| == |line|
      && (forall i :: 0 <= i < |word| ==> f[t][s + i] == line[s + i].(letter := word[i], reInk := true, doubleTap := true))
      && f[t][s - 1] == line[s - 1].(reInk := false)
      && f[t][s + |word|] == line[s + |word|].(reInk := false)
      && (forall k :: 0 <= k < |line| && (k + 1 < s || s + |word| < k) ==> f[t][k] == line[k])
      && (forall k :: 0 <= k < |line| ==> f[t][k].x == line[k].x && f[t][k].y == line[k].y)
  {
    var t := ThirdLine(lines);
    var s := StartOf(lines, word);
    var line := lines[t];
    var f := Forced(lines, word);
    OverwriteAt(line, word, s);
    assert f[t] == Overwrite(line, word, s);
    forall i | 0 <= i < |word|
      ensures f[t][s + i] == line[s + i].(letter := word[i], reInk := true, doubleTap := true)
    {
      assert f[t][s + i] == ForcedStamp(line, word, s, s + i);
    }
    assert f[t][s - 1] == ForcedStamp(line, word, s, s - 1);
    assert f[t][s + |word|] == ForcedStamp(line, word, s, s + |word|);
  }
  // ---------------------------------------------------------------- the stamps visited

  /** Matching(s, c) holds each stamp of letter c as often as s does, and nothing else. */
  lemma {:induction false} MatchingCount(s: seq<Stamp>, c: char, x: Stamp)
    ensures multiset(Matching(s, c))[x] == if x.letter == c then multiset(s)[x] else 0
    decreases |s|
  {
    if |s| > 0 {
      var n := |s| - 1;
      assert s == s[..n] + [s[n]];
      MatchingSnoc(s[..n], s[n], c);
      MatchingCount(s[..n], c, x);
    } else {
      assert Matching(s, c) == [];
    }
  }

  /** The emission visits each stamp whose letter is in a list without
      repeats exactly as often as the page holds it, and no other stamp. */
  lemma {:induction false} VisitedCount(letters: seq<char>, flat: seq<Stamp>, x: Stamp)
    requires Unique(letters)
    ensures multiset(Visited(letters, flat))[x] == if x.letter in letters then multiset(flat)[x] else 0
    decreases |letters|
  {
    if |letters| > 0 {
      var n := |letters| - 1;
      var front := letters[..n];
      assert Unique(front);
      VisitedCount(front, flat, x);
      MatchingCount(flat, letters[n], x);
      assert x.letter in letters <==> x.letter in front || x.letter == letters[n] by {
        assert letters == front + [letters[n]];
      }
      assert x.letter == letters[n] ==> x.letter !in front;
    }
  }

  // ---------------------------------------------------------------- tools and ink

  lemma StampTools(s: Stamp, p: Point)
    ensures Tools(StampActs(s, p)) == []
  {
    var a: seq<Action> := if s.reInk then [Dip(p)] else [];
    var b: seq<Action> := [Hit(Point(s.x, Height - s.y))];
    var c: seq<Action> := if s.doubleTap then [Hit(p)] else [];
    HitsToolsAppend(a + b, c);
    HitsToolsAppend(a, b);
    ConcatSnoc(ToolOf, [], Hit(Point(s.x, Height - s.y)));
    assert [] + [Hit(Point(s.x, Height - s.y))] == b;
    if s.reInk {
      ConcatSnoc(ToolOf, [], Dip(p));
      assert [] + [Dip(p)] == a;
    }
    if s.doubleTap {
      ConcatSnoc(ToolOf, [], Hit(p));
      assert [] + [Hit(p)] == c;
    }
  }

  /** A run of stamps installs no tool. */
  lemma {:induction false} TapsTools(ms: seq<Stamp>, ink: nat -> Point, k0: nat)
    ensures Tools(Taps(ms, ink, k0)) == []
    decreases |ms|
  {
    if |ms| > 0 {
      var n := |ms| - 1;
      var v: (Stamp, nat) := (ms[n], k0 + n);
      assert Visits(ms, k0) == Visits(ms[..n], k0) + [v];
      ConcatSnoc(ActsOf(ink), Visits(ms[..n], k0), v);
      TapsTools(ms[..n], ink, k0);
      StampTools(ms[n], ink(k0 + n));
      HitsToolsAppend(Taps(ms[..n], ink, k0), StampActs(ms[n], ink(k0 + n)));
    } else {
      assert Visits(ms, k0) == [];
    }
  }

  /** The tools installed are 1, 2, ... for the letters in letterList order. */
  lemma {:induction false} NotesTools(letters: seq<char>, flat: seq<Stamp>, ink: nat -> Point)
    ensures var ts := Tools(Notes(letters, flat, ink));
      |ts| == |letters| && forall i :: 0 <= i < |letters| ==> ts[i] == (i + 1, Layer.Glyph(letters[i]))
    decreases |letters|
  {
    if |letters| > 0 {
      var n := |letters| - 1;
      var front := Notes(letters[..n], flat, ink);
      var t := Tool(n + 1, Layer.Glyph(letters[n]));
      var taps := Taps(Matching(flat, letters[n]), ink, |Visited(letters[..n], flat)|);
      NotesTools(letters[..n], flat, ink);
      TapsTools(Matching(flat, letters[n]), ink, |Visited(letters[..n], flat)|);
      HitsToolsAppend(front + [t], taps);
      ConcatSnoc(ToolOf, front, t);
      assert Tools(Notes(letters, flat, ink)) == Tools(front) + [(n + 1, Layer.Glyph(letters[n]))] + [];
    } else {
      assert Notes(letters, flat, ink) == [];
    }
  }

  lemma DipsAppend(a: seq<Action>, b: seq<Action>, r: Rect)
    requires DipsWithin(a, r) && DipsWithin(b, r)
    ensures DipsWithin(a + b, r)
  {
    forall i | 0 <= i < |a + b| && (a + b)[i].Dip?
      ensures InRect((a + b)[i].at, r)
    {
      if i < |a| {
        assert (a + b)[i] == a[i];
      } else {
        assert (a + b)[i] == b[i - |a|];
      }
    }
  }

  /** Every ink point lies inside the ink range when the range is not empty. */
  ghost predicate InksWithin(ink: nat -> Point, r: Rect)
  {
    forall k: nat :: InRect(ink(k), r)
  }

  lemma InksInRange(range: Rect, rand: nat -> Draw)
    requires range.left < range.right && range.bottom < range.top
    ensures InksWithin(Inks(range, rand), range)
  {
    forall k: nat
      ensures InRect(Inks(range, rand)(k), range)
    {
      assert Inks(range, rand)(k) == InkPoint(range, rand(2 * k), rand(2 * k + 1));
    }
  }

  lemma {:induction false} TapsDips(ms: seq<Stamp>, ink: nat -> Point, k0: nat, r: Rect)
    requires InksWithin(ink, r)
    ensures DipsWithin(Taps(ms, ink, k0), r)
    decreases |ms|
  {
    if |ms| > 0 {
      var n := |ms| - 1;
      var v: (Stamp, nat) := (ms[n], k0 + n);
      assert Visits(ms, k0) == Visits(ms[..n], k0) + [v];
      ConcatSnoc(ActsOf(ink), Visits(ms[..n], k0), v);
      TapsDips(ms[..n], ink, k0, r);
      assert InRect(ink(k0 + n), r);
      DipsAppend(Taps(ms[..n], ink, k0), StampActs(ms[n], ink(k0 + n)), r);
    } else {
      assert Visits(ms, k0) == [];
    }
  }

  /** Every ink dip of the emission lands inside the ink range. */
  lemma {:induction false} NotesDips(letters: seq<char>, flat: seq<Stamp>, ink: nat -> Point, r: Rect)
    requires InksWithin(ink, r)
    ensures DipsWithin(Notes(letters, flat, ink), r)
    decreases |letters|
  {
    if |letters| > 0 {
      var n := |letters| - 1;
      var front := Notes(letters[..n], flat, ink);
      var t := Tool(n + 1, Layer.Glyph(letters[n]));
      NotesDips(letters[..n], flat, ink, r);
      TapsDips(Matching(flat, letters[n]), ink, |Visited(letters[..n], flat)|, r);
      DipsAppend(front, [t], r);
      DipsAppend(front + [t], Taps(Matching(flat, letters[n]), ink, |Visited(letters[..n], flat)|), r);
    }
  }

  /** inkRange: the pad (318..391 by 6..42) shrunk by 15 mm on every side. */
  lemma ScriptInkRange()
    ensures InkRange == Rect(333.0, 376.0, 27.0, 21.0)
  {
  }
  // ---------------------------------------------------------------- the script

  /** The script stops without a word, and otherwise exactly when line 4 of
      the page is shorter than the word plus five stamps. */
  lemma ScriptFails(word: string, rand: nat -> Draw, step: nat -> StepMod)
    ensures |word| > 0 ==> |Layout(word, rand, step)| == 13
    ensures Output(word, rand, step) == Err(NoWord) <==> |word| == 0
    ensures |word| > 0 ==> (Output(word, rand, step) == Err(NoRoom) <==> |Layout(word, rand, step)[4]| < |word| + 5)
  {
    if |word| > 0 {
      var lines: seq<seq<Stamp>> := Layout(word, rand, step);
      PageLines(word, rand, step);
      ScriptReInk(lines);
      var inked: seq<seq<Stamp>> := ReInked(lines, LetterList(lines));
      assert |inked| == 13 && |inked[4]| == |lines[4]|;
    }
  }

  /** The page the emission reads: the layout re-inked over letterList, then
      the word forced into line 4. */
  function FinalPage(word: string, rand: nat -> Draw, step: nat -> StepMod): seq<seq<Stamp>>
    requires Output(word, rand, step).Ok?
  {
    var lines := Layout(word, rand, step);
    Forced(ReInked(lines, LetterList(lines)), word)
  }

  /** Forcing the word moves no stamp and, on a page with no double taps,
      makes exactly the word's stamps double taps. */
  lemma ForcedDoubleTaps(lines: seq<seq<Stamp>>, word: string)
    requires Fits(lines, word)
    requires forall j, k :: 0 <= j < |lines| && 0 <= k < |lines[j]| ==> !lines[j][k].doubleTap
    ensures var t := ThirdLine(lines); var s := StartOf(lines, word); var f := Forced(lines, word);
      && |f| == |lines| && (forall j :: 0 <= j < |f| ==> |f[j]| == |lines[j]|)
      && forall j, k :: 0 <= j < |f| && 0 <= k < |f[j]| ==>
           && f[j][k].x == lines[j][k].x && f[j][k].y == lines[j][k].y
           && (f[j][k].doubleTap <==> j == t && s <= k < s + |word|)
  {
    var t := ThirdLine(lines);
    var s := StartOf(lines, word);
    var f: seq<seq<Stamp>> := Forced(lines, word);
    ForcedLine(lines, word);
    forall j: int, k: int | 0 <= j < |f| && 0 <= k < |f[j]|
      ensures f[j][k].x == lines[j][k].x && f[j][k].y == lines[j][k].y
      ensures f[j][k].doubleTap <==> j == t && s <= k < s + |word|
    {
      if j == t && s <= k < s + |word| {
        assert f[t][s + (k - s)] == lines[t][s + (k - s)].(letter := word[k - s], reInk := true, doubleTap := true);
      } else if j == t && (k == s - 1 || k == s + |word|) {
        assert f[t][k] == lines[t][k].(reInk := false);
      }
    }
  }

  /** No stamp moves, and exactly the word's stamps are pressed twice. */
  lemma ScriptDoubleTaps(word: string, rand: nat -> Draw, step: nat -> StepMod)
    requires Output(word, rand, step).Ok?
    ensures |Layout(word, rand, step)| == 13
    ensures var lines := Layout(word, rand, step); var page := FinalPage(word, rand, step);
      var s := |lines[4]| - (|word| + 4);
      && |page| == 13
      && (forall j :: 0 <= j < 13 ==> |page[j]| == |lines[j]|)
      && forall j, k :: 0 <= j < 13 && 0 <= k < |page[j]| ==>
           && page[j][k].x == lines[j][k].x && page[j][k].y == lines[j][k].y
           && (page[j][k].doubleTap <==> j == 4 && s <= k < s + |word|)
  {
    var lines: seq<seq<Stamp>> := Layout(word, rand, step);
    var inked: seq<seq<Stamp>> := ReInked(lines, LetterList(lines));
    PageLines(word, rand, step);
    LayoutStamps(word, rand, step);
    ScriptReInk(lines);
    assert |inked| == 13;
    assert forall j :: 0 <= j < 13 ==> |inked[j]| == |lines[j]|;
    assert forall j, k :: 0 <= j < 13 && 0 <= k < |inked[j]| ==>
      inked[j][k].x == lines[j][k].x && inked[j][k].y == lines[j][k].y && !inked[j][k].doubleTap;
    ForcedDoubleTaps(inked, word);
  }

  /** A finished toolpath: the header, tool i + 1 for letter i of letterList,
      each listed stamp of the final page visited exactly once and no other
      stamp, every ink dip inside the ink range, the head never travelling
      lowered, and M2 last. */
  lemma ScriptToolpath(word: string, rand: nat -> Draw, step: nat -> StepMod)
    requires Output(word, rand, step).Ok?
    ensures var lines := Layout(word, rand, step); var letters := LetterList(lines);
      var flat := Flatten(FinalPage(word, rand, step));
      var acts := Notes(letters, flat, Inks(InkRange, After(rand, |Flatten(lines)|)));
      var g := Output(word, rand, step).value;
      && g == Program(Heads, Width, Height, "love", acts)
      && SafeTravel(g, Heads.up) && g[|g| - 1] == ProgramEnd
      && |Tools(acts)| == |letters|
      && (forall i :: 0 <= i < |letters| ==> Tools(acts)[i] == (i + 1, Layer.Glyph(letters[i])))
      && DipsWithin(acts, InkRange)
      && forall x :: multiset(Visited(letters, flat))[x] == if x.letter in letters then multiset(flat)[x] else 0
  {
    var lines: seq<seq<Stamp>> := Layout(word, rand, step);
    var letters := LetterList(lines);
    var flat: seq<Stamp> := Flatten(FinalPage(word, rand, step));
    var ink := Inks(InkRange, After(rand, |Flatten(lines)|));
    var acts := Notes(letters, flat, ink);
    ProgramSafe(Heads, Width, Height, "love", acts);
    NotesTools(letters, flat, ink);
    InksInRange(InkRange, After(rand, |Flatten(lines)|));
    NotesDips(letters, flat, ink, InkRange);
    LetterListOrder(lines);
    forall x
      ensures multiset(Visited(letters, flat))[x] == if x.letter in letters then multiset(flat)[x] else 0
    {
      VisitedCount(letters, flat, x);
    }
  }
}
