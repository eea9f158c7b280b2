/**
 * What aaaaaggggh/index.js promises about its page and toolpath, proved
 * about the Aaaaaggggh model: nine wave-stepped lines of 'A' stamps, the
 * last line cut by a quarter, the last six stamps turned into four 'G' and
 * two 'H', and a toolpath that installs tools 1, 2 and 3 for A, G and H and
 * presses every stamp once, in row-major order, after an ink dip.
 */
module AaaaagggghFacts {
  import opened GCode
  import opened Grouping
  import opened Stamping
  import opened Emission
  import opened Wave
  import opened Aaaaaggggh

  // ---------------------------------------------------------------- the last line

  /** A quarter of the line, rounded down, is cut; a line shorter than four
      stamps loses everything. */
  lemma KeptFacts(len: nat)
    ensures 1 <= len < 4 ==> Kept(len) == 0
    ensures len >= 4 ==> len - Kept(len) == len / 4 && 3 * len <= 4 * Kept(len) < 4 * len
  {
  }

  /** Shortening the last line cuts the tail off the stamps in row-major order. */
  lemma TruncatedFlat(lines: seq<seq<Mark>>)
    requires |lines| > 0
    ensures var last := lines[|lines| - 1]; var cut := |last| - Kept(|last|);
      && |Truncated(lines)| == |lines|
      && cut <= |Flatten(lines)|
      && Flatten(Truncated(lines)) == Flatten(lines)[..|Flatten(lines)| - cut]
  {
    var n := |lines| - 1;
    var t := Truncated(lines);
    FlattenStep(lines, n);
    FlattenStep(t, n);
    assert lines[..n + 1] == lines && t[..n + 1] == t && t[..n] == lines[..n];
  }

  // ---------------------------------------------------------------- setLastLetters

  /** The placements s with the last min(count, |s|) of them relabelled c. */
  function RenameTail(s: seq<Mark>, c: char, count: nat): (r: seq<Mark>)
    ensures |r| == |s|
  {
    var t := if count < |s| then count else |s|;
    s[..|s| - t] + Renamed(s[|s| - t..], c)
  }

  lemma RenameTailAt(s: seq<Mark>, c: char, count: nat, i: nat)
    requires i < |s|
    ensures var t := if count < |s| then count else |s|;
      RenameTail(s, c, count)[i] == if i < |s| - t then s[i] else s[i].(letter := c)
  {
  }

  /** One more line in front of a relabelled tail. */
  lemma RenameTailSnoc(f: seq<Mark>, l: seq<Mark>, c: char, count: nat)
    ensures var t := if count < |l| then count else |l|;
      RenameTail(f, c, count - t) + (l[..|l| - t] + Renamed(l[|l| - t..], c)) == RenameTail(f + l, c, count)
  {
    var t := if count < |l| then count else |l|;
    var a := RenameTail(f, c, count - t) + (l[..|l| - t] + Renamed(l[|l| - t..], c));
    var b := RenameTail(f + l, c, count);
    var m := if count < |f| + |l| then count else |f| + |l|;
    assert |a| == |b|;
    forall i | 0 <= i < |a|
      ensures a[i] == b[i]
    {
      RenameTailAt(f + l, c, count, i);
      if i < |f| {
        RenameTailAt(f, c, count - t, i);
      }
    }
  }

  /** Two lines with the stamps at the same places. */
  ghost predicate SameLine(a: seq<Mark>, b: seq<Mark>)
  {
    |a| == |b| && forall k :: 0 <= k < |a| ==> a[k].x == b[k].x && a[k].y == b[k].y
  }

  /** Two pages with the stamps at the same places. */
  ghost predicate SamePlaces(a: seq<seq<Mark>>, b: seq<seq<Mark>>)
  {
    |a| == |b| && forall j :: 0 <= j < |a| ==> SameLine(a[j], b[j])
  }

  lemma RenamedLine(l: seq<Mark>, c: char, t: nat)
    requires t <= |l|
    ensures SameLine(l[..|l| - t] + Renamed(l[|l| - t..], c), l)
  {
    var row := l[..|l| - t] + Renamed(l[|l| - t..], c);
    forall k | 0 <= k < |l|
      ensures row[k].x == l[k].x && row[k].y == l[k].y
    {
      if k >= |l| - t {
        assert row[k] == Renamed(l[|l| - t..], c)[k - (|l| - t)];
      }
    }
  }

  lemma SamePlacesSnoc(p: seq<seq<Mark>>, q: seq<seq<Mark>>, a: seq<Mark>, b: seq<Mark>)
    requires SamePlaces(p, q) && SameLine(a, b)
    ensures SamePlaces(p + [a], q + [b])
  {
    forall j | 0 <= j < |p| + 1
      ensures SameLine((p + [a])[j], (q + [b])[j])
    {
      if j < |p| {
        assert (p + [a])[j] == p[j] && (q + [b])[j] == q[j];
      }
    }
  }

  /** Relabelling changes letters only. */
  lemma {:induction false} RelabelShape(lines: seq<seq<Mark>>, c: char, count: nat)
    ensures SamePlaces(Relabel(lines, c, count), lines)
  {
    if |lines| > 0 {
      var n := |lines| - 1;
      var l := lines[n];
      var t := if count < |l| then count else |l|;
      var row := l[..|l| - t] + Renamed(l[|l| - t..], c);
      var front := Relabel(lines[..n], c, count - t);
      assert Relabel(lines, c, count) == front + [row];
      RelabelShape(lines[..n], c, count - t);
      RenamedLine(l, c, t);
      SamePlacesSnoc(front, lines[..n], row, l);
      assert lines[..n] + [l] == lines;
    }
  }

  /** setLastLetters(c, count) relabels the last min(count, total) stamps in
      row-major order: counting back from the end and skipping empty lines. */
  lemma {:induction false} RelabelFlat(lines: seq<seq<Mark>>, c: char, count: nat)
    ensures Flatten(Relabel(lines, c, count)) == RenameTail(Flatten(lines), c, count)
  {
    if |lines| > 0 {
      var n := |lines| - 1;
      var l := lines[n];
      var t := if count < |l| then count else |l|;
      var front := lines[..n];
      var f := Flatten(front);
      var p := Relabel(front, c, count - t);
      var row := l[..|l| - t] + Renamed(l[|l| - t..], c);
      assert Relabel(lines, c, count) == p + [row] by {
        RelabelLast(lines, c, count, front, l, t);
      }
      assert Flatten(p) == RenameTail(f, c, count - t) by {
        RelabelFlat(front, c, count - t);
      }
      assert RenameTail(f, c, count - t) + row == RenameTail(f + l, c, count) by {
        RenameTailSnoc(f, l, c, count);
      }
      SnocFlat(Relabel(lines, c, count), p, row, lines, front, l,
        RenameTail(f, c, count - t), RenameTail(f + l, c, count));
    }
  }

  /** A row appended below p flattens onto p's flattening; the plain
      arithmetic of the induction step of RelabelFlat, free of what the rows hold. */
  lemma SnocFlat<T>(r: seq<seq<T>>, p: seq<seq<T>>, row: seq<T>, lines: seq<seq<T>>,
                    front: seq<seq<T>>, l: seq<T>, fp: seq<T>, g: seq<T>)
    requires r == p + [row] && Flatten(p) == fp && fp + row == g
    requires |lines| > 0 && front == lines[..|lines| - 1] && l == lines[|lines| - 1]
    ensures Flatten(r) == g && Flatten(lines) == Flatten(front) + l
  {
    FlattenSnoc(p, row);
  }

  /** The last line is relabelled first, and the count left over goes to the lines above it. */
  lemma RelabelLast(lines: seq<seq<Mark>>, c: char, count: nat, front: seq<seq<Mark>>, l: seq<Mark>, t: nat)
    requires |lines| > 0 && front == lines[..|lines| - 1] && l == lines[|lines| - 1]
    requires t == if count < |l| then count else |l|
    ensures Relabel(lines, c, count) == Relabel(front, c, count - t) + [l[..|l| - t] + Renamed(l[|l| - t..], c)]
  {
  }

  /** After setLastLetters('G', 6) and setLastLetters('H', 2) on at least six
      stamps the final two are H, the four before them G, and the rest as they were. */
  lemma LastSix(s: seq<Mark>)
    requires |s| >= 6
    ensures var f := RenameTail(RenameTail(s, 'G', 6), 'H', 2);
      && |f| == |s|
      && forall i :: 0 <= i < |s| ==>
           f[i] == if i < |s| - 6 then s[i] else if i < |s| - 2 then s[i].(letter := 'G') else s[i].(letter := 'H')
  {
    var g := RenameTail(s, 'G', 6);
    forall i | 0 <= i < |s|
      ensures RenameTail(g, 'H', 2)[i] == if i < |s| - 6 then s[i] else if i < |s| - 2 then s[i].(letter := 'G') else s[i].(letter := 'H')
    {
      RenameTailAt(s, 'G', 6, i);
      RenameTailAt(g, 'H', 2, i);
    }
  }

  // ---------------------------------------------------------------- the page

  /** The layout: nine lines of at least fourteen 'A' stamps, line j at
      y = 30 + 18 j, every stamp left of the right edge at 267 mm and one to
      two stamp offsets (8 to 16 mm) after the one before it; the first line
      starts at x = 30 and every later one within 16 mm of it. */
  lemma ScriptPage(step: nat -> StepMod)
    ensures var w := Stamps(step);
      && |w| == 9
      && (forall j :: 0 <= j < 9 ==> |w[j]| >= 14)
      && w[0][0].x == 30.0 && (forall j :: 0 < j < 9 ==> 30.0 <= w[j][0].x < 46.0)
      && (forall j, k :: 0 <= j < 9 && 0 <= k < |w[j]| ==>
            w[j][k].letter == 'A' && w[j][k].y == 30.0 + j as real * 18.0 && w[j][k].x < 267.0)
      && (forall j, k :: 0 <= j < 9 && 0 <= k < |w[j]| - 1 ==> w[j][k].x + 8.0 <= w[j][k + 1].x <= w[j][k].x + 16.0)
  {
    var w := Stamps(step);
    assert w == Wave.WaveFrom(Page, Plain, step, Page.startX, Page.startY, 0);
    Wave.WaveCovers(Page, Plain, step, Page.startX, Page.startY, 0);
    var n := |w|;
    assert 30.0 + n as real * 18.0 >= 180.0;
    assert n > 0 ==> 30.0 + (n as real - 1.0) * 18.0 < 180.0;
    Wave.WaveRows(Page, Plain, step, Page.startX, Page.startY, 0);
    Wave.WaveStarts(Page, Plain, step, Page.startX, Page.startY, 0);
    Wave.WaveLong(Page, Plain, step, Page.startX, Page.startY, 0, 13);
    Wave.WavePaced(Page, Plain, step, Page.startX, Page.startY, 0, {'A'});
    Wave.WaveStep(Page, Plain, step, Page.startX, Page.startY, 0);
    Wave.LineMarks(Page, Plain, step, Page.startX, Page.startY, 0);
    forall j | 0 <= j < 9
      ensures Paced(w[j], Page, {'A'})
    {
    }
  }

  /** Every stamp of the lines has the letter c. */
  ghost predicate AllOf(lines: seq<seq<Mark>>, c: char)
  {
    forall j, k :: 0 <= j < |lines| && 0 <= k < |lines[j]| ==> lines[j][k].letter == c
  }

  lemma {:induction false} FlatAllOf(lines: seq<seq<Mark>>, c: char)
    requires AllOf(lines, c)
    ensures forall i :: 0 <= i < |Flatten(lines)| ==> Flatten(lines)[i].letter == c
  {
    if |lines| > 0 {
      var n := |lines| - 1;
      FlattenStep(lines, n);
      assert lines[..n + 1] == lines;
      assert AllOf(lines[..n], c) by {
        forall j, k | 0 <= j < n && 0 <= k < |lines[..n][j]|
          ensures lines[..n][j][k].letter == c
        {
          assert lines[..n][j] == lines[j];
        }
      }
      FlatAllOf(lines[..n], c);
    }
  }

  /** The stamps the emission reads, in row-major order: the layout's minus
      the cut quarter of the last line, the last six relabelled. */
  lemma ScriptStamps(step: nat -> StepMod)
    ensures var w := Stamps(step);
      |w| == 9 &&
      var t := Flatten(Truncated(w)); var f := Flatten(FinalPage(step));
      && |t| == |Flatten(w)| - |w[8]| / 4 && |t| >= 14
      && t == Flatten(w)[..|t|]
      && |f| == |t| && Tail6(f)
      && forall i :: 0 <= i < |f| ==> f[i].x == t[i].x && f[i].y == t[i].y
  {
    var w := Stamps(step);
    ScriptPage(step);
    var tr := Truncated(w);
    TruncatedFlat(w);
    KeptFacts(|w[8]|);
    var t := Flatten(tr);
    assert tr[0] == w[0];
    FlatAtLeast(tr, 0);
    assert AllOf(tr, 'A') by {
      forall j, k | 0 <= j < 9 && 0 <= k < |tr[j]|
        ensures tr[j][k].letter == 'A'
      {
        if j == 8 {
          assert tr[8][k] == w[8][k];
        }
      }
    }
    FlatAllOf(tr, 'A');
    var g := Relabel(tr, 'G', 6);
    RelabelFlat(tr, 'G', 6);
    RelabelFlat(g, 'H', 2);
    LastSix(t);
  }

  // ---------------------------------------------------------------- letterList

  /** Keys already seen add nothing to the distinct list. */
  lemma {:induction false} DistinctSeen<K(!new)>(a: seq<K>, b: seq<K>)
    requires forall i :: 0 <= i < |b| ==> b[i] in a
    ensures Distinct(a + b) == Distinct(a)
    decreases |b|
  {
    if |b| > 0 {
      var n := |b| - 1;
      DistinctSeen(a, b[..n]);
      assert b[n] in a + b[..n];
      assert a + b == (a + b[..n]) + [b[n]];
      DistinctSnoc(a + b[..n], b[n]);
    } else {
      assert a + b == a;
    }
  }

  /** A block of one new key adds that key once. */
  lemma DistinctBlock<K(!new)>(a: seq<K>, x: K, b: seq<K>)
    requires x !in a && |b| > 0 && forall i :: 0 <= i < |b| ==> b[i] == x
    ensures Distinct(a + b) == Distinct(a) + [x]
  {
    assert a + b == (a + [x]) + b[1..];
    DistinctSnoc(a, x);
    DistinctSeen(a + [x], b[1..]);
  }

  /** The letter pattern of the final page. */
  ghost predicate Tail6(f: seq<Mark>)
  {
    |f| >= 7 && forall i :: 0 <= i < |f| ==> f[i].letter == (if i < |f| - 6 then 'A' else if i < |f| - 2 then 'G' else 'H')
  }

  /** Three blocks of three different keys: the keys in block order. */
  lemma DistinctThree<K(!new)>(a: seq<K>, g: seq<K>, h: seq<K>, x: K, y: K, z: K)
    requires x != y && y != z && x != z && |a| > 0 && |g| > 0 && |h| > 0
    requires forall i :: 0 <= i < |a| ==> a[i] == x
    requires forall i :: 0 <= i < |g| ==> g[i] == y
    requires forall i :: 0 <= i < |h| ==> h[i] == z
    ensures Distinct(a + g + h) == [x, y, z]
  {
    DistinctUniform(a, x);
    DistinctBlock(a, y, g);
    DistinctBlock(a + g, z, h);
  }

  /** A block of one key has that key alone. */
  lemma DistinctUniform<K(!new)>(a: seq<K>, x: K)
    requires |a| > 0 && forall i :: 0 <= i < |a| ==> a[i] == x
    ensures Distinct(a) == [x]
  {
    assert [x][..0] == [];
    assert a == [x] + a[1..];
    DistinctSeen([x], a[1..]);
  }

  lemma PatternLetters(f: seq<Mark>)
    requires Tail6(f)
    ensures Distinct(LettersOf(f)) == ['A', 'G', 'H']
  {
    var ks := LettersOf(f);
    var n := |f|;
    var a := ks[..n - 6];
    var g := ks[n - 6..n - 2];
    var h := ks[n - 2..];
    assert ks == a + g + h;
    assert forall i :: 0 <= i < |a| ==> a[i] == f[i].letter == 'A';
    assert forall i :: 0 <= i < |g| ==> g[i] == f[i + n - 6].letter == 'G';
    assert forall i :: 0 <= i < |h| ==> h[i] == f[i + n - 2].letter == 'H';
    DistinctThree(a, g, h, 'A', 'G', 'H');
  }

  /** letterList is A, G, H: the 'A' stamps come first, then four 'G', then two 'H'. */
  lemma ScriptLetters(step: nat -> StepMod)
    ensures LetterList(FinalPage(step)) == ['A', 'G', 'H']
  {
    ScriptStamps(step);
    PatternLetters(Flatten(FinalPage(step)));
  }

  // ---------------------------------------------------------------- the toolpath

  /** Stamps of one letter followed by stamps of others: letter by letter,
      the values come out in their order. */
  lemma Select3<V>(a: seq<(char, V)>, g: seq<(char, V)>, h: seq<(char, V)>, k: char)
    requires forall i :: 0 <= i < |a| ==> a[i].0 == 'A'
    requires forall i :: 0 <= i < |g| ==> g[i].0 == 'G'
    requires forall i :: 0 <= i < |h| ==> h[i].0 == 'H'
    ensures Select(a + g + h, k) == if k == 'A' then Values(a) else if k == 'G' then Values(g) else if k == 'H' then Values(h) else []
  {
    SelectAppend(a + g, h, k);
    SelectAppend(a, g, k);
    var sa, sg, sh := Select(a, k), Select(g, k), Select(h, k);
    assert Select(a + g + h, k) == sa + sg + sh;
    SelectUniform(a, 'A', k);
    SelectUniform(g, 'G', k);
    SelectUniform(h, 'H', k);
    if k == 'A' {
      assert sg == [] && sh == [];
    } else if k == 'G' {
      assert sa == [] && sh == [];
    } else if k == 'H' {
      assert sa == [] && sg == [];
    }
  }

  lemma Values3<V>(a: seq<(char, V)>, g: seq<(char, V)>, h: seq<(char, V)>)
    ensures Values(a) + Values(g) + Values(h) == Values(a + g + h)
  {
    var l := Values(a) + Values(g) + Values(h);
    var r := Values(a + g + h);
    forall i | 0 <= i < |l|
      ensures l[i] == r[i]
    {
      if i < |a| {
      } else if i < |a| + |g| {
        assert l[i] == Values(g)[i - |a|];
      } else {
        assert l[i] == Values(h)[i - |a| - |g|];
      }
    }
  }

  /** Three blocks of A, G and H, selected letter by letter, read back in order. */
  lemma SelectBlocks<V>(a: seq<(char, V)>, g: seq<(char, V)>, h: seq<(char, V)>)
    requires forall i :: 0 <= i < |a| ==> a[i].0 == 'A'
    requires forall i :: 0 <= i < |g| ==> g[i].0 == 'G'
    requires forall i :: 0 <= i < |h| ==> h[i].0 == 'H'
    ensures Select(a + g + h, 'A') + Select(a + g + h, 'G') + Select(a + g + h, 'H') == Values(a + g + h)
  {
    Select3(a, g, h, 'A');
    Select3(a, g, h, 'G');
    Select3(a, g, h, 'H');
    Values3(a, g, h);
  }

  /** A run of stamps of letter c presses points keyed c. */
  lemma PressedKeys(f: seq<Mark>, lo: nat, hi: nat, c: char)
    requires lo <= hi <= |f|
    requires forall i :: lo <= i < hi ==> f[i].letter == c
    ensures forall i :: 0 <= i < hi - lo ==> Pressed(f)[lo..hi][i].0 == c
  {
  }

  /** The final page's presses, letter by letter, are its stamps in row-major order. */
  lemma PressOrder(f: seq<Mark>)
    requires Tail6(f)
    ensures Matching(f, 'A') + Matching(f, 'G') + Matching(f, 'H') == Values(Pressed(f))
  {
    var n := |f|;
    var ps := Pressed(f);
    PressedKeys(f, 0, n - 6, 'A');
    PressedKeys(f, n - 6, n - 2, 'G');
    PressedKeys(f, n - 2, n, 'H');
    var a, g, h := ps[0..n - 6], ps[n - 6..n - 2], ps[n - 2..n];
    assert ps == a + g + h;
    SelectBlocks(a, g, h);
  }

  /** The script's ink range, the pad shrunk by 15 mm. */
  lemma ScriptInkRange()
    ensures InkRange == Rect(330.0, 375.0, 39.0, 21.0)
  {
  }

  /** A finished toolpath: the header, tools 1, 2, 3 for A, G, H, every
      stamp of the final page pressed exactly once and in row-major order at
      (x, 210 - y), each press straight after an ink dip inside the ink
      range, the head never travelling lowered, and M2 last. */
  lemma ScriptToolpath(rand: nat -> Draw, step: nat -> StepMod)
    ensures var page := FinalPage(step); var f := Flatten(page);
      var acts := Toolpath(['A', 'G', 'H'], page, rand);
      var g := Output(rand, step);
      && g == Program(Heads, Width, Height, "BT_SVG", acts)
      && SafeTravel(g, Heads.up) && g[|g| - 1] == ProgramEnd
      && Tools(acts) == [(1, Layer.Glyph('A')), (2, Layer.Glyph('G')), (3, Layer.Glyph('H'))]
      && Hits(acts) == Values(Pressed(f))
      && (forall i :: 0 <= i < |f| ==> Hits(acts)[i] == Point(f[i].x, Height - f[i].y))
      && HitsInked(acts) && DipsWithin(acts, InkRange)
  {
    var page := FinalPage(step);
    var f := Flatten(page);
    var letters := ['A', 'G', 'H'];
    ScriptLetters(step);
    ScriptStamps(step);
    var tools := ToolList(letters);
    var groups := Targeted(letters, page);
    SessionHits(tools, groups, InkRange, rand);
    SessionShape(tools, groups, InkRange, rand);
    ProgramSafe(Heads, Width, Height, "BT_SVG", Toolpath(letters, page, rand));
    assert tools == [(1, Layer.Glyph('A')), (2, Layer.Glyph('G')), (3, Layer.Glyph('H'))];
    assert groups == [Matching(f, 'A'), Matching(f, 'G'), Matching(f, 'H')];
    FlattenThree(Matching(f, 'A'), Matching(f, 'G'), Matching(f, 'H'));
    PressOrder(f);
  }

  /** Three groups flatten to their concatenation. */
  lemma FlattenThree<T>(a: seq<T>, g: seq<T>, h: seq<T>)
    ensures Flatten([a, g, h]) == a + g + h
  {
    var groups := [a, g, h];
    FlattenStep(groups, 0);
    FlattenStep(groups, 1);
    FlattenStep(groups, 2);
    assert groups[..0] == [] && groups[..3] == groups;
  }
}
