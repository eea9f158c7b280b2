/**
 * The passes of letterpress/index.js that run after packing: the row widths,
 * the horizontal alignment (left, right, center or justified) and the
 * vertical placement (top, bottom, middle or fill), each done in place on the
 * rows. A division by zero that the script turns into NaN positions (a
 * justified row of one glyph, a filled page of one row) is an error here.
 */
module LetterpressLayout {
  import opened Wrappers
  import opened LetterpressText

  /** config.hAlign; any value other than the three named ones leaves the rows alone. */
  datatype HAlign = Left | Right | Center | Justified

  /** config.vAlign; any value other than the three named ones places the rows from the top border. */
  datatype VAlign = Top | Bottom | Middle | Fill

  /** config.width, config.height and config.border, in millimetres. */
  datatype Page = Page(width: real, height: real, top: real, bottom: real, left: real, right: real)

  /** The two divisions by zero of the script. */
  datatype LayoutError = SingleGlyphJustified | SingleRowFill

  /** A glyph with its final position. */
  datatype Piece = Piece(letter: char, x: real, y: real)

  /** The packer's frame on this page: rows start at border.left and end at width - border.right. */
  function TextFrame(font: Font, p: Page): Frame
  {
    Frame(font, p.left, p.width - p.right)
  }

  // ---------------------------------------------------------------- horizontal

  /** rowWidths: the summed glyph widths of a row. */
  function RowWidth(row: seq<Entry>, font: Font): real
  {
    Width(Letters(row), font)
  }

  function Usable(p: Page): real
  {
    p.width - (p.left + p.right)
  }

  /** The room a row leaves between the borders. */
  function Free(row: seq<Entry>, font: Font, p: Page): real
  {
    Usable(p) - RowWidth(row, font)
  }

  /** Every letter moved right by d. */
  function Moved(row: seq<Entry>, d: real): (r: seq<Entry>)
    ensures |r| == |row| && forall k :: 0 <= k < |row| ==> r[k] == Entry(row[k].letter, row[k].x + d)
  {
    seq(|row|, k requires 0 <= k < |row| => Entry(row[k].letter, row[k].x + d))
  }

  /** Letter k moved right by k * d. */
  function Spread(row: seq<Entry>, d: real): (r: seq<Entry>)
    ensures |r| == |row| && forall k :: 0 <= k < |row| ==> r[k] == Entry(row[k].letter, row[k].x + (k as real) * d)
  {
    seq(|row|, k requires 0 <= k < |row| => Entry(row[k].letter, row[k].x + (k as real) * d))
  }

  /** One row after the hAlign pass. */
  function AlignRow(row: seq<Entry>, font: Font, p: Page, h: HAlign): Result<seq<Entry>, LayoutError>
  {
    match h
    case Left => Ok(row)
    case Right => Ok(Moved(row, Free(row, font, p)))
    case Center => Ok(Moved(row, Free(row, font, p) / 2.0))
    case Justified =>
      if |row| == 1 then Err(SingleGlyphJustified)
      else Ok(Spread(row, Free(row, font, p) / ((|row| - 1) as real)))
  }

  /** All rows after the hAlign pass; one failing row spoils the page. */
  function AlignRows(rows: seq<seq<Entry>>, font: Font, p: Page, h: HAlign): Result<seq<seq<Entry>>, LayoutError>
  {
    if |rows| == 0 then Ok([])
    else
      match AlignRows(rows[..|rows| - 1], font, p, h)
      case Err(e) => Err(e)
      case Ok(done) =>
        match AlignRow(rows[|rows| - 1], font, p, h)
        case Err(e) => Err(e)
        case Ok(r) => Ok(done + [r])
  }

  lemma {:induction false} AlignPrefixErr(rows: seq<seq<Entry>>, j: nat, font: Font, p: Page, h: HAlign, e: LayoutError)
    requires j <= |rows| && AlignRows(rows[..j], font, p, h) == Err(e)
    ensures AlignRows(rows, font, p, h) == Err(e)
    decreases |rows|
  {
    if j < |rows| {
      var n := |rows| - 1;
      assert rows[..n][..j] == rows[..j];
      AlignPrefixErr(rows[..n], j, font, p, h, e);
    } else {
      assert rows[..j] == rows;
    }
  }

  /** The pass fails exactly when justifying a page that has a one-glyph row;
      otherwise every row is aligned on its own. */
  lemma {:induction false} AlignRowsResult(rows: seq<seq<Entry>>, font: Font, p: Page, h: HAlign)
    ensures AlignRows(rows, font, p, h).Err? <==> h == Justified && exists i :: 0 <= i < |rows| && |rows[i]| == 1
    ensures AlignRows(rows, font, p, h).Ok? ==>
      var out := AlignRows(rows, font, p, h).value;
      |out| == |rows| && forall i :: 0 <= i < |rows| ==> AlignRow(rows[i], font, p, h) == Ok(out[i])
  {
    if |rows| > 0 {
      var n := |rows| - 1;
      AlignRowsResult(rows[..n], font, p, h);
      if h == Justified && exists i :: 0 <= i < |rows| && |rows[i]| == 1 {
        var i :| 0 <= i < |rows| && |rows[i]| == 1;
        if i < n {
          assert rows[..n][i] == rows[i];
        }
      }
      if AlignRows(rows, font, p, h).Ok? {
        var out := AlignRows(rows, font, p, h).value;
        var done := AlignRows(rows[..n], font, p, h).value;
        assert out == done + [AlignRow(rows[n], font, p, h).value];
        forall i | 0 <= i < |rows| ensures AlignRow(rows[i], font, p, h) == Ok(out[i]) {
          if i < n {
            assert rows[..n][i] == rows[i];
          }
        }
      }
    }
  }

  method ShiftRow(row0: seq<Entry>, d: real, perIndex: bool) returns (row: seq<Entry>)
    ensures row == if perIndex then Spread(row0, d) else Moved(row0, d)
  {
    row := row0;
    var k := 0;
    while k < |row|
      invariant k <= |row| == |row0|
      invariant forall j :: 0 <= j < k ==> row[j] == Entry(row0[j].letter, row0[j].x + (if perIndex then (j as real) * d else d))
      invariant forall j :: k <= j < |row| ==> row[j] == row0[j]
    {
      row := row[k := Entry(row[k].letter, row[k].x + (if perIndex then (k as real) * d else d))];
      k := k + 1;
    }
  }

  /** One row of the hAlign pass: its spaceWidth from its width, then every letter moved. */
  method AlignOne(row: seq<Entry>, font: Font, p: Page, h: HAlign) returns (r: Result<seq<Entry>, LayoutError>)
    ensures r == AlignRow(row, font, p, h)
  {
    var rowWidth := Width(Letters(row), font);
    match h {
      case Left =>
        r := Ok(row);
      case Right =>
        var spaceWidth := p.width - (p.left + p.right) - rowWidth;
        var shifted := ShiftRow(row, spaceWidth, false);
        r := Ok(shifted);
      case Center =>
        var spaceWidth := (p.width - (p.left + p.right) - rowWidth) / 2.0;
        var shifted := ShiftRow(row, spaceWidth, false);
        r := Ok(shifted);
      case Justified =>
        if |row| == 1 {
          return Err(SingleGlyphJustified);
        }
        var spaceWidth := (p.width - (p.left + p.right) - rowWidth) / ((|row| - 1) as real);
        var shifted := ShiftRow(row, spaceWidth, true);
        r := Ok(shifted);
    }
  }

  lemma AlignSnoc(rows: seq<seq<Entry>>, i: nat, font: Font, p: Page, h: HAlign, done: seq<seq<Entry>>, row: seq<Entry>)
    requires i < |rows| && AlignRows(rows[..i], font, p, h) == Ok(done) && AlignRow(rows[i], font, p, h) == Ok(row)
    ensures AlignRows(rows[..i + 1], font, p, h) == Ok(done + [row])
  {
    assert rows[..i + 1][..i] == rows[..i];
  }

  /** The hAlign pass over all rows, each row updated in place. */
  method AlignAll(rows0: seq<seq<Entry>>, font: Font, p: Page, h: HAlign) returns (r: Result<seq<seq<Entry>>, LayoutError>)
    ensures r == AlignRows(rows0, font, p, h)
  {
    var rows := rows0;
    var i := 0;
    while i < |rows|
      invariant i <= |rows| == |rows0|
      invariant AlignRows(rows0[..i], font, p, h) == Ok(rows[..i])
      invariant forall j :: i <= j < |rows| ==> rows[j] == rows0[j]
    {
      var one := AlignOne(rows[i], font, p, h);
      if one.Err? {
        assert rows0[..i + 1][..i] == rows0[..i];
        AlignPrefixErr(rows0, i + 1, font, p, h, one.error);
        return Err(one.error);
      }
      ghost var done := rows[..i];
      AlignSnoc(rows0, i, font, p, h, done, one.value);
      rows := rows[i := one.value];
      assert rows[..i + 1] == done + [one.value];
      i := i + 1;
    }
    assert rows0[..i] == rows0 && rows[..i] == rows;
    r := Ok(rows);
  }

  // ---------------------------------------------------------------- what the alignments promise

  lemma {:induction false} LettersAt(row: seq<Entry>)
    ensures forall k :: 0 <= k < |row| ==> Letters(row)[k] == row[k].letter
  {
    if |row| > 0 {
      LettersAt(row[1..]);
      forall k | 0 < k < |row| ensures Letters(row)[k] == row[k].letter {
        assert row[1..][k - 1] == row[k];
      }
    }
  }

  /** Rows with the same letters in the same order have the same Letters. */
  lemma SameLetters(a: seq<Entry>, b: seq<Entry>)
    requires |a| == |b| && forall k :: 0 <= k < |a| ==> a[k].letter == b[k].letter
    ensures Letters(a) == Letters(b)
  {
    LettersAt(a);
    LettersAt(b);
  }

  lemma {:induction false} WidthCons(c: char, s: string, font: Font)
    ensures Width([c] + s, font) == Advance(font, c) + Width(s, font)
  {
    assert ([c] + s)[1..] == s;
  }

  /** An abutting row ends its width after its first glyph's left edge. */
  lemma {:induction false} AbutEnd(row: seq<Entry>, start: real, font: Font)
    requires Abutting(row, font) && |row| > 0
    ensures RowEnd(row, start, font) == row[0].x + RowWidth(row, font)
  {
    WidthCons(row[0].letter, Letters(row[1..]), font);
    assert Letters(row) == [row[0].letter] + Letters(row[1..]);
    if |row| == 1 {
      assert Letters(row[1..]) == [];
    } else {
      var t := row[1..];
      assert Abutting(t, font) by {
        forall k | 0 <= k < |t| - 1 ensures t[k + 1].x == t[k].x + Advance(font, t[k].letter) {
          assert t[k + 1] == row[k + 2] && t[k] == row[k + 1];
        }
      }
      AbutEnd(t, start, font);
      assert t[|t| - 1] == row[|row| - 1];
      assert t[0].x == row[0].x + Advance(font, row[0].letter);
    }
  }

  /** Moving a row by d keeps it abutting, keeps its letters and moves its end by d. */
  lemma MovedKeeps(row: seq<Entry>, d: real, start: real, font: Font)
    requires Abutting(row, font)
    ensures Abutting(Moved(row, d), font)
    ensures Letters(Moved(row, d)) == Letters(row)
    ensures |row| > 0 ==> RowEnd(Moved(row, d), start, font) == RowEnd(row, start, font) + d
  {
    var r := Moved(row, d);
    SameLetters(r, row);
    forall k | 0 <= k < |r| - 1 ensures r[k + 1].x == r[k].x + Advance(font, r[k].letter) {
      assert r[k + 1] == Entry(row[k + 1].letter, row[k + 1].x + d);
      assert r[k] == Entry(row[k].letter, row[k].x + d);
    }
  }

  /** Aligning never changes which letters a row holds, nor their order. */
  lemma AlignKeepsLetters(row: seq<Entry>, font: Font, p: Page, h: HAlign)
    requires AlignRow(row, font, p, h).Ok?
    ensures Letters(AlignRow(row, font, p, h).value) == Letters(row)
  {
    var r := AlignRow(row, font, p, h).value;
    assert |r| == |row| && forall k :: 0 <= k < |r| ==> r[k].letter == row[k].letter;
    SameLetters(r, row);
  }

  /** right: the last glyph's right edge lands on width - border.right. */
  lemma RightFlush(row: seq<Entry>, font: Font, p: Page)
    requires Abutting(row, font) && |row| > 0 && row[0].x == p.left
    ensures AlignRow(row, font, p, Right).Ok?
    ensures var r := AlignRow(row, font, p, Right).value;
      Abutting(r, font) && RowEnd(r, p.left, font) == p.width - p.right
  {
    AbutEnd(row, p.left, font);
    MovedKeeps(row, Free(row, font, p), p.left, font);
  }

  /** center: the gap before the first glyph equals the gap after the last. */
  lemma CenterGaps(row: seq<Entry>, font: Font, p: Page)
    requires Abutting(row, font) && |row| > 0 && row[0].x == p.left
    ensures AlignRow(row, font, p, Center).Ok?
    ensures var r := AlignRow(row, font, p, Center).value;
      Abutting(r, font) && r[0].x - p.left == (p.width - p.right) - RowEnd(r, p.left, font)
  {
    AbutEnd(row, p.left, font);
    MovedKeeps(row, Free(row, font, p) / 2.0, p.left, font);
  }

  lemma MulDiv(a: real, b: real)
    requires b != 0.0
    ensures b * (a / b) == a
  {
  }

  /** Spreading an abutting row by d widens each gap by d and moves the last glyph by (n - 1) * d. */
  lemma SpreadGaps(row: seq<Entry>, d: real, font: Font)
    requires Abutting(row, font) && |row| > 0
    ensures var r := Spread(row, d);
      && r[0].x == row[0].x
      && r[|r| - 1].x == row[|row| - 1].x + ((|row| - 1) as real) * d
      && forall k :: 0 <= k < |r| - 1 ==> r[k + 1].x - (r[k].x + Advance(font, r[k].letter)) == d
  {
    var r := Spread(row, d);
    forall k | 0 <= k < |r| - 1
      ensures r[k + 1].x - (r[k].x + Advance(font, r[k].letter)) == d
    {
      var adv := Advance(font, row[k].letter);
      assert row[k + 1].x == row[k].x + adv;
      GapStep(row[k].x, adv, k as real, d);
    }
  }

  /** Neighbours moved by a * d and (a + 1) * d: the gap grows by d. */
  lemma GapStep(x: real, adv: real, a: real, d: real)
    ensures (x + adv + (a + 1.0) * d) - (x + a * d + adv) == d
  {
    assert (a + 1.0) * d == a * d + d;
  }

  /** justified: the first glyph stays on the left border, the last glyph's
      right edge reaches the right border, and every gap between neighbours
      grows by the same amount. */
  lemma JustifiedEnds(row: seq<Entry>, font: Font, p: Page)
    requires Abutting(row, font) && |row| >= 2 && row[0].x == p.left
    ensures AlignRow(row, font, p, Justified).Ok?
    ensures var r := AlignRow(row, font, p, Justified).value;
      && r[0].x == p.left
      && RowEnd(r, p.left, font) == p.width - p.right
      && forall k :: 0 <= k < |r| - 1 ==>
           r[k + 1].x - (r[k].x + Advance(font, r[k].letter)) == Free(row, font, p) / ((|row| - 1) as real)
  {
    var m := (|row| - 1) as real;
    var free := Free(row, font, p);
    var d := free / m;
    SpreadGaps(row, d, font);
    AbutEnd(row, p.left, font);
    MulDiv(free, m);
    var r := Spread(row, d);
    assert r[|r| - 1].letter == row[|row| - 1].letter;
    assert RowEnd(r, p.left, font) == RowEnd(row, p.left, font) + m * d;
  }

  // ---------------------------------------------------------------- vertical

  /** bottomDiff: the room between the bottom of the last row's glyphs and the bottom border. */
  function BottomDiff(p: Page, font: Font, lh: real, n: nat): real
  {
    (p.height - p.bottom) - (p.top + (n as real) * font.height * lh) + font.height * (lh - 1.0)
  }

  /** yShift for a page of n rows. For fill with a single row the script divides
      by zero; that row must then be empty (see Stacked), so the 0.0 here is never
      given to a letter. */
  function YShift(p: Page, font: Font, lh: real, v: VAlign, n: nat): real
  {
    var d := BottomDiff(p, font, lh, n);
    match v
    case Top => 0.0
    case Bottom => d
    case Middle => d / 2.0
    case Fill => if n == 1 then 0.0 else d / ((n - 1) as real)
  }

  /** The y of the letters of row r out of n: one shift for every row, or for
      fill the shift once per row above. */
  function RowY(p: Page, font: Font, lh: real, v: VAlign, n: nat, r: nat): real
  {
    var base := p.top + (r as real) * font.height * lh;
    if v == Fill then base + YShift(p, font, lh, v, n) * (r as real) else base + YShift(p, font, lh, v, n)
  }

  /** A row's letters at height y. */
  function AtHeight(row: seq<Entry>, y: real): (r: seq<Piece>)
    ensures |r| == |row| && forall k :: 0 <= k < |row| ==> r[k] == Piece(row[k].letter, row[k].x, y)
  {
    seq(|row|, k requires 0 <= k < |row| => Piece(row[k].letter, row[k].x, y))
  }

  /** The rows after the vAlign pass. */
  function Stacked(rows: seq<seq<Entry>>, font: Font, p: Page, lh: real, v: VAlign): Result<seq<seq<Piece>>, LayoutError>
  {
    if v == Fill && |rows| == 1 && |rows[0]| > 0 then Err(SingleRowFill)
    else Ok(seq(|rows|, r requires 0 <= r < |rows| => AtHeight(rows[r], RowY(p, font, lh, v, |rows|, r))))
  }

  /** row.forEach(letter => letter.y = y) */
  method SetHeight(row: seq<Entry>, y: real) returns (placed: seq<Piece>)
    ensures placed == AtHeight(row, y)
  {
    placed := [];
    var k := 0;
    while k < |row|
      invariant k <= |row| && |placed| == k
      invariant forall j :: 0 <= j < k ==> placed[j] == Piece(row[j].letter, row[j].x, y)
    {
      placed := placed + [Piece(row[k].letter, row[k].x, y)];
      k := k + 1;
    }
  }

  /** bottomDiff and yShift, worked out once for the page. */
  method ComputeShift(n: nat, font: Font, p: Page, lh: real, v: VAlign) returns (yShift: real)
    ensures yShift == YShift(p, font, lh, v, n)
  {
    var startY := p.top;
    var totalHeight := (n as real) * font.height * lh;
    var endY := startY + totalHeight;
    var bottomBorder := p.height - p.bottom;
    var bottomDiff := bottomBorder - endY + font.height * (lh - 1.0);
    yShift := 0.0;
    if v == Bottom {
      yShift := bottomDiff;
    }
    if v == Middle {
      yShift := bottomDiff / 2.0;
    }
    if v == Fill && n != 1 {
      yShift := bottomDiff / ((n - 1) as real);
    }
  }

  /** Every row's letters set to the row's y: the shift once per row above for fill, once otherwise. */
  method PlaceRows(rows: seq<seq<Entry>>, font: Font, p: Page, lh: real, v: VAlign, yShift: real)
    returns (out: seq<seq<Piece>>)
    requires yShift == YShift(p, font, lh, v, |rows|)
    ensures |out| == |rows| && forall j :: 0 <= j < |rows| ==> out[j] == AtHeight(rows[j], RowY(p, font, lh, v, |rows|, j))
  {
    var startY := p.top;
    out := [];
    var rowIndex := 0;
    if v == Fill {
      while rowIndex < |rows|
        invariant rowIndex <= |rows| && |out| == rowIndex
        invariant forall j :: 0 <= j < rowIndex ==> out[j] == AtHeight(rows[j], RowY(p, font, lh, v, |rows|, j))
      {
        var y := startY + (rowIndex as real) * font.height * lh + yShift * (rowIndex as real);
        assert y == RowY(p, font, lh, v, |rows|, rowIndex);
        var placed := SetHeight(rows[rowIndex], y);
        out := out + [placed];
        rowIndex := rowIndex + 1;
      }
    } else {
      while rowIndex < |rows|
        invariant rowIndex <= |rows| && |out| == rowIndex
        invariant forall j :: 0 <= j < rowIndex ==> out[j] == AtHeight(rows[j], RowY(p, font, lh, v, |rows|, j))
      {
        var y := startY + (rowIndex as real) * font.height * lh + yShift;
        assert y == RowY(p, font, lh, v, |rows|, rowIndex);
        var placed := SetHeight(rows[rowIndex], y);
        out := out + [placed];
        rowIndex := rowIndex + 1;
      }
    }
  }

  /** The vAlign pass: the shift once, then every letter's y set in place. */
  method StackAll(rows: seq<seq<Entry>>, font: Font, p: Page, lh: real, v: VAlign)
    returns (r: Result<seq<seq<Piece>>, LayoutError>)
    ensures r == Stacked(rows, font, p, lh, v)
  {
    if v == Fill && |rows| == 1 && |rows[0]| > 0 {
      return Err(SingleRowFill);
    }
    var yShift := ComputeShift(|rows|, font, p, lh, v);
    var out := PlaceRows(rows, font, p, lh, v, yShift);
    ghost var want := seq(|rows|, j requires 0 <= j < |rows| => AtHeight(rows[j], RowY(p, font, lh, v, |rows|, j)));
    assert out == want;
    r := Ok(out);
  }

  // ---------------------------------------------------------------- what the placements promise

  /** The pass fails exactly for fill on a page of one non-empty row, and otherwise
      keeps every letter and its x, giving row r the height RowY. */
  lemma StackedResult(rows: seq<seq<Entry>>, font: Font, p: Page, lh: real, v: VAlign)
    ensures Stacked(rows, font, p, lh, v).Err? <==> v == Fill && |rows| == 1 && |rows[0]| > 0
    ensures Stacked(rows, font, p, lh, v).Ok? ==>
      var out := Stacked(rows, font, p, lh, v).value;
      |out| == |rows| &&
      forall r, k :: 0 <= r < |rows| && 0 <= k < |rows[r]| ==>
        |out[r]| == |rows[r]| && out[r][k] == Piece(rows[r][k].letter, rows[r][k].x, RowY(p, font, lh, v, |rows|, r))
  {
  }

  /** Row r + 1 sits one line pitch (font height times lineHeight) below row r,
      fill adding the same share of bottomDiff between every pair. */
  lemma RowPitch(p: Page, font: Font, lh: real, v: VAlign, n: nat, r: nat)
    ensures RowY(p, font, lh, v, n, r + 1) - RowY(p, font, lh, v, n, r)
         == font.height * lh + (if v == Fill then YShift(p, font, lh, v, n) else 0.0)
  {
    var a := r as real;
    assert (a + 1.0) * font.height * lh == a * font.height * lh + font.height * lh;
    if v == Fill {
      var s := YShift(p, font, lh, v, n);
      assert s * (a + 1.0) == s * a + s;
    }
  }

  /** top: the first row starts on the top border. */
  lemma TopStart(p: Page, font: Font, lh: real, n: nat)
    ensures RowY(p, font, lh, Top, n, 0) == p.top
  {
  }

  lemma LastRowBase(p: Page, font: Font, lh: real, n: nat)
    requires n >= 1
    ensures p.top + ((n - 1) as real) * font.height * lh + font.height + BottomDiff(p, font, lh, n) == p.height - p.bottom
  {
    var a := (n - 1) as real;
    assert (n as real) == a + 1.0;
    assert (a + 1.0) * font.height * lh == a * font.height * lh + font.height * lh;
  }

  /** bottom: the last row's glyphs end on the bottom border. */
  lemma BottomFlush(p: Page, font: Font, lh: real, n: nat)
    requires n >= 1
    ensures RowY(p, font, lh, Bottom, n, n - 1) + font.height == p.height - p.bottom
  {
    LastRowBase(p, font, lh, n);
  }

  /** fill: the first row on the top border and the last row's glyphs on the bottom border. */
  lemma FillFlush(p: Page, font: Font, lh: real, n: nat)
    requires n >= 2
    ensures RowY(p, font, lh, Fill, n, 0) == p.top
    ensures RowY(p, font, lh, Fill, n, n - 1) + font.height == p.height - p.bottom
  {
    var d := BottomDiff(p, font, lh, n);
    var m := (n - 1) as real;
    MulDiv(d, m);
    LastRowBase(p, font, lh, n);
    assert YShift(p, font, lh, Fill, n) * m == d;
  }

  /** middle: the gap above the first row equals the gap below the last row's glyphs. */
  lemma MiddleGaps(p: Page, font: Font, lh: real, n: nat)
    requires n >= 1
    ensures RowY(p, font, lh, Middle, n, 0) - p.top
         == (p.height - p.bottom) - (RowY(p, font, lh, Middle, n, n - 1) + font.height)
  {
    LastRowBase(p, font, lh, n);
  }
}
