/**
 * Pieces every stamping script shares: the injected randomness (a Math.random
 * draw in [0, 1) and a sine step modifier in [1, 2]), points, the ink pad, the
 * jittered ink point, and the row arithmetic of the 10 mm scripts.
 */
module Stamping {
  /** One value of Math.random(). */
  type Draw = r: real | 0.0 <= r < 1.0

  /** waveOne + waveTwo + 1, each wave being (sin(..) + 1) / 4. */
  type StepMod = s: real | 1.0 <= s <= 2.0 witness 1.0

  datatype Point = Point(x: real, y: real)

  /** A rectangle on the machine bed, y growing upwards (top > bottom). */
  datatype Rect = Rect(left: real, right: real, top: real, bottom: real)

  /** A toggle that starts true and flips once per step is true exactly on
      the even counts. */
  lemma ParityFlip(m: nat)
    ensures ((m + 1) % 2 == 0) == !(m % 2 == 0)
  {
  }

  /** The ink pad shrunk inwards by `margin` on every side (inkPosition.inkRange). */
  function Shrink(pad: Rect, margin: real): Rect
  {
    Rect(pad.left + margin, pad.right - margin, pad.top - margin, pad.bottom + margin)
  }

  /** lo + r * (hi - lo): the uniform jitter between two bounds. */
  function Between(lo: real, hi: real, r: Draw): (v: real)
    ensures lo <= hi ==> lo <= v <= hi
    ensures lo < hi ==> v < hi
    ensures lo == hi ==> v == lo
  {
    var d := hi - lo;
    ScaledBelow(r, d);
    assert r * d <= d || d < 0.0;
    lo + r * d
  }

  lemma MulNonneg(a: real, b: real)
    requires a >= 0.0 && b >= 0.0
    ensures a * b >= 0.0
  {
  }

  lemma MulPos(a: real, b: real)
    requires a > 0.0 && b > 0.0
    ensures a * b > 0.0
  {
  }

  /** 0 <= r * d <= d, strictly below d when d > 0. */
  lemma ScaledBelow(r: Draw, d: real)
    ensures d >= 0.0 ==> 0.0 <= r * d <= d
    ensures d > 0.0 ==> r * d < d
  {
    if d >= 0.0 { MulNonneg(r, d); MulNonneg(1.0 - r, d); }
    if d > 0.0 { MulPos(1.0 - r, d); }
  }

  /** A jittered ink point inside `range`: left/right first, then bottom/top. */
  function InkPoint(range: Rect, rx: Draw, ry: Draw): (p: Point)
    ensures range.left < range.right ==> range.left <= p.x < range.right
    ensures range.bottom < range.top ==> range.bottom <= p.y < range.top
  {
    Point(Between(range.left, range.right, rx), Between(range.bottom, range.top, ry))
  }

  /** The 10 mm scripts' preview canvas is the paper scaled by 10; a glyph is
      drawn at position * scale + scale / 2, and lower by fontSize / 2.5
      (fontSize = 8 * scale). */
  const Scale: real := 10.0
  const FontSize: real := 8.0 * Scale

  /** The press point as those scripts compute it: the preview pixel as a
      fraction of the canvas, times the paper size; with flipXY the axes are
      swapped, otherwise y is flipped. */
  function CanvasPress(width: real, height: real, flipXY: bool, p: Point): Point
    requires width > 0.0 && height > 0.0
  {
    var px := p.x * Scale + Scale / 2.0;
    var py := p.y * Scale + Scale / 2.0 + FontSize / 2.5;
    var xPercent := px / (width * Scale);
    var yPercent := py / (height * Scale);
    if flipXY then Point(yPercent * height, xPercent * width)
    else Point(xPercent * width, height - yPercent * height)
  }

  /** Where a position is pressed: half a millimetre right of it and 3.7 mm
      below it, in paper coordinates. */
  function PressAt(height: real, flipXY: bool, p: Point): Point
  {
    if flipXY then Point(p.y + 3.7, p.x + 0.5) else Point(p.x + 0.5, height - (p.y + 3.7))
  }

  /** The canvas round trip is that fixed offset, whatever the paper size. */
  lemma CanvasRoundTrip(width: real, height: real, flipXY: bool, p: Point)
    requires width > 0.0 && height > 0.0
    ensures CanvasPress(width, height, flipXY, p) == PressAt(height, flipXY, p)
  {
    var px := p.x * Scale + Scale / 2.0;
    var py := p.y * Scale + Scale / 2.0 + FontSize / 2.5;
    assert px == 10.0 * (p.x + 0.5);
    assert py == 10.0 * (p.y + 3.7);
    assert px / (width * Scale) * width == p.x + 0.5;
    assert py / (height * Scale) * height == p.y + 3.7;
  }

  /** Math.floor(Math.random() * n): a uniform index below n. */
  function Pick(r: Draw, n: nat): (i: nat)
    requires n > 0
    ensures i < n
  {
    var v := r * n as real;
    assert 0.0 <= v < n as real;
    v.Floor
  }

  /** The draws left after the first n: the stream the next stage reads. */
  function After(rand: nat -> Draw, n: nat): nat -> Draw
  {
    k => rand(n + k)
  }

  /** rows = Math.floor((H - top - bottom) / lineHeight) of the 10 mm scripts. */
  function RowCount(height: real, top: real, bottom: real, lineHeight: real): int
    requires lineHeight > 0.0
  {
    ((height - top - bottom) / lineHeight).Floor
  }

  /** yOffset = (H - rows * lineHeight) / 2. */
  function YOffset(height: real, rows: int, lineHeight: real): real
  {
    (height - rows as real * lineHeight) / 2.0
  }

  /** The line loop `while (y < H - yOffset + lineHeight)`, stepping y by lineHeight
      from yOffset, runs exactly for k = 0 .. rows. */
  lemma LineLoopBound(height: real, rows: int, lineHeight: real, k: int)
    requires lineHeight > 0.0
    ensures (YOffset(height, rows, lineHeight) + k as real * lineHeight
             < height - YOffset(height, rows, lineHeight) + lineHeight) <==> k < rows + 1
  {
    var d := (k - rows - 1) as real;
    assert k as real * lineHeight - rows as real * lineHeight - lineHeight == d * lineHeight;
    if k < rows + 1 {
      MulPos(-d, lineHeight);
    } else {
      MulNonneg(d, lineHeight);
    }
  }

  /** The vertical geometry the 10 mm line loops read: paper height, top and
      bottom border, and the line pitch. */
  datatype Sheet = Sheet(height: real, top: real, bottom: real, lineHeight: real)

  /** rows = floor((H - top - bottom) / lineHeight). */
  function SheetRows(sh: Sheet): int
    requires sh.lineHeight > 0.0
  {
    RowCount(sh.height, sh.top, sh.bottom, sh.lineHeight)
  }

  /** The line loop runs rows + 1 times (none when that is not positive). */
  function LineCount(sh: Sheet): nat
    requires sh.lineHeight > 0.0
  {
    if SheetRows(sh) + 1 > 0 then SheetRows(sh) + 1 else 0
  }

  /** The y of line k: yOffset, stepped k times by lineHeight. */
  function LineY(sh: Sheet, k: nat): real
    requires sh.lineHeight > 0.0
  {
    if k == 0 then YOffset(sh.height, SheetRows(sh), sh.lineHeight) else LineY(sh, k - 1) + sh.lineHeight
  }

  /** Line k sits at yOffset + k * lineHeight. */
  lemma {:induction false} LineYAt(sh: Sheet, k: nat)
    requires sh.lineHeight > 0.0
    ensures LineY(sh, k) == YOffset(sh.height, SheetRows(sh), sh.lineHeight) + k as real * sh.lineHeight
  {
    if k > 0 {
      LineYAt(sh, k - 1);
      assert (k - 1) as real * sh.lineHeight + sh.lineHeight == k as real * sh.lineHeight;
    }
  }

  /** The loop test y < H - yOffset + lineHeight holds exactly on lines 0 .. rows. */
  lemma LineGuard(sh: Sheet, k: nat, y: real, limit: real)
    requires sh.lineHeight > 0.0 && y == LineY(sh, k)
    requires limit == sh.height - YOffset(sh.height, SheetRows(sh), sh.lineHeight) + sh.lineHeight
    ensures y < limit <==> k < LineCount(sh)
  {
    LineYAt(sh, k);
    LineLoopBound(sh.height, SheetRows(sh), sh.lineHeight, k);
  }
}
