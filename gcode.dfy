/**
 * The toolpath as a sequence of commands of the RS274/NGC dialect the stamper
 * understands: G0 rapid moves and G90 absolute mode (section 3.5 of NIST
 * RS274NGC version 3), M0 pause, M2 program end and M5 spindle stop
 * (section 3.6), and parenthesised comments. Number formatting is not
 * modelled: a command carries its millimetre values as reals.
 */
module GCode {
  import opened Wrappers

  /** The name printed after "Layer:" when a tool is installed. */
  datatype Layer = Glyph(symbol: char) | Direction(number: int)

  /** The text of a parenthesised comment line. */
  datatype Note =
    | Generated(generator: string)   // the creation time is not modelled
    | TargetMachine                  // ArtFrame 2436
    | Margins(left: real, right: real, top: real, bottom: real)
    | PaperDimensions(width: real, height: real)
    | InstallHeight(height: real)
    | Scaling(factor: real)
    | XYOffsets(x: real, y: real)
    | Rotation(degrees: real)
    | AccelX(rate: real)
    | AccelY(rate: real)
    | InstallTool(index: int, layer: Layer)
    | Clear
    | Ink
    | Stamp
    | End

  datatype Cmd =
    | Comment(note: Note)
    | Absolute                  // G90
    | MoveZ(z: real)            // G0 Z<z>
    | MoveXY(x: real, y: real)  // G0 X<x> Y<y>
    | Pause                     // M0
    | SpindleOff                // M5
    | ProgramEnd                // M2

  /** The three head heights: travel, press and ink contact. */
  datatype Heights = Heights(up: real, down: real, ink: real)

  /** The file header every script writes: ten comment lines, then G90. */
  function Header(width: real, height: real, generator: string): seq<Cmd>
  {
    [ Comment(Generated(generator)),
      Comment(TargetMachine),
      Comment(Margins(0.0, 0.0, 0.0, 0.0)),
      Comment(PaperDimensions(width, height)),
      Comment(InstallHeight(5.5)),
      Comment(Scaling(1.0)),
      Comment(XYOffsets(0.0, 0.0)),
      Comment(Rotation(180.0)),
      Comment(AccelX(3000.0)),
      Comment(AccelY(3000.0)),
      Absolute ]
  }

  /** Tool change: lift, announce the tool, park at the origin, lift, wait for the operator. */
  function ToolChange(h: Heights, index: int, layer: Layer): seq<Cmd>
  {
    [MoveZ(h.up), Comment(InstallTool(index, layer)), MoveXY(0.0, 0.0), MoveZ(h.up), Pause, Comment(Clear)]
  }

  /** Ink dip at (x, y) on the pad. */
  function InkDip(h: Heights, x: real, y: real): seq<Cmd>
  {
    [Comment(Ink), MoveZ(h.up), MoveXY(x, y), MoveZ(h.ink), MoveZ(h.up)]
  }

  /** Press of the installed stamp at (x, y). */
  function Press(h: Heights, x: real, y: real): seq<Cmd>
  {
    [Comment(Stamp), MoveZ(h.up), MoveXY(x, y), MoveZ(h.down), MoveZ(h.up)]
  }

  /** Program end: lift, return to the origin, spindle off, end. */
  function Finish(h: Heights): seq<Cmd>
  {
    [Comment(End), MoveZ(h.up), MoveXY(0.0, 0.0), SpindleOff, ProgramEnd]
  }

  /** The height of the most recent Z move of a program, if it has one. */
  function LastZ(p: seq<Cmd>): Option<real>
  {
    if |p| == 0 then None
    else if p[|p| - 1].MoveZ? then Some(p[|p| - 1].z)
    else LastZ(p[..|p| - 1])
  }

  /** The head never travels in X/Y unless its last Z move went to the travel height. */
  predicate SafeTravel(p: seq<Cmd>, up: real)
  {
    forall i :: 0 <= i < |p| && p[i].MoveXY? ==> LastZ(p[..i]) == Some(up)
  }

  lemma {:induction false} LastZAppend(a: seq<Cmd>, c: seq<Cmd>)
    requires LastZ(c).Some?
    ensures LastZ(a + c) == LastZ(c)
  {
    if c[|c| - 1].MoveZ? {
      assert (a + c)[|a + c| - 1] == c[|c| - 1];
    } else {
      assert (a + c)[..|a + c| - 1] == a + c[..|c| - 1];
      LastZAppend(a, c[..|c| - 1]);
    }
  }

  /** Safe programs stay safe when concatenated: each XY move of the second
      part has its lifting Z move inside that part. */
  lemma SafeAppend(a: seq<Cmd>, b: seq<Cmd>, up: real)
    requires SafeTravel(a, up) && SafeTravel(b, up)
    ensures SafeTravel(a + b, up)
  {
    forall i | 0 <= i < |a + b| && (a + b)[i].MoveXY?
      ensures LastZ((a + b)[..i]) == Some(up)
    {
      if i < |a| {
        assert (a + b)[..i] == a[..i];
      } else {
        assert b[i - |a|].MoveXY?;
        assert (a + b)[..i] == a + b[..i - |a|];
        LastZAppend(a, b[..i - |a|]);
      }
    }
  }

  /** Every block is safe on its own and leaves the head at the travel height. */
  lemma BlocksSafe(h: Heights, index: int, layer: Layer, x: real, y: real)
    ensures SafeTravel(ToolChange(h, index, layer), h.up) && LastZ(ToolChange(h, index, layer)) == Some(h.up)
    ensures SafeTravel(InkDip(h, x, y), h.up) && LastZ(InkDip(h, x, y)) == Some(h.up)
    ensures SafeTravel(Press(h, x, y), h.up) && LastZ(Press(h, x, y)) == Some(h.up)
    ensures SafeTravel(Finish(h), h.up) && LastZ(Finish(h)) == Some(h.up)
  {
    var t := ToolChange(h, index, layer);
    assert LastZ(t[..1]) == Some(h.up);
    assert t[..2] == t[..1] + [t[1]];
    assert LastZ(t[..2]) == Some(h.up);
    assert t[..4] == t[..2] + [t[2], t[3]];
    assert LastZ(t[..4]) == Some(h.up);
    assert t[..5] == t[..4] + [t[4]];
    assert t[..6] == t[..4] + [t[4], t[5]];
    assert t[..6] == t;
    var k := InkDip(h, x, y);
    assert LastZ(k[..2]) == Some(h.up);
    assert k[..5] == k;
    var s := Press(h, x, y);
    assert LastZ(s[..2]) == Some(h.up);
    assert s[..5] == s;
    var f := Finish(h);
    assert LastZ(f[..2]) == Some(h.up);
    assert f[..3] == f[..2] + [f[2]];
    assert f[..4] == f[..2] + [f[2], f[3]];
    assert f[..3][..2] == f[..2] && f[..4][..3] == f[..3] && f[..5][..4] == f[..4];
    assert LastZ(f[..3]) == Some(h.up);
    assert LastZ(f[..4]) == Some(h.up);
    assert f[..5] == f;
  }

  /** Appending a safe block that ends lifted keeps a program safe and lifted. */
  lemma AppendBlock(p: seq<Cmd>, b: seq<Cmd>, up: real)
    requires SafeTravel(b, up) && LastZ(b) == Some(up)
    ensures SafeTravel(p, up) ==> SafeTravel(p + b, up)
    ensures LastZ(p + b) == Some(up)
  {
    LastZAppend(p, b);
    if SafeTravel(p, up) { SafeAppend(p, b, up); }
  }

  lemma HeaderSafe(width: real, height: real, generator: string, up: real)
    ensures SafeTravel(Header(width, height, generator), up)
  {
  }

  datatype PaperSize = PaperSize(width: real, height: real)

  /**
   * The module-level state of letterpress/gcode.js: the three head heights and
   * the axis-swap flag, changed only by their setters, and the block builders
   * that read them. Each builder returns its input unchanged followed by one block.
   */
  class Settings {
    var stampUpHeight: real
    var stampDownHeight: real
    var stampInkHeight: real
    var flipXY: bool

    constructor ()
      ensures stampUpHeight == 60.0 && stampDownHeight == 35.0 && stampInkHeight == 49.0 && !flipXY
    {
      stampUpHeight := 60.0;
      stampDownHeight := 35.0;
      stampInkHeight := 49.0;
      flipXY := false;
    }

    method SetStampUpHeight(height: real)
      modifies this`stampUpHeight
      ensures stampUpHeight == height
    {
      stampUpHeight := height;
    }

    method SetStampDownHeight(height: real)
      modifies this`stampDownHeight
      ensures stampDownHeight == height
    {
      stampDownHeight := height;
    }

    method SetStampInkHeight(height: real)
      modifies this`stampInkHeight
      ensures stampInkHeight == height
    {
      stampInkHeight := height;
    }

    method SetFlipXY(flip: bool)
      modifies this`flipXY
      ensures flipXY == flip
    {
      flipXY := flip;
    }

    function Current(): Heights
      reads this
    {
      Heights(stampUpHeight, stampDownHeight, stampInkHeight)
    }

    /** A fresh header; the incoming program is discarded. With the axes
        swapped the paper comment gives height before width. */
    function Start(paper: PaperSize, gcode: seq<Cmd>): (r: seq<Cmd>)
      reads this
      ensures |r| == 11 && r[10] == Absolute
      ensures forall i :: 0 <= i < 10 ==> r[i].Comment?
      ensures r[3] == Comment(PaperDimensions(if flipXY then paper.height else paper.width,
                                              if flipXY then paper.width else paper.height))
      ensures SafeTravel(r, stampUpHeight)
    {
      HeaderSafe(if flipXY then paper.height else paper.width, if flipXY then paper.width else paper.height, "love", stampUpHeight);
      Header(if flipXY then paper.height else paper.width, if flipXY then paper.width else paper.height, "love")
    }

    function InstallTool(index: int, name: Layer, gcode: seq<Cmd>): (r: seq<Cmd>)
      reads this
      ensures |r| == |gcode| + 6 && r[..|gcode|] == gcode
      ensures r[|gcode|..] == [MoveZ(stampUpHeight), Comment(Note.InstallTool(index, name)), MoveXY(0.0, 0.0),
                               MoveZ(stampUpHeight), Pause, Comment(Clear)]
      ensures SafeTravel(gcode, stampUpHeight) ==> SafeTravel(r, stampUpHeight)
      ensures LastZ(r) == Some(stampUpHeight)
    {
      var b := ToolChange(Current(), index, name);
      BlocksSafe(Current(), index, name, 0.0, 0.0);
      AppendBlock(gcode, b, stampUpHeight);
      assert (gcode + b)[|gcode|..] == b;
      gcode + b
    }

    function Ink(x: real, y: real, gcode: seq<Cmd>): (r: seq<Cmd>)
      reads this
      ensures |r| == |gcode| + 5 && r[..|gcode|] == gcode
      ensures r[|gcode|..] == [Comment(Note.Ink), MoveZ(stampUpHeight), MoveXY(x, y), MoveZ(stampInkHeight), MoveZ(stampUpHeight)]
      ensures SafeTravel(gcode, stampUpHeight) ==> SafeTravel(r, stampUpHeight)
      ensures LastZ(r) == Some(stampUpHeight)
    {
      var b := InkDip(Current(), x, y);
      BlocksSafe(Current(), 0, Glyph(' '), x, y);
      AppendBlock(gcode, b, stampUpHeight);
      assert (gcode + b)[|gcode|..] == b;
      gcode + b
    }

    function Stamp(x: real, y: real, gcode: seq<Cmd>): (r: seq<Cmd>)
      reads this
      ensures |r| == |gcode| + 5 && r[..|gcode|] == gcode
      ensures r[|gcode|..] == [Comment(Note.Stamp), MoveZ(stampUpHeight), MoveXY(x, y), MoveZ(stampDownHeight), MoveZ(stampUpHeight)]
      ensures SafeTravel(gcode, stampUpHeight) ==> SafeTravel(r, stampUpHeight)
      ensures LastZ(r) == Some(stampUpHeight)
    {
      var b := Press(Current(), x, y);
      BlocksSafe(Current(), 0, Glyph(' '), x, y);
      AppendBlock(gcode, b, stampUpHeight);
      assert (gcode + b)[|gcode|..] == b;
      gcode + b
    }

    function End(gcode: seq<Cmd>): (r: seq<Cmd>)
      reads this
      ensures |r| == |gcode| + 5 && r[..|gcode|] == gcode
      ensures r[|gcode|..] == [Comment(Note.End), MoveZ(stampUpHeight), MoveXY(0.0, 0.0), SpindleOff, ProgramEnd]
      ensures SafeTravel(gcode, stampUpHeight) ==> SafeTravel(r, stampUpHeight)
      ensures r[|r| - 1] == ProgramEnd
    {
      var b := Finish(Current());
      BlocksSafe(Current(), 0, Glyph(' '), 0.0, 0.0);
      AppendBlock(gcode, b, stampUpHeight);
      assert (gcode + b)[|gcode|..] == b;
      gcode + b
    }
  }
}
