/**
 * The output side of letterpress/index.js: every placed glyph becomes a stamp
 * at its centre (nudged per glyph), the stamps are grouped per letter in
 * first-seen order, and the G-code installs one tool per letter and gives
 * every stamp of that letter an ink dip and a press.
 */
module LetterpressStamps {
  import opened Wrappers
  import opened GCode
  import opened Grouping
  import opened Stamping
  import opened Emission
  import opened LetterpressText
  import opened LetterpressLayout

  /** The config file: page and borders, alignments, line height, whether the
      paper is rotated on the bed, the three head heights, the ink pad. */
  datatype Config = Config(page: Page, hAlign: HAlign, vAlign: VAlign, lineHeight: real, rotated: bool,
                           up: real, down: real, inkHeight: real, inkPad: Rect)

  /** Where a glyph is stamped: the centre of its box, plus its nudges. */
  function Centre(font: Font, pc: Piece): Point
  {
    Point(pc.x + GlyphOf(font, pc.letter).width / 2.0 + GlyphOf(font, pc.letter).xNudge,
          pc.y + font.height / 2.0 + GlyphOf(font, pc.letter).yNudge)
  }

  /** A row's glyphs tagged with their stamp points. */
  function RowStamps(font: Font, row: seq<Piece>): (r: seq<(char, Point)>)
    ensures |r| == |row| && forall k :: 0 <= k < |row| ==> r[k] == (row[k].letter, Centre(font, row[k]))
  {
    seq(|row|, k requires 0 <= k < |row| => (row[k].letter, Centre(font, row[k])))
  }

  /** All glyphs of the page tagged with their stamp points, row by row. */
  function PageStamps(font: Font, rows: seq<seq<Piece>>): seq<(char, Point)>
  {
    if |rows| == 0 then [] else PageStamps(font, rows[..|rows| - 1]) + RowStamps(font, rows[|rows| - 1])
  }

  lemma RowStampsSnoc(font: Font, row: seq<Piece>, k: nat)
    requires k < |row|
    ensures RowStamps(font, row[..k + 1]) == RowStamps(font, row[..k]) + [(row[k].letter, Centre(font, row[k]))]
  {
  }

  /** `if (!usedLetters.includes(l)) { usedLetters.push(l); stamps[l] = [] }; stamps[l].push(p)` */
  method Record(used0: seq<char>, stamps0: map<char, seq<Point>>, letter: char, centre: Point)
    returns (used: seq<char>, stamps: map<char, seq<Point>>)
    requires letter in used0 <==> letter in stamps0
    ensures used == if letter in used0 then used0 else used0 + [letter]
    ensures stamps == Push(stamps0, letter, centre)
  {
    used, stamps := used0, stamps0;
    PushInPlace(stamps, letter, centre);
    if letter !in used {
      used := used + [letter];
      stamps := stamps[letter := []];
    }
    stamps := stamps[letter := stamps[letter] + [centre]];
  }

  lemma Listed(ps: seq<(char, Point)>, c: char)
    ensures c in Distinct(Tags(ps)) <==> c in Groups(ps)
  {
  }

  /** The inner forEach over one row's glyphs. */
  method CollectRow(font: Font, row: seq<Piece>, used0: seq<char>, stamps0: map<char, seq<Point>>, ghost done: seq<(char, Point)>)
    returns (used: seq<char>, stamps: map<char, seq<Point>>)
    requires used0 == Distinct(Tags(done)) && stamps0 == Groups(done)
    ensures used == Distinct(Tags(done + RowStamps(font, row)))
    ensures stamps == Groups(done + RowStamps(font, row))
  {
    used, stamps := used0, stamps0;
    ghost var seen := done;
    var k := 0;
    assert row[..0] == [];
    while k < |row|
      invariant k <= |row|
      invariant seen == done + RowStamps(font, row[..k])
      invariant used == Distinct(Tags(seen)) && stamps == Groups(seen)
    {
      var letter := row[k].letter;
      var centre := Centre(font, row[k]);
      Listed(seen, letter);
      ghost var used1, stamps1 := used, stamps;
      used, stamps := Record(used, stamps, letter, centre);
      RecordStep(seen, letter, centre, used1, stamps1, used, stamps);
      SeenStep(font, row, k, done, seen);
      seen := seen + [(letter, centre)];
      k := k + 1;
    }
    assert row[..k] == row;
  }

  /** One Record call extends the bookkeeping by one stamp. */
  lemma RecordStep(seen: seq<(char, Point)>, letter: char, centre: Point,
                   used0: seq<char>, stamps0: map<char, seq<Point>>, used: seq<char>, stamps: map<char, seq<Point>>)
    requires used0 == Distinct(Tags(seen)) && stamps0 == Groups(seen)
    requires used == if letter in used0 then used0 else used0 + [letter]
    requires stamps == Push(stamps0, letter, centre)
    ensures used == Distinct(Tags(seen + [(letter, centre)])) && stamps == Groups(seen + [(letter, centre)])
  {
    SnocStep(seen, (letter, centre));
  }

  /** The stamps seen so far grow by glyph k's stamp. */
  lemma SeenStep(font: Font, row: seq<Piece>, k: nat, done: seq<(char, Point)>, seen: seq<(char, Point)>)
    requires k < |row| && seen == done + RowStamps(font, row[..k])
    ensures seen + [(row[k].letter, Centre(font, row[k]))] == done + RowStamps(font, row[..k + 1])
  {
    var p := (row[k].letter, Centre(font, row[k]));
    var a := RowStamps(font, row[..k]);
    RowStampsSnoc(font, row, k);
    assert (done + a) + [p] == done + (a + [p]);
  }

  /** The drawing loop's bookkeeping over the rows, usedLetters in first-seen order. */
  method CollectStamps(font: Font, rows: seq<seq<Piece>>) returns (usedLetters: seq<char>, stamps: map<char, seq<Point>>)
    ensures usedLetters == Distinct(Tags(PageStamps(font, rows)))
    ensures stamps == Groups(PageStamps(font, rows))
  {
    usedLetters := [];
    stamps := map[];
    var r := 0;
    while r < |rows|
      invariant r <= |rows|
      invariant usedLetters == Distinct(Tags(PageStamps(font, rows[..r])))
      invariant stamps == Groups(PageStamps(font, rows[..r]))
    {
      PageStampsStep(font, rows, r);
      usedLetters, stamps := CollectRow(font, rows[r], usedLetters, stamps, PageStamps(font, rows[..r]));
      r := r + 1;
    }
    assert rows[..r] == rows;
  }

  lemma PageStampsStep(font: Font, rows: seq<seq<Piece>>, r: nat)
    requires r < |rows|
    ensures PageStamps(font, rows[..r + 1]) == PageStamps(font, rows[..r]) + RowStamps(font, rows[r])
  {
    assert rows[..r + 1][..r] == rows[..r];
  }

  /** Every tagged placement is the k-th glyph of the page, read row by row, with its centre. */
  lemma {:induction false} PageStampsFlatten(font: Font, rows: seq<seq<Piece>>)
    ensures PageStamps(font, rows) == RowStamps(font, Flatten(rows))
  {
    if |rows| > 0 {
      var n := |rows| - 1;
      PageStampsFlatten(font, rows[..n]);
      var a, b := Flatten(rows[..n]), rows[n];
      assert Flatten(rows) == a + b;
      assert RowStamps(font, a + b) == RowStamps(font, a) + RowStamps(font, b);
    }
  }

  /** Where the ink dips land: the pad shrunk by half a glyph box on every side. */
  function InkRange(cfg: Config, font: Font): Rect
  {
    Rect(cfg.inkPad.left + font.width / 2.0, cfg.inkPad.right - font.width / 2.0,
         cfg.inkPad.top - font.height / 2.0, cfg.inkPad.bottom + font.height / 2.0)
  }

  /** A stamp point in machine coordinates: axes swapped when rotated, otherwise y measured up from the bottom edge. */
  function OnPaper(cfg: Config, pt: Point): Point
  {
    if cfg.rotated then Point(pt.y, pt.x) else Point(pt.x, cfg.page.height - pt.y)
  }

  function Plotted(cfg: Config, pts: seq<Point>): (r: seq<Point>)
    ensures |r| == |pts| && forall k :: 0 <= k < |pts| ==> r[k] == OnPaper(cfg, pts[k])
  {
    seq(|pts|, k requires 0 <= k < |pts| => OnPaper(cfg, pts[k]))
  }

  /** Tool i carries the i-th used letter. */
  function LetterTools(used: seq<char>): (r: seq<(int, Layer)>)
    ensures |r| == |used| && forall i :: 0 <= i < |used| ==> r[i] == (i, Layer.Glyph(used[i]))
  {
    seq(|used|, i requires 0 <= i < |used| => (i, Layer.Glyph(used[i])))
  }

  /** The stamps of tool i, in machine coordinates. */
  function LetterGroups(cfg: Config, used: seq<char>, stamps: map<char, seq<Point>>): (r: seq<seq<Point>>)
    requires forall i :: 0 <= i < |used| ==> used[i] in stamps
    ensures |r| == |used| && forall i :: 0 <= i < |used| ==> r[i] == Plotted(cfg, stamps[used[i]])
  {
    seq(|used|, i requires 0 <= i < |used| => Plotted(cfg, stamps[used[i]]))
  }

  function Settled(cfg: Config): Heights
  {
    Heights(cfg.up, cfg.down, cfg.inkHeight)
  }

  /** The G-code file the script writes: a header naming the paper (height first when
      rotated), then per used letter its tool change and its inked presses, then the end block. */
  function Toolpath(cfg: Config, font: Font, used: seq<char>, stamps: map<char, seq<Point>>, rand: nat -> Draw): seq<Cmd>
    requires forall i :: 0 <= i < |used| ==> used[i] in stamps
  {
    Program(Settled(cfg), if cfg.rotated then cfg.page.height else cfg.page.width,
            if cfg.rotated then cfg.page.width else cfg.page.height, "love",
            Session(LetterTools(used), LetterGroups(cfg, used, stamps), InkRange(cfg, font), rand))
  }

  /** The script's ink point formula is the jittered point of InkRange. */
  lemma InkFormula(cfg: Config, font: Font, rx: Draw, ry: Draw)
    ensures rx * (cfg.inkPad.right - cfg.inkPad.left - font.width) + cfg.inkPad.left + font.width / 2.0
         == InkPoint(InkRange(cfg, font), rx, ry).x
    ensures ry * (cfg.inkPad.top - cfg.inkPad.bottom - font.height) + cfg.inkPad.bottom + font.height / 2.0
         == InkPoint(InkRange(cfg, font), rx, ry).y
  {
    var range := InkRange(cfg, font);
    assert range.right - range.left == cfg.inkPad.right - cfg.inkPad.left - font.width;
    assert range.top - range.bottom == cfg.inkPad.top - cfg.inkPad.bottom - font.height;
  }

  /** ink(inkX, inkY, gcode) then stamp(px, py, gcode). */
  method InkAndStamp(s: GCode.Settings, inkX: real, inkY: real, px: real, py: real, gcode0: seq<Cmd>)
    returns (gcode: seq<Cmd>)
    ensures gcode == gcode0 + InkDip(s.Current(), inkX, inkY) + Press(s.Current(), px, py)
  {
    gcode := s.Ink(inkX, inkY, gcode0);
    gcode := s.Stamp(px, py, gcode);
  }

  /** One stamp's ink dip and press extend the rendered presses by one point. */
  lemma StampStep(h: Heights, plotted: seq<Point>, range: Rect, j: nat, rand: nat -> Draw, d0: nat,
                  gcode0: seq<Cmd>, g: seq<Cmd>, ink: Point, stamp: Point)
    requires j < |plotted|
    requires g == gcode0 + Render(h, InkedPresses(plotted[..j], range, rand, d0))
    requires ink == InkPoint(range, rand(d0 + 2 * j), rand(d0 + 2 * j + 1)) && stamp == plotted[j]
    ensures g + InkDip(h, ink.x, ink.y) + Press(h, stamp.x, stamp.y)
         == gcode0 + Render(h, InkedPresses(plotted[..j + 1], range, rand, d0))
  {
    PressStep(h, plotted, j, range, rand, d0);
    Regroup4(gcode0, Render(h, InkedPresses(plotted[..j], range, rand, d0)), InkDip(h, ink.x, ink.y), Press(h, stamp.x, stamp.y));
  }

  /** The inner forEach over one letter's stamps: two draws for the ink point, an ink dip, a press. */
  method StampLetter(s: GCode.Settings, cfg: Config, font: Font, pts: seq<Point>, rand: nat -> Draw, d0: nat, gcode0: seq<Cmd>)
    returns (gcode: seq<Cmd>)
    ensures gcode == gcode0 + Render(s.Current(), InkedPresses(Plotted(cfg, pts), InkRange(cfg, font), rand, d0))
  {
    gcode := gcode0;
    var j := 0;
    while j < |pts|
      invariant j <= |pts|
      invariant gcode == gcode0 + Render(s.Current(), InkedPresses(Plotted(cfg, pts)[..j], InkRange(cfg, font), rand, d0))
    {
      var inkX := rand(d0 + 2 * j) * (cfg.inkPad.right - cfg.inkPad.left - font.width) + cfg.inkPad.left + font.width / 2.0;
      var inkY := rand(d0 + 2 * j + 1) * (cfg.inkPad.top - cfg.inkPad.bottom - font.height) + cfg.inkPad.bottom + font.height / 2.0;
      var stampX, stampY := pts[j].x, cfg.page.height - pts[j].y;
      if cfg.rotated {
        stampX, stampY := pts[j].y, pts[j].x;
      }
      InkFormula(cfg, font, rand(d0 + 2 * j), rand(d0 + 2 * j + 1));
      StampStep(s.Current(), Plotted(cfg, pts), InkRange(cfg, font), j, rand, d0, gcode0, gcode, Point(inkX, inkY), Point(stampX, stampY));
      gcode := InkAndStamp(s, inkX, inkY, stampX, stampY, gcode);
      j := j + 1;
    }
    assert Plotted(cfg, pts)[..j] == Plotted(cfg, pts);
  }

  /** The settings calls and start(): heights from the config, axes swapped when rotated. */
  method Prepare(cfg: Config) returns (settings: GCode.Settings, gcode: seq<Cmd>)
    ensures fresh(settings) && settings.Current() == Settled(cfg) && settings.flipXY == cfg.rotated
    ensures gcode == Header(if cfg.rotated then cfg.page.height else cfg.page.width,
                            if cfg.rotated then cfg.page.width else cfg.page.height, "love")
  {
    settings := new GCode.Settings();
    if cfg.rotated {
      settings.SetFlipXY(true);
    }
    settings.SetStampUpHeight(cfg.up);
    settings.SetStampDownHeight(cfg.down);
    settings.SetStampInkHeight(cfg.inkHeight);
    var paperSize := PaperSize(cfg.page.width, cfg.page.height);
    gcode := settings.Start(paperSize, []);
  }

  /** gcode = installTool(index, letter, gcode) */
  method Install(s: GCode.Settings, index: int, letter: char, gcode0: seq<Cmd>) returns (gcode: seq<Cmd>)
    ensures gcode == gcode0 + ToolChange(s.Current(), index, Layer.Glyph(letter))
  {
    gcode := s.InstallTool(index, Layer.Glyph(letter), gcode0);
  }

  /** gcode = end(gcode) */
  method Close(s: GCode.Settings, gcode0: seq<Cmd>) returns (gcode: seq<Cmd>)
    ensures gcode == gcode0 + Finish(s.Current())
  {
    gcode := s.End(gcode0);
  }

  /** One letter's tool change and presses extend the rendered session by one group. */
  lemma LetterStep(h: Heights, tools: seq<(int, Layer)>, groups: seq<seq<Point>>, i: nat, range: Rect, rand: nat -> Draw,
                   header: seq<Cmd>, g: seq<Cmd>)
    requires |tools| == |groups| && i < |tools|
    requires g == header + Render(h, Session(tools[..i], groups[..i], range, rand)) + ToolChange(h, tools[i].0, tools[i].1)
                   + Render(h, InkedPresses(groups[i], range, rand, 2 * |Flatten(groups[..i])|))
    ensures g == header + Render(h, Session(tools[..i + 1], groups[..i + 1], range, rand))
    ensures |Flatten(groups[..i + 1])| == |Flatten(groups[..i])| + |groups[i]|
  {
    SessionStep(tools, groups, i, range, rand);
    var done := Session(tools[..i], groups[..i], range, rand);
    var t := Tool(tools[i].0, tools[i].1);
    var presses := InkedPresses(groups[i], range, rand, 2 * |Flatten(groups[..i])|);
    RenderSnoc(h, done, t);
    RenderAppend(h, done + [t], presses);
    Regroup4(header, Render(h, done), ToolChange(h, tools[i].0, tools[i].1), Render(h, presses));
  }

  /** The G-code half of the script: the settings from the config, start, then one tool per
      used letter and one inked press per stamp, then end. */
  method EmitStamps(cfg: Config, font: Font, usedLetters: seq<char>, stamps: map<char, seq<Point>>, rand: nat -> Draw)
    returns (gcode: seq<Cmd>)
    requires forall i :: 0 <= i < |usedLetters| ==> usedLetters[i] in stamps
    ensures gcode == Toolpath(cfg, font, usedLetters, stamps, rand)
  {
    var settings;
    settings, gcode := Prepare(cfg);
    ghost var header := gcode;
    ghost var tools := LetterTools(usedLetters);
    ghost var groups := LetterGroups(cfg, usedLetters, stamps);
    var draw := 0;
    var i := 0;
    while i < |usedLetters|
      invariant i <= |usedLetters| && settings.Current() == Settled(cfg)
      invariant draw == 2 * |Flatten(groups[..i])|
      invariant gcode == header + Render(Settled(cfg), Session(tools[..i], groups[..i], InkRange(cfg, font), rand))
    {
      var letter := usedLetters[i];
      gcode := Install(settings, i, letter, gcode);
      gcode := StampLetter(settings, cfg, font, stamps[letter], rand, draw, gcode);
      LetterStep(Settled(cfg), tools, groups, i, InkRange(cfg, font), rand, header, gcode);
      draw := draw + 2 * |stamps[letter]|;
      i := i + 1;
    }
    assert tools[..i] == tools && groups[..i] == groups;
    gcode := Close(settings, gcode);
    assert gcode == Program(Settled(cfg), if cfg.rotated then cfg.page.height else cfg.page.width,
                            if cfg.rotated then cfg.page.width else cfg.page.height, "love",
                            Session(tools, groups, InkRange(cfg, font), rand));
  }

  // ---------------------------------------------------------------- what the output promises

  /** The head never travels lowered, and the file ends with the program end. */
  lemma ToolpathSafe(cfg: Config, font: Font, used: seq<char>, stamps: map<char, seq<Point>>, rand: nat -> Draw)
    requires forall i :: 0 <= i < |used| ==> used[i] in stamps
    ensures SafeTravel(Toolpath(cfg, font, used, stamps, rand), cfg.up)
    ensures var t := Toolpath(cfg, font, used, stamps, rand); t[|t| - 1] == ProgramEnd
  {
    ProgramSafe(Settled(cfg), if cfg.rotated then cfg.page.height else cfg.page.width,
                if cfg.rotated then cfg.page.width else cfg.page.height, "love",
                Session(LetterTools(used), LetterGroups(cfg, used, stamps), InkRange(cfg, font), rand));
  }

  lemma {:induction false} GroupsPlotted(cfg: Config, used: seq<char>, stamps: map<char, seq<Point>>)
    requires forall i :: 0 <= i < |used| ==> used[i] in stamps
    ensures Flatten(LetterGroups(cfg, used, stamps)) == Plotted(cfg, Regroup(used, stamps))
  {
    if |used| > 0 {
      var n := |used| - 1;
      var g := LetterGroups(cfg, used, stamps);
      assert g[..n] == LetterGroups(cfg, used[..n], stamps);
      GroupsPlotted(cfg, used[..n], stamps);
      var a, b := Regroup(used[..n], stamps), stamps[used[n]];
      assert Regroup(used, stamps) == a + b;
      assert Plotted(cfg, a + b) == Plotted(cfg, a) + Plotted(cfg, b);
    }
  }

  /**
   * Tool i is the i-th used letter; every press comes straight after an ink dip;
   * the presses are the letters' stamps, letter by letter, in machine coordinates,
   * and over a whole page those stamps are a permutation of all the glyph centres.
   * With a pad wider and taller than a glyph box every dip lands in InkRange.
   */
  lemma PagePresses(cfg: Config, font: Font, rows: seq<seq<Piece>>, rand: nat -> Draw)
    ensures var ps := PageStamps(font, rows);
      var used, stamps := Distinct(Tags(ps)), Groups(ps);
      && (forall i :: 0 <= i < |used| ==> used[i] in stamps)
      && var acts := Session(LetterTools(used), LetterGroups(cfg, used, stamps), InkRange(cfg, font), rand);
      && Tools(acts) == LetterTools(used)
      && Hits(acts) == Plotted(cfg, Regroup(used, stamps))
      && multiset(Regroup(used, stamps)) == multiset(Values(ps))
      && HitsInked(acts)
      && (var range := InkRange(cfg, font);
          range.left < range.right && range.bottom < range.top ==> DipsWithin(acts, range))
  {
    var ps := PageStamps(font, rows);
    var used, stamps := Distinct(Tags(ps)), Groups(ps);
    RegroupIsPermutation(ps);
    var tools, groups := LetterTools(used), LetterGroups(cfg, used, stamps);
    SessionHits(tools, groups, InkRange(cfg, font), rand);
    SessionShape(tools, groups, InkRange(cfg, font), rand);
    GroupsPlotted(cfg, used, stamps);
  }

  // ---------------------------------------------------------------- the whole script

  /** The input lines: the filtered input split at newlines. */
  function InputLines(input: string, font: Font): seq<string>
  {
    SplitOn(Clean(input, font), '\n')
  }

  /** The page's glyphs once packed, shifted, aligned and placed. */
  function Typeset(input: string, cfg: Config, font: Font): Result<seq<seq<Piece>>, LayoutError>
  {
    var packed := Packed(TextFrame(font, cfg.page), InputLines(input, font));
    var rows := seq(|packed|, i requires 0 <= i < |packed| => Unspaced(packed[i]));
    match AlignRows(rows, font, cfg.page, cfg.hAlign)
    case Err(e) => Err(e)
    case Ok(aligned) => Stacked(aligned, font, cfg.page, cfg.lineHeight, cfg.vAlign)
  }

  /** The G-code file for an (upper-cased) input, or the division by zero that spoils it. */
  function Output(input: string, cfg: Config, font: Font, rand: nat -> Draw): Result<seq<Cmd>, LayoutError>
  {
    match Typeset(input, cfg, font)
    case Err(e) => Err(e)
    case Ok(pieces) =>
      var ps := PageStamps(font, pieces);
      RegroupIsPermutation(ps);
      Ok(Toolpath(cfg, font, Distinct(Tags(ps)), Groups(ps), rand))
  }

  /** letterpress/index.js from the upper-cased input to the G-code, without the files and the preview image. */
  method Letterpress(input: string, cfg: Config, font: Font, rand: nat -> Draw) returns (r: Result<seq<Cmd>, LayoutError>)
    requires ' ' in font.glyphs
    ensures r == Output(input, cfg, font, rand)
  {
    var text := Clean(input, font);
    var inputLines := SplitOn(text, '\n');
    SplitKnown(text, '\n', font);
    var packed := PackRows(TextFrame(font, cfg.page), inputLines);
    var rows := ShiftRows(packed);
    ghost var want := seq(|packed|, i requires 0 <= i < |packed| => Unspaced(packed[i]));
    assert rows == want;
    var aligned := AlignAll(rows, font, cfg.page, cfg.hAlign);
    if aligned.Err? {
      return Err(aligned.error);
    }
    var placed := StackAll(aligned.value, font, cfg.page, cfg.lineHeight, cfg.vAlign);
    if placed.Err? {
      return Err(placed.error);
    }
    var usedLetters, stamps := CollectStamps(font, placed.value);
    RegroupIsPermutation(PageStamps(font, placed.value));
    var gcode := EmitStamps(cfg, font, usedLetters, stamps, rand);
    r := Ok(gcode);
  }

  /** Whenever the script produces a file, its head never travels lowered and it ends the program. */
  lemma OutputSafe(input: string, cfg: Config, font: Font, rand: nat -> Draw)
    requires Output(input, cfg, font, rand).Ok?
    ensures SafeTravel(Output(input, cfg, font, rand).value, cfg.up)
    ensures var t := Output(input, cfg, font, rand).value; |t| > 0 && t[|t| - 1] == ProgramEnd
  {
    var pieces := Typeset(input, cfg, font).value;
    var ps := PageStamps(font, pieces);
    RegroupIsPermutation(ps);
    ToolpathSafe(cfg, font, Distinct(Tags(ps)), Groups(ps), rand);
  }
}
