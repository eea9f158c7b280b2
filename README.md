# stompy-stamper, modelled in Dafny

stompy-stamper is a set of scripts that drive a pen-plotter-style stamping
machine (an ArtFrame 2436 carrying rubber stamps). Each script lays out
stamp impressions on a sheet of paper. It groups those impressions by the
stamp that makes them, then writes a G-code file in the RS274/NGC dialect
the machine reads. That file changes the tool, waiting for the operator, for
each stamp. It dips the stamp on an ink pad at a jittered point, presses it
on the paper, and always lifts the head before it travels.

This project models five of those scripts and the G-code helpers they share:

- `letterpress/gcode.js`: the module-level head heights and axis-swap flag,
  with their setters, the file header and the tool-change, ink, stamp and end
  blocks. Modelled as the class `GCode.Settings`.
- `letterpress/index.js`, modelled in three modules:
  - `LetterpressText`: the input is filtered to the font's glyphs, split into
    lines and words, and packed word by word into rows.
  - `LetterpressLayout`: the leading space is dropped, rows are aligned
    horizontally, and rows are placed vertically.
  - `LetterpressStamps`: glyph centres are nudged, grouped per letter in
    first-seen order, and emitted tool by tool.
- `10mm/fuck.js` (`WordRows`, `WordRowsFacts`): rows of randomly drawn whole
  words, trimmed back to the last whole word and centred.
- `10mm/makeDesign1.js` (`LetterRows`, `LetterRowsFacts`): rows of random
  capitals, centred.
- `love-notes/makeDesign.js` (`Wave`, `LoveNotes`, `LoveNotesFacts`): a page
  laid out with wave-modulated steps. Each letter is re-inked on every other
  occurrence. The word is forced into the line a third of the way down, with
  a double tap.
- `aaaaaggggh/index.js` (`Wave`, `Aaaaaggggh`, `AaaaagggghFacts`): a page of
  'A' stamps. The last line is cut by a quarter, the last six stamps become
  'G' and the last two 'H'.
- `flowfields/field5-stamp.js` (`FlowField`, `FlowFieldFacts`): a grid of
  arrow stamps, each turned to one of 24 directions read off a noise field,
  grouped by direction, inked before every other press.

Shared modules:

- `GCode`: commands, blocks and the travel-safety predicate.
- `Stamping`: random draws, points, the ink pad, the jittered ink point, and
  the line loop of the 10 mm scripts (`Sheet`: the line count, the y of each
  line and the loop test).
- `Grouping`: row-major flattening, the first-seen key list, and the
  dictionary of lists filled by push, with its partition lemmas.
- `Emission`: tool/dip/press actions rendered to G-code, and the
  always-inking session every script but two performs.
- `Placements`: the emission loop shared by the two 10 mm scripts.
- `Wrappers`: `Option` and `Result`.

What is proved:

- Every complete output file is travel-safe: no X/Y move happens unless the
  last Z move went to the travel height. Every file ends with M2.
- Tools are installed in the order and with the labels the script uses.
- The presses are exactly the laid-out stamps, grouped per tool, as a
  permutation (multiset equality) of every placement of the page.
- Every ink dip lands inside the shrunk ink range.
- Each script's layout keeps the geometric promises of its comments:
  - abutting glyphs, flush right edges and equal centring gaps;
  - lines spaced by the line height, and stamps stepped by one to two stamp
    offsets;
  - rows trimmed back to a whole word;
  - re-inking that alternates per letter;
  - the forced word double-tapped and nothing else;
  - the last-six relabelling;
  - flow-field sectors centred on their direction.
- Failure cases are modelled too. The source throws or divides by zero at
  these points, and the model returns a `Result` error:
  - a word that cannot fit;
  - a letter with no positions;
  - a justified one-glyph row;
  - a filled one-row page.

Each loop of the source is a `method` with a `while` loop and its
invariants, proved equal to a recursive specification function. The
properties are lemmas about those functions.

## Model

| member | source | states |
|---|---|---|
| GCode.Settings.constructor | letterpress/gcode.js:1-4 | The module state starts at up 60, down 35, ink 49, with the axes not swapped. |
| GCode.Settings.SetStampUpHeight | letterpress/gcode.js:6-8 | Sets the travel height and nothing else. |
| GCode.Settings.SetStampDownHeight | letterpress/gcode.js:11-13 | Sets the press height and nothing else. |
| GCode.Settings.SetStampInkHeight | letterpress/gcode.js:16-18 | Sets the ink-contact height and nothing else. |
| GCode.Settings.SetFlipXY | letterpress/gcode.js:21-23 | Sets the axis-swap flag and nothing else. |
| GCode.Settings.Start | letterpress/gcode.js:26-39 | The header ignores the gcode passed in: ten comment lines then G90. The paper-dimension line gives height before width when the axes are swapped. The header never travels. |
| GCode.Settings.InstallTool | letterpress/gcode.js:42-51 | Keeps the old code as a prefix and appends exactly lift, tool comment, park at origin, lift, M0, CLEAR. A safe program stays safe and ends lifted. |
| GCode.Settings.Ink | letterpress/gcode.js:54-62 | Appends exactly comment, lift, move, ink-height dip, lift. Keeps the prefix and safety, and ends lifted. |
| GCode.Settings.Stamp | letterpress/gcode.js:65-73 | Appends exactly comment, lift, move, press-height dip, lift. Keeps the prefix and safety, and ends lifted. |
| GCode.Settings.End | letterpress/gcode.js:76-84 | Appends exactly comment, lift, park, M5, M2. Keeps the prefix and safety, and the last command is M2. |
| GCode.BlocksSafe | letterpress/gcode.js:42-84 | Each block (tool change, ink, stamp, end) is travel-safe on its own and leaves the head at the travel height. |
| GCode.AppendBlock | letterpress/gcode.js:42-84 | Appending a safe block that ends lifted to a safe program gives a safe program that ends lifted. |
| GCode.SafeAppend | letterpress/gcode.js:42-84 | Two safe programs concatenated are safe. |
| GCode.HeaderSafe | letterpress/gcode.js:26-39 | The header contains no travel, whatever the paper size. |
| GCode.LastZAppend | letterpress/gcode.js:42-84 | The last Z height of a + c is that of c when c has a Z move. |
| Stamping.Between | love-notes/makeDesign.js:221-222 | lo + r·(hi − lo) with r in [0, 1) lies in [lo, hi), and is lo when the bounds meet. |
| Stamping.InkPoint | aaaaaggggh/index.js:192-193 | The jittered ink point lies inside a non-empty ink range (left ≤ x < right, bottom ≤ y < top). |
| Stamping.ScaledBelow | letterpress/index.js:313-314 | r·d lies in [0, d], strictly below d when d > 0. |
| Stamping.CanvasRoundTrip | 10mm/fuck.js:568-589 | Going through the 10× canvas and the percentages back to paper gives a fixed offset, (x + 0.5, H − (y + 3.7)) or its axis swap, whatever the paper size. |
| Stamping.Pick | 10mm/makeDesign1.js:127 | Math.floor(r·n) with r in [0, 1) is a valid index below n. |
| Stamping.LineLoopBound | 10mm/makeDesign1.js:115-120 | The loop test y < H − yOffset + lineHeight holds on line k exactly when k ≤ rows. |
| Stamping.LineYAt | 10mm/fuck.js:411-416 | Line k of the line loop sits at yOffset + k·lineHeight. |
| Stamping.LineGuard | 10mm/makeDesign1.js:120 | The line loop test holds exactly on lines 0 to rows, in both 10 mm scripts (10mm/fuck.js:416 too). |
| Stamping.ParityFlip | love-notes/makeDesign.js:114 | Negating the toggle is moving the count on by one; the flow field's shallWeInk flips the same way. |
| Emission.RenderSafe | aaaaaggggh/index.js:115-150 | Whatever the actions, the rendered toolpath never travels lowered, and ends lifted when it is not empty. |
| Emission.ProgramSafe | aaaaaggggh/index.js:160-204 | Header, rendered actions and end block together are travel-safe, and the last command is M2. |
| Emission.InkedPresses | 10mm/makeDesign1.js:244-264 | One dip and one press per point: twice as many actions as points. |
| Emission.InkedPressesAt | 10mm/makeDesign1.js:244-264 | Action 2k dips at the ink point of draws d0 + 2k and d0 + 2k + 1. Action 2k + 1 presses point k. |
| Emission.InkedPressesHits | 10mm/makeDesign1.js:244-264 | The presses are exactly the points in order, and no tool is installed. |
| Emission.InkedPressesShape | 10mm/makeDesign1.js:255-263 | Every press comes straight after a dip. Every dip lies in a non-empty ink range. |
| Emission.PressAfter | flowfields/field5-stamp.js:286-287 | A press after at most one dip adds exactly that point and no tool. |
| Emission.ToolBetween | flowfields/field5-stamp.js:279 | A tool change between two runs adds exactly that tool and no press. |
| Emission.ShapeAppend | 10mm/makeDesign1.js:255-263 | Inked presses and in-range dips are kept under concatenation. |
| Emission.SessionHits | letterpress/index.js:310-322 | A whole session presses the groups' points in group order and installs exactly the listed tools. |
| Emission.SessionShape | letterpress/index.js:310-322 | Every press of a session is inked, and its dips lie in the ink range. |
| Emission.SessionStep | letterpress/index.js:310-322 | One more group: its tool change, then its inked presses on the draws after those of the groups before. |
| Emission.PressStep | letterpress/index.js:312-321 | One more point: its dip on the next two draws, then its press. |
| Emission.EmitGroup | letterpress/index.js:312-321 | The per-stamp loop appends exactly the rendered inked presses of the group. |
| Emission.EmitSession | letterpress/index.js:310-322 | The per-letter loop appends exactly the rendered session. |
| Grouping.Distinct | letterpress/index.js:283-286 | The first-seen list holds exactly the keys that occur, each once. |
| Grouping.DistinctInFirstSeenOrder | letterpress/index.js:283-286 | Keys of the first-seen list come in the order of their first occurrence. |
| Grouping.DistinctSnoc | letterpress/index.js:283-286 | One more key joins the list only when it is new. |
| Grouping.FirstIndex | 10mm/fuck.js:556 | The first position of a present key: it holds the key and no earlier position does. |
| Grouping.FirstIndexPrefix | 10mm/fuck.js:556 | The first position of a key in a prefix that contains it is its first position in the whole list. |
| Grouping.IndexOf | 10mm/fuck.js:556 | indexOf is −1 exactly for absent keys, and otherwise the first position. |
| Grouping.IndexOfUnique | 10mm/makeDesign1.js:234 | In a list without repeats, indexOf finds each element at its own position. |
| Grouping.Tags | letterpress/index.js:283-290 | The keys of a tagged list, pointwise. |
| Grouping.Values | letterpress/index.js:283-290 | The values of a tagged list, pointwise. |
| Grouping.SelectAppend | letterpress/index.js:287-290 | Selecting a key over a + b is selecting over a, then over b. |
| Grouping.SelectEmpty | letterpress/index.js:287-290 | A key selects nothing exactly when it does not occur. |
| Grouping.SelectUniform | aaaaaggggh/index.js:185-199 | A run of one key selects all its values for that key and nothing for any other. |
| Grouping.Groups | letterpress/index.js:283-290 | The push-filled dictionary has exactly the occurring keys, and each list is that key's values in order. |
| Grouping.RegroupIsPermutation | letterpress/index.js:283-322 | Reading the groups back in first-seen key order gives a permutation of all tagged values. |
| Grouping.RegroupCovers | 10mm/makeDesign1.js:230-265 | Any order listing each key once, covering every occurring key, reads back a permutation of the values. |
| Grouping.GatherAll | 10mm/makeDesign1.js:230-265 | Gathering in an order covering every key once loses and repeats nothing. |
| Grouping.GatherPush | 10mm/makeDesign1.js:146-153 | One push adds the value once to the gathered groups when its key is listed. |
| Grouping.RegroupPush | 10mm/makeDesign1.js:146-153 | One push onto a listed key adds that value once to the regrouped values. |
| Grouping.GroupSizes | letterpress/index.js:283-322 | The group sizes sum to the number of placements. |
| Grouping.FlattenIndex | love-notes/makeDesign.js:92-99 | Every element of the row-major flattening comes from some row. |
| Grouping.FlatAtLeast | aaaaaggggh/index.js:106-113 | The flattening is at least as long as any row. |
| Grouping.CollectKeys | 10mm/fuck.js:397-405 | The `if (!includes) push` loop yields the first-seen list. |
| Grouping.TagsStep | letterpress/index.js:283-290 | One more placement: its key is appended, and its value is pushed onto its group. |
| Grouping.KeysStep | letterpress/index.js:283-286 | One more placement extends the first-seen list only when its key is new. |
| Grouping.SnocStep | letterpress/index.js:283-290 | Appending a placement: the key list grows when its key is new, and the dictionary gets a push. |
| Grouping.PushOnto | flowfields/field5-stamp.js:191-197 | Creating the list on first use and then pushing gives the same dictionary as Push. |
| Grouping.PushInPlace | flowfields/field5-stamp.js:191-197 | Creating the empty list on first use and then pushing is Push. |
| Grouping.GroupByPush | flowfields/field5-stamp.js:191-197 | The `(map[k] ??= []).push(v)` loop builds the grouping dictionary. |
| Grouping.GroupWithKeys | letterpress/index.js:283-290 | The combined loop builds both the first-seen key list and the dictionary. |
| LetterpressText.Clean | letterpress/index.js:46 | The filtered input holds only the font's glyphs and is no longer than the input. |
| LetterpressText.CleanAppend | letterpress/index.js:46 | Filtering distributes over concatenation. |
| LetterpressText.CleanKeepsKnown | letterpress/index.js:46 | Filtering leaves a text unchanged exactly when every character is a glyph of the font. |
| LetterpressText.CleanIdempotent | letterpress/index.js:46 | Filtering twice is filtering once. |
| LetterpressText.SplitOn | letterpress/index.js:62 | String.split gives at least one piece. No piece holds the separator, and every character of a piece comes from the text. |
| LetterpressText.SplitJoin | letterpress/index.js:62 | Joining the pieces with the separator gives the text back. |
| LetterpressText.SplitPiece | letterpress/index.js:62 | A separator-free piece followed by the separator splits off as one piece. |
| LetterpressText.JoinSplit | letterpress/index.js:62 | Splitting joined separator-free pieces gives the pieces back. |
| LetterpressText.SplitKnown | letterpress/index.js:62-67 | Every word of a filtered line holds only known glyphs. |
| LetterpressText.WidthAppend | letterpress/index.js:80 | The summed advance width of a + b is the sum of the widths. |
| LetterpressText.WidthNonNegative | letterpress/index.js:80 | With non-negative glyph widths, a text's width is non-negative. |
| LetterpressText.Lay | letterpress/index.js:101-108 | Laying a text gives one entry per character. |
| LetterpressText.LaySnoc | letterpress/index.js:101-108 | One more character adds one entry, at x plus the width so far. |
| LetterpressText.LayLetters | letterpress/index.js:101-108 | The laid entries spell the text. |
| LetterpressText.LayAbuts | letterpress/index.js:101-108 | A laid text abuts glyph to glyph, starts at x and ends at x plus its width. |
| LetterpressText.AbuttingAppend | letterpress/index.js:94-108 | Two abutting runs, the second starting where the first ends, abut as one. |
| LetterpressText.Tagged | letterpress/index.js:111-131 | Each word of a line is tagged; only the last one closes the line. |
| LetterpressText.LineWords | letterpress/index.js:67 | Each input line is split at spaces. |
| LetterpressText.LayWord | letterpress/index.js:101-108 | The forEach over a word appends its laid entries and moves x on by its width. |
| LetterpressText.SpaceFirst | letterpress/index.js:94-98 | The space entry sits at x, and the word starts one space width further on. |
| LetterpressText.PlaceWord | letterpress/index.js:81-108 | The break test, the space and the letters of one turn, as the specification Place states them. |
| LetterpressText.PendingStep | letterpress/index.js:111-131 | The word/line cursors advance through the stream of words, moving to the next line at a line's end. |
| LetterpressText.PendingStart | letterpress/index.js:66-68 | The cursors start at the head of the whole stream. |
| LetterpressText.PendingAt | letterpress/index.js:78 | The word the cursors point at is the next word of the stream. |
| LetterpressText.TakeWord | letterpress/index.js:78-131 | One loop turn, the row pushed at a line's end included, as the specification Turn states it. |
| LetterpressText.PackRows | letterpress/index.js:62-134 | The packing loop, the escape counter included, yields the specified rows. |
| LetterpressText.SpaceLay | letterpress/index.js:94-98 | A spaced word starts with the space at x and is one space width wider. |
| LetterpressText.PlaceKeepsOpen | letterpress/index.js:81-108 | A turn keeps the open row packed and pushes only packed rows. |
| LetterpressText.TurnKeepsOpen | letterpress/index.js:81-131 | Likewise for a whole turn with its line end. |
| LetterpressText.AllPackedAppend | letterpress/index.js:89-119 | Packed rows stay packed under concatenation. |
| LetterpressText.RunOpen | letterpress/index.js:77-134 | After any number of turns the open row and every pushed row are packed: abutting from border.left − spaceWidth, with a leading space. |
| LetterpressText.PackedRowsAbut | letterpress/index.js:77-134 | Every row of the input is packed. |
| LetterpressText.AdvanceNonNegative | letterpress/index.js:107 | With non-negative glyph widths each advance is non-negative. |
| LetterpressText.TurnFits | letterpress/index.js:81-92 | If a word fits on its own, a turn never leaves x or a pushed row past the right border. |
| LetterpressText.AllFitAppend | letterpress/index.js:86-92 | Fitting rows stay fitting under concatenation. |
| LetterpressText.RunFits | letterpress/index.js:77-134 | When every word fits on its own, no turn leaves x or a pushed row past width − border.right. |
| LetterpressText.PackedRowsFit | letterpress/index.js:77-134 | Hence no row of the whole input runs past the right border. |
| LetterpressText.AllLettersAppend | letterpress/index.js:89-119 | The letters of a + b are those of a then b. |
| LetterpressText.AllLettersOne | letterpress/index.js:89-119 | The letters of one row are its letters. |
| LetterpressText.PlaceLetters | letterpress/index.js:81-108 | A turn adds a space and the word's letters to the text shown, whichever row they land in. |
| LetterpressText.TurnLetters | letterpress/index.js:81-131 | Likewise for a whole turn, and a line's last word leaves the row empty. |
| LetterpressText.SpacedAppend | letterpress/index.js:94-108 | The spaced text of a + b is that of a then b. |
| LetterpressText.SpacedSnoc | letterpress/index.js:94-108 | One more word adds a space and the word. |
| LetterpressText.RunLetters | letterpress/index.js:77-134 | After k turns the pushed rows and the open row spell exactly the first k words, each after a space. |
| LetterpressText.RunNext | letterpress/index.js:77-134 | The state after k + 1 turns is one turn on the state after k. |
| LetterpressText.LineClosesRow | letterpress/index.js:115-121 | After a line's last word the row is empty, x is back at the start, and the pushed rows spell every word so far. |
| LetterpressText.RunPrefix | letterpress/index.js:77 | The state after k turns depends on the first k words only. |
| LetterpressText.PackedFirstWords | letterpress/index.js:77 | The escape counter limits the rows to those of the first 1000 words. |
| LetterpressText.StreamEndsLine | letterpress/index.js:115-131 | The stream's last word closes its line. |
| LetterpressText.PackedRoundTrip | letterpress/index.js:77-134 | For at most 1000 words, the rows spell the input's words, each after one space: nothing is lost, repeated or reordered. |
| LetterpressText.UnspacedFromLeft | letterpress/index.js:137-139 | Dropping a packed row's leading space leaves an abutting row that starts at border.left and ends where it did, with the same letters after the space. |
| LetterpressText.ShiftRows | letterpress/index.js:137-139 | The shift pass drops the first entry of every row. |
| LetterpressLayout.Moved | letterpress/index.js:151-153 | Every letter moved right by d, letters kept. |
| LetterpressLayout.Spread | letterpress/index.js:176-178 | Letter k moved right by k·d. |
| LetterpressLayout.AlignRowsResult | letterpress/index.js:143-180 | The hAlign pass fails exactly when justifying a page with a one-glyph row (a division by zero). Otherwise it aligns every row on its own. |
| LetterpressLayout.AlignPrefixErr | letterpress/index.js:173-180 | A failing row spoils the whole page. |
| LetterpressLayout.AlignSnoc | letterpress/index.js:143-180 | One more aligned row extends the aligned page. |
| LetterpressLayout.ShiftRow | letterpress/index.js:151-153 | The in-place forEach over a row moves each letter by d, or by k·d when justifying. |
| LetterpressLayout.AlignOne | letterpress/index.js:148-180 | One row's spaceWidth from its width, then its letters moved. |
| LetterpressLayout.AlignAll | letterpress/index.js:143-180 | The hAlign pass over all rows. |
| LetterpressLayout.MovedKeeps | letterpress/index.js:151-153 | Moving keeps a row abutting and its letters, and moves its end by d. |
| LetterpressLayout.AlignKeepsLetters | letterpress/index.js:148-180 | Aligning never changes which letters a row holds, nor their order. |
| LetterpressLayout.RightFlush | letterpress/index.js:148-155 | right: the row still abuts, and its last glyph ends on width − border.right. |
| LetterpressLayout.CenterGaps | letterpress/index.js:159-166 | center: the gap before the first glyph equals the gap after the last. |
| LetterpressLayout.SpreadGaps | letterpress/index.js:176-178 | Spreading keeps the first glyph, widens every gap by d, and moves the last glyph by (n − 1)·d. |
| LetterpressLayout.JustifiedEnds | letterpress/index.js:173-180 | justified: the first glyph stays on border.left and the last ends on the right border. Every gap is the free room over n − 1. |
| LetterpressLayout.AtHeight | letterpress/index.js:222-226 | A row's letters placed at height y, x kept. |
| LetterpressLayout.SetHeight | letterpress/index.js:223-225 | The forEach setting letter.y. |
| LetterpressLayout.ComputeShift | letterpress/index.js:182-209 | bottomDiff and yShift for the chosen vAlign. |
| LetterpressLayout.PlaceRows | letterpress/index.js:213-226 | Every row at its y: the shift once per row above for fill, once otherwise. |
| LetterpressLayout.StackAll | letterpress/index.js:182-227 | The vAlign pass. |
| LetterpressLayout.StackedResult | letterpress/index.js:182-227 | The vAlign pass fails exactly for fill with a single non-empty row (a division by zero). Otherwise every letter keeps its x and gets its row's y. |
| LetterpressLayout.RowPitch | letterpress/index.js:213-226 | Consecutive rows are a line pitch apart, plus yShift for fill. |
| LetterpressLayout.TopStart | letterpress/index.js:222-226 | top: the first row starts on the top border. |
| LetterpressLayout.LastRowBase | letterpress/index.js:182-188 | bottomDiff is the room between the last row's glyph bottoms and the bottom border. |
| LetterpressLayout.BottomFlush | letterpress/index.js:195-197 | bottom: the last row's glyphs end on the bottom border. |
| LetterpressLayout.FillFlush | letterpress/index.js:205-217 | fill: the first row on the top border, the last row's glyphs on the bottom border. |
| LetterpressLayout.MiddleGaps | letterpress/index.js:201-203 | middle: the gap above the first row equals the gap below the last row's glyphs. |
| LetterpressStamps.RowStamps | letterpress/index.js:260-290 | Each glyph tagged with its stamp point: box centre plus its nudges. |
| LetterpressStamps.RowStampsSnoc | letterpress/index.js:258-291 | One more glyph adds one tagged stamp. |
| LetterpressStamps.Record | letterpress/index.js:283-290 | usedLetters grows only on a new letter, and the centre is pushed onto that letter's list. |
| LetterpressStamps.Listed | letterpress/index.js:283-286 | A letter is in usedLetters exactly when it has a stamps list. |
| LetterpressStamps.CollectRow | letterpress/index.js:259-291 | The inner forEach extends usedLetters and stamps by one row. |
| LetterpressStamps.RecordStep | letterpress/index.js:283-290 | One more stamp keeps usedLetters the first-seen letters and stamps the per-letter grouping of everything seen so far. |
| LetterpressStamps.SeenStep | letterpress/index.js:258-291 | The stamps seen so far grow by the stamp of the next glyph of the row. |
| LetterpressStamps.CollectStamps | letterpress/index.js:258-293 | The drawing loop's bookkeeping gives the first-seen letters and the grouped stamp points of the page. |
| LetterpressStamps.PageStampsStep | letterpress/index.js:258-293 | One more row appends its tagged stamps. |
| LetterpressStamps.PageStampsFlatten | letterpress/index.js:258-293 | The page's tagged stamps are the glyphs read row by row. |
| LetterpressStamps.Plotted | letterpress/index.js:316-320 | Each stamp point goes to machine coordinates: axes swapped when rotated, else y measured up from the bottom. |
| LetterpressStamps.LetterTools | letterpress/index.js:310-311 | Tool i carries the i-th used letter, numbered from 0. |
| LetterpressStamps.LetterGroups | letterpress/index.js:310-322 | Tool i presses its letter's stamps in machine coordinates. |
| LetterpressStamps.InkFormula | letterpress/index.js:313-314 | The script's ink formula is the jittered point of the pad shrunk by half a glyph box. |
| LetterpressStamps.InkAndStamp | letterpress/index.js:315-320 | ink then stamp append an ink dip and a press at the current heights. |
| LetterpressStamps.StampStep | letterpress/index.js:312-321 | One stamp's dip and press extend the rendered presses by one point. |
| LetterpressStamps.StampLetter | letterpress/index.js:312-321 | The forEach over one letter's stamps appends its rendered inked presses. |
| LetterpressStamps.Prepare | letterpress/index.js:302-308 | The setters and start(): heights from the config; the paper size swapped when rotated. |
| LetterpressStamps.Install | letterpress/index.js:311 | installTool appends a tool change at the current heights. |
| LetterpressStamps.Close | letterpress/index.js:323 | end appends the end block. |
| LetterpressStamps.LetterStep | letterpress/index.js:310-322 | One letter's tool change and presses extend the rendered session by one group. |
| LetterpressStamps.EmitStamps | letterpress/index.js:302-323 | The whole emission writes the specified toolpath. |
| LetterpressStamps.ToolpathSafe | letterpress/index.js:302-323 | The toolpath never travels lowered and ends with M2. |
| LetterpressStamps.GroupsPlotted | letterpress/index.js:310-322 | The letters' groups flattened are the regrouped stamps in machine coordinates. |
| LetterpressStamps.PagePresses | letterpress/index.js:258-322 | Tool i is the i-th used letter. Every press is inked and every dip in range. The presses are the stamps letter by letter, a permutation of all glyphs of the page. |
| LetterpressStamps.Letterpress | letterpress/index.js:44-323 | The pipeline from the upper-cased input to the G-code, or the layout error. |
| LetterpressStamps.OutputSafe | letterpress/index.js:44-323 | Whenever a file is produced it is travel-safe and ends with M2. |
| Placements.Moved | 10mm/fuck.js:462-464 | Every entry moved right by d, letter and y kept. |
| Placements.Pairs | 10mm/fuck.js:468-475 | Each entry as the dictionary stores it: letter and position. |
| Placements.RecordStep | 10mm/fuck.js:468-475 | One more entry pushes its position onto its letter's list. |
| Placements.RecordRow | 10mm/fuck.js:468-475 | The forEach over one row extends the dictionary by the row's entries. |
| Placements.FlattenPairs | 10mm/fuck.js:468-475 | One more row appends its pairs. |
| Placements.Plotted | 10mm/fuck.js:568-589 | Each position goes to its press point through the canvas round trip. |
| Placements.LetterTools | 10mm/fuck.js:556-563 | Tool of letter i is its indexOf in possibleChars, labelled with the letter. |
| Placements.LetterGroups | 10mm/fuck.js:552-591 | Each letter's press points; none for a letter without positions. |
| Placements.FirstMissing | 10mm/fuck.js:554-566 | The first letter without positions, where the loop throws: none exactly when all letters have positions. |
| Placements.SessionFacts | 10mm/fuck.js:552-591 | The tools are the letters' indexOf tools. The presses are their groups in order, each press inked, each dip in range. |
| Placements.PlottedAppend | 10mm/fuck.js:566-590 | Plotting distributes over concatenation. |
| Placements.FlattenPlotted | 10mm/fuck.js:552-591 | Rows that plot some letters' groups flatten to the plotted regrouping. |
| Placements.PressedInOrder | 10mm/makeDesign1.js:230-265 | The presses, flattened, are the regrouped positions plotted. |
| Placements.MissingAt | 10mm/fuck.js:554-566 | A letter without positions after letters that all have positions is the first missing one. |
| Placements.SessionGrows | 10mm/fuck.js:552-591 | One more letter: tool change, then inked presses on the next draws. |
| Placements.EmitLetter | 10mm/fuck.js:563-590 | installTool for one letter, then its positions' dips and presses. |
| Placements.EmitStep | 10mm/fuck.js:552-591 | One loop turn extends the rendered session by one letter. |
| Placements.EmittedStep | 10mm/fuck.js:552-591 | The loop invariant is kept by a letter with positions. |
| Placements.EmitNext | 10mm/fuck.js:552-591 | One loop turn keeps the invariant. |
| Placements.EmittedMissing | 10mm/fuck.js:554-566 | The loop stops at the first letter without positions. |
| Placements.EmittedAll | 10mm/fuck.js:552-591 | A loop that went through every letter wrote the whole session. |
| Placements.EmitLetters | 10mm/fuck.js:552-591 | The emission loop fails on the first letter without positions. Otherwise it appends the whole rendered session. |
| WordRows.ScriptSizes | 10mm/fuck.js:59-394 | Every letter of the word list has a charSize entry at least 1 mm wide. |
| WordRows.ScriptWords | 10mm/fuck.js:396 | Every character of the word list is one of its letters. |
| WordRows.ScriptSound | 10mm/fuck.js:11-396 | The script's constants meet the model's assumptions, and no word contains a space. |
| WordRows.DistinctStep | 10mm/fuck.js:399-405 | One more letter joins validLetters only when new. |
| WordRows.CollectWord | 10mm/fuck.js:400-404 | The inner for-of loop adds a word's new letters. |
| WordRows.CollectLetters | 10mm/fuck.js:397-405 | validLetters is the first-seen list of the words' letters. |
| WordRows.FillFrom | 10mm/fuck.js:419-444 | The fill reads draws forward only and emits only sized letters. |
| WordRows.FillStep | 10mm/fuck.js:423-443 | One turn: the letter at x plus its nudge. At a word's end comes the space, a 10 mm skip and a fresh word on the next draw. |
| WordRows.FillingStep | 10mm/fuck.js:423-443 | One turn keeps the fill invariant and takes the measure down. |
| WordRows.FillingDone | 10mm/fuck.js:423 | At the bound the row built is the whole fill. |
| WordRows.FillTurn | 10mm/fuck.js:424-443 | One loop turn, on the invariant. |
| WordRows.FillRow | 10mm/fuck.js:419-444 | The inner while loop yields the specified fill. |
| WordRows.Trimmed | 10mm/fuck.js:447-450 | Trimming succeeds exactly when the row has a space. It keeps a strict prefix ending before the last space and drops nothing but non-spaces after it. |
| WordRows.TrimRow | 10mm/fuck.js:447-450 | The two pop loops; None where the source would read past an empty row. |
| WordRows.CentreRow | 10mm/fuck.js:455-464 | The two forEach passes: sum the widths, then add the offset. |
| WordRows.LinesStep | 10mm/fuck.js:415-477 | One more kept line appends its entries and moves the draw counter on. |
| WordRows.LinesFail | 10mm/fuck.js:447-450 | A line without a space ends the layout with that line's fault. |
| WordRows.LinesErrSticks | 10mm/fuck.js:415-477 | Once a line fails, every longer layout fails the same way. |
| WordRows.LayLine | 10mm/fuck.js:419-464 | One line: fill, trim, centre. |
| WordRows.LaidAll | 10mm/fuck.js:415-477 | After the last line the dictionary is the whole placement. |
| WordRows.AddLine | 10mm/fuck.js:415-477 | One line-loop turn keeps the invariant or reports the fault. |
| WordRows.Layout | 10mm/fuck.js:407-477 | The line loop yields the specified placement or fault. |
| WordRows.Generate | 10mm/fuck.js:397-593 | The script's steps in order. |
| WordRowsFacts.FillPitch | 10mm/fuck.js:423-443 | The fill sets letters edge to edge at their table widths, with a 10 mm skip after each space. |
| WordRowsFacts.FillShape | 10mm/fuck.js:423-443 | Every space follows a letter, every letter starts before the bound, and the fill starts with the drawn word's letter. |
| WordRowsFacts.ShapeCons | 10mm/fuck.js:426-432 | A letter in front of a well-shaped row keeps it well shaped. |
| WordRowsFacts.ShapeCons2 | 10mm/fuck.js:434-441 | A word's last letter and its space in front of a well-shaped row keep it well shaped. |
| WordRowsFacts.PitchedPrefix | 10mm/fuck.js:447-450 | A prefix of a pitched row is pitched. |
| WordRowsFacts.TrimmedShape | 10mm/fuck.js:447-450 | A trimmed row is non-empty, ends with a letter and stays well shaped and pitched. |
| WordRowsFacts.MovedPitched | 10mm/fuck.js:462-464 | Moving by the offset keeps the pitch, shifted by the offset. |
| WordRowsFacts.TableWidthCons | 10mm/fuck.js:455-458 | The total width of a row is its first letter's width plus the rest. |
| WordRowsFacts.MovedWidth | 10mm/fuck.js:455-464 | Moving keeps the total letter width. |
| WordRowsFacts.PitchedEnd | 10mm/fuck.js:455-458 | A pitched row's last letter ends at x plus the total width. |
| WordRowsFacts.CentredLaid | 10mm/fuck.js:455-464 | A trimmed row, centred, is a laid line: the gaps to the paper edges are equal, counting the widths. |
| WordRowsFacts.LineLaid | 10mm/fuck.js:419-464 | Every line the layout keeps is a laid line. |
| WordRowsFacts.Span | 10mm/fuck.js:431-432 | The summed widths of a run of letters are non-negative. |
| WordRowsFacts.FillHasSpace | 10mm/fuck.js:423-450 | The fill contains a space exactly when the current word's letters before its last end inside the usable width. |
| WordRowsFacts.LineKept | 10mm/fuck.js:421-450 | A line is kept exactly when its first word fits. |
| WordRowsFacts.FitsLines | 10mm/fuck.js:415-477 | When every word fits, no line fails. |
| WordRowsFacts.FitsLayout | 10mm/fuck.js:415-477 | Hence the layout succeeds. |
| WordRowsFacts.SpanAtMost | 10mm/fuck.js:431-432 | A run of n letters at most m wide spans at most n·m. |
| WordRowsFacts.NarrowLetters | 10mm/fuck.js:59-394 | The word list's letters are 1 to 6.4 mm wide. |
| WordRowsFacts.ShortWords | 10mm/fuck.js:396 | Every word has 1 to 7 letters. |
| WordRowsFacts.ShortSpan | 10mm/fuck.js:396 | A run of at most 7 such letters spans under 500 mm. |
| WordRowsFacts.ScriptFits | 10mm/fuck.js:396-423 | Every word of the script fits the usable width. |
| WordRowsFacts.ScriptLaysOut | 10mm/fuck.js:407-477 | So the script never pops past an empty row, whatever the draws. |
| WordRowsFacts.ToolpathShape | 10mm/fuck.js:479-593 | With all letters placed: the file is header, session and end, travel-safe, ending with M2. The tools are indexOf tools, the presses the letters' groups in order, inked and in range. |
| WordRowsFacts.PlacedLetters | 10mm/fuck.js:407-591 | The dictionary holds exactly the placed letters with their positions. The output fails exactly when a validLetter was never placed, and names that letter. |
| WordRowsFacts.SpaceNeverPressed | 10mm/fuck.js:397-405 | The space is never a validLetter, so no tool is installed for it. |
| WordRowsFacts.ScriptInkRange | 10mm/fuck.js:529-534 | The ink range is the pad shrunk by 7.5 mm: (829.5, 894.5, 322.5, 287.5). |
| LetterRows.CapitalWidths | 10mm/makeDesign1.js:41-68 | Every capital has a width of at least 3.7 mm. |
| LetterRows.CapitalsUnique | 10mm/makeDesign1.js:41 | possibleChars repeats no letter. |
| LetterRows.ScriptSound | 10mm/makeDesign1.js:11-68 | The script's constants meet the model's assumptions. |
| LetterRows.Drawn | 10mm/makeDesign1.js:127 | The drawn letter is a possible, sized letter. |
| LetterRows.FillingStep | 10mm/makeDesign1.js:125-135 | One turn pushes the drawn letter at (x, y), advances by its width, and takes the measure down. |
| LetterRows.FillingDone | 10mm/makeDesign1.js:125 | At the bound the row built is the whole fill. |
| LetterRows.FillTurn | 10mm/makeDesign1.js:126-134 | One loop turn, on the invariant. |
| LetterRows.FillRow | 10mm/makeDesign1.js:123-135 | The inner while loop yields the specified fill. |
| LetterRows.InsideCons | 10mm/makeDesign1.js:128-132 | A possible letter on line y before the bound, in front of such a row. |
| LetterRows.FillFacts | 10mm/makeDesign1.js:123-135 | Letters are pitched by their widths from x and lie on line y before the bound. The fill stops at or past the bound, reads one draw per letter, and is empty only when x starts past the bound. |
| LetterRows.PitchedLast | 10mm/makeDesign1.js:139 | Where the loop stopped, less the last letter's width, is where that letter starts. |
| LetterRows.CentreRow | 10mm/makeDesign1.js:139-143 | The forEach moves every letter by the offset. |
| LetterRows.LayLine | 10mm/makeDesign1.js:123-143 | One line: fill, then centre. |
| LetterRows.LaidAll | 10mm/makeDesign1.js:119-155 | After the last line the dictionary is the whole placement. |
| LetterRows.LinesStep | 10mm/makeDesign1.js:119-155 | One more line appends its entries and moves the draw counter on. |
| LetterRows.AddLine | 10mm/makeDesign1.js:119-155 | One line-loop turn keeps the invariant. |
| LetterRows.Layout | 10mm/makeDesign1.js:111-155 | The line loop yields the specified placement. |
| LetterRows.Generate | 10mm/makeDesign1.js:111-267 | The script's steps in order. |
| LetterRowsFacts.MovedPitched | 10mm/makeDesign1.js:141-143 | Moving keeps the pitch, shifted by the offset. |
| LetterRowsFacts.LineLaid | 10mm/makeDesign1.js:123-143 | Every line is non-empty and moved by (width − last x)/2. The gap from the left edge to the first letter equals the gap from the last letter's start to the right edge. One draw is read per letter. |
| LetterRowsFacts.LineDraws | 10mm/makeDesign1.js:123-143 | A line is laid and reads one draw per letter. |
| LetterRowsFacts.LinesCount | 10mm/makeDesign1.js:119-155 | k lines, and one draw per letter placed. |
| LetterRowsFacts.StackedSnoc | 10mm/makeDesign1.js:154 | One more laid line at the next height keeps the lines stacked. |
| LetterRowsFacts.LinesAt | 10mm/makeDesign1.js:119-155 | Each line is laid at yOffset + k·lineHeight. |
| LetterRowsFacts.PlacedPossible | 10mm/makeDesign1.js:127-153 | Every placement is a letter of possibleChars. |
| LetterRowsFacts.OutputFails | 10mm/makeDesign1.js:230-244 | The output fails exactly when some possible letter was never drawn, and names the first such letter. |
| LetterRowsFacts.ToolpathShape | 10mm/makeDesign1.js:157-267 | On success: the file is header, session and end, travel-safe, ending with M2. Tool i is possibleChars[i]. The presses are a permutation of all placements, grouped letter by letter, inked and in range. |
| LetterRowsFacts.LetterPresses | 10mm/makeDesign1.js:244-263 | Letter i's presses are its placements, each at (x + 0.5, H − (y + 3.7)). |
| LetterRowsFacts.ScriptLines | 10mm/makeDesign1.js:115-120 | rows = 25, the line loop runs 26 times, and yOffset = 23.5. |
| LetterRowsFacts.ScriptInkRange | 10mm/makeDesign1.js:207-212 | The ink range is the pad shrunk by 7.5 mm: (297.5, 362.5, 156.5, 121.5). |
| Wave.LineDecreases | love-notes/makeDesign.js:83 | A line height of at least one unit takes the outer measure down. |
| Wave.StepDecreases | love-notes/makeDesign.js:77 | A step of at least one unit takes the inner measure down. |
| Wave.LineStep | love-notes/makeDesign.js:64-79 | One step: the stamp at x, then the line from x + stampOffset·stepMod. |
| Wave.FillStep | love-notes/makeDesign.js:64-79 | One inner turn keeps the built line a prefix of the whole line. |
| Wave.FillLine | love-notes/makeDesign.js:64-79 | The inner loop yields the specified line and end x. |
| Wave.LayoutStep | love-notes/makeDesign.js:61-87 | One outer turn keeps the built lines a prefix of the page. The next line starts at the left plus the overshoot. |
| Wave.LayoutDone | love-notes/makeDesign.js:61 | Past the bottom edge the page has no more lines. |
| Wave.Layout | love-notes/makeDesign.js:61-87 | The two nested loops yield the specified page. |
| Wave.LineMarks | love-notes/makeDesign.js:64-72 | Stamp k of a line carries letter n + k, sits on the line's y and starts before the right edge. The first stamp sits at x. |
| Wave.SpacingCons | love-notes/makeDesign.js:77 | A mark in front of a spaced line starting one step to its right. |
| Wave.LineSpacing | love-notes/makeDesign.js:73-77 | Each stamp lies stampOffset·stepMod right of the one before. |
| Wave.LineEnd | love-notes/makeDesign.js:64-79 | The line is empty exactly when x starts past the edge. The end x is the last stamp plus one step, at or past the right edge. |
| Wave.CarryBound | love-notes/makeDesign.js:84 | The overshoot carried to the next line is below two stamp offsets. |
| Wave.WaveStep | love-notes/makeDesign.js:61-87 | The page is the current line, then the page from the next line. |
| Wave.WaveRows | love-notes/makeDesign.js:61-87 | Line j lies j line heights below the first, above the bottom edge. |
| Wave.RowsCons | love-notes/makeDesign.js:83-86 | A line at y in front of lines stepped from y + h. |
| Wave.WaveStarts | love-notes/makeDesign.js:84 | Every line is non-empty, and every line after the first starts within two stamp offsets of the left start. |
| Wave.WaveCovers | love-notes/makeDesign.js:61 | The page stops at the first line height at or past the bottom edge. |
| Wave.StepBounds | love-notes/makeDesign.js:73-77 | A step lies between one and two stamp offsets. |
| Wave.LinePaced | love-notes/makeDesign.js:64-79 | Every line is paced: letters from the set, stepped by one to two offsets. |
| Wave.WavePaced | love-notes/makeDesign.js:61-87 | Every line of the page is paced. |
| Wave.LineAtLeast | love-notes/makeDesign.js:64-79 | A line from x with k double steps of room holds more than k stamps. |
| Wave.WaveLong | love-notes/makeDesign.js:61-87 | With room for k double steps, every line holds more than k stamps. |
| LoveNotes.Stamped | love-notes/makeDesign.js:66-71 | Each placement becomes a stamp with reInk and doubleTap false. |
| LoveNotes.StampLines | love-notes/makeDesign.js:86 | Every line converted. |
| LoveNotes.LettersOf | love-notes/makeDesign.js:95 | The letters of a run, pointwise. |
| LoveNotes.LettersAppend | love-notes/makeDesign.js:92-99 | The letters of a + b are those of a then b. |
| LoveNotes.ListStep | love-notes/makeDesign.js:94-97 | One inner turn appends the letter only when new. |
| LoveNotes.CollectLine | love-notes/makeDesign.js:93-97 | The inner loop over one line extends the first-seen letter list from the earlier lines to include that line. |
| LoveNotes.CollectLetters | love-notes/makeDesign.js:90-99 | The nested loops give the first-seen letter list of the page. |
| LoveNotes.OccurrencesSnoc | love-notes/makeDesign.js:112-115 | One more stamp counts once when it has the letter. |
| LoveNotes.OccurrencesAppend | love-notes/makeDesign.js:109-117 | Occurrences of a + b are those of a plus those of b. |
| LoveNotes.OccurrencesCount | love-notes/makeDesign.js:109-117 | The count is the letter's multiplicity among the letters. |
| LoveNotes.MarkRow | love-notes/makeDesign.js:111-116 | The toggle keeps a row's length. |
| LoveNotes.MarkAll | love-notes/makeDesign.js:109-117 | The toggle keeps the page's length. |
| LoveNotes.MarkStep | love-notes/makeDesign.js:112-115 | Stamp k of the letter gets reInk exactly when seen + its rank is even; others are untouched. |
| LoveNotes.MarkLineStep | love-notes/makeDesign.js:112-115 | One innermost turn keeps the marked-prefix invariant. |
| LoveNotes.MarkLine | love-notes/makeDesign.js:111-116 | The innermost loop marks the row, and the toggle's value is the parity of the count so far. |
| LoveNotes.MarkLetter | love-notes/makeDesign.js:106-117 | One letter's pass over the page, the toggle starting true. |
| LoveNotes.ReInkPass | love-notes/makeDesign.js:105-118 | The pass over letterList. |
| LoveNotes.Spelled | love-notes/makeDesign.js:131-136 | The word's letters written over the run. |
| LoveNotes.OverwriteAt | love-notes/makeDesign.js:131-140 | Stamp k of the forced line: a word letter (reInk, doubleTap), a neighbour (reInk false), or untouched. |
| LoveNotes.ForceWord | love-notes/makeDesign.js:121-140 | The forced-word loop and the two writes around the word. |
| LoveNotes.Keyed | love-notes/makeDesign.js:220 | Each stamp tagged with its letter. |
| LoveNotes.KeyedAppend | love-notes/makeDesign.js:214-235 | Tagging distributes over concatenation. |
| LoveNotes.MatchingAppend | love-notes/makeDesign.js:214-235 | The stamps of c in a + b are those in a then in b. |
| LoveNotes.MatchingSnoc | love-notes/makeDesign.js:220 | One more stamp matches when it has the letter. |
| LoveNotes.Visits | love-notes/makeDesign.js:217-233 | One visit entry per stamp. |
| LoveNotes.TapsAppend | love-notes/makeDesign.js:217-233 | The actions of a + b: a's, then b's on the ink points after a's. |
| LoveNotes.RenderTaps | love-notes/makeDesign.js:217-233 | Likewise for the rendered code. |
| LoveNotes.RenderOne | love-notes/makeDesign.js:224-226 | One action renders to its block. |
| LoveNotes.RenderStamp | love-notes/makeDesign.js:224-226 | A stamp renders to: ink when reInk; the press at (x, H − y); a second press at the ink point when doubleTap. |
| LoveNotes.EmitStamp | love-notes/makeDesign.js:224-226 | The three conditional writes for one stamp. |
| LoveNotes.TapsSnoc | love-notes/makeDesign.js:217-233 | One more stamp visited, at the next ink point. |
| LoveNotes.RowStep | love-notes/makeDesign.js:217-220 | One innermost turn matches the stamp when it has the letter. |
| LoveNotes.EmitMatch | love-notes/makeDesign.js:222-226 | A matching stamp writes its dip when reInk holds, its press at (x, height - y), and the second press when doubleTap holds. |
| LoveNotes.TapsGrow | love-notes/makeDesign.js:217-233 | Writing one more matching stamp after the earlier ones gives the output of the longer list of matches. |
| LoveNotes.EmitRow | love-notes/makeDesign.js:217-234 | The innermost loop writes every stamp of c of the line and counts them. |
| LoveNotes.LinesStep | love-notes/makeDesign.js:214-235 | One more line appends its matching stamps. |
| LoveNotes.EmitLetter | love-notes/makeDesign.js:214-235 | The two inner loops write every stamp of c in row-major order. |
| LoveNotes.NotesStep | love-notes/makeDesign.js:205-236 | One more letter: tool i + 1, then its stamps on the next ink points. |
| LoveNotes.Emit | love-notes/makeDesign.js:187-239 | The emission writes header, tool-by-tool stamps and end. |
| LoveNotes.FlattenLength | love-notes/makeDesign.js:86 | One more line adds its length to the stamp count. |
| LoveNotes.Generate | love-notes/makeDesign.js:57-239 | The script's steps in order. |
| LoveNotesFacts.WordLetters | love-notes/makeDesign.js:65 | The set of the word's letters, both ways. |
| LoveNotesFacts.LettersDrawn | love-notes/makeDesign.js:65 | Every draw picks a letter of the word. |
| LoveNotesFacts.PageLines | love-notes/makeDesign.js:61-87 | The page has 13 lines, and the forced line is line 4. |
| LoveNotesFacts.LayoutStamps | love-notes/makeDesign.js:61-87 | Every stamp is a word letter left of 277 mm. Line j is at y = 20 + 13.32·j, below 190. Nothing is re-inked or double-tapped yet. |
| LoveNotesFacts.LayoutSpacing | love-notes/makeDesign.js:73-77 | Neighbouring stamps are 6.66 to 13.32 mm apart. |
| LoveNotesFacts.LayoutStarts | love-notes/makeDesign.js:61-87 | Every line is non-empty. The first starts at 20 mm, the others within [20, 33.32). |
| LoveNotesFacts.LetterListOrder | love-notes/makeDesign.js:90-99 | letterList holds exactly the page's letters, once each, in first-seen order. |
| LoveNotesFacts.FlattenContains | love-notes/makeDesign.js:92-99 | Every stamp is in the flattened page. |
| LoveNotesFacts.Listed | love-notes/makeDesign.js:90-99 | Every letter of the page is in letterList. |
| LoveNotesFacts.FlatLetters | love-notes/makeDesign.js:105-118 | Pages with the same letters flatten to the same letters. |
| LoveNotesFacts.RankSame | love-notes/makeDesign.js:105-118 | A stamp's rank among its letter depends on the letters only. |
| LoveNotesFacts.MarkAllAt | love-notes/makeDesign.js:105-118 | After one letter's pass, stamp (j, k) of that letter has reInk exactly when its rank is even; others are untouched. |
| LoveNotesFacts.MarkAllLetters | love-notes/makeDesign.js:105-118 | The pass changes no letter. |
| LoveNotesFacts.AlternatingStep | love-notes/makeDesign.js:105-118 | One more letter's pass extends the alternation invariant. |
| LoveNotesFacts.ReInkParity | love-notes/makeDesign.js:105-118 | After the pass over any letters, each of their stamps alternates. |
| LoveNotesFacts.ScriptReInk | love-notes/makeDesign.js:105-118 | Over letterList, every stamp keeps its letter and gets reInk exactly on its letter's 1st, 3rd, 5th … occurrence. |
| LoveNotesFacts.ForcedLine | love-notes/makeDesign.js:121-140 | The word starts |line| − (|word| + 4) into line 4. Its letters are re-inked and double-tapped, its two neighbours are not re-inked, and every other stamp and line is unchanged. |
| LoveNotesFacts.MatchingCount | love-notes/makeDesign.js:214-235 | The stamps of c are exactly the page's stamps of c, with multiplicity. |
| LoveNotesFacts.VisitedCount | love-notes/makeDesign.js:205-236 | The emission visits each stamp of a listed letter as often as it occurs, and stamps of unlisted letters never. |
| LoveNotesFacts.StampTools | love-notes/makeDesign.js:224-226 | A stamp installs no tool. |
| LoveNotesFacts.TapsTools | love-notes/makeDesign.js:217-233 | A run of stamps installs no tool. |
| LoveNotesFacts.NotesTools | love-notes/makeDesign.js:205-209 | The tools are 1, 2, … for the letters in letterList order. |
| LoveNotesFacts.DipsAppend | love-notes/makeDesign.js:221-224 | In-range dips stay in range under concatenation. |
| LoveNotesFacts.InksInRange | love-notes/makeDesign.js:221-222 | Every ink point lies in a non-empty ink range. |
| LoveNotesFacts.TapsDips | love-notes/makeDesign.js:221-224 | A run's dips lie in the range. |
| LoveNotesFacts.NotesDips | love-notes/makeDesign.js:205-236 | Every dip of the emission lies in the ink range. |
| LoveNotesFacts.ScriptInkRange | love-notes/makeDesign.js:179-184 | The ink range is the pad shrunk by 15 mm: (333, 376, 27, 21). |
| LoveNotesFacts.ScriptFails | love-notes/makeDesign.js:121-140 | The script fails exactly on an empty word, or when line 4 is shorter than |word| + 5 (an out-of-range write). |
| LoveNotesFacts.ForcedDoubleTaps | love-notes/makeDesign.js:131-140 | No stamp moves, and exactly the word's stamps are double-tapped. |
| LoveNotesFacts.ScriptDoubleTaps | love-notes/makeDesign.js:61-140 | On the final page no stamp has moved, and exactly the word's stamps on line 4 are double-tapped. |
| LoveNotesFacts.ScriptToolpath | love-notes/makeDesign.js:142-239 | The file is header, session and end, travel-safe, ending with M2. Tool i + 1 is letterList[i], and every dip is in range. Each stamp of a listed letter is visited as often as it occurs. |
| Aaaaaggggh.Kept | aaaaaggggh/index.js:81 | The slice end −length/4, truncated toward zero, keeps at most the whole line. |
| Aaaaaggggh.Renamed | aaaaaggggh/index.js:93 | The run with every letter set to c. |
| Aaaaaggggh.RelabelNone | aaaaaggggh/index.js:90 | Nothing left to relabel leaves the page alone. |
| Aaaaaggggh.RelabelStep | aaaaaggggh/index.js:90-97 | The outer turn on line i relabels its last min(count, |line|) stamps. |
| Aaaaaggggh.RenameStep | aaaaaggggh/index.js:92-95 | The inner turn relabels stamp i. |
| Aaaaaggggh.RelabelStart | aaaaaggggh/index.js:87-88 | The outer invariant holds from the last line. |
| Aaaaaggggh.OuterStep | aaaaaggggh/index.js:90-97 | The outer invariant is kept once line i is done. |
| Aaaaaggggh.RelabelEnd | aaaaaggggh/index.js:90 | The loop stopping on nothing left or no line left gives the relabelled page. |
| Aaaaaggggh.Untouched | aaaaaggggh/index.js:91 | The line being relabelled is still the original. |
| Aaaaaggggh.RelabelExit | aaaaaggggh/index.js:92-95 | When the inner loop stops, the line has its last min(r, |l|) stamps relabelled and r - min(r, |l|) left to do. |
| Aaaaaggggh.RelabelLine | aaaaaggggh/index.js:92-95 | The inner for loop relabels the last min(r, |l|) stamps from the end. |
| Aaaaaggggh.SetLastLetters | aaaaaggggh/index.js:86-99 | setLastLetters relabels the last count stamps in row-major order, line by line from the end. |
| Aaaaaggggh.LettersOf | aaaaaggggh/index.js:109 | The letters of a run, pointwise. |
| Aaaaaggggh.ListStep | aaaaaggggh/index.js:108-111 | One inner turn appends the letter only when new. |
| Aaaaaggggh.CollectLine | aaaaaggggh/index.js:107-111 | The inner loop over one line extends the first-seen letter list from the earlier lines to include that line. |
| Aaaaaggggh.CollectLetters | aaaaaggggh/index.js:104-113 | The nested loops give the first-seen letter list. |
| Aaaaaggggh.Pressed | aaaaaggggh/index.js:195 | Each stamp with its press point (x, H − y). |
| Aaaaaggggh.ToolList | aaaaaggggh/index.js:182 | installTool(i + 1, letter i). |
| Aaaaaggggh.Targeted | aaaaaggggh/index.js:179-201 | Letter i's press points in row-major order. |
| Aaaaaggggh.PressedAppend | aaaaaggggh/index.js:185-200 | Press points distribute over concatenation. |
| Aaaaaggggh.PressSnoc | aaaaaggggh/index.js:192-195 | One more press: its dip on the next two draws, then the press. |
| Aaaaaggggh.InkedAppend | aaaaaggggh/index.js:185-200 | The presses of a + b: a's, then b's on the draws after a's. |
| Aaaaaggggh.SelectStep | aaaaaggggh/index.js:189-191 | One innermost turn matches the stamp when it has the letter. |
| Aaaaaggggh.EmitRow | aaaaaggggh/index.js:188-199 | The innermost loop writes every stamp of c of the line, two draws each. |
| Aaaaaggggh.TargetStep | aaaaaggggh/index.js:185-200 | One more line appends its matching stamps. |
| Aaaaaggggh.InkedRender | aaaaaggggh/index.js:185-200 | Likewise for the rendered code. |
| Aaaaaggggh.EmitLetter | aaaaaggggh/index.js:185-200 | The two inner loops write every stamp of c in row-major order. |
| Aaaaaggggh.Emit | aaaaaggggh/index.js:160-204 | The emission writes header, tool-by-tool presses and end. |
| Aaaaaggggh.Generate | aaaaaggggh/index.js:44-204 | The script's steps in order. |
| AaaaagggghFacts.KeptFacts | aaaaaggggh/index.js:81 | Lines of 1 to 3 stamps are cut to nothing (the −0 end). Longer lines lose ⌊length/4⌋ stamps and keep at least three quarters. |
| AaaaagggghFacts.TruncatedFlat | aaaaaggggh/index.js:81 | Shortening the last line cuts the tail off the page in row-major order. |
| AaaaagggghFacts.RenameTail | aaaaaggggh/index.js:86-99 | Relabelling a tail keeps the length. |
| AaaaagggghFacts.RenameTailAt | aaaaaggggh/index.js:86-99 | Exactly the last min(count, |s|) stamps get the letter. |
| AaaaagggghFacts.RenameTailSnoc | aaaaaggggh/index.js:90-97 | One more line in front of a relabelled tail. |
| AaaaagggghFacts.RenamedLine | aaaaaggggh/index.js:92-95 | Relabelling keeps the places of a line. |
| AaaaagggghFacts.SamePlacesSnoc | aaaaaggggh/index.js:90-97 | Same places extend line by line. |
| AaaaagggghFacts.RelabelShape | aaaaaggggh/index.js:86-99 | Relabelling changes letters only. |
| AaaaagggghFacts.RelabelFlat | aaaaaggggh/index.js:86-99 | setLastLetters is relabelling the last count stamps of the row-major page. |
| AaaaagggghFacts.RelabelLast | aaaaaggggh/index.js:86-99 | The last line is relabelled first, from its end, and what is left of the count passes to the lines above. |
| AaaaagggghFacts.LastSix | aaaaaggggh/index.js:101-102 | After both calls, all but the last six are unchanged, then four are 'G', then two 'H'. |
| AaaaagggghFacts.ScriptPage | aaaaaggggh/index.js:44-78 | 9 lines of at least 14 'A' stamps. The first starts at 30 and the others within [30, 46). Line j is at y = 30 + 18·j, every stamp left of 267, neighbours 8 to 16 mm apart. |
| AaaaagggghFacts.FlatAllOf | aaaaaggggh/index.js:58-59 | A page all of letter c flattens to c stamps. |
| AaaaagggghFacts.ScriptStamps | aaaaaggggh/index.js:81-102 | The cut page loses ⌊|last|/4⌋ stamps from the end and keeps at least 14. The final page has the same places, with the A…AGGGGHH pattern. |
| AaaaagggghFacts.DistinctSeen | aaaaaggggh/index.js:104-113 | Keys already seen add nothing to the first-seen list. |
| AaaaagggghFacts.DistinctBlock | aaaaaggggh/index.js:104-113 | A block of one new key adds it once. |
| AaaaagggghFacts.DistinctThree | aaaaaggggh/index.js:104-113 | Three blocks of three keys list the keys in block order. |
| AaaaagggghFacts.DistinctUniform | aaaaaggggh/index.js:104-113 | A block of one key has that key alone. |
| AaaaagggghFacts.PatternLetters | aaaaaggggh/index.js:104-113 | The final pattern's letters are A, G, H. |
| AaaaagggghFacts.ScriptLetters | aaaaaggggh/index.js:104-113 | letterList is exactly [A, G, H]. |
| AaaaagggghFacts.Select3 | aaaaaggggh/index.js:185-199 | Selecting from three letter blocks gives each block's values. |
| AaaaagggghFacts.Values3 | aaaaaggggh/index.js:185-199 | Values distribute over three blocks. |
| AaaaagggghFacts.PressOrder | aaaaaggggh/index.js:179-201 | Pressing letter by letter gives the stamps in row-major order. |
| AaaaagggghFacts.ScriptInkRange | aaaaaggggh/index.js:152-157 | The ink range is the pad shrunk by 15 mm: (330, 375, 39, 21). |
| AaaaagggghFacts.ScriptToolpath | aaaaaggggh/index.js:160-204 | The file is header, session and end, travel-safe, ending with M2. The tools are 1 A, 2 G, 3 H. Press i is stamp i of the final page at (x, H − y), each inked and each dip in range. |
| FlowField.Fit | flowfields/field5-stamp.js:121-122 | Math.floor((extent − 2·border)/size): n stamps fit and n + 1 do not. |
| FlowField.NoiseGrid | flowfields/field5-stamp.js:150-152 | One noise value per cell, columns × rows. |
| FlowField.ScanStep | flowfields/field5-stamp.js:153-154 | One more value lowers the minimum or raises the maximum when beyond it. |
| FlowField.ScanRange | flowfields/field5-stamp.js:148-156 | The first double loop yields the specified minimum and maximum. |
| FlowField.Normal | flowfields/field5-stamp.js:171-172 | The two while loops give an angle in [0, 360] that differs from the input by whole turns. It is the input when already in range, below 360 from below, and above 0 from above. |
| FlowField.SameTurn | flowfields/field5-stamp.js:171-172 | Two whole-turn images closer than a turn are the same. |
| FlowField.NormalByTurn | flowfields/field5-stamp.js:171-172 | Those properties determine the normalised angle. |
| FlowField.Normalise | flowfields/field5-stamp.js:171-172 | The two while loops compute Normal. |
| FlowField.SectorIndex | flowfields/field5-stamp.js:175-185 | The sector index is a valid index into the 24 directions. |
| FlowField.Angle | flowfields/field5-stamp.js:170-172 | A cell's angle, when defined, lies in [0, 360]. |
| FlowField.Tagged | flowfields/field5-stamp.js:160-164 | Every cell's key and centre, column by column. |
| FlowField.CellKey | flowfields/field5-stamp.js:170-190 | One cell's key: the normalised, quantised angle, or None (NaN) for a flat field. |
| FlowField.CellStep | flowfields/field5-stamp.js:190-197 | One inner turn pushes the cell's centre onto its key's list. |
| FlowField.GroupColumn | flowfields/field5-stamp.js:161-197 | One column of the second double loop pushes each cell's centre onto its key's list, giving the dictionary of the cells so far. |
| FlowField.GroupCells | flowfields/field5-stamp.js:160-212 | The second double loop builds the specified dictionary. |
| FlowField.Present | flowfields/field5-stamp.js:278 | The listed directions that have a group: a subsequence, all present keys. |
| FlowField.Order | flowfields/field5-stamp.js:278 | The for..in order lists only keys of the map. |
| FlowField.InOrder | flowfields/field5-stamp.js:278-282 | The groups in visiting order. |
| FlowField.InkBefore | flowfields/field5-stamp.js:280-286 | Before press n comes at most one action, and it is a dip (only when shallWeInk holds, i.e. n even). |
| FlowField.TagKinds | flowfields/field5-stamp.js:158-170 | A cell's key is None exactly when the noise range is zero. |
| FlowField.OrderFits | flowfields/field5-stamp.js:278 | At most one group per direction, or the single NaN group. |
| FlowField.PresentNone | flowfields/field5-stamp.js:278 | A map with only the NaN key has no direction present. |
| FlowField.OnlyNone | flowfields/field5-stamp.js:191-197 | All cells keyed NaN make NaN the only key. |
| FlowField.Grouped | flowfields/field5-stamp.js:278-282 | At most 24 groups are emitted. |
| FlowField.AlternateStep | flowfields/field5-stamp.js:282-289 | One press: the dip when shallWeInk (even k), then the press at the point divided by sizeMod. |
| FlowField.EmitGroup | flowfields/field5-stamp.js:280-289 | The inner loop writes the alternating presses and reads two draws per point. |
| FlowField.GroupStep | flowfields/field5-stamp.js:280-289 | One point of the inner loop keeps the alternation: a dip before the press when shallWeInk is set, the toggle flipped, two draws used. |
| FlowField.FieldStep | flowfields/field5-stamp.js:277-292 | One more group: installTool(index, directions[index]), then its presses. |
| FlowField.Emit | flowfields/field5-stamp.js:264-294 | The emission writes header, groups and end. |
| FlowField.Generate | flowfields/field5-stamp.js:148-294 | The script's steps in order. |
| FlowFieldFacts.GridCentred | flowfields/field5-stamp.js:121-126 | The grid is centred: twice the margin plus n stamps is the extent, and the margin is within half a stamp of the border. |
| FlowFieldFacts.ScriptGrid | flowfields/field5-stamp.js:121-126 | The script grid is 70 × 51 with 300-unit margins. |
| FlowFieldFacts.CentreFacts | flowfields/field5-stamp.js:163-164 | Centres lie half a stamp inside the frame, and distinct cells have distinct centres. |
| FlowFieldFacts.LowFacts | flowfields/field5-stamp.js:148-156 | minNoise is at most every value and is one of them, or 1000 for no values. |
| FlowFieldFacts.HighFacts | flowfields/field5-stamp.js:148-156 | maxNoise is at least every value and is one of them, or −1000 for no values. |
| FlowFieldFacts.RawRange | flowfields/field5-stamp.js:170 | Between the extremes, the raw angle lies in [rot, rot + 360]. |
| FlowFieldFacts.SectorIff | flowfields/field5-stamp.js:175-185 | The sector index is k exactly when the angle is within half a sector of k·15°, wrapping at 0/360 for k = 0. |
| FlowFieldFacts.ValuesAppend | flowfields/field5-stamp.js:160-197 | Values distribute over concatenation. |
| FlowFieldFacts.ValuesFlatten | flowfields/field5-stamp.js:160-197 | Values distribute over flattening. |
| FlowFieldFacts.TaggedCentres | flowfields/field5-stamp.js:160-197 | The tagged cells' centres are every grid centre, column by column. |
| FlowFieldFacts.TaggedKeys | flowfields/field5-stamp.js:190 | Every key is NaN or one of the 24 directions. |
| FlowFieldFacts.PresentHas | flowfields/field5-stamp.js:278 | A listed direction with a group is present. |
| FlowFieldFacts.PresentSorted | flowfields/field5-stamp.js:278 | Present directions come in ascending order, once each. |
| FlowFieldFacts.OrderKeys | flowfields/field5-stamp.js:278 | For a dictionary keyed by directions and NaN, the visiting order lists each key once, holds exactly the dictionary's keys, and has the integer keys ascending. |
| FlowFieldFacts.OrderFacts | flowfields/field5-stamp.js:278 | for..in visits every key once: integer keys ascending, then the NaN key last. |
| FlowFieldFacts.InOrderFlat | flowfields/field5-stamp.js:278-282 | The visited groups flattened are the regrouped values. |
| FlowFieldFacts.GroupsPartition | flowfields/field5-stamp.js:160-197 | The visited groups are a permutation of all grid centres. |
| FlowFieldFacts.FlatField | flowfields/field5-stamp.js:158-197 | A flat noise field (zero range) gives a single NaN group holding every centre. |
| FlowFieldFacts.Papered | flowfields/field5-stamp.js:287 | Each point divided by sizeMod, pointwise. |
| FlowFieldFacts.PaperedAppend | flowfields/field5-stamp.js:287 | Dividing distributes over concatenation. |
| FlowFieldFacts.PaperedSnoc | flowfields/field5-stamp.js:287 | One more point adds its paper point. |
| FlowFieldFacts.AlternateLength | flowfields/field5-stamp.js:282-289 | A group of n points gives n presses and (n + 1) / 2 dips. |
| FlowFieldFacts.AlternateHitAt | flowfields/field5-stamp.js:287 | Press k of a group is action k + k/2 + 1 and presses point k on paper. |
| FlowFieldFacts.AlternateDipAt | flowfields/field5-stamp.js:280-286 | For even k, action k + k/2 is the dip at the ink point of draws d0 + 2k and d0 + 2k + 1. |
| FlowFieldFacts.AlternateAt | flowfields/field5-stamp.js:282-289 | Press k is at action k + k/2 + 1. For even k, a dip at the ink point of draws d0 + 2k and d0 + 2k + 1 comes just before it. |
| FlowFieldFacts.DipsAppend | flowfields/field5-stamp.js:283-286 | In-range dips stay in range under concatenation. |
| FlowFieldFacts.AlternateSnoc | flowfields/field5-stamp.js:282-289 | One more point adds its press, with or without a dip. |
| FlowFieldFacts.AlternateHits | flowfields/field5-stamp.js:282-289 | A group presses exactly its points on paper, and installs no tool. |
| FlowFieldFacts.AlternateDips | flowfields/field5-stamp.js:283-286 | A group's dips lie in a non-empty ink range. |
| FlowFieldFacts.Labels | flowfields/field5-stamp.js:279 | Tool i is labelled directions[i]. |
| FlowFieldFacts.FieldHits | flowfields/field5-stamp.js:277-292 | The emission presses all groups' points in visiting order, and installs tools 0, 1, … labelled directions[0], directions[1], …. |
| FlowFieldFacts.FieldDips | flowfields/field5-stamp.js:277-292 | Every dip lies in the ink range. |
| FlowFieldFacts.PresentPrefix | flowfields/field5-stamp.js:278 | Present over a prefix of directions is a prefix of Present. |
| FlowFieldFacts.PresentCount | flowfields/field5-stamp.js:278 | Present over the first i + 1 directions has i + 1 keys exactly when all of them have a group. |
| FlowFieldFacts.PresentAt | flowfields/field5-stamp.js:278 | Key i of the present-direction order is some ds[t] with exactly i present keys before t. |
| FlowFieldFacts.LabelOwn | flowfields/field5-stamp.js:278-279 | If group i is labelled with its own direction, every direction up to i has a group. |
| FlowFieldFacts.LabelAll | flowfields/field5-stamp.js:278-279 | If every direction up to i has a group, group i gets its own label. |
| FlowFieldFacts.LabelMatches | flowfields/field5-stamp.js:278-279 | Group i carries its own direction's label exactly when no lower direction is missing. |
| FlowFieldFacts.PresentSingle | flowfields/field5-stamp.js:278 | A map with only direction 3 presents only direction 3. |
| FlowFieldFacts.LabelOffset | flowfields/field5-stamp.js:278-279 | An illustration of the offset labels: when only direction 3 occurs, its group is installed as tool 0 labelled direction 1. The general fact is `FlowFieldFacts.LabelMatches`. |
| FlowFieldFacts.ScriptInkRange | flowfields/field5-stamp.js:220-225 | The ink range is the pad shrunk by stampSize / sizeMod · 0.75 = 7.5 canvas units: (809.5, 868.5, 282.5, 257.5). |
| FlowFieldFacts.ScriptToolpath | flowfields/field5-stamp.js:148-294 | The file is header, groups and end on the canvas-sized paper, travel-safe, ending with M2. The tools are the label sequence. The presses are the grouped centres on paper, a permutation of every grid centre, and every dip is in range. |

## Left out

- Files, the command line, the preview canvas and images, console output and the used-letters text file: only the G-code the scripts write is modelled.
- The G-code text: commands are a datatype. Number formatting, the creation-time stamp of the header and the exact comment spacing are not modelled.
- Floating point: millimetres are mathematical reals. IEEE rounding is not modelled, so the canvas round trips of letterpress/index.js (mm to pixels and back) and of the 10 mm scripts are exact; `Stamping.CanvasRoundTrip` states the 10 mm one as a fixed offset.
- Math.random is the parameter `rand: nat -> Draw`, indexed by a draw counter, with draws in [0, 1). Each script's draws are consumed in the source's order. Draws made before a layout (wave offsets, the starting counter, the flow field's offsets, scale and rotation) are not indexed: their effect enters as other parameters.
- Math.sin: the wave step modifier (waveOne + waveTwo + 1) is the parameter `step: nat -> StepMod`, any value in [1, 2] per placement; the sine formula itself is not modelled.
- The flow field's noise function is the parameter `noise`, one real per grid cell; its x/y offsets and map scale are folded into it.
- Strings: `toUpperCase` of letterpress/index.js is not modelled. The input is taken as already upper-cased.
- letterpress/index.js reads its config, font and input files. Config and font are the parameters `Config` and `Font`, whose JSON parsing is not modelled. The input text is the parameter `input` of `LetterpressStamps.Letterpress`.
- The 10 mm scripts read no files: their letter-width tables, word list and page constants are inline (10mm/fuck.js:58, 10mm/fuck.js:396, 10mm/makeDesign1.js:42). The model generalises these tables to the parameter `Design`. The constants `WordRows.Script` and `LetterRows.Script` hold the scripts' own values, and `WordRows.ScriptSound` and `LetterRows.ScriptSound` state that those values meet the model's assumptions.
- Crashes: a lookup of an undefined glyph or a missing space glyph in letterpress/index.js is a precondition (`' ' in font.glyphs`, known glyphs after filtering). Other throws and divisions by zero are `Result` errors: the 10 mm forEach over a letter without positions, love-notes' out-of-range writes and empty word, the pop past an empty row, justified one-glyph rows, and fill on a one-row page.
- Loop termination: the wave and fill loops require steps and line heights of at least one unit (the scripts use 6.66, 8, 10, 13.32 and 18 mm), so every loop terminates.
- In-place mutation: rows and lines that the scripts mutate in place (shift, the alignment forEach, letter.y, reInk writes, setLastLetters, the forced word) are modelled as sequences that the methods rebuild and return. Aliasing between rows is not modelled; the scripts build fresh rows, so nothing is lost.
- love-notes/makeDesign.js: reInk is undefined only until the re-ink pass, which sets it on every stamp, since every letter of the page is in letterList by then (`LoveNotes.Stamped` starts it at false, and the pass overwrites it). A forced letter outside letterList carries reInk = true and is never stamped (`LoveNotesFacts.VisitedCount`).
- love-notes/makeDesign.js: the double tap presses at the ink point (inkX, inkY), as the source does, not at the stamp's own place (`LoveNotes.RenderStamp`).
- flowfields/field5-stamp.js: a zero noise range makes every angle NaN. NaN is the key `None` (the object key "undefined"). JavaScript's for..in order is modelled as integer keys ascending, then "undefined".
- flowfields/field5-stamp.js: the tool label is directions[index], the position in visiting order, not the group's own direction. When a lower direction has no group the labels are offset; this is modelled as written (`FlowFieldFacts.LabelMatches`, `FlowFieldFacts.LabelOffset`).
- flowfields/field5-stamp.js: the header's paper size is the canvas size (7600 × 5700), as the source prints it.
- flowfields/field3.js and field4.js are preview-only variants without G-code output and are not part of this model.
- FlowFieldFacts.ScriptGrid: the grid counts are stated for the script's constants only. The general floor property is `FlowField.Fit`.
