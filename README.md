# Tuck box designer: a verified model of the die-line generator

The tuck box designer draws the flat die-line of a playing-card carton: the
outline to cut, the inner cuts that free the flaps, the dashed score lines
to fold, each face's artwork clipped to the outline, and each face's
label word-wrapped and turned to read along its panel. This project models
the core of that program in Dafny and proves what the drawing promises.

The modules follow the source files.

- `Units` (convert.dfy) is the unit converter of `src/convert.ts`. Every
  conversion goes through points, and an unknown unit is an error value.
- `Paper` (paper.dfy) is the two-entry paper catalogue of `src/paper.ts`,
  with its landscape swap.
- `Color` (color.dfy) covers the colour helpers of `src/color.ts`:
  two-digit hex, `rgb(...)` strings and the brightness estimate, as written.
- `Layout` (layout.dfy) holds `getFaceDimensions` and the panel layout at
  the top of `generate`. It also gives where each face's image and label
  are placed.
- `Dieline` (dieline.dfy) gives the three path classes (`pathOutline`,
  `pathCuts`, `pathScores`) as lists of path commands. Methods trace them
  onto a context and are proved to issue exactly those lists.
- `TextWrap` (textwrap.dfy) is the `split(/\s+/)` word splitter and the
  greedy line breaker of `wrapText`, as specification functions.
- `Canvas` (canvas.dfy) is a recording 2D context: a class with the drawing
  state, the save/restore stack, the current path and the log of drawing
  operations issued.
- `Generate` (generate.dfy) is `generate` itself. It consists of the six
  save/restore blocks, `setFont`, `wrapText`'s loop, `writeLine`,
  `writeCenterAngle`, `drawText` and `drawImage`. Each method is proved to
  issue the operations of a specification function and to leave the
  drawing state as it found it.
- `App` (app.dfy) holds the pure pieces of `src/app.tsx`: the saved PDF's
  file name, faces set to look like their opposite face, and the change of
  working unit.

Lengths are `real`. Arc angles and rotations are written in half turns,
so `1.5` stands for `Math.PI * 1.5`. Text measurement and font metrics
are functions handed to the context, and images are opaque handles.

## Model

| member | source | states |
|---|---|---|
| Units.Lookup | src/convert.ts:15-34 | A unit name is found only when it is one of the five table entries, and the unit found carries that name. |
| Units.Convert | src/convert.ts:11-37 | The conversion succeeds exactly when the names are equal or both are known units. |
| Units.ByName | src/convert.ts:11-37 | Between known units, the conversion by name is `from_pt[to](to_pt[from](x))`, or the identity for equal units. |
| Units.PointsPer | src/convert.ts:3-9 | Every unit is worth a positive number of points. |
| Units.InToPt | src/convert.ts:3 | `in2pt` is undone by `pt2in`. |
| Units.CmToPt | src/convert.ts:4 | `cm2pt` is undone by `pt2cm`. |
| Units.MmToPt | src/convert.ts:5 | `mm2pt` is undone by `pt2mm`. |
| Units.PtToIn | src/convert.ts:7 | An inch is 72 points. |
| Units.PtToCm | src/convert.ts:8 | A centimetre is 0.3937008 inch of 72 points. |
| Units.PtToMm | src/convert.ts:9 | A millimetre is 0.03937008 inch of 72 points. |
| Units.ToPt | src/convert.ts:15-21 | The `to_pt` table, one entry per unit; Units.TablesScale proves each entry multiplies by the unit's points. |
| Units.FromPt | src/convert.ts:23-29 | The `from_pt` table, one entry per unit; Units.TablesScale proves each entry divides by the unit's points. |
| Units.TablesScale | src/convert.ts:15-29 | Each `to_pt` entry multiplies by the unit's point scale, and each `from_pt` entry divides by it. |
| Units.TablesInverse | src/convert.ts:15-29 | The `from_pt` entry of every unit undoes its `to_pt` entry, and the other way round. |
| Units.TablesLinear | src/convert.ts:15-29 | Both tables commute with scaling. |
| Units.TablesMonotone | src/convert.ts:15-29 | Both tables keep strict order. |
| Units.ConvertKeepsLength | src/convert.ts:36 | A converted length measures the same number of points as the original. |
| Units.ConvertIdentity | src/convert.ts:12-13 | Converting to the same name returns the value for every name, even unknown ones. |
| Units.ConvertFactors | src/convert.ts:3-9 | 1 in is 72 pt, 300 dots are 72 pt, 10 mm is exactly 1 cm, and 2.54 cm is 1.000000032 in. |
| Units.RoundTrip | src/convert.ts:11-37 | Converting from A to B and back to A returns the original exactly. |
| Units.Compose | src/convert.ts:36 | Converting from A to B and then to C equals converting from A to C directly. |
| Units.Linear | src/convert.ts:3-29 | The conversion of k times x is k times the conversion of x. |
| Units.BetweenLinear | src/convert.ts:15-36 | Linearity holds for every pair of units, proved one source unit at a time. |
| Units.ConvertZero | src/convert.ts:11-37 | Zero converts to zero between any two units. |
| Units.Monotone | src/convert.ts:11-37 | Conversion keeps strict order. |
| Units.UnknownUnits | src/convert.ts:31-34 | An unknown source unit is reported first, then an unknown target unit; "px" is not known. |
| Paper.Catalogue | src/paper.ts:9-12 | Only letter and a4 are catalogued, each in portrait with width less than height. |
| Paper.PaperSize | src/paper.ts:14-22 | The size is produced exactly when the format is known, the orientation is portrait or landscape, and the unit converts. |
| Paper.PaperSizeOr | src/paper.ts:14 | Given all three arguments, the result is that of `paperSize` on them; given none, letter in pt, portrait. |
| Paper.PaperSizeDefaults | src/paper.ts:14 | Each argument defaults on its own: a missing format is letter, missing units are pt and a missing orientation is portrait, whatever the other two are; a4 alone is a4 in pt, portrait. |
| Paper.LandscapeSwaps | src/paper.ts:18-21 | The landscape result is the portrait result with its components swapped. |
| Paper.PortraitComponents | src/paper.ts:21 | Each component is the native size converted: it measures the same in points. |
| Paper.DefaultSizes | src/paper.ts:9-21 | Letter with the defaults is (612, 792); letter in inches is (8.5, 11); a4 landscape in mm is (297, 210). |
| Paper.PaperErrors | src/paper.ts:15-16 | An unknown format is reported before the orientation; an unknown orientation is an error; an unknown unit is a conversion error. |
| Paper.Proportions | src/paper.ts:9-21 | Portrait width is less than height for both formats in every unit; landscape width is greater. |
| Color.HexValue | src/color.ts:3 | A character read as a hex digit is the lowercase digit of its value. |
| Color.HexValueOfDigit | src/color.ts:3 | Every digit `toString(16)` writes reads back as its value. |
| Color.ToHex | src/color.ts:3 | `toHex` always yields two characters. |
| Color.ToHexLastDigits | src/color.ts:3 | For a non-negative integer, the two characters are its two least significant hex digits. |
| Color.ToHexByte | src/color.ts:3 | For 0..255 the result is the high and low nibble digits, and reading it back gives the number. |
| Color.ToHexWraps | src/color.ts:3 | Above 255 only the last two hex digits survive: `toHex(n) = toHex(n mod 256)`. |
| Color.ToHexNegative | src/color.ts:3 | A negative channel of one hex digit keeps its minus sign: -5 gives "-5". |
| Color.HexByte | src/color.ts:3 | Two hex digits read back as a value in 0..255. |
| Color.ColorToHex | src/color.ts:5 | `colorToHex` is "#" followed by the three `toHex` parts, seven characters in all. |
| Color.HexRoundTrip | src/color.ts:5 | A colour with channels in 0..255 is read back exactly from its hex string. |
| Color.HexWraps | src/color.ts:5 | Non-negative channels come back reduced modulo 256. |
| Color.DecimalDigitsAreDigits | src/color.ts:7 | An integer is written with decimal digits only. |
| Color.DigitsValueOf | src/color.ts:7 | The digits written for a natural number read back as that number. |
| Color.DecimalValue | src/color.ts:7 | Every integer, negative ones included, reads back from how it is written. |
| Color.ColorToRgb | src/color.ts:7 | The string is at least 12 characters long, opens with "rgb(" and closes with ")"; Color.RgbRoundTrip reads every integer colour back from it. |
| Color.RgbRoundTrip | src/color.ts:7 | `colorToRgb` yields "rgb(r, g, b)", from which every integer colour is read back exactly. |
| Color.ParseFields | src/color.ts:7 | "rgb(" r ", " g ", " b ")" parses field by field when no field holds a comma. |
| Color.Luminosity | src/color.ts:10 | For red and green channels in 0..255 the value lies in 0..2.04. |
| Color.LuminosityShape | src/color.ts:10 | As written, luminosity is (0.299 r + 0.701 g) / 125: it ignores blue, is 0 for black, and is non-decreasing in red and green. |
| Color.LuminosityVsBrightness | src/color.ts:9-10 | Luminosity equals the cited W3C brightness divided by 125 exactly when blue equals green. |
| Color.LuminosityOfWhite | src/color.ts:10 | White gives 2.04, and pure blue gives 0. |
| Layout.FaceDimensionsOf | src/generate.ts:33-51 | The dimensions are w'×h' for front/back, h'×d' for left/right and w'×d' for top/bottom, where each primed value is size + 2·thickness − 2·bleed. Opposite faces agree, and any other name gets (0, 0). |
| Layout.FaceDimensions | src/generate.ts:33-51 | `getFaceDimensions` as a function of the face name; Layout.FaceDimensionsOf states what it gives for every name. |
| Layout.PanelLayout | src/generate.ts:54-63 | The front is at (d'+margin, d'+0.2w'+margin) with size w'×h'. The back has the same y and size, one depth right of the front, and the two never overlap for positive depth. |
| Layout.PanelsOf | src/generate.ts:55-63 | The grown size, offset, front and back of `generate`; Layout.PanelLayout states where they lie. |
| Layout.ImageSizeIsFaceDimensions | src/generate.ts:398-414 | Every face's image is drawn at exactly `getFaceDimensions` of that face. |
| Layout.ImageCoversFace | src/generate.ts:314-327 | Under each face's translation and rotation, every image pixel lands on that face's panel inset by the bleed, and the image's corners land on opposite corners of it. |
| Layout.PlacementCovers | src/generate.ts:314-327 | For any placement, the rotated image stays inside its footprint inset by the bleed and spans it corner to corner. |
| Layout.FootprintIsRegion | src/generate.ts:398-414 | The footprint of each face's `drawImage` call is that face's panel of the flat carton. |
| Layout.LabelsCentred | src/generate.ts:288-312 | Each label is centred across its panel: front and back a quarter of the way down, the others at the centre. The wrapping width is 0.9 of the panel's extent along the text. |
| Dieline.OutlineClosed | src/generate.ts:85-139 | The outline has exactly one move, at (front.x, front.y − 0.6d), and its last line returns to that point. |
| Dieline.OutlinePath | src/generate.ts:85-139 | The commands of `pathOutline` for a style; Dieline.OutlineClosed, OutlineOnSheet and TraceOutline state its properties. |
| Dieline.CutsPath | src/generate.ts:141-170 | The commands of `pathCuts` for a style; Dieline.CutsStyles, CutsOnSheet and TraceCuts state its properties. |
| Dieline.ScoresPath | src/generate.ts:172-208 | The commands of `pathScores` for a style; Dieline.ScoresStyles, ScoresOnSheet and TraceScores state its properties. |
| Dieline.PanelsProper | src/generate.ts:54-63 | With positive grown sizes the panels are laid out level, of equal size and one depth apart. |
| Dieline.DoubleTuckOutline | src/generate.ts:107-127 | A double-tuck outline runs straight along the back's lower edge and has the two bottom tuck arcs. |
| Dieline.DoubleTuckNoGlueFlap | src/generate.ts:107-114 | A double-tuck outline never reaches the 0.8d glue flap below the back. |
| Dieline.DefaultOutline | src/generate.ts:107-132 | A default outline draws the 0.8d glue flap below the back and has no arc on the bottom flap's edge. |
| Dieline.DefaultNoTuckArc | src/generate.ts:120-132 | A default outline has no arc centred on the bottom flap's edge. |
| Dieline.DefaultOutlineKeepsBackEdge | src/generate.ts:107-114 | A default outline does not run along the back's lower edge. |
| Dieline.CutsStyles | src/generate.ts:141-170 | The double-tuck cuts are the default cuts with the two bottom ticks inserted after the tenth command. The default cuts never touch the bottom flap's edge, and every tick does. |
| Dieline.ScoresStyles | src/generate.ts:172-208 | Double tuck scores the bottom tab and not the back's lower edge. Default scores the back's lower edge and nothing on the bottom flap's edge. |
| Dieline.LaidOutPanels | src/generate.ts:54-63 | The layout of `generate` puts the panels where the sheet bounds expect them. |
| Dieline.OutlineOnSheet | src/generate.ts:85-139 | Every outline command, arcs by their whole circle, lies on the sheet of 2w+2.8d by h+2d+0.4w offset by the margin. |
| Dieline.OutlineUpperOnSheet | src/generate.ts:86-105 | The outline from the top flap to the glue strip lies on the sheet. |
| Dieline.OutlineLowerOnSheet | src/generate.ts:107-138 | The rest of the outline lies on the sheet. |
| Dieline.CutsOnSheet | src/generate.ts:141-170 | Every inner cut lies on the sheet. |
| Dieline.ScoresOnSheet | src/generate.ts:172-208 | Every score line lies on the sheet. |
| Dieline.TraceOutline | src/generate.ts:85-139 | `pathOutline` appends exactly the outline commands to the current path. |
| Dieline.TraceOutlineUpper | src/generate.ts:86-105 | The upper half is appended: top flap, upper dust flap, notch and glue strip. |
| Dieline.TraceOutlineLower | src/generate.ts:107-138 | The lower half is appended: back bottom, lower dust flap, bottom closure and side. |
| Dieline.TraceOutlineTop | src/generate.ts:86-91 | The top tuck flap with its two arcs is appended. |
| Dieline.TraceOutlineUpperFlap | src/generate.ts:93-95 | The upper dust flap is appended. |
| Dieline.TraceOutlineNotch | src/generate.ts:97-100 | The thumb notch, drawn counter-clockwise, is appended. |
| Dieline.TraceOutlineGlue | src/generate.ts:102-105 | The glue strip right of the back is appended. |
| Dieline.TraceOutlineBackBottom | src/generate.ts:107-114 | Below the back: one edge for double tuck, otherwise the 0.8d glue flap. |
| Dieline.TraceOutlineLowerFlap | src/generate.ts:116-118 | The lower dust flap is appended. |
| Dieline.TraceOutlineInnerBottom | src/generate.ts:120-132 | The bottom closure: two tuck arcs for double tuck, otherwise a plain flap, then the line up to 0.6d. |
| Dieline.TraceOutlineSide | src/generate.ts:134-138 | The right side flap back to the start is appended. |
| Dieline.TraceCuts | src/generate.ts:141-170 | `pathCuts` appends exactly the cut commands, with the bottom ticks only for double tuck. |
| Dieline.TraceCutsTop | src/generate.ts:142-146 | The two ticks beside the top tuck flap are appended. |
| Dieline.TraceCutsFlaps | src/generate.ts:148-155 | The cuts between the front and its flaps are appended. |
| Dieline.TraceCutBelowFront | src/generate.ts:154-155 | The cut below the front's left edge is appended. |
| Dieline.TraceBottomTicks | src/generate.ts:157-163 | The two bottom ticks are appended. |
| Dieline.TraceCutsLower | src/generate.ts:165-169 | The cuts below the front's right edge and the back's left edge are appended. |
| Dieline.TraceScores | src/generate.ts:172-208 | `pathScores` appends exactly the score commands, with the bottom tab only for double tuck. |
| Dieline.TraceScoresInnerBottom | src/generate.ts:173-175 | The fold under the front is appended. |
| Dieline.TraceScoresRight | src/generate.ts:178-182 | The right side's folds are appended. |
| Dieline.TraceScoresLeft | src/generate.ts:184-189 | The left side's folds are appended. |
| Dieline.TraceScoresBack | src/generate.ts:191-195 | The back's right fold is appended, plus its lower fold unless the style is double tuck. |
| Dieline.TraceScoresTop | src/generate.ts:197-201 | The top fold and the tuck flap's fold are appended. |
| Dieline.TraceScoresBottom | src/generate.ts:203-207 | The bottom tab's fold is appended. |
| TextWrap.DropSpaces | src/generate.ts:211 | Dropping leading white space leaves a suffix that starts with a non-space. |
| TextWrap.Split | src/generate.ts:211 | `split(/\s+/)` always yields at least one piece. |
| TextWrap.JoinSplit | src/generate.ts:211 | Joining the pieces with single spaces gives the text with every white-space run collapsed to one space: nothing is lost or reordered. |
| TextWrap.SplitPieces | src/generate.ts:211 | Every piece is free of white space, and only the first and last can be empty. |
| TextWrap.SplitJoin | src/generate.ts:211 | Splitting such pieces joined by spaces gives them back. |
| TextWrap.SplitWord | src/generate.ts:211 | A text without white space splits into itself alone. |
| TextWrap.Step | src/generate.ts:217-230 | One pass of `wrapText`'s loop on the state; TextWrap.StepKept proves it keeps the loop invariant. |
| TextWrap.Scan | src/generate.ts:216-231 | The loop's state after a list of words; TextWrap.ScanNext and ScanKept state its properties. |
| TextWrap.Wrap | src/generate.ts:210-235 | The lines `wrapText` hands over; TextWrap.WrapKeepsText, WrapOffsets, WrapFits and WrapCount state its properties. |
| TextWrap.ScanNext | src/generate.ts:216-231 | The loop's state after i+1 words is one more step from its state after i words. |
| TextWrap.ScanKept | src/generate.ts:216-231 | The loop keeps its invariant on every prefix of the words: text kept in order, offsets without gaps, and lines narrow or single words. |
| TextWrap.StepKept | src/generate.ts:217-230 | One word preserves the loop invariant. |
| TextWrap.WrapKeepsText | src/generate.ts:210-235 | The emitted lines, concatenated, are `word + ' '` over all words in order. |
| TextWrap.WrapOffsets | src/generate.ts:214-234 | Line k is emitted at offset k·lineHeight. |
| TextWrap.WrapSpacing | src/generate.ts:214-234 | The first line is at 0, and each later line is one line height below the previous. |
| TextWrap.WrapFits | src/generate.ts:216-228 | Every emitted line either measures at most the width or is a single `word + ' '`. |
| TextWrap.WrapCount | src/generate.ts:216-234 | At least one line is emitted exactly when there are words, and never more lines than words. |
| TextWrap.FirstWordFirst | src/generate.ts:220 | The first word never triggers a break: the first line starts with it. |
| TextWrap.FirstWordKept | src/generate.ts:216-231 | The first word stays at the head of the first line through the whole loop. |
| Canvas.Context.Save | src/generate.ts:330 | `save` pushes the current drawing state. |
| Canvas.Context.Restore | src/generate.ts:343 | `restore` pops the last saved state, and does nothing on an empty stack. |
| Canvas.Context.SetLineWidth | src/generate.ts:335 | A non-positive line width is ignored, as the canvas does. |
| Canvas.Context.SetFont | src/generate.ts:69 | A font string the context accepts becomes the font; one it cannot parse is ignored and the earlier font stays. |
| Canvas.Context.Clip | src/generate.ts:396 | `clip` intersects the clip region with the current path. |
| Generate.DieLineColours | src/generate.ts:81-83 | Cuts are black and scores #111 exactly when 0.299 r + 0.701 g ≥ 87.5 (luminosity ≥ 0.7); otherwise white and #eee. White gives black and black gives white, and pure blue counts as dark. |
| Generate.Round | src/generate.ts:69 | `Math.round` gives the integer within half of x, with halves rounded up. |
| Generate.RoundHalves | src/generate.ts:69 | 10.5 rounds to 11, −10.5 to −10 and −10.6 to −11. |
| Generate.FontStringExample | src/generate.ts:69 | Weight 400 at size 10.5 in Helvetica gives "400 11pt Helvetica". |
| Generate.FontString | src/generate.ts:69 | The CSS font string of rounded weight, rounded size in pt and family; Generate.FontStringExample shows one. |
| Generate.WithFont | src/generate.ts:68-79 | The state `setFont` leaves; Generate.SetFontEffect states what it changes. |
| Generate.SetFontEffect | src/generate.ts:68-79 | `setFont` sets the font string when the context accepts it and keeps the earlier font otherwise, and sets the fill colour. A positive outline width sets the outline colour and width; otherwise the stroke is "rgba(1, 1, 1, 0)" with width 1. Nothing else changes. |
| Generate.SetFont | src/generate.ts:68-79 | The method leaves the drawing state that `setFont` specifies. |
| Generate.FindLineHeight | src/generate.ts:237-243 | The line height is the font's bounding-box height when known, else the width of "M". |
| Generate.LineHeight | src/generate.ts:237-243 | `findLineHeight` as a function of the font; Generate.FindLineHeight computes it on the context. |
| Generate.DrawLine | src/generate.ts:245-248 | A line is stroked, then filled, at the same point. |
| Generate.Emit | src/generate.ts:253-278 | The callback draws a line at (x, y + offset), or aligned at (−width·xs, offset). |
| Generate.LinesOpsShape | src/generate.ts:245-278 | Each wrapped line yields a stroke then a fill of its text at its point, in line order. |
| Generate.LinesOpsState | src/generate.ts:245-248 | All of a label's text operations use the same drawing state. |
| Generate.WrapText | src/generate.ts:210-235 | The loop draws exactly the lines the greedy wrap of the split text specifies, in order. |
| Generate.FlushLine | src/generate.ts:233-234 | After the loop, a non-empty pending line is drawn. |
| Generate.TakeWord | src/generate.ts:216-231 | One loop iteration takes the specified step and draws each line it completes. |
| Generate.WriteLine | src/generate.ts:250-255 | `writeLine` draws the wrapped label under the label's font and restores the state. |
| Generate.WriteCenterAngle | src/generate.ts:257-286 | `writeCenterAngle` draws the wrapped label translated, rotated and aligned, and restores the state. |
| Generate.TurnTo | src/generate.ts:258-261 | It sets the font, then translates and rotates. |
| Generate.WriteLineDraws | src/generate.ts:250-255 | A straight label draws at least one line, two operations per line, all in the label's font state. |
| Generate.WriteCenterAngleDraws | src/generate.ts:257-286 | A turned label draws at least one line, two operations per line, all in the turned state. |
| Generate.WrappedDraws | src/generate.ts:210-235 | A non-empty word list draws at least one line, two operations per line, in one state. |
| Generate.StraightLabelsStack | src/generate.ts:250-255 | A straight label's lines are drawn at (x, y + k·lineHeight), starting at y with no gaps. |
| Generate.WrappedLinesStack | src/generate.ts:250-255 | Wrapped lines drawn at a point stack downward one line height apart. |
| Generate.LinesStacked | src/generate.ts:253 | A line is drawn at the anchor moved down by its offset. |
| Generate.TurnedLabelsCentred | src/generate.ts:263-278 | Under `drawText`'s centre alignment, each turned line is drawn starting at minus half its measured width: centred on the anchor. |
| Generate.WrappedCentred | src/generate.ts:275-278 | Lines aligned at 0.5 are centred on the anchor. |
| Generate.LinesAligned | src/generate.ts:275-278 | An aligned line starts at minus xs times its measured width. |
| Generate.AlignFraction | src/generate.ts:263-273 | Centre shifts by half the width and restores centre, right or end by the whole width and restores right, anything else by nothing and restores left; a centre, right or left alignment is restored as it was. |
| Generate.LabelDrawn | src/generate.ts:288-312 | A face's label is drawn exactly when it has non-empty text and a font. Every operation then uses that font's string when the context accepts it, and otherwise the font in force before the label. |
| Generate.DrawLabel | src/generate.ts:288-312 | One face's label is written straight or turned as its placement says. |
| Generate.DrawText | src/generate.ts:288-312 | `drawText` draws the six labels in order and restores the state. |
| Generate.DrawImageAt | src/generate.ts:314-327 | `drawImage` draws once at (0, 0), inset by the bleed, under translate, rotate and translate(b, b), then restores. |
| Generate.ImageDrawn | src/generate.ts:398-414 | A face's image is drawn once when it has one, at `getFaceDimensions` size, clipped to the outline. |
| Generate.ImageCount | src/generate.ts:398-414 | One image operation for a face with an image, none otherwise. |
| Generate.ImagesCount | src/generate.ts:390-416 | The images block draws one image per face that has one. |
| Generate.DrawFaceImage | src/generate.ts:398-414 | One face's image is drawn when present. |
| Generate.DrawClippedImages | src/generate.ts:398-414 | The six faces' images are drawn in order. |
| Generate.DrawImages | src/generate.ts:390-416 | The images block clips to the outline, draws the images and restores the state. |
| Generate.BackgroundSkip | src/generate.ts:329-343 | The box colour is painted only when the colour is not exactly (1, 1, 1). It is a stroke and a fill of the outline in that colour, with width twice the bleed. White (255, 255, 255) is still painted. |
| Generate.DrawBackground | src/generate.ts:329-343 | The background block issues exactly the background operations and restores the state. |
| Generate.FillOutline | src/generate.ts:337-341 | The outline is traced, then stroked and filled. |
| Generate.DieLineStrokes | src/generate.ts:345-388 | After the background come the outline and cuts, solid at width 1 in the cut colour, then the scores dashed 7.2/3.6 in the score colour. |
| Generate.StrokeOutline | src/generate.ts:345-358 | The outline block strokes the outline in the cut state and restores. |
| Generate.StrokeCuts | src/generate.ts:360-373 | The cuts block strokes the cuts in the cut state and restores. |
| Generate.StrokeScores | src/generate.ts:375-388 | The scores block strokes the scores dashed in the score colour and restores. |
| Generate.SolidStroke | src/generate.ts:352-356 | The path is stroked with no dash at width 1 in the given colour. |
| Generate.DrawDieLine | src/generate.ts:345-388 | The three die-line blocks issue their strokes in order and restore the state. |
| Generate.DrawLabels | src/generate.ts:418-428 | The labels block draws every label with black fill and centred middle alignment, then restores. |
| Generate.DrawArtwork | src/generate.ts:390-428 | The images block is followed by the labels block. |
| Generate.Generate | src/generate.ts:53-435 | `generate` issues exactly the specified operations, block by block, and leaves the context's state and stack as it found them. |
| Generate.GenerateOps | src/generate.ts:53-435 | Everything `generate` draws, block by block; Generate.DieLineStrokes, ImagesCount and LabelDrawn state what the blocks contain. |
| App.Lower | src/app.tsx:278 | Lower-casing keeps the length and maps each character by itself. |
| App.FirstDropped | src/app.tsx:278 | Finds the first character outside `[a-z0-9]`, with every earlier character kept. |
| App.RunEnd | src/app.tsx:278 | Finds the end of the maximal run of characters outside `[a-z0-9]`. |
| App.ReplaceClean | src/app.tsx:278 | A name of `[a-z0-9]` characters only is left unchanged. |
| App.ReplaceRun | src/app.tsx:278 | For a kept prefix, a run of other characters and a rest starting with a kept character, the run alone becomes "-" and later runs survive. |
| App.SlugEmpty | src/app.tsx:278-280 | The lower-cased, replaced title is empty exactly when the title is. |
| App.ReplaceFirstRun | src/app.tsx:278 | The result is no longer than the input, empty only for an empty input, and keeps the kept prefix before the first other character. |
| App.Slug | src/app.tsx:278 | The slug is no longer than the title. |
| App.PdfName | src/app.tsx:278-281 | The name ends with "tuckbox.pdf". An empty title gives "-tuckbox.pdf"; otherwise the slug is followed by "tuckbox.pdf" with no "-" between. |
| App.SlugOneWord | src/app.tsx:278 | "My Box" gives "my-box". |
| App.SlugFirstRunOnly | src/app.tsx:278 | "A b c" gives "a-b c": the regular expression has no global flag. |
| App.Resolve | src/app.tsx:195-206 | Every face is drawn with the settings and cached bitmap of its source face: back follows front when `sameAsFront`, bottom follows top with `sameAsTop`, right follows left with `sameAsLeft`. |
| App.SourceStable | src/app.tsx:195-206 | A face's source is itself or its opposite; front, top and left are their own source. |
| App.LinkedFaces | src/app.tsx:195-206 | A linked face is drawn exactly like its opposite, and its own settings and bitmap play no part. |
| App.FaceUnchanged | src/app.tsx:195-206 | Changing a linked face's settings or bitmap leaves the resolved faces unchanged. |
| App.ChangeUnits | src/app.tsx:170-185 | The six lengths are converted from the old unit and rounded to the new unit's precision, the new unit is stored, and the page, title, colour and faces are unchanged. |
| App.PrecisionChoice | src/app.tsx:172 | Precision is 1 for mm, 4 for pt and 2 for the other units. |
| App.Precision | src/app.tsx:172 | The number of decimals is between 1 and 4. |
| App.ChangeUnitsBack | src/app.tsx:170-185 | With exact rounding, changing the unit and changing it back restores the design. |
| App.ChangeUnitsClose | src/app.tsx:170-185 | If rounding moves a value by at most e, every stored length is within e of the exact conversion. |
| App.ChangeUnitsSame | src/app.tsx:170-185 | Choosing the current unit, with exact rounding, changes nothing. |

## Left out

- Floating point: lengths and factors are exact reals. The exact round
  trips and "10 mm is 1 cm" hold over the reals; IEEE doubles can differ
  in the last bits.
- Rasterisation: arcs, dashes, clipping and images are recorded as
  symbolic commands and operations, and no pixels are computed. Transforms
  are kept as a list of translations and rotations, not composed into a
  matrix.
- Trigonometry: angles are real multiples of π, written in half turns.
- Font metrics: `measureText` widths and the font bounding box are
  functions given to the context. `findLineHeight`'s
  `'fontBoundingBoxAscent' in m` test is the bounding-box function
  returning a value or not.
- The unused `ctx.measureText(text)` in `writeCenterAngle`
  (src/generate.ts:280) and `toHex`'s unused second parameter are not
  modelled.
- A newline in a label does not start a new line group. The code splits on
  every run of white space (src/generate.ts:211), and the model follows the
  code.
- Color.ToHex: `n.toString(16)` is modelled for integers only.
  Non-integer channels, which the UI never produces, are not modelled.
- Color.ColorToRgb: channels are written as JavaScript writes integers.
  Non-integer numbers and exponent notation are not modelled.
- Color.Luminosity is modelled as written: green is counted twice and the
  sum is divided by 125. The die-line colours are proved for that
  expression, not for the cited W3C formula.
- Units.Lookup and Units.Convert: JavaScript's `in` test at
  src/convert.ts:31-34 also finds names inherited from `Object.prototype`,
  so `convert(1, "constructor", "pt")` does not throw. The model treats
  such names as unknown units and reports an error. The same holds for
  `format in SIZE_IN_POINTS` at src/paper.ts:15, which Paper.Catalogue
  models.
- App.Lower: only ASCII `A`–`Z` are lower-cased. JavaScript's
  `toLowerCase` also maps other scripts' capitals, and a few, such as the
  Kelvin sign, become ASCII letters that the slug would keep.
- App.ChangeUnits: `toFixed` followed by `parseFloat` is an abstract
  rounding function of the value and the number of decimals.
- App.ChangeUnits: the two units are typed `Units` in the source, so the
  model takes them as known units and the conversion cannot fail. The
  store merge is modelled as the returned record; the `view` field and
  other UI state are not modelled.
- App.Resolve: loaded bitmaps are a map from face to an image handle. The
  asynchronous image loading that fills the cache (src/app.tsx:150-168) is
  not modelled.
- src/image.ts (cropping and pixel work), the jsPDF patch, local storage,
  the UI components and the PDF/Blob/URL handling of src/app.tsx are not
  part of this model. They are browser and library I/O.
- Canvas.Context: only the operations `generate` uses are modelled. The
  text baseline and alignment are recorded as strings.
