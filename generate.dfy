/** `generate` (src/generate.ts): draws the flat carton on a 2D context in
    six save/restore blocks: the box colour, the outline, the inner cuts,
    the score lines, the face images clipped to the outline, and the face
    labels. Each block is specified by the list of drawing operations it
    issues, as a function of the state at its start; the methods issue
    exactly those operations and leave the state as they found it. */
module Generate {
  import opened Wrappers
  import opened Types
  import opened Color
  import opened Layout
  import opened Canvas
  import opened Dieline
  import opened TextWrap

  datatype FaceOptions = FaceOptions(text: Option<string>, font: Option<Font>, image: Option<nat>)

  datatype FaceSet = FaceSet(
    front: FaceOptions, back: FaceOptions, top: FaceOptions,
    bottom: FaceOptions, left: FaceOptions, right: FaceOptions)

  function FaceOf(faces: FaceSet, face: Face): FaceOptions
  {
    match face
    case Front => faces.front
    case Back => faces.back
    case Top => faces.top
    case Bottom => faces.bottom
    case Left => faces.left
    case Right => faces.right
  }

  /** An image is a handle to a bitmap the model does not look into. */
  datatype GenerateOptions = GenerateOptions(
    size: Size, color: RGB, bleed: real, thickness: real, margin: real,
    style: BoxStyle, face: FaceSet)

  function PanelsFor(o: GenerateOptions): Panels
  {
    PanelsOf(o.size, o.thickness, o.margin)
  }

  function DoubleTuckFor(o: GenerateOptions): bool
  {
    o.style == DoubleTuck
  }

  // ---------------------------------------------------------------------
  // Colours and fonts
  // ---------------------------------------------------------------------

  /** The die-line is white on a dark box and black on a light one, by the
      `luminosity` of the box colour against 0.7. */
  function CutColor(color: RGB): string
  {
    if Luminosity(color) < 0.7 then "#fff" else "#000"
  }

  function ScoreColor(color: RGB): string
  {
    if Luminosity(color) < 0.7 then "#eee" else "#111"
  }

  /** The fold dash: a tenth and a twentieth of an inch at 72 points per
      inch. */
  const FoldDash: seq<real> := [0.1 * 72.0, 0.05 * 72.0]

  /** A box is light, and gets a black die-line, exactly when
      0.299 r + 0.701 g reaches 87.5: the blue channel plays no part. */
  lemma DieLineColours(c: RGB)
    ensures CutColor(c) == "#000" <==> 0.299 * c.r as real + 0.701 * c.g as real >= 87.5
    ensures ScoreColor(c) == "#111" <==> 0.299 * c.r as real + 0.701 * c.g as real >= 87.5
    ensures CutColor(c) == "#fff" <==> ScoreColor(c) == "#eee"
    ensures CutColor(RGB(255, 255, 255)) == "#000" && ScoreColor(RGB(255, 255, 255)) == "#111"
    ensures CutColor(RGB(0, 0, 0)) == "#fff" && ScoreColor(RGB(0, 0, 0)) == "#eee"
    ensures CutColor(RGB(0, 0, 255)) == "#fff"
  {
    LuminosityShape(c, c);
  }

  /** `Math.round`: the nearest integer, halves rounded up. */
  function Round(x: real): (n: int)
    ensures n as real - 0.5 <= x < n as real + 0.5
  {
    (x + 0.5).Floor
  }

  /** The CSS font string `setFont` builds: rounded weight, rounded size in
      points, family. */
  function FontString(font: Font): string
  {
    Decimal(Round(font.weight)) + " " + Decimal(Round(font.size)) + "pt " + FamilyName(font.family)
  }

  /** The font in force after `setFont`: its font string when the context
      accepts it, otherwise the font that was in force before. */
  function FontAfter(g: GState, font: Font, fontOk: string -> bool): string
  {
    if fontOk(FontString(font)) then FontString(font) else g.font
  }

  /** The state after `setFont`: font (when accepted), fill colour, and
      either the outline colour and width or, for a width that is not
      positive, a transparent stroke of width 1. */
  function WithFont(g: GState, font: Font, fontOk: string -> bool): GState
  {
    var g1 := g.(font := FontAfter(g, font, fontOk), fillStyle := ColorToRgb(font.color));
    if font.outlineWidth > 0.0 then g1.(strokeStyle := ColorToRgb(font.outlineColor), lineWidth := font.outlineWidth)
    else g1.(strokeStyle := "rgba(1, 1, 1, 0)", lineWidth := 1.0)
  }

  /** `setFont` sets exactly the font, the fill and the stroke; a font
      string the context cannot parse leaves the earlier font; an outline
      width that is not positive yields a fully transparent stroke of width
      1, so text is never outlined in that case; the stroke width is always
      positive. */
  lemma SetFontEffect(g: GState, font: Font, fontOk: string -> bool)
    ensures var g' := WithFont(g, font, fontOk);
      (fontOk(FontString(font)) ==> g'.font == FontString(font)) &&
      (!fontOk(FontString(font)) ==> g'.font == g.font) &&
      g'.fillStyle == ColorToRgb(font.color) &&
      (font.outlineWidth <= 0.0 ==> g'.strokeStyle == "rgba(1, 1, 1, 0)" && g'.lineWidth == 1.0) &&
      (font.outlineWidth > 0.0 ==> g'.strokeStyle == ColorToRgb(font.outlineColor) && g'.lineWidth == font.outlineWidth) &&
      g'.lineWidth > 0.0 &&
      g'.(font := g.font, fillStyle := g.fillStyle, strokeStyle := g.strokeStyle, lineWidth := g.lineWidth) == g
  {
  }

  /** Halves round up, also below zero, as `Math.round` does. */
  lemma RoundHalves()
    ensures Round(10.5) == 11 && Round(-10.5) == -10 && Round(-10.6) == -11 && Round(699.5) == 700
  {
  }

  /** The font string of a 400-weight 10.5-point Helvetica. */
  lemma FontStringExample()
    ensures FontString(Font(Helvetica, 10.5, 400.0, RGB(0, 0, 0), RGB(0, 0, 0), 0.0)) == "400 11pt Helvetica"
  {
    assert Round(400.0) == 400 && Round(10.5) == 11;
    assert Decimal(11) == "11";
    assert Decimal(400) == "400";
  }

  /** `findLineHeight`: the font's bounding box height when the platform
      reports it, otherwise the width of "M". */
  function LineHeight(measure: (string, string) -> real, fontHeight: string -> Option<real>, font: string): real
  {
    match fontHeight(font)
    case Some(h) => h
    case None => measure(font, "M")
  }

  // ---------------------------------------------------------------------
  // Lines of text
  // ---------------------------------------------------------------------

  /** The two `wrapText` callbacks: `writeLine` draws each line at the
      anchor, moved down by the line's offset; `writeCenterAngle` shifts
      each line left by the fraction `xs` of its own width, at the line's
      offset from the rotated origin. */
  datatype Callback = AtPoint(x: real, y: real) | Aligned(xs: real)

  /** Where a wrapped line is drawn: below the anchor by the line's offset,
      or left of the turned origin by the fraction `xs` of the line's width
      in `font`. */
  function LinePoint(l: Line, cb: Callback, measure: (string, string) -> real, font: string): (real, real)
  {
    match cb
    case AtPoint(x, y) => (x, y + l.y)
    case Aligned(xs) => (-measure(font, l.text) * xs, l.y)
  }

  /** `drawLine` for one wrapped line: stroke, then fill, at one point. */
  function LineOps(l: Line, cb: Callback, measure: (string, string) -> real, g: GState): seq<DrawOp>
  {
    var pt := LinePoint(l, cb, measure, g.font);
    [DrawOp.StrokeText(l.text, pt.0, pt.1, g), DrawOp.FillText(l.text, pt.0, pt.1, g)]
  }

  function LinesOps(lines: seq<Line>, cb: Callback, measure: (string, string) -> real, g: GState): seq<DrawOp>
  {
    if lines == [] then []
    else LinesOps(lines[..|lines| - 1], cb, measure, g) + LineOps(lines[|lines| - 1], cb, measure, g)
  }

  lemma LinesOpsSnoc(lines: seq<Line>, l: Line, cb: Callback, measure: (string, string) -> real, g: GState)
    ensures LinesOps(lines + [l], cb, measure, g) == LinesOps(lines, cb, measure, g) + LineOps(l, cb, measure, g)
  {
    assert (lines + [l])[..|lines|] == lines;
  }

  /** Handing one more line to the callback extends the operations. */
  lemma EmittedOps(ops0: seq<DrawOp>, emitted: seq<Line>, l: Line, cb: Callback, measure: (string, string) -> real, g: GState)
    ensures ops0 + LinesOps(emitted, cb, measure, g) + LineOps(l, cb, measure, g) == ops0 + LinesOps(emitted + [l], cb, measure, g)
  {
    LinesOpsSnoc(emitted, l, cb, measure, g);
    AppendAssoc(ops0, LinesOps(emitted, cb, measure, g), LineOps(l, cb, measure, g));
  }

  /** Line k is stroked and then filled, both with its own text at its own
      point, as operations 2k and 2k + 1; nothing else is drawn. */
  lemma {:induction false} LinesOpsShape(lines: seq<Line>, cb: Callback, measure: (string, string) -> real, g: GState)
    ensures var ops := LinesOps(lines, cb, measure, g);
      |ops| == 2 * |lines| &&
      forall k :: 0 <= k < |lines| ==>
        var pt := LinePoint(lines[k], cb, measure, g.font);
        ops[2 * k] == DrawOp.StrokeText(lines[k].text, pt.0, pt.1, g) &&
        ops[2 * k + 1] == DrawOp.FillText(lines[k].text, pt.0, pt.1, g)
  {
    if lines != [] {
      var init := lines[..|lines| - 1];
      LinesOpsShape(init, cb, measure, g);
      var ops, prev := LinesOps(lines, cb, measure, g), LinesOps(init, cb, measure, g);
      forall k | 0 <= k < |lines| - 1
        ensures ops[2 * k] == prev[2 * k] && ops[2 * k + 1] == prev[2 * k + 1] && lines[k] == init[k]
      {
      }
    }
  }

  /** Every operation of a list of lines is drawn in one state. */
  lemma LinesOpsState(lines: seq<Line>, cb: Callback, measure: (string, string) -> real, g: GState)
    ensures var ops := LinesOps(lines, cb, measure, g);
      |ops| == 2 * |lines| && forall i :: 0 <= i < |ops| ==> ops[i].gs == g
  {
    LinesOpsShape(lines, cb, measure, g);
    var ops := LinesOps(lines, cb, measure, g);
    forall i | 0 <= i < |ops| ensures ops[i].gs == g {
      var k := i / 2;
      assert i == 2 * k || i == 2 * k + 1;
    }
  }

  /** The operations of `writeLine`: the font is set, then the wrapped
      lines are drawn from the anchor down. */
  function WriteLineOps(g0: GState, text: string, font: Font, x: real, y: real, w: real,
                        measure: (string, string) -> real, fontHeight: string -> Option<real>, fontOk: string -> bool): seq<DrawOp>
  {
    WrappedOps(WithFont(g0, font, fontOk), Split(text), AtPoint(x, y), w, measure, fontHeight)
  }

  /** The operations of `wrapText` on the words of a text in state `g`,
      with the line height found for that state's font. */
  function WrappedOps(g: GState, words: seq<string>, cb: Callback, w: real,
                      measure: (string, string) -> real, fontHeight: string -> Option<real>): seq<DrawOp>
  {
    LinesOps(Wrap(words, measure, g.font, w, LineHeight(measure, fontHeight, g.font)), cb, measure, g)
  }

  /** The fraction of a line's width to shift it by, and the alignment to
      restore, for each text alignment: centred, right (or end), or left
      for anything else. */
  function AlignFraction(align: string): (r: (real, string))
    ensures (r.0 == 0.5 && r.1 == "center") || (r.0 == 1.0 && r.1 == "right") || (r.0 == 0.0 && r.1 == "left")
    ensures align == "center" || align == "right" || align == "left" ==> r.1 == align
  {
    if align == "center" then (0.5, "center")
    else if align == "right" || align == "end" then (1.0, "right")
    else (0.0, "left")
  }

  /** The state `writeCenterAngle` wraps in: the font set, the origin moved
      to the anchor and turned, and left alignment. */
  function AngleState(g0: GState, font: Font, x: real, y: real, r: real, fontOk: string -> bool): GState
  {
    var g := WithFont(g0, font, fontOk);
    g.(transform := g.transform + [Transform.Translate(x, y), Transform.Rotate(r)], textAlign := "left")
  }

  /** The operations of `writeCenterAngle`: each wrapped line drawn left
      aligned, shifted left by a fraction of its width given by the
      alignment in force before. */
  function WriteCenterAngleOps(g0: GState, text: string, font: Font, x: real, y: real, r: real, w: real,
                               measure: (string, string) -> real, fontHeight: string -> Option<real>, fontOk: string -> bool): seq<DrawOp>
  {
    WrappedOps(AngleState(g0, font, x, y, r, fontOk), Split(text), Aligned(AlignFraction(g0.textAlign).0), w, measure, fontHeight)
  }

  // ---------------------------------------------------------------------
  // The six blocks
  // ---------------------------------------------------------------------

  /** The box colour: skipped when the colour is exactly (1, 1, 1);
      otherwise the outline is stroked and filled in the colour, the stroke
      twice the bleed wide (a width that is not positive leaves the width
      as it was). */
  function BackgroundOps(g0: GState, o: GenerateOptions): seq<DrawOp>
  {
    if o.color.r == 1 && o.color.g == 1 && o.color.b == 1 then []
    else
      var css := ColorToRgb(o.color);
      var g := g0.(lineDash := [], fillStyle := css, strokeStyle := css,
                   lineWidth := if o.bleed * 2.0 > 0.0 then o.bleed * 2.0 else g0.lineWidth);
      var path := OutlinePath(PanelsFor(o), DoubleTuckFor(o));
      [StrokePath(path, g), FillPath(path, g)]
  }

  /** The solid, one point wide stroke the outline and the cuts use. */
  function CutState(g0: GState, o: GenerateOptions): GState
  {
    g0.(lineDash := [], lineWidth := 1.0, strokeStyle := CutColor(o.color))
  }

  function ScoreState(g0: GState, o: GenerateOptions): GState
  {
    g0.(lineDash := FoldDash, lineWidth := 1.0, strokeStyle := ScoreColor(o.color))
  }

  /** The outline, the cuts and the scores, one stroke each. */
  function DieLineOps(g0: GState, o: GenerateOptions): seq<DrawOp>
  {
    var p, dt := PanelsFor(o), DoubleTuckFor(o);
    [ StrokePath(OutlinePath(p, dt), CutState(g0, o)),
      StrokePath(CutsPath(p, dt), CutState(g0, o)),
      StrokePath(ScoresPath(p, dt), ScoreState(g0, o)) ]
  }

  /** The state images are drawn in: clipped to the outline. */
  function ClipState(g0: GState, o: GenerateOptions): GState
  {
    g0.(clip := g0.clip + [OutlinePath(PanelsFor(o), DoubleTuckFor(o))])
  }

  /** `drawImage` for a face with an image: the origin moved to the
      placement, turned, and moved in by the bleed along the turned axes;
      the image drawn at the origin, the placement's size less twice the
      bleed. */
  function ImageOps(g1: GState, face: Face, o: GenerateOptions): seq<DrawOp>
  {
    match FaceOf(o.face, face).image
    case None => []
    case Some(image) =>
      var q := ImagePlacement(face, PanelsFor(o));
      var b := o.bleed;
      var g := g1.(transform := g1.transform + [Transform.Translate(q.tx, q.ty), Transform.Rotate(q.halfTurns), Transform.Translate(b, b)]);
      [DrawOp.DrawImage(image, 0.0, 0.0, ImageSize(q, b).0, ImageSize(q, b).1, g)]
  }

  function ImagesOps(g0: GState, o: GenerateOptions): seq<DrawOp>
  {
    var g1 := ClipState(g0, o);
    ImageOps(g1, Front, o) + ImageOps(g1, Back, o) + ImageOps(g1, Top, o) +
    ImageOps(g1, Bottom, o) + ImageOps(g1, Left, o) + ImageOps(g1, Right, o)
  }

  /** A face gets a label when it has a non-empty text and a font. */
  predicate Labelled(fo: FaceOptions)
  {
    fo.text.Some? && fo.text.value != "" && fo.font.Some?
  }

  /** The operations for one face's label, written straight or turned as
      `LabelAt` places it. */
  function LabelOps(gl: GState, face: Face, o: GenerateOptions,
                    measure: (string, string) -> real, fontHeight: string -> Option<real>, fontOk: string -> bool): seq<DrawOp>
  {
    var fo := FaceOf(o.face, face);
    if !Labelled(fo) then []
    else
      match LabelAt(face, PanelsFor(o))
      case Straight(x, y, w) => WriteLineOps(gl, fo.text.value, fo.font.value, x, y, w, measure, fontHeight, fontOk)
      case Rotated(x, y, r, w) => WriteCenterAngleOps(gl, fo.text.value, fo.font.value, x, y, r, w, measure, fontHeight, fontOk)
  }

  /** `drawText`: the six faces' labels in order. */
  function DrawTextOps(gl: GState, o: GenerateOptions, measure: (string, string) -> real, fontHeight: string -> Option<real>, fontOk: string -> bool): seq<DrawOp>
  {
    LabelOps(gl, Front, o, measure, fontHeight, fontOk) + LabelOps(gl, Back, o, measure, fontHeight, fontOk) +
    LabelOps(gl, Top, o, measure, fontHeight, fontOk) + LabelOps(gl, Bottom, o, measure, fontHeight, fontOk) +
    LabelOps(gl, Left, o, measure, fontHeight, fontOk) + LabelOps(gl, Right, o, measure, fontHeight, fontOk)
  }

  /** The state labels are drawn in: black fill, centred, middle baseline. */
  function LabelState(g0: GState): GState
  {
    g0.(fillStyle := "#000000", textAlign := "center", textBaseline := "middle")
  }

  /** Everything `generate` draws, in order. */
  function GenerateOps(g0: GState, o: GenerateOptions, measure: (string, string) -> real, fontHeight: string -> Option<real>, fontOk: string -> bool): seq<DrawOp>
  {
    BackgroundOps(g0, o) + DieLineOps(g0, o) + (ImagesOps(g0, o) + DrawTextOps(LabelState(g0), o, measure, fontHeight, fontOk))
  }

  // ---------------------------------------------------------------------
  // What the drawing promises
  // ---------------------------------------------------------------------

  /** The box colour is painted unless it is exactly (1, 1, 1): white
      written as 255s is painted like any other colour. When painted, the
      outline is stroked and then filled, both in the colour. */
  lemma BackgroundSkip(g0: GState, o: GenerateOptions)
    ensures BackgroundOps(g0, o) == [] <==> o.color == RGB(1, 1, 1)
    ensures o.color != RGB(1, 1, 1) ==>
      var ops := BackgroundOps(g0, o);
      |ops| == 2 && ops[0].StrokePath? && ops[1].FillPath? &&
      ops[0].path == ops[1].path == OutlinePath(PanelsFor(o), DoubleTuckFor(o)) &&
      ops[0].gs.strokeStyle == ops[0].gs.fillStyle == ColorToRgb(o.color) &&
      (o.bleed > 0.0 ==> ops[0].gs.lineWidth == 2.0 * o.bleed)
    ensures BackgroundOps(g0, o.(color := RGB(255, 255, 255))) != []
  {
  }

  /** The three die-line strokes follow the box colour, in the order
      outline, cuts, scores; all are one point wide; the outline and cuts
      are solid in the cut colour, the scores dashed in the score colour. */
  lemma DieLineStrokes(g0: GState, o: GenerateOptions, measure: (string, string) -> real, fontHeight: string -> Option<real>, fontOk: string -> bool)
    ensures var ops, k := GenerateOps(g0, o, measure, fontHeight, fontOk), |BackgroundOps(g0, o)|;
      var p, dt := PanelsFor(o), DoubleTuckFor(o);
      |ops| >= k + 3 &&
      ops[k] == StrokePath(OutlinePath(p, dt), CutState(g0, o)) &&
      ops[k + 1] == StrokePath(CutsPath(p, dt), CutState(g0, o)) &&
      ops[k + 2] == StrokePath(ScoresPath(p, dt), ScoreState(g0, o))
    ensures CutState(g0, o).lineDash == [] && ScoreState(g0, o).lineDash == [7.2, 3.6]
    ensures CutState(g0, o).lineWidth == ScoreState(g0, o).lineWidth == 1.0
    ensures CutState(g0, o).strokeStyle == CutColor(o.color) && ScoreState(g0, o).strokeStyle == ScoreColor(o.color)
  {
    var bg, dl := BackgroundOps(g0, o), DieLineOps(g0, o);
    var rest := ImagesOps(g0, o) + DrawTextOps(LabelState(g0), o, measure, fontHeight, fontOk);
    var ops := GenerateOps(g0, o, measure, fontHeight, fontOk);
    AppendAssoc(bg, dl, rest);
    assert ops == bg + (dl + rest);
    assert |dl| == 3;
    assert ops[|bg|] == dl[0] && ops[|bg| + 1] == dl[1] && ops[|bg| + 2] == dl[2];
  }

  lemma AppendAssoc<T>(a: seq<T>, b: seq<T>, c: seq<T>)
    ensures a + b + c == a + (b + c)
  {
  }

  /** A face's image is drawn once when it has one and not otherwise, at
      exactly the size `getFaceDimensions` reports for that face, clipped
      to the outline. */
  lemma ImageDrawn(g0: GState, face: Face, o: GenerateOptions)
    ensures var ops := ImageOps(ClipState(g0, o), face, o);
      |ops| == (if FaceOf(o.face, face).image.Some? then 1 else 0) &&
      (|ops| == 1 ==>
        ops[0].DrawImage? && ops[0].image == FaceOf(o.face, face).image.value &&
        (ops[0].width, ops[0].height) == FaceDimensions(FaceName(face), o.size, o.thickness, o.bleed) &&
        ops[0].gs.clip == g0.clip + [OutlinePath(PanelsFor(o), DoubleTuckFor(o))])
  {
    ImageSizeIsFaceDimensions(face, o.size, o.thickness, o.margin, o.bleed);
  }

  /** One image per face that has one. */
  lemma ImagesCount(g0: GState, o: GenerateOptions)
    ensures |ImagesOps(g0, o)| ==
      (if o.face.front.image.Some? then 1 else 0) + (if o.face.back.image.Some? then 1 else 0) +
      (if o.face.top.image.Some? then 1 else 0) + (if o.face.bottom.image.Some? then 1 else 0) +
      (if o.face.left.image.Some? then 1 else 0) + (if o.face.right.image.Some? then 1 else 0)
  {
    var g1 := ClipState(g0, o);
    ImageCount(g1, Front, o);
    ImageCount(g1, Back, o);
    ImageCount(g1, Top, o);
    ImageCount(g1, Bottom, o);
    ImageCount(g1, Left, o);
    ImageCount(g1, Right, o);
  }

  lemma ImageCount(g1: GState, face: Face, o: GenerateOptions)
    ensures |ImageOps(g1, face, o)| == if FaceOf(o.face, face).image.Some? then 1 else 0
  {
  }

  /** `writeLine` always draws: at least one line, every operation in the
      state `setFont` leaves, each line stroked and filled at the anchor
      moved down by its offset. */
  lemma WriteLineDraws(g0: GState, text: string, font: Font, x: real, y: real, w: real,
                       measure: (string, string) -> real, fontHeight: string -> Option<real>, fontOk: string -> bool)
    ensures var g := WithFont(g0, font, fontOk);
      var lines := Wrap(Split(text), measure, g.font, w, LineHeight(measure, fontHeight, g.font));
      var ops := WriteLineOps(g0, text, font, x, y, w, measure, fontHeight, fontOk);
      |lines| >= 1 && |ops| == 2 * |lines| && forall i :: 0 <= i < |ops| ==> ops[i].gs == g
  {
    WrappedDraws(WithFont(g0, font, fontOk), Split(text), AtPoint(x, y), w, measure, fontHeight);
  }

  /** `writeCenterAngle` always draws: at least one line, every operation
      in the turned, left-aligned state. */
  lemma WriteCenterAngleDraws(g0: GState, text: string, font: Font, x: real, y: real, r: real, w: real,
                              measure: (string, string) -> real, fontHeight: string -> Option<real>, fontOk: string -> bool)
    ensures var g := AngleState(g0, font, x, y, r, fontOk);
      var lines := Wrap(Split(text), measure, g.font, w, LineHeight(measure, fontHeight, g.font));
      var ops := WriteCenterAngleOps(g0, text, font, x, y, r, w, measure, fontHeight, fontOk);
      |lines| >= 1 && |ops| == 2 * |lines| && forall i :: 0 <= i < |ops| ==> ops[i].gs == g
  {
    WrappedDraws(AngleState(g0, font, x, y, r, fontOk), Split(text), Aligned(AlignFraction(g0.textAlign).0), w, measure, fontHeight);
  }

  /** Wrapping at least one word draws at least one line, all in the one
      state. */
  lemma WrappedDraws(g: GState, words: seq<string>, cb: Callback, w: real,
                     measure: (string, string) -> real, fontHeight: string -> Option<real>)
    requires words != []
    ensures var lines := Wrap(words, measure, g.font, w, LineHeight(measure, fontHeight, g.font));
      var ops := WrappedOps(g, words, cb, w, measure, fontHeight);
      |lines| >= 1 && |ops| == 2 * |lines| && forall i :: 0 <= i < |ops| ==> ops[i].gs == g
  {
    var lh := LineHeight(measure, fontHeight, g.font);
    WrapCount(words, measure, g.font, w, lh);
    LinesOpsState(Wrap(words, measure, g.font, w, lh), cb, measure, g);
  }

  /** A face's label is drawn exactly when it has a non-empty text and a
      font; then every operation uses the face's font string when the
      context accepts it, and otherwise the font the labels block began
      with. */
  lemma LabelDrawn(g0: GState, face: Face, o: GenerateOptions, measure: (string, string) -> real, fontHeight: string -> Option<real>, fontOk: string -> bool)
    ensures var fo := FaceOf(o.face, face);
      var ops := LabelOps(LabelState(g0), face, o, measure, fontHeight, fontOk);
      (ops != [] <==> Labelled(fo)) &&
      (Labelled(fo) ==> |ops| >= 2) &&
      (Labelled(fo) && fontOk(FontString(fo.font.value)) ==>
        forall i :: 0 <= i < |ops| ==> ops[i].gs.font == FontString(fo.font.value)) &&
      (Labelled(fo) && !fontOk(FontString(fo.font.value)) ==>
        forall i :: 0 <= i < |ops| ==> ops[i].gs.font == g0.font)
  {
    var fo := FaceOf(o.face, face);
    if Labelled(fo) {
      var gl := LabelState(g0);
      match LabelAt(face, PanelsFor(o))
      case Straight(x, y, w) =>
        WriteLineFont(gl, fo.text.value, fo.font.value, x, y, w, measure, fontHeight, fontOk);
      case Rotated(x, y, r, w) =>
        WriteCenterAngleFont(gl, fo.text.value, fo.font.value, x, y, r, w, measure, fontHeight, fontOk);
    }
  }

  /** `writeLine` draws at least two operations, all in the font `setFont`
      leaves. */
  lemma WriteLineFont(g0: GState, text: string, font: Font, x: real, y: real, w: real,
                      measure: (string, string) -> real, fontHeight: string -> Option<real>, fontOk: string -> bool)
    ensures var ops := WriteLineOps(g0, text, font, x, y, w, measure, fontHeight, fontOk);
      |ops| >= 2 && forall i :: 0 <= i < |ops| ==> ops[i].gs.font == FontAfter(g0, font, fontOk)
  {
    WriteLineDraws(g0, text, font, x, y, w, measure, fontHeight, fontOk);
    assert WithFont(g0, font, fontOk).font == FontAfter(g0, font, fontOk);
  }

  /** `writeCenterAngle` draws at least two operations, all in the font
      `setFont` leaves. */
  lemma WriteCenterAngleFont(g0: GState, text: string, font: Font, x: real, y: real, r: real, w: real,
                             measure: (string, string) -> real, fontHeight: string -> Option<real>, fontOk: string -> bool)
    ensures var ops := WriteCenterAngleOps(g0, text, font, x, y, r, w, measure, fontHeight, fontOk);
      |ops| >= 2 && forall i :: 0 <= i < |ops| ==> ops[i].gs.font == FontAfter(g0, font, fontOk)
  {
    WriteCenterAngleDraws(g0, text, font, x, y, r, w, measure, fontHeight, fontOk);
    assert AngleState(g0, font, x, y, r, fontOk).font == FontAfter(g0, font, fontOk);
  }

  /** The turned labels (top, left and right) are centred on the anchor:
      each line is drawn half its own width left of the turned origin, at
      its offset, since the labels block sets centre alignment. */
  lemma TurnedLabelsCentred(g0: GState, text: string, font: Font, x: real, y: real, r: real, w: real,
                            measure: (string, string) -> real, fontHeight: string -> Option<real>, fontOk: string -> bool)
    ensures var g := AngleState(LabelState(g0), font, x, y, r, fontOk);
      var lines := Wrap(Split(text), measure, g.font, w, LineHeight(measure, fontHeight, g.font));
      var ops := WriteCenterAngleOps(LabelState(g0), text, font, x, y, r, w, measure, fontHeight, fontOk);
      |ops| == 2 * |lines| &&
      forall k :: 0 <= k < |lines| ==>
        ops[2 * k] == DrawOp.StrokeText(lines[k].text, -measure(g.font, lines[k].text) * 0.5, lines[k].y, g)
  {
    assert AlignFraction(LabelState(g0).textAlign).0 == 0.5;
    WrappedCentred(AngleState(LabelState(g0), font, x, y, r, fontOk), Split(text), w, measure, fontHeight);
  }

  /** A wrapped text drawn centred by the turned writer: each line stroked
      half its own width left of the origin, at its offset. */
  lemma WrappedCentred(g: GState, words: seq<string>, w: real,
                       measure: (string, string) -> real, fontHeight: string -> Option<real>)
    ensures var lines := Wrap(words, measure, g.font, w, LineHeight(measure, fontHeight, g.font));
      var ops := WrappedOps(g, words, Aligned(0.5), w, measure, fontHeight);
      |ops| == 2 * |lines| &&
      forall k :: 0 <= k < |lines| ==>
        ops[2 * k] == DrawOp.StrokeText(lines[k].text, -measure(g.font, lines[k].text) * 0.5, lines[k].y, g)
  {
    LinesAligned(Wrap(words, measure, g.font, w, LineHeight(measure, fontHeight, g.font)), 0.5, measure, g);
  }

  /** Lines drawn by the turned writer are each stroked the fraction `xs`
      of their own width left of the origin, at their offset. */
  lemma LinesAligned(lines: seq<Line>, xs: real, measure: (string, string) -> real, g: GState)
    ensures var ops := LinesOps(lines, Aligned(xs), measure, g);
      |ops| == 2 * |lines| &&
      forall k :: 0 <= k < |lines| ==>
        ops[2 * k] == DrawOp.StrokeText(lines[k].text, -measure(g.font, lines[k].text) * xs, lines[k].y, g)
  {
    LinesOpsShape(lines, Aligned(xs), measure, g);
  }

  /** Lines stacked down from the anchor (x, y): at least one line, two
      operations per line, the first line at offset 0 and each further one
      a line height lower, line k stroked at the anchor moved down by its
      offset. */
  predicate Stacked(lines: seq<Line>, ops: seq<DrawOp>, x: real, y: real, lh: real, g: GState)
  {
    |lines| >= 1 && |ops| == 2 * |lines| && lines[0].y == 0.0 &&
    (forall k :: 0 < k < |lines| ==> lines[k].y == lines[k - 1].y + lh) &&
    forall k :: 0 <= k < |lines| ==> ops[2 * k] == DrawOp.StrokeText(lines[k].text, x, y + lines[k].y, g)
  }

  /** `writeLine` stacks its lines down from the anchor: line k is stroked at the anchor moved down by its offset, the
      first offset is 0 and each further one is a line height more. */
  lemma StraightLabelsStack(g0: GState, text: string, font: Font, x: real, y: real, w: real,
                            measure: (string, string) -> real, fontHeight: string -> Option<real>, fontOk: string -> bool)
    ensures var g := WithFont(g0, font, fontOk);
      var lh := LineHeight(measure, fontHeight, g.font);
      Stacked(Wrap(Split(text), measure, g.font, w, lh), WriteLineOps(g0, text, font, x, y, w, measure, fontHeight, fontOk), x, y, lh, g)
  {
    var g, words := WithFont(g0, font, fontOk), Split(text);
    WriteLineOpsWrapped(g0, text, font, x, y, w, measure, fontHeight, fontOk);
    WrappedLinesStack(g, words, x, y, w, measure, fontHeight);
  }

  lemma WriteLineOpsWrapped(g0: GState, text: string, font: Font, x: real, y: real, w: real,
                            measure: (string, string) -> real, fontHeight: string -> Option<real>, fontOk: string -> bool)
    ensures Split(text) != []
    ensures WriteLineOps(g0, text, font, x, y, w, measure, fontHeight, fontOk) ==
      WrappedOps(WithFont(g0, font, fontOk), Split(text), AtPoint(x, y), w, measure, fontHeight)
  {
  }

  /** Wrapped words drawn from an anchor stack down from it. */
  lemma WrappedLinesStack(g: GState, words: seq<string>, x: real, y: real, w: real,
                          measure: (string, string) -> real, fontHeight: string -> Option<real>)
    requires words != []
    ensures var lh := LineHeight(measure, fontHeight, g.font);
      Stacked(Wrap(words, measure, g.font, w, lh), WrappedOps(g, words, AtPoint(x, y), w, measure, fontHeight), x, y, lh, g)
  {
    var lh := LineHeight(measure, fontHeight, g.font);
    WrapCount(words, measure, g.font, w, lh);
    WrapSpacing(words, measure, g.font, w, lh);
    LinesStacked(Wrap(words, measure, g.font, w, lh), x, y, measure, g);
  }

  /** Lines drawn by the straight writer are each stroked at the anchor
      moved down by their offset. */
  lemma LinesStacked(lines: seq<Line>, x: real, y: real, measure: (string, string) -> real, g: GState)
    ensures var ops := LinesOps(lines, AtPoint(x, y), measure, g);
      |ops| == 2 * |lines| &&
      forall k :: 0 <= k < |lines| ==> ops[2 * k] == DrawOp.StrokeText(lines[k].text, x, y + lines[k].y, g)
  {
    LinesOpsShape(lines, AtPoint(x, y), measure, g);
  }

  // ---------------------------------------------------------------------
  // Drawing on a context
  // ---------------------------------------------------------------------

  method SetFont(ctx: Context, font: Font)
    modifies ctx`gs
    ensures ctx.gs == WithFont(old(ctx.gs), font, ctx.fontOk)
  {
    ctx.SetFont(FontString(font));
    ctx.SetFillStyle(ColorToRgb(font.color));
    if font.outlineWidth > 0.0 {
      ctx.SetStrokeStyle(ColorToRgb(font.outlineColor));
      ctx.SetLineWidth(font.outlineWidth);
    } else {
      ctx.SetStrokeStyle("rgba(1, 1, 1, 0)");
      ctx.SetLineWidth(1.0);
    }
  }

  method FindLineHeight(ctx: Context) returns (h: real)
    ensures h == LineHeight(ctx.measure, ctx.fontHeight, ctx.gs.font)
  {
    var metrics := ctx.fontHeight(ctx.gs.font);
    if metrics.Some? {
      h := metrics.value;
    } else {
      h := ctx.MeasureText("M");
    }
  }

  method DrawLine(ctx: Context, x: real, y: real, text: string)
    modifies ctx`ops
    ensures ctx.ops == old(ctx.ops) + [DrawOp.StrokeText(text, x, y, ctx.gs), DrawOp.FillText(text, x, y, ctx.gs)]
  {
    ctx.StrokeText(text, x, y);
    ctx.FillText(text, x, y);
  }

  /** Runs a callback on one line. */
  method Emit(ctx: Context, cb: Callback, text: string, yOffset: real)
    modifies ctx`ops
    ensures ctx.ops == old(ctx.ops) + LineOps(Line(text, yOffset), cb, ctx.measure, ctx.gs)
  {
    match cb
    case AtPoint(x, y) =>
      DrawLine(ctx, x, y + yOffset, text);
    case Aligned(xs) =>
      var m := ctx.MeasureText(text);
      assert m == ctx.measure(ctx.gs.font, text);
      assert -m * xs == -ctx.measure(ctx.gs.font, text) * xs;
      assert LinePoint(Line(text, yOffset), cb, ctx.measure, ctx.gs.font).0 == -m * xs;
      assert LinePoint(Line(text, yOffset), cb, ctx.measure, ctx.gs.font) == (-m * xs, yOffset);
      DrawLine(ctx, -m * xs, yOffset, text);
  }

  /** `wrapText`: the loop runs `Step` on each word, handing broken-off
      lines to the callback as it goes, then hands over the last line. */
  method WrapText(ctx: Context, text: string, w: real, lineHeight: real, cb: Callback)
    modifies ctx`ops
    ensures ctx.ops == old(ctx.ops) +
      LinesOps(Wrap(Split(text), ctx.measure, ctx.gs.font, w, lineHeight), cb, ctx.measure, ctx.gs)
  {
    var words := Split(text);
    var line := "";
    var first := true;
    var yOffset := 0.0;
    ghost var emitted: seq<Line> := [];
    var i := 0;
    while i < |words|
      invariant 0 <= i <= |words|
      invariant Scan(words[..i], ctx.measure, ctx.gs.font, w, lineHeight) == WrapState(emitted, line, first, yOffset)
      invariant ctx.ops == old(ctx.ops) + LinesOps(emitted, cb, ctx.measure, ctx.gs)
    {
      ScanNext(words, i, ctx.measure, ctx.gs.font, w, lineHeight);
      line, first, yOffset, emitted := TakeWord(ctx, cb, w, lineHeight, words[i], line, first, yOffset, emitted, old(ctx.ops));
      i := i + 1;
    }
    assert words[..i] == words;
    FlushLine(ctx, cb, line, yOffset, emitted, old(ctx.ops));
  }

  /** The end of `wrapText`: the last line goes to the callback unless it
      is empty. */
  method FlushLine(ctx: Context, cb: Callback, line: string, yOffset: real, ghost emitted: seq<Line>, ghost ops0: seq<DrawOp>)
    requires ctx.ops == ops0 + LinesOps(emitted, cb, ctx.measure, ctx.gs)
    modifies ctx`ops
    ensures ctx.ops == ops0 + LinesOps(emitted + (if line != "" then [Line(line, yOffset)] else []), cb, ctx.measure, ctx.gs)
  {
    if line != "" {
      Emit(ctx, cb, line, yOffset);
      EmittedOps(ops0, emitted, Line(line, yOffset), cb, ctx.measure, ctx.gs);
    } else {
      assert emitted + [] == emitted;
    }
  }

  /** One pass of the loop of `wrapText`: the word is tried on the line;
      when the line would be too wide, it is handed to the callback and
      the word starts a new line. */
  method TakeWord(ctx: Context, cb: Callback, w: real, lineHeight: real, word: string,
                  line: string, first: bool, yOffset: real, ghost emitted: seq<Line>, ghost ops0: seq<DrawOp>)
      returns (line': string, first': bool, yOffset': real, ghost emitted': seq<Line>)
    requires ctx.ops == ops0 + LinesOps(emitted, cb, ctx.measure, ctx.gs)
    modifies ctx`ops
    ensures WrapState(emitted', line', first', yOffset') ==
      Step(WrapState(emitted, line, first, yOffset), word, ctx.measure, ctx.gs.font, w, lineHeight)
    ensures ctx.ops == ops0 + LinesOps(emitted', cb, ctx.measure, ctx.gs)
  {
    var attempt := line + word + " ";
    var m := ctx.MeasureText(attempt);
    if m > w && !first {
      Emit(ctx, cb, line, yOffset);
      EmittedOps(ops0, emitted, Line(line, yOffset), cb, ctx.measure, ctx.gs);
      emitted' := emitted + [Line(line, yOffset)];
      line' := word + " ";
      yOffset' := yOffset + lineHeight;
    } else {
      emitted' := emitted;
      line' := attempt;
      yOffset' := yOffset;
    }
    first' := false;
  }

  /** `writeLine`. */
  method WriteLine(ctx: Context, text: string, font: Font, x: real, y: real, w: real)
    modifies ctx`gs, ctx`stack, ctx`ops
    ensures ctx.ops == old(ctx.ops) + WriteLineOps(old(ctx.gs), text, font, x, y, w, ctx.measure, ctx.fontHeight, ctx.fontOk)
    ensures ctx.gs == old(ctx.gs) && ctx.stack == old(ctx.stack)
  {
    ctx.Save();
    SetFont(ctx, font);
    var lineHeight := FindLineHeight(ctx);
    WrapText(ctx, text, w, lineHeight, AtPoint(x, y));
    ctx.Restore();
  }

  /** `writeCenterAngle`. */
  method WriteCenterAngle(ctx: Context, text: string, font: Font, x: real, y: real, r: real, w: real)
    modifies ctx`gs, ctx`stack, ctx`ops
    ensures ctx.ops == old(ctx.ops) + WriteCenterAngleOps(old(ctx.gs), text, font, x, y, r, w, ctx.measure, ctx.fontHeight, ctx.fontOk)
    ensures ctx.gs == old(ctx.gs) && ctx.stack == old(ctx.stack)
  {
    ctx.Save();
    TurnTo(ctx, font, x, y, r);
    var (xs, textAlign) := AlignFraction(ctx.gs.textAlign);
    ctx.SetTextAlign("left");
    var lineHeight := FindLineHeight(ctx);
    WrapText(ctx, text, w, lineHeight, Aligned(xs));
    ctx.SetTextAlign(textAlign);
    ctx.Restore();
  }

  /** The font, translation and rotation at the start of
      `writeCenterAngle`. */
  method TurnTo(ctx: Context, font: Font, x: real, y: real, r: real)
    modifies ctx`gs
    ensures ctx.gs == AngleState(old(ctx.gs), font, x, y, r, ctx.fontOk).(textAlign := old(ctx.gs).textAlign)
  {
    SetFont(ctx, font);
    ctx.Translate(x, y);
    ctx.Rotate(r);
  }

  /** One face's part of `drawText`. */
  method DrawLabel(ctx: Context, face: Face, o: GenerateOptions)
    modifies ctx`gs, ctx`stack, ctx`ops
    ensures ctx.ops == old(ctx.ops) + LabelOps(old(ctx.gs), face, o, ctx.measure, ctx.fontHeight, ctx.fontOk)
    ensures ctx.gs == old(ctx.gs) && ctx.stack == old(ctx.stack)
  {
    var fo := FaceOf(o.face, face);
    if fo.text.Some? && fo.text.value != "" && fo.font.Some? {
      match LabelAt(face, PanelsFor(o)) {
        case Straight(x, y, w) =>
          WriteLine(ctx, fo.text.value, fo.font.value, x, y, w);
        case Rotated(x, y, r, w) =>
          WriteCenterAngle(ctx, fo.text.value, fo.font.value, x, y, r, w);
      }
    }
  }

  /** `drawText`. */
  method DrawText(ctx: Context, o: GenerateOptions)
    modifies ctx`gs, ctx`stack, ctx`ops
    ensures ctx.ops == old(ctx.ops) + DrawTextOps(old(ctx.gs), o, ctx.measure, ctx.fontHeight, ctx.fontOk)
    ensures ctx.gs == old(ctx.gs) && ctx.stack == old(ctx.stack)
  {
    ghost var ops0 := ctx.ops;
    ghost var front := LabelOps(ctx.gs, Front, o, ctx.measure, ctx.fontHeight, ctx.fontOk);
    ghost var back := LabelOps(ctx.gs, Back, o, ctx.measure, ctx.fontHeight, ctx.fontOk);
    ghost var top := LabelOps(ctx.gs, Top, o, ctx.measure, ctx.fontHeight, ctx.fontOk);
    ghost var bottom := LabelOps(ctx.gs, Bottom, o, ctx.measure, ctx.fontHeight, ctx.fontOk);
    ghost var left := LabelOps(ctx.gs, Left, o, ctx.measure, ctx.fontHeight, ctx.fontOk);
    ghost var right := LabelOps(ctx.gs, Right, o, ctx.measure, ctx.fontHeight, ctx.fontOk);
    DrawLabel(ctx, Front, o);
    DrawLabel(ctx, Back, o);
    AppendAssoc(ops0, front, back);
    DrawLabel(ctx, Top, o);
    AppendAssoc(ops0, front + back, top);
    DrawLabel(ctx, Bottom, o);
    AppendAssoc(ops0, front + back + top, bottom);
    DrawLabel(ctx, Left, o);
    AppendAssoc(ops0, front + back + top + bottom, left);
    DrawLabel(ctx, Right, o);
    AppendAssoc(ops0, front + back + top + bottom + left, right);
  }

  /** `drawImage`. */
  method DrawImageAt(ctx: Context, tx: real, ty: real, tw: real, th: real, image: nat, r: real, b: real)
    modifies ctx`gs, ctx`stack, ctx`ops
    ensures ctx.ops == old(ctx.ops) + [DrawOp.DrawImage(image, 0.0, 0.0, tw - b * 2.0, th - b * 2.0,
      old(ctx.gs).(transform := old(ctx.gs).transform + [Transform.Translate(tx, ty), Transform.Rotate(r), Transform.Translate(b, b)]))]
    ensures ctx.gs == old(ctx.gs) && ctx.stack == old(ctx.stack)
  {
    ctx.Save();
    ctx.Translate(tx, ty);
    ctx.Rotate(r);
    ctx.Translate(b, b);
    assert ctx.gs.transform == old(ctx.gs).transform + [Transform.Translate(tx, ty), Transform.Rotate(r), Transform.Translate(b, b)];
    ctx.DrawImage(image, 0.0, 0.0, tw - b * 2.0, th - b * 2.0);
    ctx.Restore();
  }

  /** One face's image, if it has one. */
  method DrawFaceImage(ctx: Context, face: Face, o: GenerateOptions)
    modifies ctx`gs, ctx`stack, ctx`ops
    ensures ctx.ops == old(ctx.ops) + ImageOps(old(ctx.gs), face, o)
    ensures ctx.gs == old(ctx.gs) && ctx.stack == old(ctx.stack)
  {
    var image := FaceOf(o.face, face).image;
    if image.Some? {
      var q := ImagePlacement(face, PanelsFor(o));
      DrawImageAt(ctx, q.tx, q.ty, q.tw, q.th, image.value, q.halfTurns, o.bleed);
    }
  }

  /** The images block: clip to the outline, then each face's image. */
  method DrawImages(ctx: Context, o: GenerateOptions)
    modifies ctx`gs, ctx`stack, ctx`path, ctx`ops
    ensures ctx.ops == old(ctx.ops) + ImagesOps(old(ctx.gs), o)
    ensures ctx.gs == old(ctx.gs) && ctx.stack == old(ctx.stack)
    ensures ctx.path == OutlinePath(PanelsFor(o), DoubleTuckFor(o))
  {
    ctx.Save();
    ctx.BeginPath();
    TraceOutline(ctx, PanelsFor(o), DoubleTuckFor(o));
    assert ctx.path == OutlinePath(PanelsFor(o), DoubleTuckFor(o));
    ctx.Clip();
    DrawClippedImages(ctx, o);
    ctx.Restore();
  }

  method DrawClippedImages(ctx: Context, o: GenerateOptions)
    modifies ctx`gs, ctx`stack, ctx`ops
    ensures ctx.ops == old(ctx.ops) +
      (ImageOps(old(ctx.gs), Front, o) + ImageOps(old(ctx.gs), Back, o) + ImageOps(old(ctx.gs), Top, o) +
       ImageOps(old(ctx.gs), Bottom, o) + ImageOps(old(ctx.gs), Left, o) + ImageOps(old(ctx.gs), Right, o))
    ensures ctx.gs == old(ctx.gs) && ctx.stack == old(ctx.stack)
  {
    ghost var ops0 := ctx.ops;
    ghost var front, back, top := ImageOps(ctx.gs, Front, o), ImageOps(ctx.gs, Back, o), ImageOps(ctx.gs, Top, o);
    ghost var bottom, left, right := ImageOps(ctx.gs, Bottom, o), ImageOps(ctx.gs, Left, o), ImageOps(ctx.gs, Right, o);
    DrawFaceImage(ctx, Front, o);
    DrawFaceImage(ctx, Back, o);
    AppendAssoc(ops0, front, back);
    DrawFaceImage(ctx, Top, o);
    AppendAssoc(ops0, front + back, top);
    DrawFaceImage(ctx, Bottom, o);
    AppendAssoc(ops0, front + back + top, bottom);
    DrawFaceImage(ctx, Left, o);
    AppendAssoc(ops0, front + back + top + bottom, left);
    DrawFaceImage(ctx, Right, o);
    AppendAssoc(ops0, front + back + top + bottom + left, right);
  }

  /** The box colour block. */
  method DrawBackground(ctx: Context, o: GenerateOptions)
    modifies ctx`gs, ctx`stack, ctx`path, ctx`ops
    ensures ctx.ops == old(ctx.ops) + BackgroundOps(old(ctx.gs), o)
    ensures ctx.gs == old(ctx.gs) && ctx.stack == old(ctx.stack)
    ensures ctx.path == if o.color == RGB(1, 1, 1) then old(ctx.path) else OutlinePath(PanelsFor(o), DoubleTuckFor(o))
  {
    ctx.Save();
    if o.color.r != 1 || o.color.g != 1 || o.color.b != 1 {
      var css := ColorToRgb(o.color);
      ctx.SetLineDash([]);
      ctx.SetFillStyle(css);
      ctx.SetStrokeStyle(css);
      ctx.SetLineWidth(o.bleed * 2.0);
      FillOutline(ctx, o);
    }
    ctx.Restore();
  }

  method FillOutline(ctx: Context, o: GenerateOptions)
    modifies ctx`path, ctx`ops
    ensures ctx.path == OutlinePath(PanelsFor(o), DoubleTuckFor(o))
    ensures ctx.ops == old(ctx.ops) + [StrokePath(ctx.path, ctx.gs), FillPath(ctx.path, ctx.gs)]
  {
    ctx.BeginPath();
    TraceOutline(ctx, PanelsFor(o), DoubleTuckFor(o));
    assert ctx.path == OutlinePath(PanelsFor(o), DoubleTuckFor(o));
    ctx.Stroke();
    ctx.Fill();
  }

  /** The outline block. */
  method StrokeOutline(ctx: Context, o: GenerateOptions)
    modifies ctx`gs, ctx`stack, ctx`path, ctx`ops
    ensures ctx.ops == old(ctx.ops) + [StrokePath(OutlinePath(PanelsFor(o), DoubleTuckFor(o)), CutState(old(ctx.gs), o))]
    ensures ctx.gs == old(ctx.gs) && ctx.stack == old(ctx.stack)
    ensures ctx.path == OutlinePath(PanelsFor(o), DoubleTuckFor(o))
  {
    ctx.Save();
    ctx.BeginPath();
    TraceOutline(ctx, PanelsFor(o), DoubleTuckFor(o));
    assert ctx.path == OutlinePath(PanelsFor(o), DoubleTuckFor(o));
    SolidStroke(ctx, CutColor(o.color));
    ctx.Restore();
  }

  /** The cuts block. */
  method StrokeCuts(ctx: Context, o: GenerateOptions)
    modifies ctx`gs, ctx`stack, ctx`path, ctx`ops
    ensures ctx.ops == old(ctx.ops) + [StrokePath(CutsPath(PanelsFor(o), DoubleTuckFor(o)), CutState(old(ctx.gs), o))]
    ensures ctx.gs == old(ctx.gs) && ctx.stack == old(ctx.stack)
    ensures ctx.path == CutsPath(PanelsFor(o), DoubleTuckFor(o))
  {
    ctx.Save();
    ctx.BeginPath();
    TraceCuts(ctx, PanelsFor(o), DoubleTuckFor(o));
    assert ctx.path == CutsPath(PanelsFor(o), DoubleTuckFor(o));
    SolidStroke(ctx, CutColor(o.color));
    ctx.Restore();
  }

  /** The scores block. */
  method StrokeScores(ctx: Context, o: GenerateOptions)
    modifies ctx`gs, ctx`stack, ctx`path, ctx`ops
    ensures ctx.ops == old(ctx.ops) + [StrokePath(ScoresPath(PanelsFor(o), DoubleTuckFor(o)), ScoreState(old(ctx.gs), o))]
    ensures ctx.gs == old(ctx.gs) && ctx.stack == old(ctx.stack)
    ensures ctx.path == ScoresPath(PanelsFor(o), DoubleTuckFor(o))
  {
    ctx.Save();
    ctx.BeginPath();
    TraceScores(ctx, PanelsFor(o), DoubleTuckFor(o));
    assert ctx.path == ScoresPath(PanelsFor(o), DoubleTuckFor(o));
    ctx.SetLineDash(FoldDash);
    ctx.SetLineWidth(1.0);
    ctx.SetStrokeStyle(ScoreColor(o.color));
    ctx.Stroke();
    ctx.Restore();
  }

  /** Dash off, width 1, the given colour, then stroke. */
  method SolidStroke(ctx: Context, color: string)
    modifies ctx`gs, ctx`ops
    ensures ctx.gs == old(ctx.gs).(lineDash := [], lineWidth := 1.0, strokeStyle := color)
    ensures ctx.ops == old(ctx.ops) + [StrokePath(ctx.path, ctx.gs)]
  {
    ctx.SetLineDash([]);
    ctx.SetLineWidth(1.0);
    ctx.SetStrokeStyle(color);
    ctx.Stroke();
  }

  /** The labels block. */
  method DrawLabels(ctx: Context, o: GenerateOptions)
    modifies ctx`gs, ctx`stack, ctx`path, ctx`ops
    ensures ctx.ops == old(ctx.ops) + DrawTextOps(LabelState(old(ctx.gs)), o, ctx.measure, ctx.fontHeight, ctx.fontOk)
    ensures ctx.gs == old(ctx.gs) && ctx.stack == old(ctx.stack) && ctx.path == []
  {
    ctx.Save();
    ctx.BeginPath();
    ctx.SetFillStyle("#000000");
    ctx.SetTextAlign("center");
    ctx.SetTextBaseline("middle");
    DrawText(ctx, o);
    ctx.Restore();
  }

  /** `generate`: the six blocks in order; the drawing state and the saved
      states are as before, and the current path is the empty one the
      labels block began. */
  method Generate(ctx: Context, o: GenerateOptions)
    modifies ctx`gs, ctx`stack, ctx`path, ctx`ops
    ensures ctx.ops == old(ctx.ops) + GenerateOps(old(ctx.gs), o, ctx.measure, ctx.fontHeight, ctx.fontOk)
    ensures ctx.gs == old(ctx.gs) && ctx.stack == old(ctx.stack) && ctx.path == []
  {
    ghost var ops0 := ctx.ops;
    ghost var background, dieLine := BackgroundOps(ctx.gs, o), DieLineOps(ctx.gs, o);
    ghost var artwork := ImagesOps(ctx.gs, o) + DrawTextOps(LabelState(ctx.gs), o, ctx.measure, ctx.fontHeight, ctx.fontOk);
    DrawBackground(ctx, o);
    DrawDieLine(ctx, o);
    AppendAssoc(ops0, background, dieLine);
    DrawArtwork(ctx, o);
    AppendAssoc(ops0, background + dieLine, artwork);
  }

  /** The images block, then the labels block. */
  method DrawArtwork(ctx: Context, o: GenerateOptions)
    modifies ctx`gs, ctx`stack, ctx`path, ctx`ops
    ensures ctx.ops == old(ctx.ops) + (ImagesOps(old(ctx.gs), o) + DrawTextOps(LabelState(old(ctx.gs)), o, ctx.measure, ctx.fontHeight, ctx.fontOk))
    ensures ctx.gs == old(ctx.gs) && ctx.stack == old(ctx.stack) && ctx.path == []
  {
    ghost var ops0 := ctx.ops;
    ghost var images, labels := ImagesOps(ctx.gs, o), DrawTextOps(LabelState(ctx.gs), o, ctx.measure, ctx.fontHeight, ctx.fontOk);
    DrawImages(ctx, o);
    DrawLabels(ctx, o);
    AppendAssoc(ops0, images, labels);
  }

  /** The outline, cuts and scores blocks. */
  method DrawDieLine(ctx: Context, o: GenerateOptions)
    modifies ctx`gs, ctx`stack, ctx`path, ctx`ops
    ensures ctx.ops == old(ctx.ops) + DieLineOps(old(ctx.gs), o)
    ensures ctx.gs == old(ctx.gs) && ctx.stack == old(ctx.stack)
  {
    StrokeOutline(ctx, o);
    StrokeCuts(ctx, o);
    StrokeScores(ctx, o);
  }
}
