/** The three path classes of the die-line (src/generate.ts): the outline
    of the flat carton, the inner cuts and the score (fold) lines. Each is
    given as the list of path commands `generate` issues, and traced onto
    a context by a method proved to issue exactly that list. */
module Dieline {
  import opened Types
  import opened Layout
  import opened Canvas

  // ---------------------------------------------------------------------
  // The outline
  // ---------------------------------------------------------------------

  /** `pathOutline`, section by section as the source comments name them:
      the top tuck flap, the upper dust flap, the thumb notch on the back,
      the glue strip, the back's lower edge, the lower dust flap, the
      bottom closure and the remaining side flap. `doubleTuck` is
      `style == 'double-tuck'`. */
  function OutlinePath(p: Panels, doubleTuck: bool): (path: seq<PathCmd>)
  {
    OutlineUpper(p) + OutlineLower(p, doubleTuck)
  }

  /** From the top tuck flap round to the foot of the glue strip. */
  function OutlineUpper(p: Panels): seq<PathCmd>
  {
    OutlineTop(p) + OutlineUpperFlap(p) + OutlineNotch(p) + OutlineGlue(p)
  }

  /** From the foot of the glue strip back to the start. */
  function OutlineLower(p: Panels, doubleTuck: bool): seq<PathCmd>
  {
    OutlineBackBottom(p, doubleTuck) + OutlineLowerFlap(p) + OutlineInnerBottom(p, doubleTuck) + OutlineSide(p)
  }

  function OutlineTop(p: Panels): seq<PathCmd>
  {
    var f, d := p.front, p.size.depth;
    [ MoveTo(f.x, f.y - d * 0.6),
      LineTo(f.x, f.y - d),
      Arc(f.x + f.width * 0.2, f.y - d, f.width * 0.2, 1.0, 1.5, false),
      Arc(f.x + f.width - f.width * 0.2, f.y - d, f.width * 0.2, 1.5, 2.0, false),
      LineTo(f.x + f.width, f.y - d * 0.6) ]
  }

  function OutlineUpperFlap(p: Panels): seq<PathCmd>
  {
    var f, b, d := p.front, p.back, p.size.depth;
    [ Arc(f.x + f.width + d * 0.5, f.y - d * 0.1, d * 0.5, 1.5, 2.0, false),
      LineTo(b.x, b.y) ]
  }

  function OutlineNotch(p: Panels): seq<PathCmd>
  {
    var b := p.back;
    [ LineTo(b.x + b.width * 0.5 - b.width * 0.15, b.y),
      Arc(b.x + b.width * 0.5, b.y, b.width * 0.15, 1.0, 0.0, true),
      LineTo(b.x + b.width, b.y) ]
  }

  function OutlineGlue(p: Panels): seq<PathCmd>
  {
    var b, d := p.back, p.size.depth;
    [ LineTo(b.x + b.width + d * 0.8, b.y),
      LineTo(b.x + b.width + d * 0.8, b.y + b.height),
      LineTo(b.x + b.width, b.y + b.height) ]
  }

  function OutlineBackBottom(p: Panels, doubleTuck: bool): seq<PathCmd>
  {
    var b, d := p.back, p.size.depth;
    if doubleTuck then
      [ LineTo(b.x, b.y + b.height) ]
    else
      [ LineTo(b.x + b.width, b.y + b.height + d * 0.8),
        LineTo(b.x, b.y + b.height + d * 0.8) ]
  }

  function OutlineLowerFlap(p: Panels): seq<PathCmd>
  {
    var f, b, d := p.front, p.back, p.size.depth;
    [ LineTo(b.x, b.y + b.height + d * 0.6),
      LineTo(f.x + f.width, f.y + f.height + d * 0.6) ]
  }

  function OutlineInnerBottom(p: Panels, doubleTuck: bool): seq<PathCmd>
  {
    var f, d := p.front, p.size.depth;
    if doubleTuck then
      [ Arc(f.x + f.width - f.width * 0.2, f.y + f.height + d, f.width * 0.2, 0.0, 0.5, false),
        Arc(f.x + f.width * 0.2, f.y + f.height + d, f.width * 0.2, 0.5, 1.0, false),
        LineTo(f.x, f.y + f.height + d * 0.6) ]
    else
      [ LineTo(f.x + f.width, f.y + f.height + d),
        LineTo(f.x, f.y + f.height + d),
        LineTo(f.x, f.y + f.height + d * 0.6) ]
  }

  function OutlineSide(p: Panels): seq<PathCmd>
  {
    var f, d := p.front, p.size.depth;
    [ LineTo(f.x - d, f.y + f.height + d * 0.6),
      LineTo(f.x - d, f.y),
      Arc(f.x - d * 0.5, f.y - d * 0.1, d * 0.5, 1.0, 1.5, false),
      LineTo(f.x, f.y - d * 0.6) ]
  }

  /** The outline is one closed loop: a single move, to a point on the
      front's upper edge line, and a last line back to that point. */
  lemma OutlineClosed(p: Panels, doubleTuck: bool)
    ensures var path := OutlinePath(p, doubleTuck);
      var start := MoveTo(p.front.x, p.front.y - p.size.depth * 0.6);
      |path| >= 2 && path[0] == start &&
      (forall i :: 1 <= i < |path| ==> !path[i].MoveTo?) &&
      path[|path| - 1] == LineTo(start.x, start.y)
  {
  }

  // ---------------------------------------------------------------------
  // Inner cuts and scores
  // ---------------------------------------------------------------------

  /** The two cut ticks either side of the bottom tuck flap, drawn only for
      the double-tuck carton. */
  function BottomTicks(p: Panels): seq<PathCmd>
  {
    var f, d := p.front, p.size.depth;
    [ MoveTo(f.x, f.y + f.height + d),
      LineTo(f.x + f.width * 0.1, f.y + f.height + d),
      MoveTo(f.x + f.width * 0.9, f.y + f.height + d),
      LineTo(f.x + f.width, f.y + f.height + d) ]
  }

  /** `pathCuts`: short separate cuts that free the flaps from the panels:
      the ticks beside the top tuck flap, the cuts between the front and
      its dust flaps, the bottom ticks (double tuck only) and the cuts
      below the front and the back. */
  function CutsPath(p: Panels, doubleTuck: bool): seq<PathCmd>
  {
    CutsTop(p) + CutsFlaps(p) + (if doubleTuck then BottomTicks(p) else []) + CutsLower(p)
  }

  function CutsTop(p: Panels): seq<PathCmd>
  {
    var f, d := p.front, p.size.depth;
    [ MoveTo(f.x, f.y - d),
      LineTo(f.x + f.width * 0.1, f.y - d),
      MoveTo(f.x + f.width, f.y - d),
      LineTo(f.x + f.width * 0.9, f.y - d) ]
  }

  function CutsFlaps(p: Panels): seq<PathCmd>
  {
    var f, d := p.front, p.size.depth;
    [ MoveTo(f.x, f.y),
      LineTo(f.x, f.y - d * 0.6),
      MoveTo(f.x + f.width, f.y),
      LineTo(f.x + f.width, f.y - d * 0.6),
      MoveTo(f.x, f.y + f.height),
      LineTo(f.x, f.y + f.height + d * 0.6) ]
  }

  function CutsLower(p: Panels): seq<PathCmd>
  {
    var f, b, d := p.front, p.back, p.size.depth;
    [ MoveTo(f.x + f.width, f.y + f.height),
      LineTo(f.x + f.width, f.y + f.height + d * 0.6),
      MoveTo(b.x, b.y + b.height + d * 0.6),
      LineTo(b.x, b.y + b.height) ]
  }

  /** `pathScores`: the fold lines, section by section as the source
      comments name them. */
  function ScoresPath(p: Panels, doubleTuck: bool): seq<PathCmd>
  {
    ScoresInnerBottom(p) + ScoresRight(p) + ScoresLeft(p) + ScoresBack(p, doubleTuck) + ScoresTop(p) +
    (if doubleTuck then ScoresBottom(p) else [])
  }

  function ScoresInnerBottom(p: Panels): seq<PathCmd>
  {
    var f := p.front;
    [ MoveTo(f.x, f.y + f.height),
      LineTo(f.x + f.width, f.y + f.height) ]
  }

  function ScoresRight(p: Panels): seq<PathCmd>
  {
    var f, d := p.front, p.size.depth;
    [ MoveTo(f.x - d, f.y),
      LineTo(f.x, f.y),
      LineTo(f.x, f.y + f.height),
      LineTo(f.x - d, f.y + f.height) ]
  }

  function ScoresLeft(p: Panels): seq<PathCmd>
  {
    var f, d := p.front, p.size.depth;
    [ MoveTo(f.x + f.width, f.y),
      LineTo(f.x + f.width + d, f.y),
      LineTo(f.x + f.width + d, f.y + f.height),
      LineTo(f.x + f.width, f.y + f.height),
      LineTo(f.x + f.width, f.y) ]
  }

  function ScoresBack(p: Panels, doubleTuck: bool): seq<PathCmd>
  {
    var b := p.back;
    [ MoveTo(b.x + b.width, b.y),
      LineTo(b.x + b.width, b.y + b.height) ] +
    (if !doubleTuck then [LineTo(b.x, b.y + b.height)] else [])
  }

  function ScoresTop(p: Panels): seq<PathCmd>
  {
    var f, d := p.front, p.size.depth;
    [ MoveTo(f.x, f.y),
      LineTo(f.x + f.width, f.y),
      MoveTo(f.x + f.width * 0.1, f.y - d),
      LineTo(f.x + f.width * 0.9, f.y - d) ]
  }

  function ScoresBottom(p: Panels): seq<PathCmd>
  {
    var f, d := p.front, p.size.depth;
    [ MoveTo(f.x + f.width * 0.1, f.y + f.height + d),
      LineTo(f.x + f.width * 0.9, f.y + f.height + d) ]
  }

  // ---------------------------------------------------------------------
  // What the two carton styles draw differently
  // ---------------------------------------------------------------------

  /** Positive width, height and depth of the grown box, with the panels
      laid out as `generate` lays them out. */
  predicate Proper(p: Panels)
  {
    p.size.width > 0.0 && p.size.height > 0.0 && p.size.depth > 0.0 &&
    p.front.width == p.size.width && p.front.height == p.size.height &&
    p.back.y == p.front.y && p.back.width == p.front.width && p.back.height == p.front.height &&
    p.back.x == p.front.x + p.front.width + p.size.depth
  }

  lemma PanelsProper(finished: Size, thickness: real, margin: real)
    requires finished.width + 2.0 * thickness > 0.0
    requires finished.height + 2.0 * thickness > 0.0
    requires finished.depth + 2.0 * thickness > 0.0
    ensures Proper(PanelsOf(finished, thickness, margin))
  {
  }

  /** A command that reaches the horizontal line y == level (an arc by its
      centre). */
  predicate Touches(c: PathCmd, level: real)
  {
    match c
    case MoveTo(_, y) => y == level
    case LineTo(_, y) => y == level
    case Arc(_, cy, _, _, _, _) => cy == level
  }

  predicate NoneTouch(path: seq<PathCmd>, level: real)
  {
    forall i :: 0 <= i < |path| ==> !Touches(path[i], level)
  }

  lemma NoneTouchConcat(a: seq<PathCmd>, b: seq<PathCmd>, level: real)
    requires NoneTouch(a, level) && NoneTouch(b, level)
    ensures NoneTouch(a + b, level)
  {
    forall i | 0 <= i < |a + b| ensures !Touches((a + b)[i], level) {
      if i >= |a| {
        assert (a + b)[i] == b[i - |a|];
      }
    }
  }

  /** A straight segment from `a` to `c`: a command ending at `a` followed
      directly by a line to `c`. (Arc end points are not tracked.) */
  predicate Segment(path: seq<PathCmd>, a: Point, c: Point)
  {
    exists i :: 0 < i < |path| && path[i] == LineTo(c.x, c.y) && EndsAt(path[i - 1], a)
  }

  predicate EndsAt(c: PathCmd, a: Point)
  {
    match c
    case MoveTo(x, y) => x == a.x && y == a.y
    case LineTo(x, y) => x == a.x && y == a.y
    case Arc(_, _, _, _, _, _) => false
  }

  /** The back panel's lower edge. */
  function BackEdgeFrom(p: Panels): Point { Point(p.back.x + p.back.width, p.back.y + p.back.height) }
  function BackEdgeTo(p: Panels): Point { Point(p.back.x, p.back.y + p.back.height) }

  /** The double-tuck outline cuts along the back's lower edge and closes
      the bottom with the two tuck arcs. */
  lemma DoubleTuckOutline(p: Panels)
    requires Proper(p)
    ensures var f, d := p.front, p.size.depth;
      Segment(OutlinePath(p, true), BackEdgeFrom(p), BackEdgeTo(p)) &&
      Arc(f.x + f.width - f.width * 0.2, f.y + f.height + d, f.width * 0.2, 0.0, 0.5, false) in OutlinePath(p, true) &&
      Arc(f.x + f.width * 0.2, f.y + f.height + d, f.width * 0.2, 0.5, 1.0, false) in OutlinePath(p, true)
  {
    var upper, lower := OutlineUpper(p), OutlineLower(p, true);
    var k := |upper|;
    var path := OutlinePath(p, true);
    assert path[k - 1] == upper[k - 1] && path[k] == lower[0];
    assert lower[0] == LineTo(BackEdgeTo(p).x, BackEdgeTo(p).y);
    assert EndsAt(path[k - 1], BackEdgeFrom(p));
    assert OutlineInnerBottom(p, true) <= lower[3..];
  }

  /** The double-tuck outline reaches nothing at the glue flap's depth (0.8
      depth below the back), where the default outline runs. */
  lemma DoubleTuckNoGlueFlap(p: Panels)
    requires Proper(p)
    ensures NoneTouch(OutlinePath(p, true), p.back.y + p.back.height + p.size.depth * 0.8)
  {
    var level := p.back.y + p.back.height + p.size.depth * 0.8;
    NoneTouchConcat(OutlineTop(p), OutlineUpperFlap(p), level);
    NoneTouchConcat(OutlineTop(p) + OutlineUpperFlap(p), OutlineNotch(p), level);
    NoneTouchConcat(OutlineTop(p) + OutlineUpperFlap(p) + OutlineNotch(p), OutlineGlue(p), level);
    NoneTouchConcat(OutlineBackBottom(p, true), OutlineLowerFlap(p), level);
    NoneTouchConcat(OutlineBackBottom(p, true) + OutlineLowerFlap(p), OutlineInnerBottom(p, true), level);
    NoneTouchConcat(OutlineBackBottom(p, true) + OutlineLowerFlap(p) + OutlineInnerBottom(p, true), OutlineSide(p), level);
    NoneTouchConcat(OutlineUpper(p), OutlineLower(p, true), level);
  }

  /** The default outline drops to the glue flap 0.8 depth below the back
      and has no tuck arc: no arc is centred on the bottom flap's fold
      line. */
  lemma DefaultOutline(p: Panels)
    requires Proper(p)
    ensures var b, d := p.back, p.size.depth;
      LineTo(b.x + b.width, b.y + b.height + d * 0.8) in OutlinePath(p, false) &&
      LineTo(b.x, b.y + b.height + d * 0.8) in OutlinePath(p, false)
    ensures var path, level := OutlinePath(p, false), p.front.y + p.front.height + p.size.depth;
      forall i :: 0 <= i < |path| && path[i].Arc? ==> path[i].cy != level
  {
    var path, k := OutlinePath(p, false), |OutlineUpper(p)|;
    assert path[k] == OutlineLower(p, false)[0] && path[k + 1] == OutlineLower(p, false)[1];
    DefaultNoTuckArc(p);
  }

  /** No arc is centred on the line y == level. */
  predicate NoArcOn(path: seq<PathCmd>, level: real)
  {
    forall i :: 0 <= i < |path| && path[i].Arc? ==> path[i].cy != level
  }

  lemma NoArcOnConcat(a: seq<PathCmd>, b: seq<PathCmd>, level: real)
    requires NoArcOn(a, level) && NoArcOn(b, level)
    ensures NoArcOn(a + b, level)
  {
    forall i | 0 <= i < |a + b| && (a + b)[i].Arc? ensures (a + b)[i].cy != level {
      if i >= |a| {
        assert (a + b)[i] == b[i - |a|];
      }
    }
  }

  lemma DefaultNoTuckArc(p: Panels)
    requires Proper(p)
    ensures NoArcOn(OutlinePath(p, false), p.front.y + p.front.height + p.size.depth)
  {
    var level := p.front.y + p.front.height + p.size.depth;
    NoArcOnConcat(OutlineTop(p), OutlineUpperFlap(p), level);
    NoArcOnConcat(OutlineTop(p) + OutlineUpperFlap(p), OutlineNotch(p), level);
    NoArcOnConcat(OutlineTop(p) + OutlineUpperFlap(p) + OutlineNotch(p), OutlineGlue(p), level);
    NoArcOnConcat(OutlineBackBottom(p, false), OutlineLowerFlap(p), level);
    NoArcOnConcat(OutlineBackBottom(p, false) + OutlineLowerFlap(p), OutlineInnerBottom(p, false), level);
    NoArcOnConcat(OutlineBackBottom(p, false) + OutlineLowerFlap(p) + OutlineInnerBottom(p, false), OutlineSide(p), level);
    NoArcOnConcat(OutlineUpper(p), OutlineLower(p, false), level);
  }

  /** The default outline does not cut along the back's lower edge: no
      line of it ends at the back's lower left corner. */
  lemma DefaultOutlineKeepsBackEdge(p: Panels)
    requires Proper(p)
    ensures !Segment(OutlinePath(p, false), BackEdgeFrom(p), BackEdgeTo(p))
  {
    var path := OutlinePath(p, false);
    var target := LineTo(BackEdgeTo(p).x, BackEdgeTo(p).y);
    assert forall i :: 0 <= i < |OutlineUpper(p)| ==> OutlineUpper(p)[i] != target;
    assert forall i :: 0 <= i < |OutlineLower(p, false)| ==> OutlineLower(p, false)[i] != target;
    forall i | 0 <= i < |path| ensures path[i] != target {
      if i >= |OutlineUpper(p)| {
        assert path[i] == OutlineLower(p, false)[i - |OutlineUpper(p)|];
      }
    }
  }

  /** The double-tuck cuts are the default cuts with the two bottom ticks
      inserted; the default cuts reach nothing on the bottom flap's fold
      line, and every tick lies on it. */
  lemma CutsStyles(p: Panels)
    requires Proper(p)
    ensures var k := 10;
      CutsPath(p, true) == CutsPath(p, false)[..k] + BottomTicks(p) + CutsPath(p, false)[k..]
    ensures var level := p.front.y + p.front.height + p.size.depth;
      NoneTouch(CutsPath(p, false), level) &&
      forall c :: c in BottomTicks(p) ==> Touches(c, level)
  {
    var level := p.front.y + p.front.height + p.size.depth;
    assert CutsPath(p, false)[..10] == CutsTop(p) + CutsFlaps(p);
    assert CutsPath(p, false)[10..] == CutsLower(p);
    NoneTouchConcat(CutsTop(p), CutsFlaps(p), level);
    NoneTouchConcat(CutsTop(p) + CutsFlaps(p), CutsLower(p), level);
    assert CutsPath(p, false) == CutsTop(p) + CutsFlaps(p) + CutsLower(p);
  }

  /** The double-tuck scores fold the bottom tab and leave the back's lower
      edge unscored; the default scores fold the back's lower edge and
      reach nothing on the bottom flap's fold line. */
  lemma ScoresStyles(p: Panels)
    requires Proper(p)
    ensures var f, d := p.front, p.size.depth;
      Segment(ScoresPath(p, true), Point(f.x + f.width * 0.1, f.y + f.height + d), Point(f.x + f.width * 0.9, f.y + f.height + d)) &&
      !Segment(ScoresPath(p, true), BackEdgeFrom(p), BackEdgeTo(p)) &&
      Segment(ScoresPath(p, false), BackEdgeFrom(p), BackEdgeTo(p)) &&
      NoneTouch(ScoresPath(p, false), f.y + f.height + d)
  {
    var f, d := p.front, p.size.depth;
    var dt, df := ScoresPath(p, true), ScoresPath(p, false);
    assert |dt| == 19 && |df| == 18;
    assert dt[18] == LineTo(f.x + f.width * 0.9, f.y + f.height + d);
    assert dt[18] == LineTo(f.x + f.width * 0.9, f.y + f.height + d) && EndsAt(dt[17], Point(f.x + f.width * 0.1, f.y + f.height + d));
    assert df[13] == LineTo(BackEdgeTo(p).x, BackEdgeTo(p).y) && EndsAt(df[12], BackEdgeFrom(p));
    assert forall i :: 0 < i < |dt| && dt[i] == LineTo(BackEdgeTo(p).x, BackEdgeTo(p).y) ==> i == 8;
    assert forall i :: 0 <= i < |df| ==> !Touches(df[i], f.y + f.height + d);
  }

  // ---------------------------------------------------------------------
  // The die-line stays on the sheet
  // ---------------------------------------------------------------------

  /** A command lies within `r`; an arc is judged by its whole circle. */
  predicate Within(c: PathCmd, r: Rect)
  {
    match c
    case MoveTo(x, y) => r.x <= x <= r.x + r.width && r.y <= y <= r.y + r.height
    case LineTo(x, y) => r.x <= x <= r.x + r.width && r.y <= y <= r.y + r.height
    case Arc(cx, cy, rad, _, _, _) =>
      0.0 <= rad && r.x <= cx - rad && cx + rad <= r.x + r.width && r.y <= cy - rad && cy + rad <= r.y + r.height
  }

  predicate AllWithin(path: seq<PathCmd>, r: Rect)
  {
    forall i :: 0 <= i < |path| ==> Within(path[i], r)
  }

  lemma AllWithinConcat(a: seq<PathCmd>, b: seq<PathCmd>, r: Rect)
    requires AllWithin(a, r) && AllWithin(b, r)
    ensures AllWithin(a + b, r)
  {
    forall i | 0 <= i < |a + b| ensures Within((a + b)[i], r) {
      if i >= |a| {
        assert (a + b)[i] == b[i - |a|];
      }
    }
  }

  /** The flat carton's extent: two widths and 2.8 depths across, one
      height, two depths and two fifths of the width down, offset by the
      margin on the top and left. */
  function Sheet(p: Panels, margin: real): Rect
  {
    var w, h, d := p.size.width, p.size.height, p.size.depth;
    Rect(margin, margin, 2.0 * w + 2.8 * d, h + 2.0 * d + 0.4 * w)
  }

  /** Panels laid out by `generate` for a box whose grown sizes are not
      negative. */
  predicate LaidOut(p: Panels, margin: real)
  {
    var w, h, d := p.size.width, p.size.height, p.size.depth;
    w >= 0.0 && h >= 0.0 && d >= 0.0 &&
    p.front == Rect(d + margin, d + 0.2 * w + margin, w, h) &&
    p.back == Rect(p.front.x + w + d, p.front.y, w, h)
  }

  lemma LaidOutPanels(finished: Size, thickness: real, margin: real)
    requires finished.width + 2.0 * thickness >= 0.0
    requires finished.height + 2.0 * thickness >= 0.0
    requires finished.depth + 2.0 * thickness >= 0.0
    ensures LaidOut(PanelsOf(finished, thickness, margin), margin)
  {
  }

  /** Every outline command lies on the sheet: the die-line starts exactly
      at the margin on the top (the tuck flap's arcs) and on the left (the
      side flap). */
  lemma OutlineOnSheet(p: Panels, margin: real, doubleTuck: bool)
    requires LaidOut(p, margin)
    ensures AllWithin(OutlinePath(p, doubleTuck), Sheet(p, margin))
  {
    OutlineUpperOnSheet(p, margin);
    OutlineLowerOnSheet(p, margin, doubleTuck);
    AllWithinConcat(OutlineUpper(p), OutlineLower(p, doubleTuck), Sheet(p, margin));
  }

  lemma OutlineUpperOnSheet(p: Panels, margin: real)
    requires LaidOut(p, margin)
    ensures AllWithin(OutlineUpper(p), Sheet(p, margin))
  {
    var s := Sheet(p, margin);
    assert AllWithin(OutlineTop(p), s);
    assert AllWithin(OutlineUpperFlap(p), s);
    assert AllWithin(OutlineNotch(p), s);
    assert AllWithin(OutlineGlue(p), s);
    AllWithinConcat(OutlineTop(p), OutlineUpperFlap(p), s);
    AllWithinConcat(OutlineTop(p) + OutlineUpperFlap(p), OutlineNotch(p), s);
    AllWithinConcat(OutlineTop(p) + OutlineUpperFlap(p) + OutlineNotch(p), OutlineGlue(p), s);
  }

  lemma OutlineLowerOnSheet(p: Panels, margin: real, doubleTuck: bool)
    requires LaidOut(p, margin)
    ensures AllWithin(OutlineLower(p, doubleTuck), Sheet(p, margin))
  {
    var s := Sheet(p, margin);
    assert AllWithin(OutlineBackBottom(p, doubleTuck), s);
    assert AllWithin(OutlineLowerFlap(p), s);
    assert AllWithin(OutlineInnerBottom(p, doubleTuck), s);
    assert AllWithin(OutlineSide(p), s);
    AllWithinConcat(OutlineBackBottom(p, doubleTuck), OutlineLowerFlap(p), s);
    AllWithinConcat(OutlineBackBottom(p, doubleTuck) + OutlineLowerFlap(p), OutlineInnerBottom(p, doubleTuck), s);
    AllWithinConcat(OutlineBackBottom(p, doubleTuck) + OutlineLowerFlap(p) + OutlineInnerBottom(p, doubleTuck), OutlineSide(p), s);
  }

  /** Every cut lies on the same sheet. */
  lemma CutsOnSheet(p: Panels, margin: real, doubleTuck: bool)
    requires LaidOut(p, margin)
    ensures AllWithin(CutsPath(p, doubleTuck), Sheet(p, margin))
  {
    var s := Sheet(p, margin);
    assert AllWithin(CutsTop(p), s);
    assert AllWithin(CutsFlaps(p), s);
    var ticks := if doubleTuck then BottomTicks(p) else [];
    assert AllWithin(ticks, s);
    assert AllWithin(CutsLower(p), s);
    AllWithinConcat(CutsTop(p), CutsFlaps(p), s);
    AllWithinConcat(CutsTop(p) + CutsFlaps(p), ticks, s);
    AllWithinConcat(CutsTop(p) + CutsFlaps(p) + ticks, CutsLower(p), s);
  }

  /** Every score lies on the same sheet. */
  lemma ScoresOnSheet(p: Panels, margin: real, doubleTuck: bool)
    requires LaidOut(p, margin)
    ensures AllWithin(ScoresPath(p, doubleTuck), Sheet(p, margin))
  {
    var s := Sheet(p, margin);
    assert AllWithin(ScoresInnerBottom(p), s);
    assert AllWithin(ScoresRight(p), s);
    assert AllWithin(ScoresLeft(p), s);
    assert AllWithin(ScoresBack(p, doubleTuck), s);
    assert AllWithin(ScoresTop(p), s);
    var bottom := if doubleTuck then ScoresBottom(p) else [];
    assert AllWithin(bottom, s);
    var a := ScoresInnerBottom(p);
    AllWithinConcat(a, ScoresRight(p), s);
    a := a + ScoresRight(p);
    AllWithinConcat(a, ScoresLeft(p), s);
    a := a + ScoresLeft(p);
    AllWithinConcat(a, ScoresBack(p, doubleTuck), s);
    a := a + ScoresBack(p, doubleTuck);
    AllWithinConcat(a, ScoresTop(p), s);
    a := a + ScoresTop(p);
    AllWithinConcat(a, bottom, s);
  }

  // ---------------------------------------------------------------------
  // Tracing onto a context
  // ---------------------------------------------------------------------

  /** `pathOutline`, one commented source section per step. */
  method TraceOutline(ctx: Context, p: Panels, doubleTuck: bool)
    modifies ctx`path
    ensures ctx.path == old(ctx.path) + OutlinePath(p, doubleTuck)
  {
    TraceOutlineUpper(ctx, p);
    TraceOutlineLower(ctx, p, doubleTuck);
  }

  method TraceOutlineUpper(ctx: Context, p: Panels)
    modifies ctx`path
    ensures ctx.path == old(ctx.path) + OutlineUpper(p)
  {
    TraceOutlineTop(ctx, p);
    TraceOutlineUpperFlap(ctx, p);
    TraceOutlineNotch(ctx, p);
    TraceOutlineGlue(ctx, p);
  }

  method TraceOutlineLower(ctx: Context, p: Panels, doubleTuck: bool)
    modifies ctx`path
    ensures ctx.path == old(ctx.path) + OutlineLower(p, doubleTuck)
  {
    TraceOutlineBackBottom(ctx, p, doubleTuck);
    TraceOutlineLowerFlap(ctx, p);
    TraceOutlineInnerBottom(ctx, p, doubleTuck);
    TraceOutlineSide(ctx, p);
  }

  /** The top tuck flap. */
  method TraceOutlineTop(ctx: Context, p: Panels)
    modifies ctx`path
    ensures ctx.path == old(ctx.path) + OutlineTop(p)
  {
    var f, d := p.front, p.size.depth;
    ctx.MoveTo(f.x, f.y - d * 0.6);
    ctx.LineTo(f.x, f.y - d);
    ctx.Arc(f.x + f.width * 0.2, f.y - d, f.width * 0.2, 1.0, 1.5, false);
    ctx.Arc(f.x + f.width - f.width * 0.2, f.y - d, f.width * 0.2, 1.5, 2.0, false);
    ctx.LineTo(f.x + f.width, f.y - d * 0.6);
  }

  /** The left side's upper dust flap. */
  method TraceOutlineUpperFlap(ctx: Context, p: Panels)
    modifies ctx`path
    ensures ctx.path == old(ctx.path) + OutlineUpperFlap(p)
  {
    var f, b, d := p.front, p.back, p.size.depth;
    ctx.Arc(f.x + f.width + d * 0.5, f.y - d * 0.1, d * 0.5, 1.5, 2.0, false);
    ctx.LineTo(b.x, b.y);
  }

  /** The thumb notch at the top of the back. */
  method TraceOutlineNotch(ctx: Context, p: Panels)
    modifies ctx`path
    ensures ctx.path == old(ctx.path) + OutlineNotch(p)
  {
    var b := p.back;
    ctx.LineTo(b.x + b.width * 0.5 - b.width * 0.15, b.y);
    ctx.Arc(b.x + b.width * 0.5, b.y, b.width * 0.15, 1.0, 0.0, true);
    ctx.LineTo(b.x + b.width, b.y);
  }

  /** The glue flap right of the back. */
  method TraceOutlineGlue(ctx: Context, p: Panels)
    modifies ctx`path
    ensures ctx.path == old(ctx.path) + OutlineGlue(p)
  {
    var b, d := p.back, p.size.depth;
    ctx.LineTo(b.x + b.width + d * 0.8, b.y);
    ctx.LineTo(b.x + b.width + d * 0.8, b.y + b.height);
    ctx.LineTo(b.x + b.width, b.y + b.height);
  }

  /** Below the back: its lower edge (double tuck) or the bottom glue flap. */
  method TraceOutlineBackBottom(ctx: Context, p: Panels, doubleTuck: bool)
    modifies ctx`path
    ensures ctx.path == old(ctx.path) + OutlineBackBottom(p, doubleTuck)
  {
    var b, d := p.back, p.size.depth;
    if doubleTuck {
      ctx.LineTo(b.x, b.y + b.height);
    } else {
      ctx.LineTo(b.x + b.width, b.y + b.height + d * 0.8);
      ctx.LineTo(b.x, b.y + b.height + d * 0.8);
    }
  }

  /** The left side's lower dust flap. */
  method TraceOutlineLowerFlap(ctx: Context, p: Panels)
    modifies ctx`path
    ensures ctx.path == old(ctx.path) + OutlineLowerFlap(p)
  {
    var f, b, d := p.front, p.back, p.size.depth;
    ctx.LineTo(b.x, b.y + b.height + d * 0.6);
    ctx.LineTo(f.x + f.width, f.y + f.height + d * 0.6);
  }

  /** The bottom flap: a tuck flap with two arcs, or a plain flap. */
  method TraceOutlineInnerBottom(ctx: Context, p: Panels, doubleTuck: bool)
    modifies ctx`path
    ensures ctx.path == old(ctx.path) + OutlineInnerBottom(p, doubleTuck)
  {
    var f, d := p.front, p.size.depth;
    if doubleTuck {
      ctx.Arc(f.x + f.width - f.width * 0.2, f.y + f.height + d, f.width * 0.2, 0.0, 0.5, false);
      ctx.Arc(f.x + f.width * 0.2, f.y + f.height + d, f.width * 0.2, 0.5, 1.0, false);
    } else {
      ctx.LineTo(f.x + f.width, f.y + f.height + d);
      ctx.LineTo(f.x, f.y + f.height + d);
    }
    ctx.LineTo(f.x, f.y + f.height + d * 0.6);
  }

  /** The right side with its upper dust flap, back to the start. */
  method TraceOutlineSide(ctx: Context, p: Panels)
    modifies ctx`path
    ensures ctx.path == old(ctx.path) + OutlineSide(p)
  {
    var f, d := p.front, p.size.depth;
    ctx.LineTo(f.x - d, f.y + f.height + d * 0.6);
    ctx.LineTo(f.x - d, f.y);
    ctx.Arc(f.x - d * 0.5, f.y - d * 0.1, d * 0.5, 1.0, 1.5, false);
    ctx.LineTo(f.x, f.y - d * 0.6);
  }

  /** `pathCuts`. */
  method TraceCuts(ctx: Context, p: Panels, doubleTuck: bool)
    modifies ctx`path
    ensures ctx.path == old(ctx.path) + CutsPath(p, doubleTuck)
  {
    var f, b, d := p.front, p.back, p.size.depth;
    TraceCutsTop(ctx, p);
    TraceCutsFlaps(ctx, p);
    if doubleTuck {
      TraceBottomTicks(ctx, p);
    }
    TraceCutsLower(ctx, p);
  }

  method TraceCutsTop(ctx: Context, p: Panels)
    modifies ctx`path
    ensures ctx.path == old(ctx.path) + CutsTop(p)
  {
    var f, d := p.front, p.size.depth;
    ctx.MoveTo(f.x, f.y - d);
    ctx.LineTo(f.x + f.width * 0.1, f.y - d);
    ctx.MoveTo(f.x + f.width, f.y - d);
    ctx.LineTo(f.x + f.width * 0.9, f.y - d);
  }

  method TraceCutsFlaps(ctx: Context, p: Panels)
    modifies ctx`path
    ensures ctx.path == old(ctx.path) + CutsFlaps(p)
  {
    var f, d := p.front, p.size.depth;
    ctx.MoveTo(f.x, f.y);
    ctx.LineTo(f.x, f.y - d * 0.6);
    ctx.MoveTo(f.x + f.width, f.y);
    ctx.LineTo(f.x + f.width, f.y - d * 0.6);
    TraceCutBelowFront(ctx, p);
  }

  method TraceCutBelowFront(ctx: Context, p: Panels)
    modifies ctx`path
    ensures ctx.path == old(ctx.path) + CutsFlaps(p)[4..]
  {
    var f, d := p.front, p.size.depth;
    ctx.MoveTo(f.x, f.y + f.height);
    ctx.LineTo(f.x, f.y + f.height + d * 0.6);
  }

  method TraceBottomTicks(ctx: Context, p: Panels)
    modifies ctx`path
    ensures ctx.path == old(ctx.path) + BottomTicks(p)
  {
    var f, d := p.front, p.size.depth;
    ctx.MoveTo(f.x, f.y + f.height + d);
    ctx.LineTo(f.x + f.width * 0.1, f.y + f.height + d);
    ctx.MoveTo(f.x + f.width * 0.9, f.y + f.height + d);
    ctx.LineTo(f.x + f.width, f.y + f.height + d);
  }

  method TraceCutsLower(ctx: Context, p: Panels)
    modifies ctx`path
    ensures ctx.path == old(ctx.path) + CutsLower(p)
  {
    var f, b, d := p.front, p.back, p.size.depth;
    ctx.MoveTo(f.x + f.width, f.y + f.height);
    ctx.LineTo(f.x + f.width, f.y + f.height + d * 0.6);
    ctx.MoveTo(b.x, b.y + b.height + d * 0.6);
    ctx.LineTo(b.x, b.y + b.height);
  }

  /** `pathScores`, section by section. */
  method TraceScores(ctx: Context, p: Panels, doubleTuck: bool)
    modifies ctx`path
    ensures ctx.path == old(ctx.path) + ScoresPath(p, doubleTuck)
  {
    TraceScoresInnerBottom(ctx, p);
    TraceScoresRight(ctx, p);
    TraceScoresLeft(ctx, p);
    TraceScoresBack(ctx, p, doubleTuck);
    TraceScoresTop(ctx, p);
    if doubleTuck {
      TraceScoresBottom(ctx, p);
    }
  }

  method TraceScoresInnerBottom(ctx: Context, p: Panels)
    modifies ctx`path
    ensures ctx.path == old(ctx.path) + ScoresInnerBottom(p)
  {
    var f := p.front;
    ctx.MoveTo(f.x, f.y + f.height);
    ctx.LineTo(f.x + f.width, f.y + f.height);
  }

  method TraceScoresRight(ctx: Context, p: Panels)
    modifies ctx`path
    ensures ctx.path == old(ctx.path) + ScoresRight(p)
  {
    var f, d := p.front, p.size.depth;
    ctx.MoveTo(f.x - d, f.y);
    ctx.LineTo(f.x, f.y);
    ctx.LineTo(f.x, f.y + f.height);
    ctx.LineTo(f.x - d, f.y + f.height);
  }

  method TraceScoresLeft(ctx: Context, p: Panels)
    modifies ctx`path
    ensures ctx.path == old(ctx.path) + ScoresLeft(p)
  {
    var f, d := p.front, p.size.depth;
    ctx.MoveTo(f.x + f.width, f.y);
    ctx.LineTo(f.x + f.width + d, f.y);
    ctx.LineTo(f.x + f.width + d, f.y + f.height);
    ctx.LineTo(f.x + f.width, f.y + f.height);
    ctx.LineTo(f.x + f.width, f.y);
  }

  method TraceScoresBack(ctx: Context, p: Panels, doubleTuck: bool)
    modifies ctx`path
    ensures ctx.path == old(ctx.path) + ScoresBack(p, doubleTuck)
  {
    var b := p.back;
    ctx.MoveTo(b.x + b.width, b.y);
    ctx.LineTo(b.x + b.width, b.y + b.height);
    if !doubleTuck {
      ctx.LineTo(b.x, b.y + b.height);
    }
  }

  method TraceScoresTop(ctx: Context, p: Panels)
    modifies ctx`path
    ensures ctx.path == old(ctx.path) + ScoresTop(p)
  {
    var f, d := p.front, p.size.depth;
    ctx.MoveTo(f.x, f.y);
    ctx.LineTo(f.x + f.width, f.y);
    ctx.MoveTo(f.x + f.width * 0.1, f.y - d);
    ctx.LineTo(f.x + f.width * 0.9, f.y - d);
  }

  method TraceScoresBottom(ctx: Context, p: Panels)
    modifies ctx`path
    ensures ctx.path == old(ctx.path) + ScoresBottom(p)
  {
    var f, d := p.front, p.size.depth;
    ctx.MoveTo(f.x + f.width * 0.1, f.y + f.height + d);
    ctx.LineTo(f.x + f.width * 0.9, f.y + f.height + d);
  }
}
