/** The geometry of the flat carton (src/generate.ts): printable face sizes,
    the front and back panel rectangles, and where each face's image and
    label are placed. All lengths are in points. */
module Layout {
  import opened Types

  /** `getFaceDimensions`: the printable size of a face, that is the panel
      grown by twice the paper thickness and shrunk by twice the bleed.
      The face is a string, as in the source, so that the `default` arm
      is reachable. */
  function FaceDimensions(face: string, size: Size, thickness: real, bleed: real): (d: (real, real))
  {
    var width := size.width + thickness * 2.0 - bleed * 2.0;
    var height := size.height + thickness * 2.0 - bleed * 2.0;
    var depth := size.depth + thickness * 2.0 - bleed * 2.0;
    if face == "front" || face == "back" then (width, height)
    else if face == "left" || face == "right" then (height, depth)
    else if face == "top" || face == "bottom" then (width, depth)
    else (0.0, 0.0)
  }

  /** Each face reads its two extents off the grown box, opposite faces
      agree, and a name that is not a face gets (0, 0). */
  lemma FaceDimensionsOf(size: Size, thickness: real, bleed: real, name: string)
    ensures FaceDimensions("front", size, thickness, bleed) == FaceDimensions("back", size, thickness, bleed)
    ensures FaceDimensions("left", size, thickness, bleed) == FaceDimensions("right", size, thickness, bleed)
    ensures FaceDimensions("top", size, thickness, bleed) == FaceDimensions("bottom", size, thickness, bleed)
    ensures FaceDimensions("front", size, thickness, bleed) ==
      (size.width + 2.0 * thickness - 2.0 * bleed, size.height + 2.0 * thickness - 2.0 * bleed)
    ensures FaceDimensions("left", size, thickness, bleed) ==
      (size.height + 2.0 * thickness - 2.0 * bleed, size.depth + 2.0 * thickness - 2.0 * bleed)
    ensures FaceDimensions("top", size, thickness, bleed) ==
      (size.width + 2.0 * thickness - 2.0 * bleed, size.depth + 2.0 * thickness - 2.0 * bleed)
    ensures (forall f: Face :: FaceName(f) != name) ==> FaceDimensions(name, size, thickness, bleed) == (0.0, 0.0)
  {
    if forall f: Face :: FaceName(f) != name {
      assert name != FaceName(Front) && name != FaceName(Back) && name != FaceName(Top);
      assert name != FaceName(Bottom) && name != FaceName(Left) && name != FaceName(Right);
    }
  }

  datatype Rect = Rect(x: real, y: real, width: real, height: real)

  /** The grown box (`size`) and the two large panels (`front`, `back`). */
  datatype Panels = Panels(size: Size, front: Rect, back: Rect)

  /** The layout at the top of `generate`. */
  function PanelsOf(finished: Size, thickness: real, margin: real): Panels
  {
    var size := Size(finished.width + thickness * 2.0, finished.height + thickness * 2.0, finished.depth + thickness * 2.0);
    var offset := (size.depth + margin, size.depth + size.width * 0.2 + margin);
    var front := Rect(offset.0, offset.1, size.width, size.height);
    var back := Rect(front.x + front.width + size.depth, front.y, front.width, front.height);
    Panels(size, front, back)
  }

  /** The front panel sits one depth plus the margin from the left edge
      and one depth plus a fifth of the width plus the margin from the top;
      the back panel is the same size, level with it, one depth to its
      right, so the two never overlap when the depth is positive. */
  lemma PanelLayout(finished: Size, thickness: real, margin: real)
    ensures var p := PanelsOf(finished, thickness, margin);
      var d := finished.depth + 2.0 * thickness;
      var w := finished.width + 2.0 * thickness;
      var h := finished.height + 2.0 * thickness;
      p.front == Rect(d + margin, d + 0.2 * w + margin, w, h) &&
      p.back == Rect(p.front.x + w + d, p.front.y, w, h) &&
      (d > 0.0 ==> p.front.x + p.front.width < p.back.x)
  {
  }

  /** Where `drawImage` is called for a face: the translation, the width
      and height handed to it, and the rotation in half turns. */
  datatype Placement = Placement(tx: real, ty: real, tw: real, th: real, halfTurns: real)

  function ImagePlacement(face: Face, p: Panels): Placement
  {
    var f, b, d := p.front, p.back, p.size.depth;
    match face
    case Front => Placement(f.x, f.y, f.width, f.height, 0.0)
    case Back => Placement(b.x, b.y, b.width, b.height, 0.0)
    case Top => Placement(f.x + f.width, f.y, f.width, d, 1.0)
    case Bottom => Placement(f.x, f.y + f.height, f.width, d, 0.0)
    case Left => Placement(f.x, f.y, f.height, d, 0.5)
    case Right => Placement(b.x - d, b.y + b.height, b.height, d, 1.5)
  }

  /** The size the image is drawn at: the placement rectangle shrunk by the
      bleed on every side. */
  function ImageSize(q: Placement, bleed: real): (real, real)
  {
    (q.tw - bleed * 2.0, q.th - bleed * 2.0)
  }

  /** Every face's image is drawn at exactly the size `getFaceDimensions`
      reports for that face. */
  lemma ImageSizeIsFaceDimensions(face: Face, finished: Size, thickness: real, margin: real, bleed: real)
    ensures ImageSize(ImagePlacement(face, PanelsOf(finished, thickness, margin)), bleed) ==
      FaceDimensions(FaceName(face), finished, thickness, bleed)
  {
  }

  /** A point of the page; `Turn` applies a rotation by a whole number of
      quarter turns, the only rotations the drawing uses. */
  datatype Point = Point(x: real, y: real)

  function Turn(halfTurns: real, q: Point): Point
  {
    if halfTurns == 0.5 then Point(-q.y, q.x)
    else if halfTurns == 1.0 then Point(-q.x, -q.y)
    else if halfTurns == 1.5 then Point(q.y, -q.x)
    else q
  }

  /** The page point of image pixel (u, v): translate to the placement,
      rotate, then step in by the bleed along the rotated axes. */
  function ImageToPage(q: Placement, bleed: real, u: real, v: real): Point
  {
    var r := Turn(q.halfTurns, Point(bleed + u, bleed + v));
    Point(q.tx + r.x, q.ty + r.y)
  }

  /** The panel of the flat carton each face's image belongs to: the two
      large panels, the flaps above and below the front, and the two
      gutters either side of it. */
  function FaceRegion(face: Face, p: Panels): Rect
  {
    var f, b, d := p.front, p.back, p.size.depth;
    match face
    case Front => f
    case Back => b
    case Top => Rect(f.x, f.y - d, f.width, d)
    case Bottom => Rect(f.x, f.y + f.height, f.width, d)
    case Left => Rect(f.x - d, f.y, d, f.height)
    case Right => Rect(f.x + f.width, f.y, d, f.height)
  }

  function Inset(r: Rect, margin: real): Rect
  {
    Rect(r.x + margin, r.y + margin, r.width - 2.0 * margin, r.height - 2.0 * margin)
  }

  /** `a` and `c` are diagonally opposite corners of `r`. */
  predicate OppositeCorners(a: Point, c: Point, r: Rect)
  {
    var tl, br := Point(r.x, r.y), Point(r.x + r.width, r.y + r.height);
    var tr, bl := Point(r.x + r.width, r.y), Point(r.x, r.y + r.height);
    (a == tl && c == br) || (a == br && c == tl) || (a == tr && c == bl) || (a == bl && c == tr)
  }

  predicate Inside(q: Point, r: Rect)
  {
    r.x <= q.x <= r.x + r.width && r.y <= q.y <= r.y + r.height
  }

  /** Whatever the rotation, every pixel of a face's image lands on that
      face's panel inset by the bleed, and the image's first and last
      corners land on opposite corners of it, so it covers the inset
      panel exactly. */
  lemma ImageCoversFace(face: Face, finished: Size, thickness: real, margin: real, bleed: real, u: real, v: real)
    ensures var p := PanelsOf(finished, thickness, margin);
      var q := ImagePlacement(face, p);
      var (iw, ih) := ImageSize(q, bleed);
      var r := Inset(FaceRegion(face, p), bleed);
      (0.0 <= u <= iw && 0.0 <= v <= ih ==> Inside(ImageToPage(q, bleed, u, v), r)) &&
      OppositeCorners(ImageToPage(q, bleed, 0.0, 0.0), ImageToPage(q, bleed, iw, ih), r)
  {
    var p := PanelsOf(finished, thickness, margin);
    FootprintIsRegion(face, p);
    PlacementCovers(ImagePlacement(face, p), bleed, u, v);
  }

  /** The rectangle of the page a placement covers once turned. */
  function Footprint(q: Placement): Rect
  {
    if q.halfTurns == 0.5 then Rect(q.tx - q.th, q.ty, q.th, q.tw)
    else if q.halfTurns == 1.0 then Rect(q.tx - q.tw, q.ty - q.th, q.tw, q.th)
    else if q.halfTurns == 1.5 then Rect(q.tx, q.ty - q.tw, q.th, q.tw)
    else Rect(q.tx, q.ty, q.tw, q.th)
  }

  /** Each face's placement, once turned, covers exactly that face's
      panel. */
  lemma FootprintIsRegion(face: Face, p: Panels)
    requires p.back.x == p.front.x + p.front.width + p.size.depth
    requires p.back.y == p.front.y && p.back.height == p.front.height
    ensures Footprint(ImagePlacement(face, p)) == FaceRegion(face, p)
  {
  }

  /** An image drawn at a placement, shrunk by the bleed, fills the
      placement's footprint inset by the bleed. */
  lemma PlacementCovers(q: Placement, bleed: real, u: real, v: real)
    ensures var (iw, ih) := ImageSize(q, bleed);
      var r := Inset(Footprint(q), bleed);
      (0.0 <= u <= iw && 0.0 <= v <= ih ==> Inside(ImageToPage(q, bleed, u, v), r)) &&
      OppositeCorners(ImageToPage(q, bleed, 0.0, 0.0), ImageToPage(q, bleed, iw, ih), r)
  {
    if 0.0 <= u <= ImageSize(q, bleed).0 && 0.0 <= v <= ImageSize(q, bleed).1 {
      PlacementInside(q, bleed, u, v);
    }
    PlacementCorners(q, bleed);
  }

  lemma PlacementInside(q: Placement, bleed: real, u: real, v: real)
    requires 0.0 <= u <= ImageSize(q, bleed).0 && 0.0 <= v <= ImageSize(q, bleed).1
    ensures Inside(ImageToPage(q, bleed, u, v), Inset(Footprint(q), bleed))
  {
  }

  lemma PlacementCorners(q: Placement, bleed: real)
    ensures var (iw, ih) := ImageSize(q, bleed);
      OppositeCorners(ImageToPage(q, bleed, 0.0, 0.0), ImageToPage(q, bleed, iw, ih), Inset(Footprint(q), bleed))
  {
  }

  /** How a face's label is written: the anchor point, the rotation in
      half turns (only for the rotated writer) and the wrapping width. */
  datatype LabelPlacement = Straight(x: real, y: real, width: real) | Rotated(x: real, y: real, halfTurns: real, width: real)

  /** The anchors and widths `drawText` uses for each face. */
  function LabelAt(face: Face, p: Panels): LabelPlacement
  {
    var f, b, d := p.front, p.back, p.size.depth;
    match face
    case Front => Straight(f.x + f.width * 0.5, f.y + f.height * 0.25, f.width * 0.9)
    case Back => Straight(b.x + b.width * 0.5, b.y + b.height * 0.25, b.width * 0.9)
    case Top => Rotated(f.x + f.width * 0.5, f.y - d * 0.5, 1.0, b.width * 0.9)
    case Bottom => Straight(f.x + f.width * 0.5, f.y + f.height + d * 0.5, f.width * 0.9)
    case Left => Rotated(f.x - d * 0.5, f.y + f.height * 0.5, 0.5, f.height * 0.9)
    case Right => Rotated(f.x + f.width + d * 0.5, f.y + f.height * 0.5, 1.5, f.height * 0.9)
  }

  /** Every label is centred across its panel: the front and back labels a
      quarter of the way down, the others at the panel's centre; the
      wrapping width is nine tenths of the panel's extent along the text. */
  lemma LabelsCentred(face: Face, finished: Size, thickness: real, margin: real)
    ensures var p := PanelsOf(finished, thickness, margin);
      var r := FaceRegion(face, p);
      match LabelAt(face, p)
      case Straight(x, y, width) =>
        x == r.x + r.width / 2.0 &&
        y == (if face == Bottom then r.y + r.height / 2.0 else r.y + r.height / 4.0) &&
        width == 0.9 * r.width
      case Rotated(x, y, turns, width) =>
        x == r.x + r.width / 2.0 && y == r.y + r.height / 2.0 &&
        width == 0.9 * (if turns == 1.0 then r.width else r.height)
  {
  }
}
