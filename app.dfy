/** The pure pieces of the designer's application (src/app.tsx): the file
    name a saved PDF gets, the resolution of faces that are set to look
    like their opposite face, and the change of the working unit. */
module App {
  import opened Wrappers
  import opened Types
  import opened Units
  import opened Generate

  // ---------------------------------------------------------------------
  // The saved file's name
  // ---------------------------------------------------------------------

  /** The characters the slug keeps: `[a-z0-9]`. */
  predicate Kept(c: char)
  {
    'a' <= c <= 'z' || '0' <= c <= '9'
  }

  /** `toLowerCase` on one character, for the ASCII letters. */
  function LowerChar(c: char): char
  {
    if 'A' <= c <= 'Z' then (c as int - 'A' as int + 'a' as int) as char else c
  }

  function Lower(s: string): (r: string)
    ensures |r| == |s|
    ensures forall k :: 0 <= k < |s| ==> r[k] == LowerChar(s[k])
  {
    seq(|s|, k requires 0 <= k < |s| => LowerChar(s[k]))
  }

  /** The index of the first character the slug does not keep, or the
      length when there is none. */
  function FirstDropped(s: string): (i: nat)
    ensures i <= |s|
    ensures forall k :: 0 <= k < i ==> Kept(s[k])
    ensures i < |s| ==> !Kept(s[i])
  {
    if s == [] || !Kept(s[0]) then 0 else 1 + FirstDropped(s[1..])
  }

  /** The end of the run of dropped characters that starts at `i`. */
  function RunEnd(s: string, i: nat): (j: nat)
    requires i <= |s|
    ensures i <= j <= |s|
    ensures forall k :: i <= k < j ==> !Kept(s[k])
    ensures j < |s| ==> Kept(s[j])
    decreases |s| - i
  {
    if i == |s| || Kept(s[i]) then i else RunEnd(s, i + 1)
  }

  /** `replace(/[^a-z0-9]+/, '-')`: the regular expression has no global
      flag, so only the first maximal run of other characters becomes one
      `-`; a string with no such run is returned unchanged. */
  function ReplaceFirstRun(s: string): (r: string)
    ensures |r| <= |s|
    ensures s != [] ==> r != []
    ensures FirstDropped(s) <= |r| && r[..FirstDropped(s)] == s[..FirstDropped(s)]
  {
    var i := FirstDropped(s);
    if i == |s| then s else s[..i] + "-" + s[RunEnd(s, i)..]
  }

  /** A string made only of kept characters is left alone. */
  lemma ReplaceClean(s: string)
    requires forall k :: 0 <= k < |s| ==> Kept(s[k])
    ensures ReplaceFirstRun(s) == s
  {
  }

  /** Every string with a dropped character is a kept prefix, a run of
      dropped characters and a rest starting with a kept character (or
      empty); the run, and only it, becomes `-`, so later runs in the rest
      survive. */
  lemma {:induction false} ReplaceRun(prefix: string, run: string, rest: string)
    requires forall k :: 0 <= k < |prefix| ==> Kept(prefix[k])
    requires run != [] && forall k :: 0 <= k < |run| ==> !Kept(run[k])
    requires rest == [] || Kept(rest[0])
    ensures ReplaceFirstRun(prefix + run + rest) == prefix + "-" + rest
  {
    var s := prefix + run + rest;
    FirstDroppedAt(prefix, run + rest);
    assert s == prefix + (run + rest);
    RunEndAt(s, |prefix|, |prefix| + |run|);
    assert s[..|prefix|] == prefix;
    assert s[|prefix| + |run|..] == rest;
  }

  lemma {:induction false} FirstDroppedAt(prefix: string, t: string)
    requires forall k :: 0 <= k < |prefix| ==> Kept(prefix[k])
    requires t != [] && !Kept(t[0])
    ensures FirstDropped(prefix + t) == |prefix|
  {
    if prefix == [] {
      assert prefix + t == t;
    } else {
      assert (prefix + t)[0] == prefix[0];
      assert (prefix + t)[1..] == prefix[1..] + t;
      FirstDroppedAt(prefix[1..], t);
    }
  }

  lemma {:induction false} RunEndAt(s: string, i: nat, j: nat)
    requires i <= j <= |s|
    requires forall k :: i <= k < j ==> !Kept(s[k])
    requires j == |s| || Kept(s[j])
    ensures RunEnd(s, i) == j
    decreases j - i
  {
    if i < j {
      RunEndAt(s, i + 1, j);
    }
  }

  /** The slug of a title: lower-cased, then its first run of other
      characters replaced. */
  function Slug(title: string): (s: string)
    ensures |s| <= |title|
  {
    ReplaceFirstRun(Lower(title))
  }

  /** The slug is empty exactly when the title is: lower-casing keeps the
      length and the replacement never removes every character. */
  lemma SlugEmpty(title: string)
    ensures Slug(title) == "" <==> title == ""
  {
    var s := Lower(title);
    var i := FirstDropped(s);
    if i < |s| {
      assert (s[..i] + "-" + s[RunEnd(s, i)..])[i] == '-';
    }
  }

  /** `savePdf`'s name: the slug; a `-` appended only when the slug is
      empty; then `tuckbox.pdf`. A non-empty slug is therefore followed by
      `tuckbox.pdf` with no separator. */
  method PdfName(title: string) returns (name: string)
    ensures |name| >= 11 && name[|name| - 11..] == "tuckbox.pdf"
    ensures title == "" ==> name == "-tuckbox.pdf"
    ensures title != "" ==> name == Slug(title) + "tuckbox.pdf"
  {
    name := ReplaceFirstRun(Lower(title));
    SlugEmpty(title);
    if name == "" {
      name := name + "-";
    }
    name := name + "tuckbox.pdf";
  }

  /** The space in "My Box" becomes the slug's only `-`. */
  lemma SlugOneWord()
    ensures Slug("My Box") == "my-box"
  {
    assert Lower("My Box") == "my" + " " + "box";
    ReplaceRun("my", " ", "box");
    assert "my" + "-" + "box" == "my-box";
  }

  /** In "A b c" the second space survives: only the first run of other
      characters is replaced. */
  lemma SlugFirstRunOnly()
    ensures Slug("A b c") == "a-b c"
  {
    assert Lower("A b c") == "a" + " " + "b c";
    ReplaceRun("a", " ", "b c");
    assert "a" + "-" + "b c" == "a-b c";
  }

  // ---------------------------------------------------------------------
  // Faces that copy their opposite face
  // ---------------------------------------------------------------------

  /** One face's settings in the stored configuration; `image` is the
      picture as the user chose it, replaced by the loaded bitmap at
      drawing time. */
  datatype FaceConfig = FaceConfig(text: string, font: Font, image: Option<string>)

  /** The six faces' settings and the three "same as" switches. */
  datatype FacesConfig = FacesConfig(
    front: FaceConfig, back: FaceConfig, top: FaceConfig,
    bottom: FaceConfig, left: FaceConfig, right: FaceConfig,
    sameAsFront: bool, sameAsTop: bool, sameAsLeft: bool)

  function ConfigOf(faces: FacesConfig, face: Face): FaceConfig
  {
    match face
    case Front => faces.front
    case Back => faces.back
    case Top => faces.top
    case Bottom => faces.bottom
    case Left => faces.left
    case Right => faces.right
  }

  /** The face whose settings and bitmap a face is drawn with: back,
      bottom and right follow front, top and left when switched to. */
  function Source(faces: FacesConfig, face: Face): Face
  {
    match face
    case Back => if faces.sameAsFront then Front else Back
    case Bottom => if faces.sameAsTop then Top else Bottom
    case Right => if faces.sameAsLeft then Left else Right
    case _ => face
  }

  /** A face drawn with its own settings and its own cached bitmap; a face
      whose bitmap is not loaded has none. */
  function Own(faces: FacesConfig, cache: map<Face, nat>, face: Face): FaceOptions
  {
    var c := ConfigOf(faces, face);
    FaceOptions(Some(c.text), Some(c.font), if face in cache then Some(cache[face]) else None)
  }

  /** The face options handed to `generate`. */
  function Resolve(faces: FacesConfig, cache: map<Face, nat>): (r: FaceSet)
    ensures forall face :: FaceOf(r, face) == Own(faces, cache, Source(faces, face))
  {
    var front := Own(faces, cache, Front);
    var top := Own(faces, cache, Top);
    var left := Own(faces, cache, Left);
    FaceSet(
      front, if faces.sameAsFront then front else Own(faces, cache, Back),
      top, if faces.sameAsTop then top else Own(faces, cache, Bottom),
      left, if faces.sameAsLeft then left else Own(faces, cache, Right))
  }

  /** Following a face's source twice is following it once, and a source
      is either the face itself or its opposite. */
  lemma SourceStable(faces: FacesConfig, face: Face)
    ensures Source(faces, Source(faces, face)) == Source(faces, face)
    ensures Source(faces, face) == face || Source(faces, face) == Opposite(face)
    ensures face in {Front, Top, Left} ==> Source(faces, face) == face
  {
  }

  function Opposite(face: Face): Face
  {
    match face
    case Front => Back
    case Back => Front
    case Top => Bottom
    case Bottom => Top
    case Left => Right
    case Right => Left
  }

  /** A switched-on face is drawn exactly like its opposite, and its own
      settings and bitmap play no part. */
  lemma LinkedFaces(faces: FacesConfig, cache: map<Face, nat>, own: FaceConfig, bitmap: nat)
    ensures faces.sameAsFront ==>
      Resolve(faces, cache).back == Resolve(faces, cache).front &&
      Resolve(faces.(back := own), cache[Back := bitmap]) == Resolve(faces, cache)
    ensures faces.sameAsTop ==>
      Resolve(faces, cache).bottom == Resolve(faces, cache).top &&
      Resolve(faces.(bottom := own), cache[Bottom := bitmap]) == Resolve(faces, cache)
    ensures faces.sameAsLeft ==>
      Resolve(faces, cache).right == Resolve(faces, cache).left &&
      Resolve(faces.(right := own), cache[Right := bitmap]) == Resolve(faces, cache)
  {
    var r := Resolve(faces, cache);
    if faces.sameAsFront {
      FaceUnchanged(faces, faces.(back := own), cache, cache[Back := bitmap], Back);
    }
    if faces.sameAsTop {
      FaceUnchanged(faces, faces.(bottom := own), cache, cache[Bottom := bitmap], Bottom);
    }
    if faces.sameAsLeft {
      FaceUnchanged(faces, faces.(right := own), cache, cache[Right := bitmap], Right);
    }
  }

  /** Changing one linked face's settings and bitmap leaves the resolved
      faces as they were. */
  lemma FaceUnchanged(faces: FacesConfig, faces': FacesConfig, cache: map<Face, nat>, cache': map<Face, nat>, linked: Face)
    requires linked in {Back, Bottom, Right} && Source(faces, linked) != linked
    requires faces'.sameAsFront == faces.sameAsFront && faces'.sameAsTop == faces.sameAsTop && faces'.sameAsLeft == faces.sameAsLeft
    requires forall face :: face != linked ==> ConfigOf(faces', face) == ConfigOf(faces, face)
    requires forall face :: face != linked ==> (face in cache' <==> face in cache)
    requires forall face :: face != linked && face in cache ==> cache'[face] == cache[face]
    ensures Resolve(faces', cache') == Resolve(faces, cache)
  {
    var r, r' := Resolve(faces, cache), Resolve(faces', cache');
    forall face
      ensures FaceOf(r', face) == FaceOf(r, face)
    {
      SourceStable(faces, face);
      assert Source(faces', face) == Source(faces, face);
      assert Source(faces, face) != linked;
    }
    assert FaceOf(r', Front) == FaceOf(r, Front) && FaceOf(r', Back) == FaceOf(r, Back);
    assert FaceOf(r', Top) == FaceOf(r, Top) && FaceOf(r', Bottom) == FaceOf(r, Bottom);
    assert FaceOf(r', Left) == FaceOf(r, Left) && FaceOf(r', Right) == FaceOf(r, Right);
  }

  // ---------------------------------------------------------------------
  // Changing the working unit
  // ---------------------------------------------------------------------

  /** The stored design: its working unit, the lengths kept in that unit,
      and the settings a change of unit does not touch. */
  datatype Settings = Settings(
    units: Unit, page: string, title: string, color: RGB, faces: FacesConfig,
    size: Size, bleed: real, margin: real, thickness: real)

  /** Decimal places kept after a change of unit. */
  function Precision(u: Unit): (p: nat)
    ensures 1 <= p <= 4
  {
    if u == Mm then 1 else if u == Pt then 4 else 2
  }

  /** `changeUnits`: the six lengths are converted from the stored unit to
      the new one and rounded, through `round(x, digits)`, to the new
      unit's precision (the source's `toFixed` followed by `parseFloat`);
      the new unit is stored and nothing else changes. */
  function ChangeUnits(s: Settings, units: Unit, round: (real, nat) -> real): (r: Settings)
    ensures r.units == units
    ensures r.page == s.page && r.title == s.title && r.color == s.color && r.faces == s.faces
    ensures forall x :: Convert(x, Name(s.units), Name(units)).Ok?
    ensures r.size.width == round(Convert(s.size.width, Name(s.units), Name(units)).value, Precision(units))
    ensures r.size.height == round(Convert(s.size.height, Name(s.units), Name(units)).value, Precision(units))
    ensures r.size.depth == round(Convert(s.size.depth, Name(s.units), Name(units)).value, Precision(units))
    ensures r.bleed == round(Convert(s.bleed, Name(s.units), Name(units)).value, Precision(units))
    ensures r.margin == round(Convert(s.margin, Name(s.units), Name(units)).value, Precision(units))
    ensures r.thickness == round(Convert(s.thickness, Name(s.units), Name(units)).value, Precision(units))
  {
    assert forall x :: Convert(x, Name(s.units), Name(units)).Ok? by {
      forall x ensures Convert(x, Name(s.units), Name(units)).Ok? {
        ByName(x, s.units, units);
      }
    }
    var p := Precision(units);
    var cv := (x: real) => round(Between(x, s.units, units), p);
    ByName(s.size.width, s.units, units);
    ByName(s.size.height, s.units, units);
    ByName(s.size.depth, s.units, units);
    ByName(s.bleed, s.units, units);
    ByName(s.margin, s.units, units);
    ByName(s.thickness, s.units, units);
    s.(units := units,
       size := Size(cv(s.size.width), cv(s.size.height), cv(s.size.depth)),
       bleed := cv(s.bleed), margin := cv(s.margin), thickness := cv(s.thickness))
  }

  /** Millimetres keep one decimal, points four, the other units two. */
  lemma PrecisionChoice()
    ensures Precision(Mm) == 1 && Precision(Pt) == 4
    ensures Precision(In) == 2 && Precision(Cm) == 2 && Precision(Dots) == 2
  {
  }

  /** Were the rounding exact, changing the unit and changing it back
      would restore the design exactly. */
  lemma ChangeUnitsBack(s: Settings, units: Unit, round: (real, nat) -> real)
    requires forall x, p :: round(x, p) == x
    ensures ChangeUnits(ChangeUnits(s, units, round), s.units, round) == s
  {
    var t := ChangeUnits(s, units, round);
    RoundTrip(s.size.width, s.units, units);
    RoundTrip(s.size.height, s.units, units);
    RoundTrip(s.size.depth, s.units, units);
    RoundTrip(s.bleed, s.units, units);
    RoundTrip(s.margin, s.units, units);
    RoundTrip(s.thickness, s.units, units);
  }

  /** With a rounding that moves a value by at most `e` for the chosen
      precision, every stored length stays within `e` of the exact
      conversion into the new unit. */
  lemma ChangeUnitsClose(s: Settings, units: Unit, round: (real, nat) -> real, e: real)
    requires forall x :: -e <= round(x, Precision(units)) - x <= e
    ensures var r := ChangeUnits(s, units, round);
      -e <= r.size.width - Convert(s.size.width, Name(s.units), Name(units)).value <= e &&
      -e <= r.size.height - Convert(s.size.height, Name(s.units), Name(units)).value <= e &&
      -e <= r.size.depth - Convert(s.size.depth, Name(s.units), Name(units)).value <= e &&
      -e <= r.bleed - Convert(s.bleed, Name(s.units), Name(units)).value <= e &&
      -e <= r.margin - Convert(s.margin, Name(s.units), Name(units)).value <= e &&
      -e <= r.thickness - Convert(s.thickness, Name(s.units), Name(units)).value <= e
  {
  }

  /** Choosing the unit already in use, with an exact rounding, changes
      nothing. */
  lemma ChangeUnitsSame(s: Settings, round: (real, nat) -> real)
    requires forall x, p :: round(x, p) == x
    ensures ChangeUnits(s, s.units, round) == s
  {
    ConvertIdentity(s.size.width, Name(s.units));
  }
}
