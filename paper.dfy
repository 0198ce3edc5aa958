/** The paper catalogue (src/paper.ts): each format's portrait size in its
    native unit, turned to landscape on request and converted to the
    caller's unit. */
module Paper {
  import opened Wrappers
  import opened Units

  /** A portrait page size in the unit the catalogue records it in. */
  datatype Native = Native(width: real, height: real, unit: Unit)

  /** `SIZE_IN_POINTS`: letter is 8.5 x 11 inches, a4 is 210 x 297 mm. */
  function Catalogue(format: string): (n: Option<Native>)
    ensures n.Some? <==> format == "letter" || format == "a4"
    ensures n.Some? ==> 0.0 < n.value.width < n.value.height
  {
    if format == "letter" then Some(Native(8.5, 11.0, In))
    else if format == "a4" then Some(Native(210.0, 297.0, Mm))
    else None
  }

  /** The thrown messages: an unknown format, an unknown orientation, or a
      unit error raised by `convert`. */
  datatype PaperError =
    | UnknownFormat(format: string)
    | UnknownOrientation(orientation: string)
    | Conversion(cause: ConvertError)

  /** `paperSize`: the format is validated first, then the orientation;
      landscape swaps the native width and height; the width is converted
      before the height, so a unit error is the width's. */
  function PaperSize(format: string, units: string, orientation: string): (r: Result<(real, real), PaperError>)
    ensures r.Ok? <==>
      Catalogue(format).Some? && (orientation == "portrait" || orientation == "landscape") &&
      (units == Name(Catalogue(format).value.unit) || Lookup(units).Some?)
  {
    if Catalogue(format).None? then Err(UnknownFormat(format))
    else if orientation != "portrait" && orientation != "landscape" then Err(UnknownOrientation(orientation))
    else
      var p := Catalogue(format).value;
      var w := if orientation == "portrait" then p.width else p.height;
      var h := if orientation == "portrait" then p.height else p.width;
      var cw := Convert(w, Name(p.unit), units);
      var ch := Convert(h, Name(p.unit), units);
      match (cw, ch)
      case (Err(e), _) => Err(Conversion(e))
      case (Ok(_), Err(e)) => Err(Conversion(e))
      case (Ok(cwv), Ok(chv)) => Ok((cwv, chv))
  }

  /** The destructuring defaults: a missing format is letter, missing units
      are points, a missing orientation is portrait. */
  function PaperSizeOr(format: Option<string>, units: Option<string>, orientation: Option<string>): (r: Result<(real, real), PaperError>)
    ensures format.Some? && units.Some? && orientation.Some? ==>
      r == PaperSize(format.value, units.value, orientation.value)
    ensures format.None? && units.None? && orientation.None? ==>
      r == PaperSize("letter", "pt", "portrait")
  {
    PaperSize(
      if format.Some? then format.value else "letter",
      if units.Some? then units.value else "pt",
      if orientation.Some? then orientation.value else "portrait")
  }

  /** Each argument is defaulted on its own: leaving out one argument is
      passing its default, whatever the other two are. */
  lemma PaperSizeDefaults(format: Option<string>, units: Option<string>, orientation: Option<string>)
    ensures format.None? ==> PaperSizeOr(format, units, orientation) == PaperSizeOr(Some("letter"), units, orientation)
    ensures units.None? ==> PaperSizeOr(format, units, orientation) == PaperSizeOr(format, Some("pt"), orientation)
    ensures orientation.None? ==> PaperSizeOr(format, units, orientation) == PaperSizeOr(format, units, Some("portrait"))
    ensures PaperSizeOr(Some("a4"), None, None) == PaperSize("a4", "pt", "portrait")
  {
  }

  function Swap(r: Result<(real, real), PaperError>): Result<(real, real), PaperError>
  {
    if r.Ok? then Ok((r.value.1, r.value.0)) else r
  }

  /** Landscape is portrait with the two components swapped, for every
      format and unit, errors included. */
  lemma LandscapeSwaps(format: string, units: string)
    ensures PaperSize(format, units, "landscape") == Swap(PaperSize(format, units, "portrait"))
  {
  }

  /** Between known units, each component is the native length: measured
      in points, the converted width and height are the catalogue's. */
  lemma PortraitComponents(format: string, u: Unit)
    requires Catalogue(format).Some?
    ensures var p := Catalogue(format).value;
      var r := PaperSize(format, Name(u), "portrait");
      r.Ok? && ToPt(u, r.value.0) == ToPt(p.unit, p.width) && ToPt(u, r.value.1) == ToPt(p.unit, p.height)
  {
    var p := Catalogue(format).value;
    ConvertKeepsLength(p.width, p.unit, u);
    ConvertKeepsLength(p.height, p.unit, u);
  }

  /** The defaults give US letter in points: 612 x 792. In its own unit a
      format reads back its catalogue entry. */
  lemma DefaultSizes()
    ensures PaperSizeOr(None, None, None) == Ok((612.0, 792.0))
    ensures PaperSize("letter", "in", "portrait") == Ok((8.5, 11.0))
    ensures PaperSize("a4", "mm", "landscape") == Ok((297.0, 210.0))
  {
    ByName(8.5, In, Pt);
    ByName(11.0, In, Pt);
  }

  /** Errors: the format is checked before the orientation, and both before
      the units; a unit the tables lack ("px") fails the conversion unless
      it is the native unit's own name. */
  lemma PaperErrors(format: string, units: string, orientation: string)
    ensures Catalogue(format).None? ==> PaperSize(format, units, orientation) == Err(UnknownFormat(format))
    ensures Catalogue(format).Some? && orientation != "portrait" && orientation != "landscape" ==>
      PaperSize(format, units, orientation) == Err(UnknownOrientation(orientation))
    ensures PaperSize("letter", "px", "portrait") == Err(Conversion(UnknownTo("px")))
  {
  }

  /** In any known unit a portrait page is taller than wide and a landscape
      page wider than tall. */
  lemma Proportions(format: string, u: Unit)
    requires Catalogue(format).Some?
    ensures PaperSize(format, Name(u), "portrait").Ok?
    ensures PaperSize(format, Name(u), "portrait").value.0 < PaperSize(format, Name(u), "portrait").value.1
    ensures PaperSize(format, Name(u), "landscape").Ok?
    ensures PaperSize(format, Name(u), "landscape").value.0 > PaperSize(format, Name(u), "landscape").value.1
  {
    var p := Catalogue(format).value;
    Monotone(p.width, p.height, p.unit, u);
    LandscapeSwaps(format, Name(u));
  }
}
