/** The shared value types of the designer (src/types.d.ts). */
module Types {

  /** Finished (trimmed) box size, in whatever unit the caller uses. */
  datatype Size = Size(width: real, height: real, depth: real)

  /** A colour channel triple; the UI keeps each channel in 0..255. */
  datatype RGB = RGB(r: int, g: int, b: int)

  datatype FontFamily = Courier | Helvetica | TimesRoman

  datatype Font = Font(
    family: FontFamily,
    size: real,
    weight: real,
    color: RGB,
    outlineColor: RGB,
    outlineWidth: real)

  /** The two carton topologies. */
  datatype BoxStyle = Default | DoubleTuck

  /** The six panels of the carton. */
  datatype Face = Front | Back | Top | Bottom | Left | Right

  /** The string a face is known by in the source. */
  function FaceName(f: Face): string
  {
    match f
    case Front => "front"
    case Back => "back"
    case Top => "top"
    case Bottom => "bottom"
    case Left => "left"
    case Right => "right"
  }

  function FamilyName(f: FontFamily): string
  {
    match f
    case Courier => "Courier"
    case Helvetica => "Helvetica"
    case TimesRoman => "Times-Roman"
  }
}
