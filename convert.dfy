/** Length conversion between the designer's units (src/convert.ts).
    Every conversion goes through points: the source unit's `to_pt`
    entry, then the target unit's `from_pt` entry. */
module Units {
  import opened Wrappers

  /** The units that have an entry in the `to_pt` / `from_pt` tables. */
  datatype Unit = In | Cm | Mm | Pt | Dots

  function Name(u: Unit): string
  {
    match u
    case In => "in"
    case Cm => "cm"
    case Mm => "mm"
    case Pt => "pt"
    case Dots => "dots"
  }

  /** Looks a unit name up in the tables; any other name (such as "px")
      has no entry. */
  function Lookup(name: string): (u: Option<Unit>)
    ensures u.Some? ==> Name(u.value) == name
    ensures u.None? ==> forall v: Unit :: Name(v) != name
  {
    if name == "in" then Some(In)
    else if name == "cm" then Some(Cm)
    else if name == "mm" then Some(Mm)
    else if name == "pt" then Some(Pt)
    else if name == "dots" then Some(Dots)
    else None
  }

  /** `in2pt`, `cm2pt`, `mm2pt`: each is undone by its `pt2…` partner. */
  function InToPt(inch: real): (pt: real)
    ensures PtToIn(pt) == inch
  {
    inch * 72.0
  }

  function CmToPt(cm: real): (pt: real)
    ensures PtToCm(pt) == cm
  {
    InToPt(cm * 0.3937008)
  }

  function MmToPt(mm: real): (pt: real)
    ensures PtToMm(pt) == mm
  {
    InToPt(mm * 0.03937008)
  }

  /** `pt2in`, `pt2cm`, `pt2mm`: a length in points measured in inches
      (72 points), centimetres (0.3937008 in) or millimetres
      (0.03937008 in). */
  function PtToIn(pt: real): (inch: real)
    ensures inch * 72.0 == pt
  {
    pt / 72.0
  }

  function PtToCm(pt: real): (cm: real)
    ensures cm * 0.3937008 * 72.0 == pt
  {
    PtToIn(pt) / 0.3937008
  }

  function PtToMm(pt: real): (mm: real)
    ensures mm * 0.03937008 * 72.0 == pt
  {
    PtToIn(pt) / 0.03937008
  }

  /** The `to_pt` table; `TablesScale` shows every entry scales by the
      unit's size in points. */
  function ToPt(u: Unit, value: real): real
  {
    match u
    case In => InToPt(value)
    case Cm => CmToPt(value)
    case Mm => MmToPt(value)
    case Dots => value / 300.0 * 72.0
    case Pt => value
  }

  /** The `from_pt` table; `TablesScale` shows every entry divides by the
      unit's size in points. */
  function FromPt(u: Unit, value: real): real
  {
    match u
    case In => PtToIn(value)
    case Cm => PtToCm(value)
    case Mm => PtToMm(value)
    case Dots => value / 72.0 * 300.0
    case Pt => value
  }

  /** The thrown messages "Unknown from units" and "Unknown to units". */
  datatype ConvertError = UnknownFrom(from: string) | UnknownTo(to: string)

  /** `convert(value, from, to)`: identical names short-circuit (even names
      the tables do not know); otherwise both names must be in the tables,
      the source unit being checked first. */
  function Convert(value: real, from: string, to: string): (r: Result<real, ConvertError>)
    ensures r.Ok? <==> from == to || (Lookup(from).Some? && Lookup(to).Some?)
  {
    if from == to then Ok(value)
    else if Lookup(from).None? then Err(UnknownFrom(from))
    else if Lookup(to).None? then Err(UnknownTo(to))
    else Ok(FromPt(Lookup(to).value, ToPt(Lookup(from).value, value)))
  }

  /** The conversion between two known units, as a function of the units
      rather than their names. */
  function Between(x: real, a: Unit, b: Unit): real
  {
    if a == b then x else FromPt(b, ToPt(a, x))
  }

  lemma ByName(x: real, a: Unit, b: Unit)
    ensures Convert(x, Name(a), Name(b)) == Ok(Between(x, a, b))
  {
    if a != b {
      assert Name(a) != Name(b);
      assert Lookup(Name(a)) == Some(a);
      assert Lookup(Name(b)) == Some(b);
    }
  }

  /** How many points one unit is worth: the reference scale the two
      tables must agree with. */
  function PointsPer(u: Unit): (k: real)
    ensures k > 0.0
  {
    match u
    case In => 72.0
    case Cm => 0.3937008 * 72.0
    case Mm => 0.03937008 * 72.0
    case Dots => 72.0 / 300.0
    case Pt => 1.0
  }

  /** Each `to_pt` entry multiplies by the unit's point scale and each
      `from_pt` entry divides by it. */
  lemma TablesScale(u: Unit, x: real)
    ensures ToPt(u, x) == x * PointsPer(u)
    ensures FromPt(u, x) == x / PointsPer(u)
  {
  }

  /** The `from_pt` entry of a unit undoes its `to_pt` entry, and the other
      way round. */
  lemma TablesInverse(u: Unit, x: real)
    ensures FromPt(u, ToPt(u, x)) == x
    ensures ToPt(u, FromPt(u, x)) == x
  {
  }

  /** Both tables scale linearly and keep strict order. */
  lemma TablesLinear(u: Unit, k: real, x: real)
    ensures ToPt(u, k * x) == k * ToPt(u, x)
    ensures FromPt(u, k * x) == k * FromPt(u, x)
  {
  }

  lemma TablesMonotone(u: Unit, x: real, y: real)
    requires x < y
    ensures ToPt(u, x) < ToPt(u, y)
    ensures FromPt(u, x) < FromPt(u, y)
  {
  }

  /** A conversion between known units keeps the length: the result,
      measured in points, is the original measured in points. */
  lemma ConvertKeepsLength(x: real, a: Unit, b: Unit)
    ensures Convert(x, Name(a), Name(b)).Ok?
    ensures ToPt(b, Convert(x, Name(a), Name(b)).value) == ToPt(a, x)
  {
    ByName(x, a, b);
    if a != b {
      TablesInverse(b, ToPt(a, x));
    }
  }

  /** Converting a length to its own unit returns it unchanged, for any
      unit name at all. */
  lemma ConvertIdentity(x: real, u: string)
    ensures Convert(x, u, u) == Ok(x)
  {
  }

  /** The fixed factors: one inch is 72 points, 300 dots are 72 points,
      and ten millimetres are exactly one centimetre over the reals, while
      2.54 cm is slightly more than one inch because the centimetre factor
      is the rounded 0.3937008. */
  lemma ConvertFactors()
    ensures Convert(1.0, "in", "pt") == Ok(72.0)
    ensures Convert(300.0, "dots", "pt") == Ok(72.0)
    ensures Convert(10.0, "mm", "cm") == Ok(1.0)
    ensures Convert(2.54, "cm", "in") == Ok(1.000000032)
  {
    ByName(1.0, In, Pt);
    ByName(300.0, Dots, Pt);
    ByName(10.0, Mm, Cm);
    ByName(2.54, Cm, In);
  }

  /** Converting there and back returns the original length exactly:
      each `to_pt` / `from_pt` pair is an exact inverse over the reals. */
  lemma RoundTrip(x: real, a: Unit, b: Unit)
    ensures Convert(x, Name(a), Name(b)).Ok?
    ensures Convert(Convert(x, Name(a), Name(b)).value, Name(b), Name(a)) == Ok(x)
  {
    ByName(x, a, b);
    ByName(Between(x, a, b), b, a);
    if a != b {
      TablesInverse(b, ToPt(a, x));
      TablesInverse(a, x);
    }
  }

  /** Converting through an intermediate unit gives the direct result. */
  lemma Compose(x: real, a: Unit, b: Unit, c: Unit)
    ensures Convert(x, Name(a), Name(b)).Ok?
    ensures Convert(Convert(x, Name(a), Name(b)).value, Name(b), Name(c)) == Convert(x, Name(a), Name(c))
  {
    ByName(x, a, b);
    ByName(Between(x, a, b), b, c);
    ByName(x, a, c);
    if a != b && b != c {
      TablesInverse(b, ToPt(a, x));
      if a == c {
        TablesInverse(a, x);
      }
    }
  }

  /** Scaling a length before converting it is the same as scaling the
      converted length. */
  lemma Linear(k: real, x: real, a: Unit, b: Unit)
    ensures Convert(k * x, Name(a), Name(b)).Ok? && Convert(x, Name(a), Name(b)).Ok?
    ensures Convert(k * x, Name(a), Name(b)).value == k * Convert(x, Name(a), Name(b)).value
  {
    BetweenLinear(k, x, a, b);
    ByName(x, a, b);
    ByName(k * x, a, b);
  }

  /** Linearity of the conversion between two units, one source unit at a
      time so that each case multiplies by known constants. */
  lemma BetweenLinear(k: real, x: real, a: Unit, b: Unit)
    ensures Between(k * x, a, b) == k * Between(x, a, b)
  {
    match a
    case In => LinearFromIn(k, x, b);
    case Cm => LinearFromCm(k, x, b);
    case Mm => LinearFromMm(k, x, b);
    case Pt => TablesLinear(b, k, x);
    case Dots => LinearFromDots(k, x, b);
  }

  lemma LinearFromIn(k: real, x: real, b: Unit)
    ensures Between(k * x, In, b) == k * Between(x, In, b)
  {
    assert ToPt(In, k * x) == k * ToPt(In, x);
    TablesLinear(b, k, ToPt(In, x));
  }

  lemma LinearFromCm(k: real, x: real, b: Unit)
    ensures Between(k * x, Cm, b) == k * Between(x, Cm, b)
  {
    assert ToPt(Cm, k * x) == k * ToPt(Cm, x);
    TablesLinear(b, k, ToPt(Cm, x));
  }

  lemma LinearFromMm(k: real, x: real, b: Unit)
    ensures Between(k * x, Mm, b) == k * Between(x, Mm, b)
  {
    assert ToPt(Mm, k * x) == k * ToPt(Mm, x);
    TablesLinear(b, k, ToPt(Mm, x));
  }

  lemma LinearFromDots(k: real, x: real, b: Unit)
    ensures Between(k * x, Dots, b) == k * Between(x, Dots, b)
  {
    assert ToPt(Dots, k * x) == k * ToPt(Dots, x);
    TablesLinear(b, k, ToPt(Dots, x));
  }

  /** Zero converts to zero between any two known units. */
  lemma ConvertZero(a: Unit, b: Unit)
    ensures Convert(0.0, Name(a), Name(b)) == Ok(0.0)
  {
    ByName(0.0, a, b);
    BetweenZero(a, b);
  }

  lemma BetweenZero(a: Unit, b: Unit)
    ensures Between(0.0, a, b) == 0.0
  {
  }

  /** Conversion between known units preserves strict order. */
  lemma Monotone(x: real, y: real, a: Unit, b: Unit)
    requires x < y
    ensures Convert(x, Name(a), Name(b)).Ok? && Convert(y, Name(a), Name(b)).Ok?
    ensures Convert(x, Name(a), Name(b)).value < Convert(y, Name(a), Name(b)).value
  {
    ByName(x, a, b);
    ByName(y, a, b);
    if a != b {
      TablesMonotone(a, x, y);
      TablesMonotone(b, ToPt(a, x), ToPt(a, y));
    }
  }

  /** Unknown names are errors, reported for the source unit first and
      before any arithmetic; "px" is not a known unit. */
  lemma UnknownUnits(x: real, from: string, to: string)
    ensures Lookup("px") == None
    ensures from != to && Lookup(from).None? ==> Convert(x, from, to) == Err(UnknownFrom(from))
    ensures from != to && Lookup(from).Some? && Lookup(to).None? ==> Convert(x, from, to) == Err(UnknownTo(to))
  {
  }
}
