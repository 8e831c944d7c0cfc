/**
 * The IntEnum classes of types.py. Every enum holds contiguous values
 * starting at 0, so member i of an enum is `Members(kind)[i]` and has value i.
 */
module Enums {
  import opened Wrappers
  import opened Values

  /** Member names of each IntEnum, in value order. */
  function Members(k: EnumKind): (names: seq<string>)
  {
    match k
    case LineStipple => ["SOLID", "DASH", "DOT", "DASHDOT", "DASHDOTDOT", "NOLINE"]
    case PointStyle =>
      ["NOSYMBOL", "LITTLECIRCLE", "BIGCIRCLE", "LITTLESQUARE", "BIGSQUARE", "TRIANGLE",
       "TRIANGLE_INV", "LITTLECIRCLE_F", "BIGCIRCLE_F", "LITTLESQUARE_F", "BIGSQUARE_F",
       "TRIANGLE_F", "TRIANGLE_INV_F", "LITTLECROSS", "BIGCROSS"]
    case SequenceType => ["ALPHA", "CL", "REYNOLDS"]
    case PolarType =>
      ["FIXEDSPEEDPOLAR", "FIXEDLIFTPOLAR", "RUBBERCHORDPOLAR", "FIXEDAOAPOLAR",
       "STABILITYPOLAR", "BETAPOLAR"]
    case GraphView => ["ONEGRAPH", "TWOGRAPHS", "FOURGRAPHS", "ALLGRAPHS", "NOGRAPH"]
    case PolarResultKind =>
      ["ALPHA", "CL", "XCP", "CD", "CDP", "CM", "XTR1", "XTR2", "HMOM", "CPMN", "CLCD",
       "CL32CD", "RTCL", "RE"]
    case App => ["NOAPP", "XFOILANALYSIS", "DIRECTDESIGN", "INVERSEDESIGN", "MIAREX"]
    case WingType => ["MAINWING", "SECONDWING", "ELEVATOR", "FIN"]
    case AnalysisMethod => ["LLTMETHOD", "VLMMETHOD", "PANE4LMETHOD", "TRILINMETHOD", "TRIUNIMETHOD"]
    case RefDimension => ["PLANFORMREFDIM", "PROJECTEDREFDIM", "MANUALREFDIM"]
    case WPolarResultKind =>
      ["ALPHA", "CL", "XCPCL", "CD", "CDP", "CM", "ICD", "SM", "FX", "FY", "CLCD",
       "CL32CD", "FZ", "QINF"]
  }

  /** A member of one of the enums (an Enum value with an existing ordinal). */
  predicate IsMember(v: Value)
  {
    v.Enum? && 0 <= v.ordinal < |Members(v.kind)|
  }

  /**
   * The integer an IntEnum lookup `kind(v)` matches `v` against: Python
   * compares by value, so an int, a bool, an integral float and a member of
   * any IntEnum all find the member with that value.
   */
  function LookupKey(v: Value): (key: Option<int>)
  {
    match v
    case Int(i) => Some(i)
    case Bool(b) => Some(if b then 1 else 0)
    case Float(x) => if x == x.Floor as real then Some(x.Floor) else None
    case Enum(_, i) => Some(i)
    case _ => None
  }

  /** `kind(v)`: the member whose value equals `v`, or ValueError. */
  function Coerce(k: EnumKind, v: Value): (r: Result<Value, Error>)
  {
    match LookupKey(v)
    case Some(i) => if 0 <= i < |Members(k)| then Success(Enum(k, i)) else Failure(ValueError)
    case None => Failure(ValueError)
  }

  /** `v.value`: only enum members have it; anything else raises AttributeError. */
  function ValueOf(v: Value): (r: Result<Value, Error>)
  {
    if v.Enum? then Success(Int(v.ordinal)) else Failure(AttributeError)
  }

  /** Coercing an integer succeeds exactly for the enum's values, and gives the member with that value. */
  lemma CoerceInt(k: EnumKind, i: int)
    ensures Coerce(k, Int(i)).Success? <==> 0 <= i < |Members(k)|
    ensures Coerce(k, Int(i)).Success? ==> Coerce(k, Int(i)).value == Enum(k, i) && IsMember(Enum(k, i))
    ensures Coerce(k, Int(i)).Failure? ==> Coerce(k, Int(i)).error == ValueError
  {
  }

  /** The two enums of a line style accept exactly 0..14 and 0..5. */
  lemma LineStyleEnumRanges(i: int)
    ensures Coerce(PointStyle, Int(i)).Success? <==> 0 <= i <= 14
    ensures Coerce(LineStipple, Int(i)).Success? <==> 0 <= i <= 5
  {
  }

  /** Coercion accepts only members: whatever it returns is a member of the requested enum. */
  lemma CoerceYieldsMember(k: EnumKind, v: Value)
    ensures Coerce(k, v).Success? ==> IsMember(Coerce(k, v).value) && Coerce(k, v).value.kind == k
    ensures Coerce(k, v).Success? <==> LookupKey(v).Some? && 0 <= LookupKey(v).value < |Members(k)|
  {
  }

  /** `.value` inverts coercion: a member goes to its integer and back to itself. */
  lemma ValueOfCoerce(e: Value)
    requires IsMember(e)
    ensures ValueOf(e).Success? && Coerce(e.kind, ValueOf(e).value) == Success(e)
  {
  }

  /** Coercion inverts `.value`: a valid integer goes to its member and back to itself. */
  lemma CoerceValueOf(k: EnumKind, i: int)
    requires 0 <= i < |Members(k)|
    ensures ValueOf(Coerce(k, Int(i)).value) == Success(Int(i))
  {
  }
}
