/**
 * Python values as the xflrpy client sees them, and the msgpack values the
 * rpc transport carries between the client and the xflr5 server.
 *
 * `Lift` is what the transport's unpacker makes of a wire value on the client;
 * `Pack` is what the transport's packer makes of a Python value, calling
 * `to_msgpack()` on every object it cannot pack natively. Both live in the
 * msgpack-rpc library, which is not part of this model: they are stated here
 * as the assumption the marshaling layer rests on.
 */
module Values {
  import opened Wrappers

  /** The IntEnum classes of types.py. */
  datatype EnumKind =
    | LineStipple | PointStyle | SequenceType | PolarType | GraphView | PolarResultKind
    | App | WingType | AnalysisMethod | RefDimension | WPolarResultKind

  /** The MsgpackMixin classes whose instances the client builds or decodes. */
  datatype ClassName =
    | LineStyle | Foil | OpPoint | PolarSpec | PolarResult | Polar
    | XDirectDisplayState | State | WingSection | Wing | Plane | WPolarResult

  /** The Python exceptions the core can raise (exit(0) raises SystemExit). */
  datatype Error = TypeError | AttributeError | ValueError | KeyError | AssertionError | SystemExit

  /** A msgpack value: nil, boolean, integer, float, string, array or string-keyed map. */
  datatype Wire =
    | MNil
    | MBool(b: bool)
    | MInt(i: int)
    | MFloat(r: real)
    | MStr(s: string)
    | MArray(elems: seq<Wire>)
    | MMap(entries: map<string, Wire>)

  /**
   * A Python value: the primitives, lists, plain dicts, an IntEnum member
   * (its class and integer value), an IntEnum class itself, an instance of a
   * MsgpackMixin class (its class and its instance `__dict__`), and the rpc
   * client handle an object may keep in its `_client` field.
   */
  datatype Value =
    | Nil
    | Bool(b: bool)
    | Int(i: int)
    | Float(r: real)
    | Str(s: string)
    | List(items: seq<Value>)
    | Dict(entries: map<string, Value>)
    | Enum(kind: EnumKind, ordinal: int)
    | EnumType(enumKind: EnumKind)
    | Obj(cls: ClassName, fields: map<string, Value>)
    | Handle

  /** The client-side unpacking of a wire value: arrays become lists, maps become dicts. */
  function Lift(w: Wire): (v: Value)
  {
    match w
    case MNil => Nil
    case MBool(b) => Bool(b)
    case MInt(i) => Int(i)
    case MFloat(r) => Float(r)
    case MStr(s) => Str(s)
    case MArray(elems) => List(seq(|elems|, i requires 0 <= i < |elems| => Lift(elems[i])))
    case MMap(entries) => Dict(map k | k in entries :: Lift(entries[k]))
  }

  /**
   * The packer: primitives, lists and dicts are packed natively, an IntEnum
   * member as its integer, and an object through `to_msgpack()`, which returns
   * its instance dict. The client handle and enum classes have no
   * `to_msgpack`, so packing them raises AttributeError.
   */
  function Pack(v: Value): (r: Result<Wire, Error>)
  {
    match v
    case Nil => Success(MNil)
    case Bool(b) => Success(MBool(b))
    case Int(i) => Success(MInt(i))
    case Float(x) => Success(MFloat(x))
    case Str(s) => Success(MStr(s))
    case Enum(_, i) => Success(MInt(i))
    case List(items) =>
      if forall i | 0 <= i < |items| :: Pack(items[i]).Success? then
        Success(MArray(seq(|items|, i requires 0 <= i < |items| => Pack(items[i]).value)))
      else Failure(AttributeError)
    case Dict(entries) =>
      if forall k | k in entries :: Pack(entries[k]).Success? then
        Success(MMap(map k | k in entries :: Pack(entries[k]).value))
      else Failure(AttributeError)
    case Obj(_, fields) =>
      if forall k | k in fields :: Pack(fields[k]).Success? then
        Success(MMap(map k | k in fields :: Pack(fields[k]).value))
      else Failure(AttributeError)
    case EnumType(_) => Failure(AttributeError)
    case Handle => Failure(AttributeError)
  }

  /**
   * What survives a trip over the wire: enum members become their integers,
   * everything else keeps its shape.
   */
  function Flatten(v: Value): (r: Value)
  {
    match v
    case Enum(_, i) => Int(i)
    case List(items) => List(seq(|items|, i requires 0 <= i < |items| => Flatten(items[i])))
    case Dict(entries) => Dict(map k | k in entries :: Flatten(entries[k]))
    case Obj(c, fields) => Obj(c, map k | k in fields :: Flatten(fields[k]))
    case _ => v
  }

  /** Plain data: no object, dict, enum class or client handle anywhere inside. */
  predicate Plain(v: Value)
  {
    match v
    case List(items) => forall i | 0 <= i < |items| :: Plain(items[i])
    case Dict(_) => false
    case Obj(_, _) => false
    case EnumType(_) => false
    case Handle => false
    case _ => true
  }

  /** An array whose elements survive unpacking and packing survives as a whole. */
  lemma PackLiftArray(elems: seq<Wire>)
    requires forall i | 0 <= i < |elems| :: Pack(Lift(elems[i])) == Success(elems[i])
    ensures Pack(Lift(MArray(elems))) == Success(MArray(elems))
  {
    var items := seq(|elems|, i requires 0 <= i < |elems| => Lift(elems[i]));
    assert Lift(MArray(elems)) == List(items);
    assert forall i | 0 <= i < |items| :: Pack(items[i]) == Success(elems[i]);
    assert seq(|items|, i requires 0 <= i < |items| => Pack(items[i]).value) == elems;
  }

  /** A dict whose values all pack, packs as the map of their packings. */
  lemma PackDict(fields: map<string, Value>, entries: map<string, Wire>)
    requires fields.Keys == entries.Keys
    requires forall k | k in fields :: Pack(fields[k]) == Success(entries[k])
    ensures Pack(Dict(fields)) == Success(MMap(entries))
  {
    var packed := map k | k in fields :: Pack(fields[k]).value;
    assert packed == entries;
  }

  /** A map whose values survive unpacking and packing survives as a whole. */
  lemma PackLiftMap(entries: map<string, Wire>)
    requires forall k | k in entries :: Pack(Lift(entries[k])) == Success(entries[k])
    ensures Pack(Lift(MMap(entries))) == Success(MMap(entries))
  {
    var fields := map k | k in entries :: Lift(entries[k]);
    assert Lift(MMap(entries)) == Dict(fields);
    PackDict(fields, entries);
  }

  /** Unpacking then packing gives back the wire value: the client never loses wire data. */
  lemma {:induction false} PackLift(w: Wire)
    ensures Pack(Lift(w)) == Success(w)
  {
    match w
    case MArray(elems) =>
      forall i | 0 <= i < |elems| ensures Pack(Lift(elems[i])) == Success(elems[i]) {
        PackLift(elems[i]);
      }
      PackLiftArray(elems);
    case MMap(entries) =>
      forall k | k in entries ensures Pack(Lift(entries[k])) == Success(entries[k]) {
        PackLift(entries[k]);
      }
      PackLiftMap(entries);
    case _ =>
  }

  /** Plain data packs, and unpacks to itself with enum members flattened to integers. */
  lemma {:induction false} LiftPackPlain(v: Value)
    requires Plain(v)
    ensures Pack(v).Success? && Lift(Pack(v).value) == Flatten(v)
    ensures !Flatten(v).Dict? && !Flatten(v).Obj?
  {
    match v
    case List(items) =>
      forall i | 0 <= i < |items| ensures Pack(items[i]).Success? && Lift(Pack(items[i]).value) == Flatten(items[i]) {
        LiftPackPlain(items[i]);
      }
      var elems := seq(|items|, i requires 0 <= i < |items| => Pack(items[i]).value);
      assert Pack(v) == Success(MArray(elems));
      assert Lift(MArray(elems)) == Flatten(v);
    case _ =>
  }
}
