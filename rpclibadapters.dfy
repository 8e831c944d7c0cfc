/**
 * The wire records of RpcLibAdapters.h: `StateAdapter` and `FoilAdapter`
 * travel as msgpack maps keyed by their member names, `Coord` as a
 * two-element array; and what the client's decoder makes of them.
 */
module RpcLibAdapters {
  import opened Wrappers
  import opened Values
  import Classes
  import opened Msgpack
  import Objects2d

  datatype StateAdapter = StateAdapter(projectPath: string, projectName: string, app: int, saved: bool, display: bool)

  datatype FoilAdapter = FoilAdapter(name: string, camber: real, camberX: real, thickness: real, thicknessX: real, n: int)

  datatype Coord = Coord(x: real, y: real)

  /** The `StateAdapter` constructor; `display` defaults to true. */
  function MakeState(projectPath: string, projectName: string, app: int, saved: bool, display: bool := true): (s: StateAdapter)
    ensures s.projectPath == projectPath && s.projectName == projectName && s.app == app
    ensures s.saved == saved && s.display == display
  {
    StateAdapter(projectPath, projectName, app, saved, display)
  }

  /** Without a `display` argument the adapter reports a displayed state. */
  lemma MakeStateDisplayDefault(projectPath: string, projectName: string, app: int, saved: bool)
    ensures MakeState(projectPath, projectName, app, saved).display
  {
  }

  /** `FoilAdapter(Foil&)`: a one-to-one copy of the foil's name, geometry and point count. */
  function FromFoil(f: Objects2d.Foil): (a: FoilAdapter)
    reads f
    ensures a.name == f.name && a.n == f.n
    ensures a.camber == f.camber && a.camberX == f.xCamber
    ensures a.thickness == f.thickness && a.thicknessX == f.xThickness
  {
    FoilAdapter(f.name, f.camber, f.xCamber, f.thickness, f.xThickness, f.n)
  }

  /** `MSGPACK_DEFINE_MAP(projectPath, projectName, app, saved, display)`. */
  function EncodeState(s: StateAdapter): Wire
  {
    MMap(map["projectPath" := MStr(s.projectPath), "projectName" := MStr(s.projectName), "app" := MInt(s.app),
             "saved" := MBool(s.saved), "display" := MBool(s.display)])
  }

  /** `MSGPACK_DEFINE_MAP(name, camber, camber_x, thickness, thickness_x, n)`. */
  function EncodeFoil(a: FoilAdapter): Wire
  {
    MMap(map["name" := MStr(a.name), "camber" := MFloat(a.camber), "camber_x" := MFloat(a.camberX),
             "thickness" := MFloat(a.thickness), "thickness_x" := MFloat(a.thicknessX), "n" := MInt(a.n)])
  }

  /** `MSGPACK_DEFINE_ARRAY(x, y)`. */
  function EncodeCoord(c: Coord): Wire
  {
    MArray([MFloat(c.x), MFloat(c.y)])
  }

  /** A `vector<Coord>`: an array of two-element arrays. */
  function EncodeCoords(v: seq<Coord>): Wire
  {
    MArray(seq(|v|, i requires 0 <= i < |v| => EncodeCoord(v[i])))
  }

  /** The fields a foil adapter unpacks to on the client. */
  function FoilEntries(a: FoilAdapter): map<string, Value>
  {
    map["name" := Str(a.name), "camber" := Float(a.camber), "camber_x" := Float(a.camberX),
        "thickness" := Float(a.thickness), "thickness_x" := Float(a.thicknessX), "n" := Int(a.n)]
  }

  /** On the wire a foil adapter is a map of six scalars, none of which unpacks to a dict. */
  lemma FoilWire(a: FoilAdapter)
    ensures Lift(EncodeFoil(a)) == Dict(FoilEntries(a))
    ensures forall k | k in FoilEntries(a) :: !FoilEntries(a)[k].Dict?
  {
    assert Lift(EncodeFoil(a)) == Dict(FoilEntries(a));
  }

  /**
   * A foil adapter reaches the client as a Foil whose instance dict is the
   * template `Foil(client)` updated with the six fields.
   */
  lemma FoilAdapterDecodes(a: FoilAdapter)
    ensures Decode(ClassName.Foil, Lift(EncodeFoil(a)), true) == Success(map["_client" := Handle] + FoilEntries(a))
  {
    FoilWire(a);
    DecodeThroughTemplate(ClassName.Foil, Dict(FoilEntries(a)), true);
    DecodePlainEntries(ClassName.Foil, map["_client" := Handle], FoilEntries(a));
  }

  /** The six fields are exactly the data attributes the Python class declares, so none is left at its class default. */
  lemma FoilAdapterCoversFoil(a: FoilAdapter)
    ensures FoilEntries(a).Keys == Classes.ClassAttrs(ClassName.Foil).Keys
  {
  }

  /** A server foil read by `getFoil` arrives at the client field for field. */
  lemma ServerFoilReachesClient(f: Objects2d.Foil)
    ensures Decode(ClassName.Foil, Lift(EncodeFoil(FromFoil(f))), true)
            == Success(map["_client" := Handle] +
                       map["name" := Str(f.name), "camber" := Float(f.camber), "camber_x" := Float(f.xCamber),
                           "thickness" := Float(f.thickness), "thickness_x" := Float(f.xThickness), "n" := Int(f.n)])
  {
    FoilAdapterDecodes(FromFoil(f));
  }

  /** The client's State: the five members verbatim, `app` as a plain int in place of the enum class attribute. */
  function StateFields(s: StateAdapter): map<string, Value>
  {
    map["projectPath" := Str(s.projectPath), "projectName" := Str(s.projectName), "app" := Int(s.app),
        "saved" := Bool(s.saved), "display" := Bool(s.display)]
  }

  /** On the wire a state adapter is a map of five scalars, none of which unpacks to a dict. */
  lemma StateWire(s: StateAdapter)
    ensures Lift(EncodeState(s)) == Dict(StateFields(s))
    ensures forall k | k in StateFields(s) :: !StateFields(s)[k].Dict?
  {
    assert Lift(EncodeState(s)) == Dict(StateFields(s));
  }

  /** A state adapter decodes as a State holding exactly its five members. */
  lemma StateAdapterDecodes(s: StateAdapter)
    ensures Decode(ClassName.State, Lift(EncodeState(s)), false) == Success(StateFields(s))
  {
    StateWire(s);
    DecodeThroughTemplate(ClassName.State, Dict(StateFields(s)), false);
    DecodePlainEntries(ClassName.State, map[], StateFields(s));
    UpdateCovering(map[], StateFields(s));
  }

  /** A state built by the `StateAdapter` constructor reaches the client with every argument under its member's name. */
  lemma StateReachesClient(projectPath: string, projectName: string, app: int, saved: bool, display: bool)
    ensures Decode(ClassName.State, Lift(EncodeState(MakeState(projectPath, projectName, app, saved, display))), false)
            == Success(map["projectPath" := Str(projectPath), "projectName" := Str(projectName), "app" := Int(app),
                           "saved" := Bool(saved), "display" := Bool(display)])
  {
    StateAdapterDecodes(MakeState(projectPath, projectName, app, saved, display));
  }

  /** The five members are the attributes of the Python State; `app` arrives as an int, not an enumApp member. */
  lemma StateAdapterCoversState(s: StateAdapter)
    ensures StateFields(s).Keys == Classes.ClassAttrs(ClassName.State).Keys
    ensures Classes.ClassAttrs(ClassName.State)["app"] == EnumType(App) && StateFields(s)["app"] == Int(s.app)
  {
  }

  /**
   * Coordinates reach the client as a list of two-element lists, and a
   * list is stored verbatim by `from_msgpack` under whatever key it arrives.
   */
  lemma CoordsArriveAsLists(v: seq<Coord>)
    ensures Lift(EncodeCoords(v)).List? && |Lift(EncodeCoords(v)).items| == |v|
    ensures forall i | 0 <= i < |v| :: Lift(EncodeCoords(v)).items[i] == List([Float(v[i].x), Float(v[i].y)])
    ensures forall c: ClassName, t: map<string, Value>, k: string ::
              DecodeField(c, t, k, Lift(EncodeCoords(v))) == Some(Lift(EncodeCoords(v)))
  {
    var w := EncodeCoords(v);
    forall i | 0 <= i < |v|
      ensures Lift(w).items[i] == List([Float(v[i].x), Float(v[i].y)])
    {
      assert w.elems[i] == EncodeCoord(v[i]);
      assert Lift(EncodeCoord(v[i])).items == [Float(v[i].x), Float(v[i].y)];
    }
  }
}
