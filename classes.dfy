/**
 * The MsgpackMixin classes of types.py: their class-level attributes, the
 * instance dicts their `__init__` methods build, Python attribute lookup, and
 * the mutable Python object the client works on.
 */
module Classes {
  import opened Wrappers
  import opened Values

  /** The field map `LineStyle.__init__` assigns, one field per parameter. */
  function LineStyleFields(visible: Value, stipple: Value, pointStyle: Value, width: Value, color: Value, tag: Value): map<string, Value>
  {
    map["visible" := visible, "stipple" := stipple, "point_style" := pointStyle,
        "width" := width, "color" := color, "tag" := tag]
  }

  /** The field map `PolarSpec.__init__` assigns; note parameter `re_type` lands in field `Re_type`. */
  function PolarSpecFields(polarType: Value, reType: Value, maType: Value, aoa: Value, mach: Value,
                           ncrit: Value, xtop: Value, xbot: Value, reynolds: Value): map<string, Value>
  {
    map["polar_type" := polarType, "Re_type" := reType, "ma_type" := maType, "aoa" := aoa,
        "mach" := mach, "ncrit" := ncrit, "xtop" := xtop, "xbot" := xbot, "reynolds" := reynolds]
  }

  const DefaultPolarSpec: map<string, Value> :=
    PolarSpecFields(Enum(PolarType, 0), Int(1), Int(1), Float(0.0), Float(0.0), Float(9.0),
                    Float(1.0), Float(1.0), Float(100000.0))

  /** The field map `Polar.__init__` assigns: a fresh default spec and an empty result. */
  function PolarFields(name: Value, foilName: Value): map<string, Value>
  {
    map["name" := name, "foil_name" := foilName,
        "spec" := Obj(PolarSpec, DefaultPolarSpec), "result" := Obj(PolarResult, map[])]
  }

  /** The field map `XDirectDisplayState.__init__` assigns. */
  function XDirectDisplayStateFields(polarView: Value, graphView: Value, whichGraph: Value,
                                     activeOppOnly: Value, showBl: Value, showPressure: Value,
                                     showCpGraph: Value, animated: Value, aniSpeed: Value): map<string, Value>
  {
    map["polar_view" := polarView, "graph_view" := graphView, "which_graph" := whichGraph,
        "active_opp_only" := activeOppOnly, "show_bl" := showBl, "show_pressure" := showPressure,
        "show_cpgraph" := showCpGraph, "animated" := animated, "ani_speed" := aniSpeed]
  }

  /** The field map `WingSection.__init__` assigns. */
  function WingSectionFields(yPosition: Value, chord: Value, offset: Value, dihedral: Value, twist: Value,
                             rightFoilName: Value, leftFoilName: Value, nXPanels: Value, xPanelDist: Value,
                             nYPanels: Value, yPanelDist: Value): map<string, Value>
  {
    map["y_position" := yPosition, "chord" := chord, "offset" := offset, "dihedral" := dihedral,
        "twist" := twist, "right_foil_name" := rightFoilName, "left_foil_name" := leftFoilName,
        "n_x_panels" := nXPanels, "x_panel_dist" := xPanelDist, "n_y_panels" := nYPanels,
        "y_panel_dist" := yPanelDist]
  }

  const DefaultWingSection: map<string, Value> :=
    WingSectionFields(Int(0), Float(0.1), Float(0.05), Int(0), Int(0), Str(""), Str(""),
                      Int(7), Int(0), Int(7), Int(0))

  /** The field map `Wing.__init__` assigns: `sections=None` becomes a fresh empty list. */
  function WingFields(wingType: Value, sections: Value): map<string, Value>
  {
    map["type" := wingType, "sections" := if sections == Nil then List([]) else sections]
  }

  /** The field map `Plane.__init__` assigns: four fresh wings of the four wing types. */
  function PlaneFields(name: Value): map<string, Value>
  {
    map["name" := name,
        "wing" := Obj(Wing, WingFields(Enum(WingType, 0), Nil)),
        "wing2" := Obj(Wing, WingFields(Enum(WingType, 1), Nil)),
        "elevator" := Obj(Wing, WingFields(Enum(WingType, 2), Nil)),
        "fin" := Obj(Wing, WingFields(Enum(WingType, 3), Nil))]
  }

  /** A map from each name to the same value (for the result classes made only of empty lists). */
  function AllSetTo(names: set<string>, v: Value): map<string, Value>
  {
    map k | k in names :: v
  }

  const PolarResultNames: set<string> :=
    {"alpha", "Cl", "XCp", "Cd", "Cdp", "Cm", "XTr1", "XTr2", "HMom", "Cpmn", "ClCd", "Cl32Cd", "RtCl", "Re"}

  const WPolarResultNames: set<string> :=
    {"alpha", "beta", "Q_inf", "Cl", "ClCd", "Cl32Cd", "TCd", "ICd", "PCd", "Cm", "ICm", "IYm", "VCm",
     "FZ", "FX", "FY", "Rm", "Pm", "max_bending", "XCpCl", "SM"}

  /**
   * The data attributes each class defines at class level; an instance falls
   * back to these when its own dict lacks the name. (Methods and properties
   * are not data: a lookup that reaches one is treated as absent.)
   */
  function ClassAttrs(c: ClassName): map<string, Value>
  {
    match c
    case LineStyle => LineStyleFields(Bool(true), Enum(LineStipple, 0), Enum(PointStyle, 0), Int(1), List([]), Str(""))
    case Foil =>
      map["name" := Str(""), "camber" := Float(0.0), "camber_x" := Float(0.0),
          "thickness" := Float(0.0), "thickness_x" := Float(0.0), "n" := Int(0)]
    case OpPoint =>
      map["alpha" := Str(""), "polar_name" := Str(""), "foil_name" := Str(""), "Cl" := Float(0.0),
          "XCp" := Float(0.0), "Cd" := Float(0.0), "Cdp" := Float(0.0), "Cm" := Float(0.0),
          "XTr1" := Float(0.0), "XTr2" := Float(0.0), "HMom" := Float(0.0), "Cpmn" := Float(0.0),
          "Re" := Float(0.0), "mach" := Float(0.0)]
    case PolarSpec => DefaultPolarSpec
    case PolarResult => AllSetTo(PolarResultNames, List([]))
    case Polar => PolarFields(Str(""), Str(""))
    case XDirectDisplayState =>
      XDirectDisplayStateFields(Bool(true), Enum(GraphView, 3), Int(1), Bool(true), Bool(true),
                                Bool(true), Bool(true), Bool(false), Int(500))
    case State =>
      map["projectPath" := Str(""), "projectName" := Str(""), "app" := EnumType(App),
          "saved" := Bool(false), "display" := Bool(true)]
    case WingSection => DefaultWingSection
    case Wing => WingFields(Enum(WingType, 0), Nil)
    case Plane => PlaneFields(Str(""))
    case WPolarResult => AllSetTo(WPolarResultNames, List([]))
  }

  /** The first positional argument: the client when one is passed, else the parameter's default. */
  function FirstArg(withClient: bool, default: Value): Value
  {
    if withClient then Handle else default
  }

  /**
   * The instance dict of `cls(client)` (withClient) or `cls()`. `Foil`
   * requires its client; classes without `__init__` accept no argument; the
   * others take the client as their first keyword parameter.
   */
  function Construct(c: ClassName, withClient: bool): (r: Result<map<string, Value>, Error>)
  {
    match c
    case LineStyle =>
      Success(LineStyleFields(FirstArg(withClient, Bool(true)), Enum(LineStipple, 0), Enum(PointStyle, 0),
                              Int(1), List([]), Str("")))
    case Foil => if withClient then Success(map["_client" := Handle]) else Failure(TypeError)
    case OpPoint => if withClient then Failure(TypeError) else Success(map[])
    case PolarSpec =>
      Success(DefaultPolarSpec["polar_type" := FirstArg(withClient, Enum(PolarType, 0))])
    case PolarResult => if withClient then Failure(TypeError) else Success(map[])
    case Polar => Success(PolarFields(FirstArg(withClient, Str("")), Str("")))
    case XDirectDisplayState =>
      Success(XDirectDisplayStateFields(FirstArg(withClient, Bool(true)), Enum(GraphView, 3), Int(1),
                                        Bool(true), Bool(false), Bool(false), Bool(true), Bool(false), Int(500)))
    case State => if withClient then Failure(TypeError) else Success(map[])
    case WingSection => Success(DefaultWingSection["y_position" := FirstArg(withClient, Int(0))])
    case Wing => Success(WingFields(FirstArg(withClient, Enum(WingType, 0)), Nil))
    case Plane => Success(PlaneFields(FirstArg(withClient, Str("Plane Name"))))
    case WPolarResult => if withClient then Failure(TypeError) else Success(map[])
  }

  /** `getattr(obj, k)` for an instance of class `c` with instance dict `d`: the dict first, then the class. */
  function Attr(c: ClassName, d: map<string, Value>, k: string): (r: Option<Value>)
  {
    if k in d then Some(d[k])
    else if k in ClassAttrs(c) then Some(ClassAttrs(c)[k])
    else None
  }

  /** A Python object: its class and its instance `__dict__`, which methods update in place. */
  class PyObject {
    var cls: ClassName
    var dict: map<string, Value>

    constructor (c: ClassName, d: map<string, Value>)
      ensures cls == c && dict == d
    {
      cls := c;
      dict := d;
    }

    /** `LineStyle(visible, stipple, point_style, width, color, tag)` with the source's defaults. */
    constructor LineStyle(visible: Value := Bool(true), stipple: Value := Enum(LineStipple, 0),
                          pointStyle: Value := Enum(PointStyle, 0), width: Value := Int(1),
                          color: Value := List([]), tag: Value := Str(""))
      ensures cls == ClassName.LineStyle
      ensures dict == LineStyleFields(visible, stipple, pointStyle, width, color, tag)
    {
      cls := ClassName.LineStyle;
      dict := map[];
      new;
      dict := dict["visible" := visible];
      dict := dict["stipple" := stipple];
      dict := dict["point_style" := pointStyle];
      dict := dict["width" := width];
      dict := dict["color" := color];
      dict := dict["tag" := tag];
    }

    /** `Foil(client)`: only the back-reference is stored; every other field is a class attribute. */
    constructor Foil()
      ensures cls == ClassName.Foil && dict == map["_client" := Handle]
    {
      cls := ClassName.Foil;
      dict := map["_client" := Handle];
    }

    /** `PolarSpec(...)` with the source's defaults. */
    constructor PolarSpec(polarType: Value := Enum(PolarType, 0), reType: Value := Int(1), maType: Value := Int(1),
                          aoa: Value := Float(0.0), mach: Value := Float(0.0), ncrit: Value := Float(9.0),
                          xtop: Value := Float(1.0), xbot: Value := Float(1.0), reynolds: Value := Float(100000.0))
      ensures cls == ClassName.PolarSpec
      ensures dict == PolarSpecFields(polarType, reType, maType, aoa, mach, ncrit, xtop, xbot, reynolds)
    {
      cls := ClassName.PolarSpec;
      dict := map[];
      new;
      dict := dict["polar_type" := polarType];
      dict := dict["Re_type" := reType];
      dict := dict["ma_type" := maType];
      dict := dict["aoa" := aoa];
      dict := dict["mach" := mach];
      dict := dict["ncrit" := ncrit];
      dict := dict["xtop" := xtop];
      dict := dict["xbot" := xbot];
      dict := dict["reynolds" := reynolds];
    }

    /** `Polar(name, foil_name)`: a fresh default PolarSpec and an empty PolarResult. */
    constructor Polar(name: Value := Str(""), foilName: Value := Str(""))
      ensures cls == ClassName.Polar && dict == PolarFields(name, foilName)
    {
      cls := ClassName.Polar;
      dict := map[];
      new;
      dict := dict["name" := name];
      dict := dict["foil_name" := foilName];
      dict := dict["spec" := Obj(ClassName.PolarSpec, DefaultPolarSpec)];
      dict := dict["result" := Obj(PolarResult, map[])];
    }

    /** `WingSection(...)` with the source's defaults. */
    constructor WingSection(yPosition: Value := Int(0), chord: Value := Float(0.1), offset: Value := Float(0.05),
                            dihedral: Value := Int(0), twist: Value := Int(0), rightFoilName: Value := Str(""),
                            leftFoilName: Value := Str(""), nXPanels: Value := Int(7), xPanelDist: Value := Int(0),
                            nYPanels: Value := Int(7), yPanelDist: Value := Int(0))
      ensures cls == ClassName.WingSection
      ensures dict == WingSectionFields(yPosition, chord, offset, dihedral, twist, rightFoilName, leftFoilName,
                                        nXPanels, xPanelDist, nYPanels, yPanelDist)
    {
      cls := ClassName.WingSection;
      dict := map[];
      new;
      dict := dict["y_position" := yPosition];
      dict := dict["chord" := chord];
      dict := dict["offset" := offset];
      dict := dict["dihedral" := dihedral];
      dict := dict["twist" := twist];
      dict := dict["right_foil_name" := rightFoilName];
      dict := dict["left_foil_name" := leftFoilName];
      dict := dict["n_x_panels" := nXPanels];
      dict := dict["x_panel_dist" := xPanelDist];
      dict := dict["n_y_panels" := nYPanels];
      dict := dict["y_panel_dist" := yPanelDist];
    }

    /** `Wing(type, sections)`: `sections=None` gives a fresh empty list. */
    constructor Wing(wingType: Value := Enum(WingType, 0), sections: Value := Nil)
      ensures cls == ClassName.Wing && dict == WingFields(wingType, sections)
      ensures dict["sections"] == (if sections == Nil then List([]) else sections)
    {
      cls := ClassName.Wing;
      dict := map[];
      new;
      dict := dict["type" := wingType];
      if sections == Nil {
        dict := dict["sections" := List([])];
      } else {
        dict := dict["sections" := sections];
      }
    }

    /** `Plane(name)`: four fresh wings, of types MAINWING, SECONDWING, ELEVATOR and FIN. */
    constructor Plane(name: Value := Str("Plane Name"))
      ensures cls == ClassName.Plane && dict == PlaneFields(name)
    {
      cls := ClassName.Plane;
      dict := map[];
      new;
      dict := dict["name" := name];
      dict := dict["wing" := Obj(ClassName.Wing, WingFields(Enum(WingType, 0), Nil))];
      dict := dict["wing2" := Obj(ClassName.Wing, WingFields(Enum(WingType, 1), Nil))];
      dict := dict["elevator" := Obj(ClassName.Wing, WingFields(Enum(WingType, 2), Nil))];
      dict := dict["fin" := Obj(ClassName.Wing, WingFields(Enum(WingType, 3), Nil))];
    }

    /** `getattr(self, k)`. */
    function GetAttr(k: string): Option<Value>
      reads this
    {
      Attr(cls, dict, k)
    }

    /** `to_msgpack()`: the instance dict itself, with no class attributes and no recursion. */
    function ToMsgpack(): map<string, Value>
      reads this
    {
      dict
    }
  }

  /** The template `cls()` of every class that appears as a nested default is itself constructible without arguments. */
  lemma NestedDefaultsConstructible(c: ClassName, withClient: bool, k: string)
    requires Construct(c, withClient).Success?
    requires Attr(c, Construct(c, withClient).value, k).Some?
    requires Attr(c, Construct(c, withClient).value, k).value.Obj?
    ensures Attr(c, Construct(c, withClient).value, k).value.cls in {PolarSpec, PolarResult, Wing}
    ensures Construct(Attr(c, Construct(c, withClient).value, k).value.cls, false).Success?
  {
  }
}
