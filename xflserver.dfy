/**
 * The request handlers of xflServer that copy coordinates, update geometry,
 * switch application and look foils up. The main frame and the AFoil
 * designer are reached only through Qt signals; those are recorded, in the
 * order they are emitted, in the server's event log. The foil registry
 * `Objects2d::foil(name)` / `Objects2d::curFoil()` is not part of this model:
 * its answer is passed to each handler.
 */
module XflServer {
  import opened Wrappers
  import opened Values
  import Objects2d
  import opened RpcLibAdapters
  import Msgpack
  import Foils

  /** The values of `xfl::enumApp`, as the Python client's `enumApp` numbers them. */
  const NOAPP := 0
  const XFOILANALYSIS := 1
  const DIRECTDESIGN := 2
  const INVERSEDESIGN := 3
  const MIAREX := 4

  /**
   * What a handler sets off: the signals it emits and, as `NormalizeGeometry`,
   * the one direct call on a foil that follows a signal.
   */
  datatype Event =
    | XDirect
    | AFoil
    | Miarex
    | XInverse
    | Update
    | FoilGeom(foil: Objects2d.Foil?, name: string, camber: real, xCamber: real, thickness: real, xThickness: real)
    | SelectFoil(foil: Objects2d.Foil?)
    | NormalizeFoil
    | DerotateFoil
    | NormalizeGeometry(target: Objects2d.Foil)

  /** The signals `setApp` emits for an application number: one per application, none otherwise. */
  function AppEvents(app: int): seq<Event>
  {
    if app == NOAPP then []
    else if app == XFOILANALYSIS then [XDirect]
    else if app == DIRECTDESIGN then [AFoil]
    else if app == MIAREX then [Miarex]
    else if app == INVERSEDESIGN then [XInverse]
    else []
  }

  /** `setApp` emits at most one signal, and one exactly for the four applications proper. */
  lemma AppDispatch(app: int)
    ensures |AppEvents(app)| <= 1
    ensures |AppEvents(app)| == 1 <==> XFOILANALYSIS <= app <= MIAREX
    ensures AppEvents(app) == [] <==> app == NOAPP || app < NOAPP || app > MIAREX
  {
  }

  /** Different applications raise different signals. */
  lemma AppDispatchInjective(a: int, b: int)
    requires AppEvents(a) == AppEvents(b) != []
    ensures a == b
  {
  }

  /** The `(x, y)` pairs of the first `n` points; none when `n` is not positive. */
  function CoordsOf(xs: seq<real>, ys: seq<real>, n: int): (v: seq<Coord>)
    requires n <= |xs| && n <= |ys|
    ensures |v| == (if n < 0 then 0 else n)
    ensures forall i | 0 <= i < |v| :: v[i] == Coord(xs[i], ys[i])
  {
    if n <= 0 then [] else CoordsOf(xs, ys, n - 1) + [Coord(xs[n - 1], ys[n - 1])]
  }

  /** The abscissas of a coordinate vector. */
  function Xs(v: seq<Coord>): (r: seq<real>)
    ensures |r| == |v| && forall i | 0 <= i < |v| :: r[i] == v[i].x
  {
    seq(|v|, i requires 0 <= i < |v| => v[i].x)
  }

  /** The ordinates of a coordinate vector. */
  function Ys(v: seq<Coord>): (r: seq<real>)
    ensures |r| == |v| && forall i | 0 <= i < |v| :: r[i] == v[i].y
  {
    seq(|v|, i requires 0 <= i < |v| => v[i].y)
  }

  /** An array's contents after its leading cells are written with `prefix`. */
  function Overwrite(cells: seq<real>, prefix: seq<real>): (r: seq<real>)
    requires |prefix| <= |cells|
    ensures |r| == |cells|
    ensures forall i | 0 <= i < |prefix| :: r[i] == prefix[i]
    ensures forall i | |prefix| <= i < |cells| :: r[i] == cells[i]
  {
    prefix + cells[|prefix|..]
  }

  /**
   * Reading back after `setFoilCoords`: the first `n` points are the written
   * coordinates while `n` stays within them, and beyond them the points
   * that were there before.
   */
  lemma CoordsAfterSet(xs: seq<real>, ys: seq<real>, v: seq<Coord>, n: int)
    requires |v| <= |xs| && |xs| == |ys| && n <= |xs|
    ensures CoordsOf(Overwrite(xs, Xs(v)), Overwrite(ys, Ys(v)), n)
            == if n <= 0 then [] else if n <= |v| then v[..n] else v + CoordsOf(xs, ys, n)[|v|..]
  {
    var got := CoordsOf(Overwrite(xs, Xs(v)), Overwrite(ys, Ys(v)), n);
    if 0 < n <= |v| {
      assert got == v[..n];
    } else if n > |v| {
      assert got == v + CoordsOf(xs, ys, n)[|v|..];
    }
  }

  /** When the point count equals the number of coordinates written, `getFoilCoords` returns exactly them. */
  lemma SetThenGetCoords(xs: seq<real>, ys: seq<real>, v: seq<Coord>)
    requires |v| <= |xs| && |xs| == |ys|
    ensures CoordsOf(Overwrite(xs, Xs(v)), Overwrite(ys, Ys(v)), |v|) == v
  {
    CoordsAfterSet(xs, ys, v, |v|);
    assert v[..|v|] == v;
  }

  /** The value a `setGeom` argument leaves in a geometry parameter: the argument unless it is zero. */
  function NonZero(current: real, arg: real): real
  {
    if arg != 0.0 then arg else current
  }

  /** The client's instance dict holds the server foil's four geometry parameters. */
  predicate GeomAgrees(d: map<string, Value>, camber: real, camberX: real, thickness: real, thicknessX: real)
  {
    && "camber" in d && d["camber"] == Float(camber)
    && "camber_x" in d && d["camber_x"] == Float(camberX)
    && "thickness" in d && d["thickness"] == Float(thickness)
    && "thickness_x" in d && d["thickness_x"] == Float(thicknessX)
  }

  /**
   * The client's `Foil.setGeom` and the server's `setGeom` apply the same
   * non-zero rule to the same arguments, so a client foil that agreed with
   * the server foil before the call agrees with it after.
   */
  lemma SetGeomKeepsAgreement(d: map<string, Value>, camber: real, camberX: real, thickness: real, thicknessX: real,
                              argCamber: real, argCamberX: real, argThickness: real, argThicknessX: real)
    requires GeomAgrees(d, camber, camberX, thickness, thicknessX)
    ensures GeomAgrees(Foils.WithGeom(d, argCamber, argCamberX, argThickness, argThicknessX),
                       NonZero(camber, argCamber), NonZero(camberX, argCamberX),
                       NonZero(thickness, argThickness), NonZero(thicknessX, argThicknessX))
  {
    Foils.WithGeomAttrs(d, argCamber, argCamberX, argThickness, argThicknessX);
  }

  /** `FoilAdapter()`: `name` is an empty `std::string`; the numeric members are left as `junk` holds them. */
  function DefaultAdapter(junk: FoilAdapter): (a: FoilAdapter)
    ensures a.name == ""
    ensures a.camber == junk.camber && a.camberX == junk.camberX
    ensures a.thickness == junk.thickness && a.thicknessX == junk.thicknessX && a.n == junk.n
  {
    junk.(name := "")
  }

  /**
   * `getFoil(name)`: the empty name asks for the current foil (`current`),
   * answered with the default adapter when there is none; any other name
   * asks for the foil `named` the registry finds under it.
   */
  function GetFoil(name: string, current: Objects2d.Foil?, named: Objects2d.Foil?, junk: FoilAdapter): (a: FoilAdapter)
    requires name != "" ==> named != null && named.name == name
    reads current, named
    ensures name != "" ==> a.name == name && a == FromFoil(named)
    ensures name == "" && current != null ==> a == FromFoil(current)
    ensures name == "" && current == null ==> a.name == ""
  {
    if name == "" then
      if current != null then FromFoil(current) else DefaultAdapter(junk)
    else
      FromFoil(named)
  }

  /**
   * The Python `getFoil()` with its default name sends "", and the server
   * answers with the current foil; the client then finds that the reply's
   * name is not "" and exits. A current foil is never handed out.
   */
  lemma CurrentFoilRefused(current: Objects2d.Foil, junk: FoilAdapter)
    requires current.name != ""
    ensures Foils.GetFoilSpec(Str(""), Lift(EncodeFoil(GetFoil("", current, null, junk)))) == Failure(SystemExit)
  {
    FoilWire(GetFoil("", current, null, junk));
  }

  /** A foil requested by its name passes the client's check as written and reaches it field for field. */
  lemma NamedFoilReachesClient(name: string, current: Objects2d.Foil?, named: Objects2d.Foil, junk: FoilAdapter)
    requires name != "" && named.name == name
    ensures Foils.GetFoilSpec(Str(name), Lift(EncodeFoil(GetFoil(name, current, named, junk))))
            == Success(map["_client" := Handle] + FoilEntries(FromFoil(named)))
  {
    var a := GetFoil(name, current, named, junk);
    FoilWire(a);
    FoilAdapterDecodes(a);
  }

  /**
   * With no current foil, the empty name is answered by the default adapter,
   * which the client as written accepts: a foil with an empty name and
   * whatever numbers the adapter holds.
   */
  lemma NoCurrentFoilGivesDefault(junk: FoilAdapter)
    ensures Foils.GetFoilSpec(Str(""), Lift(EncodeFoil(GetFoil("", null, null, junk))))
            == Success(map["_client" := Handle] + FoilEntries(junk.(name := "")))
  {
    var a := GetFoil("", null, null, junk);
    FoilWire(a);
    FoilAdapterDecodes(a);
  }

  /**
   * With the check that evidently was meant, the foil the server picks,
   * current or named, reaches the client whole.
   */
  lemma GetFoilIntendedDelivers(name: string, current: Objects2d.Foil?, named: Objects2d.Foil?, junk: FoilAdapter)
    requires name != "" ==> named != null && named.name == name
    ensures var a := GetFoil(name, current, named, junk);
            Foils.GetFoilIntended(Str(name), Lift(EncodeFoil(a))) == Success(map["_client" := Handle] + FoilEntries(a))
  {
    var a := GetFoil(name, current, named, junk);
    FoilWire(a);
    FoilAdapterDecodes(a);
  }

  /** The foil the most recent `SelectFoil` in a log picked, if any: the one AFoil operations apply to. */
  function Selected(log: seq<Event>): Option<Objects2d.Foil?>
  {
    if log == [] then None
    else if log[|log| - 1].SelectFoil? then Some(log[|log| - 1].foil)
    else Selected(log[..|log| - 1])
  }

  /** An operation signal does not change which foil is selected. */
  lemma OperationKeepsSelection(log: seq<Event>, op: Event)
    requires !op.SelectFoil?
    ensures Selected(log + [op]) == Selected(log)
  {
    assert (log + [op])[..|log|] == log;
  }

  /** After `normalizeFoil` or `derotateFoil`, the operation applies to the foil named in the request. */
  lemma OperationTargetsRequested(log: seq<Event>, foil: Objects2d.Foil?, op: Event)
    requires op == NormalizeFoil || op == DerotateFoil
    ensures Selected(log + [SelectFoil(foil), op]) == Some(foil)
  {
    assert log + [SelectFoil(foil), op] == (log + [SelectFoil(foil)]) + [op];
    OperationKeepsSelection(log + [SelectFoil(foil)], op);
  }

  class Server {
    /** Every signal emitted so far, oldest first. */
    var emitted: seq<Event>

    constructor ()
      ensures emitted == []
    {
      emitted := [];
    }

    /** `setApp`: switch the main frame to an application. */
    method SetApp(app: int)
      modifies this
      ensures emitted == old(emitted) + AppEvents(app)
    {
      if app == NOAPP {
        return;
      } else if app == XFOILANALYSIS {
        emitted := emitted + [XDirect];
      } else if app == DIRECTDESIGN {
        emitted := emitted + [AFoil];
      } else if app == MIAREX {
        emitted := emitted + [Miarex];
      } else if app == INVERSEDESIGN {
        emitted := emitted + [XInverse];
      }
    }

    /**
     * `getFoilCoords` on the foil the name finds: the first `m_n` points,
     * in index order. The point count is within the array capacity IBX.
     */
    method GetFoilCoords(f: Objects2d.Foil) returns (v: seq<Coord>)
      requires f.Valid() && f.n <= f.Capacity()
      ensures |v| == (if f.n < 0 then 0 else f.n)
      ensures forall i | 0 <= i < |v| :: v[i] == Coord(f.x[i], f.y[i])
      ensures v == CoordsOf(f.x[..], f.y[..], f.n)
    {
      v := [];
      var i := 0;
      while i < f.n
        invariant 0 <= i <= (if f.n < 0 then 0 else f.n)
        invariant v == CoordsOf(f.x[..], f.y[..], i)
      {
        v := v + [Coord(f.x[i], f.y[i])];
        i := i + 1;
      }
    }

    /**
     * `setFoilCoords` on the foil the name finds: the base and current
     * arrays take the coordinates cell by cell; later cells, the point
     * count and the rest of the foil are untouched. The source does not
     * check the vector against the capacity IBX; the model requires it.
     */
    method SetFoilCoords(f: Objects2d.Foil, v: seq<Coord>)
      requires f.Valid() && |v| <= f.Capacity()
      modifies this, f.x, f.y, f.xb, f.yb
      ensures f.xb[..] == Overwrite(old(f.xb[..]), Xs(v)) && f.x[..] == Overwrite(old(f.x[..]), Xs(v))
      ensures f.yb[..] == Overwrite(old(f.yb[..]), Ys(v)) && f.y[..] == Overwrite(old(f.y[..]), Ys(v))
      ensures emitted == old(emitted) + [Update]
    {
      var i := 0;
      while i < |v|
        invariant 0 <= i <= |v|
        invariant forall j | 0 <= j < i :: f.x[j] == v[j].x && f.xb[j] == v[j].x
        invariant forall j | 0 <= j < i :: f.y[j] == v[j].y && f.yb[j] == v[j].y
        invariant forall j | i <= j < f.x.Length :: f.x[j] == old(f.x[j]) && f.xb[j] == old(f.xb[j])
        invariant forall j | i <= j < f.y.Length :: f.y[j] == old(f.y[j]) && f.yb[j] == old(f.yb[j])
        invariant emitted == old(emitted)
      {
        f.xb[i] := v[i].x;
        f.yb[i] := v[i].y;
        f.x[i] := v[i].x;
        f.y[i] := v[i].y;
        i := i + 1;
      }
      assert f.x[..] == Overwrite(old(f.x[..]), Xs(v));
      assert f.xb[..] == Overwrite(old(f.xb[..]), Xs(v));
      assert f.y[..] == Overwrite(old(f.y[..]), Ys(v));
      assert f.yb[..] == Overwrite(old(f.yb[..]), Ys(v));
      emitted := emitted + [Update];
    }

    /**
     * `setGeom` on the foil the name finds: each parameter takes its
     * argument only when that is non-zero; then the geometry signal, which
     * carries the geometry so assigned, then the foil's own
     * `normalizeGeometry`. Neither the slot nor the normalization is taken
     * to change the foil.
     */
    method SetGeom(f: Objects2d.Foil, name: string, camber: real, camberX: real, thickness: real, thicknessX: real)
      modifies this, f
      ensures f.camber == NonZero(old(f.camber), camber) && f.xCamber == NonZero(old(f.xCamber), camberX)
      ensures f.thickness == NonZero(old(f.thickness), thickness)
      ensures f.xThickness == NonZero(old(f.xThickness), thicknessX)
      ensures f.name == old(f.name) && f.n == old(f.n)
      ensures emitted == old(emitted) +
                [FoilGeom(f, name, NonZero(old(f.camber), camber), NonZero(old(f.xCamber), camberX),
                          NonZero(old(f.thickness), thickness), NonZero(old(f.xThickness), thicknessX)),
                 NormalizeGeometry(f)]
    {
      if camber != 0.0 {
        f.camber := camber;
      }
      if camberX != 0.0 {
        f.xCamber := camberX;
      }
      if thickness != 0.0 {
        f.thickness := thickness;
      }
      if thicknessX != 0.0 {
        f.xThickness := thicknessX;
      }
      emitted := emitted + [FoilGeom(f, name, f.camber, f.xCamber, f.thickness, f.xThickness)];
      emitted := emitted + [NormalizeGeometry(f)];
    }

    /** `normalizeFoil`: select the foil the name finds, then normalize the selected foil. */
    method NormalizeFoilHandler(f: Objects2d.Foil?)
      modifies this
      ensures emitted == old(emitted) + [SelectFoil(f), NormalizeFoil]
      ensures Selected(emitted) == Some(f)
    {
      emitted := emitted + [SelectFoil(f)];
      emitted := emitted + [NormalizeFoil];
      OperationTargetsRequested(old(emitted), f, NormalizeFoil);
    }

    /** `derotateFoil`: select the foil the name finds, then derotate the selected foil. */
    method DerotateFoilHandler(f: Objects2d.Foil?)
      modifies this
      ensures emitted == old(emitted) + [SelectFoil(f), DerotateFoil]
      ensures Selected(emitted) == Some(f)
    {
      emitted := emitted + [SelectFoil(f)];
      emitted := emitted + [DerotateFoil];
      OperationTargetsRequested(old(emitted), f, DerotateFoil);
    }
  }
}
