/**
 * The airfoil side of the client: `Foil`'s methods, `FoilManager` and the
 * AFoil application wrapper `Afoil`. Each method logs the remote calls it
 * makes on the client and takes the server's reply as a parameter.
 */
module Foils {
  import opened Wrappers
  import opened Values
  import opened Enums
  import opened Classes
  import opened Msgpack
  import opened Rpc
  import PyStr

  /** The four geometry fields `setGeom` may assign. */
  const GeomNames: set<string> := {"camber", "camber_x", "thickness", "thickness_x"}

  /** `self.name` of a Foil: its own field, else the class attribute `""`. */
  function FoilName(d: map<string, Value>): (r: Value)
    ensures r == Attr(ClassName.Foil, d, "name").value
  {
    if "name" in d then d["name"] else Str("")
  }

  /** The instance dict after the local half of `setGeom`: a geometry field is assigned only when its argument is non-zero. */
  function WithGeom(d: map<string, Value>, camber: real, camberX: real, thickness: real, thicknessX: real): map<string, Value>
  {
    var d1 := if camber != 0.0 then d["camber" := Float(camber)] else d;
    var d2 := if camberX != 0.0 then d1["camber_x" := Float(camberX)] else d1;
    var d3 := if thickness != 0.0 then d2["thickness" := Float(thickness)] else d2;
    if thicknessX != 0.0 then d3["thickness_x" := Float(thicknessX)] else d3
  }

  /**
   * What a Foil reads after `setGeom`: each geometry attribute is its argument
   * when that is non-zero and what it was otherwise; every other attribute
   * (`name`, `n`, the client) is untouched.
   */
  lemma WithGeomAttrs(d: map<string, Value>, camber: real, camberX: real, thickness: real, thicknessX: real)
    ensures var r := WithGeom(d, camber, camberX, thickness, thicknessX);
            && Attr(ClassName.Foil, r, "camber") == (if camber != 0.0 then Some(Float(camber)) else Attr(ClassName.Foil, d, "camber"))
            && Attr(ClassName.Foil, r, "camber_x") == (if camberX != 0.0 then Some(Float(camberX)) else Attr(ClassName.Foil, d, "camber_x"))
            && Attr(ClassName.Foil, r, "thickness") == (if thickness != 0.0 then Some(Float(thickness)) else Attr(ClassName.Foil, d, "thickness"))
            && Attr(ClassName.Foil, r, "thickness_x") == (if thicknessX != 0.0 then Some(Float(thicknessX)) else Attr(ClassName.Foil, d, "thickness_x"))
            && (forall k | k !in GeomNames :: Attr(ClassName.Foil, r, k) == Attr(ClassName.Foil, d, k))
            && r.Keys <= d.Keys + GeomNames
  {
  }

  /** `Foil.setGeom`: the non-zero arguments are set locally, then all four are sent as given. */
  method SetGeom(foil: PyObject, client: RpcClient, camber: real, camberX: real, thickness: real, thicknessX: real,
                 reply: Wire)
    requires HoldsClient(foil)
    modifies foil, client
    ensures foil.cls == old(foil.cls)
    ensures foil.dict == WithGeom(old(foil.dict), camber, camberX, thickness, thicknessX)
    ensures client.log == old(client.log) +
              [Request("setGeom", [FoilName(old(foil.dict)), Float(camber), Float(camberX), Float(thickness), Float(thicknessX)])]
  {
    ghost var name0 := FoilName(foil.dict);
    ghost var geom := WithGeom(foil.dict, camber, camberX, thickness, thicknessX);
    if camber != 0.0 {
      foil.dict := foil.dict["camber" := Float(camber)];
    }
    if camberX != 0.0 {
      foil.dict := foil.dict["camber_x" := Float(camberX)];
    }
    if thickness != 0.0 {
      foil.dict := foil.dict["thickness" := Float(thickness)];
    }
    if thicknessX != 0.0 {
      foil.dict := foil.dict["thickness_x" := Float(thicknessX)];
    }
    assert foil.dict == geom;
    assert FoilName(foil.dict) == name0;
    var name := foil.GetAttr("name").value;
    var _ := client.Call("setGeom", [name, Float(camber), Float(camberX), Float(thickness), Float(thicknessX)], reply);
  }

  /**
   * `Foil.rename`: the local name is assigned before the call, so the
   * server is asked to rename the foil called `name` to `name`; the old name
   * is never sent.
   */
  method Rename(foil: PyObject, client: RpcClient, name: Value, reply: Wire)
    requires HoldsClient(foil)
    modifies foil, client
    ensures foil.cls == old(foil.cls) && foil.dict == old(foil.dict)["name" := name]
    ensures client.log == old(client.log) + [Request("renameFoil", [name, name])]
  {
    foil.dict := foil.dict["name" := name];
    var current := foil.GetAttr("name").value;
    var _ := client.Call("renameFoil", [current, name], reply);
  }

  /** The `coords` property getter: the server's coordinate list, fetched on every read. */
  method Coords(foil: PyObject, client: RpcClient, reply: Wire) returns (r: Value)
    requires HoldsClient(foil)
    modifies client
    ensures client.log == old(client.log) + [Request("getFoilCoords", [FoilName(foil.dict)])]
    ensures r == Lift(reply)
  {
    r := client.Call("getFoilCoords", [foil.GetAttr("name").value], reply);
  }

  /** The `coords` property setter: nothing is stored locally; the list is sent to the server. */
  method SetCoords(foil: PyObject, client: RpcClient, xy: Value, reply: Wire)
    requires HoldsClient(foil)
    modifies client
    ensures client.log == old(client.log) + [Request("setFoilCoords", [FoilName(foil.dict), xy])]
  {
    var _ := client.Call("setFoilCoords", [foil.GetAttr("name").value, xy], reply);
  }

  /** `Foil.duplicate`: the server's copy, decoded as a new Foil holding the same client. */
  method Duplicate(foil: PyObject, client: RpcClient, toName: Value, reply: Wire) returns (r: Result<PyObject, Error>)
    requires HoldsClient(foil)
    modifies client
    ensures client.log == old(client.log) + [Request("duplicateFoil", [FoilName(foil.dict), toName])]
    ensures r.Success? <==> Decode(ClassName.Foil, Lift(reply), true).Success?
    ensures r.Failure? ==> r.error == Decode(ClassName.Foil, Lift(reply), true).error
    ensures r.Success? ==> fresh(r.value) && r.value.cls == ClassName.Foil && r.value.dict == Decode(ClassName.Foil, Lift(reply), true).value
  {
    var raw := client.Call("duplicateFoil", [foil.GetAttr("name").value, toName], reply);
    r := FromMsgpack(ClassName.Foil, raw, true);
  }

  /** `Foil.delete`, `Foil.normalize` and `Foil.derotate`: one call naming the foil. */
  method Forward(foil: PyObject, client: RpcClient, name: string, reply: Wire)
    requires HoldsClient(foil) && name in {"deleteFoil", "normalizeFoil", "derotateFoil"}
    modifies client
    ensures client.log == old(client.log) + [Request(name, [FoilName(foil.dict)])]
  {
    var _ := client.Call(name, [foil.GetAttr("name").value], reply);
  }

  /**
   * `FoilManager.getFoil`: the reply's `name` must equal the requested name;
   * otherwise the client prints and exits (SystemExit). A reply that is not a
   * dict, or has no `name`, raises on the lookup.
   */
  function GetFoilSpec(name: Value, raw: Value): (r: Result<map<string, Value>, Error>)
  {
    match Subscript(raw, "name")
    case Failure(e) => Failure(e)
    case Success(got) => if got != name then Failure(SystemExit) else Decode(ClassName.Foil, raw, true)
  }

  /** A foil `getFoil` hands out carries the requested name and its client. */
  lemma GetFoilReturnsRequested(name: Value, raw: Value)
    requires GetFoilSpec(name, raw).Success?
    ensures "name" in GetFoilSpec(name, raw).value && GetFoilSpec(name, raw).value["name"] == name
    ensures "_client" in GetFoilSpec(name, raw).value
    ensures raw.Dict? && !name.Dict?
  {
    assert raw.Dict? && "name" in raw.entries && raw.entries["name"] == name;
    var entries := raw.entries;
    var template := map["_client" := Handle];
    assert GetFoilSpec(name, raw) == Decode(ClassName.Foil, raw, true);
    DecodeThroughTemplate(ClassName.Foil, raw, true);
    assert Attr(ClassName.Foil, template, "name") == Some(Str(""));
    DecodeShapeKeys(ClassName.Foil, template, entries);
    DecodeShapeVerbatim(ClassName.Foil, template, entries);
    DecodeShapeNested(ClassName.Foil, template, entries);
  }

  /** A reply whose name differs from the request never yields a foil. */
  lemma GetFoilRejectsOtherName(name: Value, entries: map<string, Value>)
    requires "name" in entries && entries["name"] != name
    ensures GetFoilSpec(name, Dict(entries)) == Failure(SystemExit)
  {
  }

  /**
   * `getFoil` as its default argument evidently intends it: the empty name
   * asks for the current foil, whatever that is called, so only a
   * non-empty name is compared with the reply's.
   */
  function GetFoilIntended(name: Value, raw: Value): (r: Result<map<string, Value>, Error>)
    ensures name != Str("") ==> r == GetFoilSpec(name, raw)
    ensures name == Str("") && raw.Dict? && "name" in raw.entries ==> r == Decode(ClassName.Foil, raw, true)
  {
    if name == Str("") then
      match Subscript(raw, "name")
      case Failure(e) => Failure(e)
      case Success(_) => Decode(ClassName.Foil, raw, true)
    else GetFoilSpec(name, raw)
  }

  /**
   * What the intended `getFoil` hands out: the foil the reply describes, with
   * its client, under the name the server reported; for a non-empty request
   * that name is the requested one.
   */
  lemma GetFoilIntendedHandsOut(name: Value, raw: Value)
    requires GetFoilIntended(name, raw).Success?
    ensures raw.Dict? && "name" in raw.entries
    ensures var foil := GetFoilIntended(name, raw).value;
            "_client" in foil && "name" in foil && foil["name"] == raw.entries["name"]
    ensures name != Str("") ==> raw.entries["name"] == name
  {
    var got := Subscript(raw, "name").value;
    assert GetFoilSpec(got, raw) == GetFoilIntended(name, raw);
    GetFoilReturnsRequested(got, raw);
  }

  method GetFoil(client: RpcClient, name: Value, reply: Wire) returns (r: Result<PyObject, Error>)
    modifies client
    ensures client.log == old(client.log) + [Request("getFoil", [name])]
    ensures r.Success? <==> GetFoilSpec(name, Lift(reply)).Success?
    ensures r.Failure? ==> r.error == GetFoilSpec(name, Lift(reply)).error
    ensures r.Success? ==> fresh(r.value) && r.value.cls == ClassName.Foil && r.value.dict == GetFoilSpec(name, Lift(reply)).value
  {
    var raw := client.Call("getFoil", [name], reply);
    var got := Subscript(raw, "name");
    if got.Failure? {
      return Failure(got.error);
    }
    if got.value != name {
      return Failure(SystemExit);
    }
    r := FromMsgpack(ClassName.Foil, raw, true);
  }

  /** One item of the `foilDict` comprehension: its key `item["name"]` and the decoded foil. */
  function FoilEntry(item: Value): (r: Result<(Value, map<string, Value>), Error>)
    ensures r.Success? ==> Subscript(item, "name") == Success(r.value.0) && Hashable(r.value.0)
    ensures r.Success? ==> Decode(ClassName.Foil, item, true) == Success(r.value.1)
  {
    match Subscript(item, "name")
    case Failure(e) => Failure(e)
    case Success(key) =>
      match Decode(ClassName.Foil, item, true)
      case Failure(e) => Failure(e)
      case Success(d) => if Hashable(key) then Success((key, d)) else Failure(TypeError)
  }

  /** An item's foil carries, as its own `name`, the key it is filed under. */
  lemma FoilEntryKeyedByName(item: Value)
    requires FoilEntry(item).Success?
    ensures var (key, foil) := FoilEntry(item).value;
            "name" in foil && foil["name"] == key && "_client" in foil
  {
    var key := FoilEntry(item).value.0;
    assert GetFoilSpec(key, item) == Success(FoilEntry(item).value.1);
    GetFoilReturnsRequested(key, item);
  }

  /** The `foilDict` comprehension over a list of items, left to right: the first failing item raises, a later key overwrites an earlier one. */
  function FoilDictOf(items: seq<Value>): (r: Result<map<Value, map<string, Value>>, Error>)
  {
    if items == [] then Success(map[])
    else match FoilDictOf(items[..|items| - 1])
      case Failure(e) => Failure(e)
      case Success(m) =>
        match FoilEntry(items[|items| - 1])
        case Failure(e) => Failure(e)
        case Success(entry) => Success(m[entry.0 := entry.1])
  }

  /**
   * `foilDict` on the reply: a list is iterated; an empty string or dict
   * gives an empty dict; a non-empty one yields strings, which refuse
   * `["name"]`; anything else is not iterable.
   */
  function FoilDictSpec(raw: Value): (r: Result<map<Value, map<string, Value>>, Error>)
  {
    match raw
    case List(items) => FoilDictOf(items)
    case Str(s) => if s == "" then Success(map[]) else Failure(TypeError)
    case Dict(entries) => if entries == map[] then Success(map[]) else Failure(TypeError)
    case _ => Failure(TypeError)
  }

  /** The first item that raises decides the outcome of the whole comprehension. */
  lemma {:induction false} FoilDictFirstFailure(items: seq<Value>, i: int)
    requires 0 <= i <= |items| && FoilDictOf(items[..i]).Failure?
    ensures FoilDictOf(items) == FoilDictOf(items[..i])
    decreases |items| - i
  {
    if i < |items| {
      assert items[..i + 1][..i] == items[..i];
      FoilDictFirstFailure(items, i + 1);
    } else {
      assert items[..i] == items;
    }
  }

  /** Every item's name is a key of the dict `foilDict` builds, and nothing else is. */
  lemma {:induction false} FoilDictKeys(items: seq<Value>)
    requires FoilDictOf(items).Success?
    ensures forall i | 0 <= i < |items| :: FoilEntry(items[i]).Success?
    ensures FoilDictOf(items).value.Keys == set i | 0 <= i < |items| :: FoilEntry(items[i]).value.0
  {
    if items != [] {
      var prefix := items[..|items| - 1];
      FoilDictKeys(prefix);
      assert forall i | 0 <= i < |prefix| :: items[i] == prefix[i];
    }
  }

  /** Under each name, `foilDict` holds the foil decoded from the last item with that name. */
  lemma {:induction false} FoilDictLastWins(items: seq<Value>, i: int)
    requires FoilDictOf(items).Success? && 0 <= i < |items|
    requires FoilEntry(items[i]).Success?
    requires forall j | i < j < |items| :: FoilEntry(items[j]).Success? && FoilEntry(items[j]).value.0 != FoilEntry(items[i]).value.0
    ensures FoilEntry(items[i]).value.0 in FoilDictOf(items).value
    ensures FoilDictOf(items).value[FoilEntry(items[i]).value.0] == Decode(ClassName.Foil, items[i], true).value
  {
    var prefix := items[..|items| - 1];
    if i < |items| - 1 {
      assert items[i] == prefix[i];
      forall j | i < j < |prefix|
        ensures FoilEntry(prefix[j]).Success? && FoilEntry(prefix[j]).value.0 != FoilEntry(prefix[i]).value.0
      {
        assert prefix[j] == items[j];
      }
      FoilDictLastWins(prefix, i);
    }
  }

  /** Every foil in the dict `foilDict` builds is filed under its own name. */
  lemma {:induction false} FoilDictKeyedByName(items: seq<Value>)
    requires FoilDictOf(items).Success?
    ensures forall k | k in FoilDictOf(items).value ::
              "name" in FoilDictOf(items).value[k] && FoilDictOf(items).value[k]["name"] == k
  {
    if items != [] {
      FoilDictKeyedByName(items[..|items| - 1]);
      FoilEntryKeyedByName(items[|items| - 1]);
    }
  }

  /** `FoilManager.foilDict`: one call, then the comprehension over the reply, each foil decoded with the client. */
  method FoilDict(client: RpcClient, reply: Wire) returns (r: Result<map<Value, PyObject>, Error>)
    modifies client
    ensures client.log == old(client.log) + [Request("foilList", [])]
    ensures r.Success? <==> FoilDictSpec(Lift(reply)).Success?
    ensures r.Failure? ==> r.error == FoilDictSpec(Lift(reply)).error
    ensures r.Success? ==> r.value.Keys == FoilDictSpec(Lift(reply)).value.Keys
    ensures r.Success? ==> forall k | k in r.value ::
              fresh(r.value[k]) && r.value[k].cls == ClassName.Foil && r.value[k].dict == FoilDictSpec(Lift(reply)).value[k]
  {
    var raw := client.Call("foilList", [], reply);
    if !raw.List? {
      if (raw.Str? && raw.s == "") || (raw.Dict? && raw.entries == map[]) {
        return Success(map[]);
      }
      return Failure(TypeError);
    }
    r := DecodeFoilList(raw.items);
  }

  /** The `foilDict` comprehension over a list reply. */
  method DecodeFoilList(items: seq<Value>) returns (r: Result<map<Value, PyObject>, Error>)
    ensures r.Success? <==> FoilDictOf(items).Success?
    ensures r.Failure? ==> r.error == FoilDictOf(items).error
    ensures r.Success? ==> r.value.Keys == FoilDictOf(items).value.Keys
    ensures r.Success? ==> forall k | k in r.value ::
              fresh(r.value[k]) && r.value[k].cls == ClassName.Foil && r.value[k].dict == FoilDictOf(items).value[k]
  {
    var foils: map<Value, PyObject> := map[];
    var i := 0;
    while i < |items|
      invariant 0 <= i <= |items|
      invariant FoilDictOf(items[..i]).Success?
      invariant foils.Keys == FoilDictOf(items[..i]).value.Keys
      invariant forall k | k in foils ::
                  fresh(foils[k]) && foils[k].cls == ClassName.Foil && foils[k].dict == FoilDictOf(items[..i]).value[k]
    {
      assert items[..i + 1][..i] == items[..i];
      var key := Subscript(items[i], "name");
      if key.Failure? {
        FoilDictFirstFailure(items, i + 1);
        return Failure(key.error);
      }
      var foil := FromMsgpack(ClassName.Foil, items[i], true);
      if foil.Failure? {
        FoilDictFirstFailure(items, i + 1);
        return Failure(foil.error);
      }
      if !Hashable(key.value) {
        FoilDictFirstFailure(items, i + 1);
        return Failure(TypeError);
      }
      foils := foils[key.value := foil.value];
      i := i + 1;
    }
    assert items[..i] == items;
    return Success(foils);
  }

  /**
   * What `loadFoils` sends: a string path is wrapped in a list, then the
   * list's last four elements are compared with the string ".dat". A list
   * never equals a string, so the client always prints and returns; None
   * stands for "no call made".
   */
  function LoadFoilsSends(paths: Value): (r: Result<Option<Value>, Error>)
  {
    var wrapped := if paths.Str? then List([paths]) else paths;
    match wrapped
    case List(items) =>
      var tail := List(if |items| <= 4 then items else items[|items| - 4..]);
      if tail != Str(".dat") then Success(None) else Success(Some(wrapped))
    case _ => Failure(TypeError)
  }

  /** The `loadFoils` call is unreachable: for every argument the client either raises or sends nothing. */
  lemma LoadFoilsNeverCalls(paths: Value)
    ensures LoadFoilsSends(paths).Success? <==> paths.Str? || paths.List?
    ensures LoadFoilsSends(paths).Success? ==> LoadFoilsSends(paths).value.None?
  {
  }

  /** Whether a path names a `.dat` file. */
  predicate IsDatPath(v: Value)
  {
    v.Str? && |v.s| >= 4 && v.s[|v.s| - 4..] == ".dat"
  }

  /** Whether every path of a list names a `.dat` file. */
  predicate AllDatPaths(items: seq<Value>)
  {
    forall i | 0 <= i < |items| :: IsDatPath(items[i])
  }

  /**
   * `loadFoils` as evidently intended: the suffix test applies to the
   * paths, not to the list holding them, and the list is sent when every
   * path names a `.dat` file.
   */
  function LoadFoilsIntended(paths: Value): (r: Result<Option<Value>, Error>)
    ensures r.Success? <==> paths.Str? || paths.List?
  {
    var wrapped := if paths.Str? then List([paths]) else paths;
    match wrapped
    case List(items) =>
      if AllDatPaths(items) then Success(Some(wrapped)) else Success(None)
    case _ => Failure(TypeError)
  }

  /** With the intended test a single `.dat` path is sent, wrapped in a list, and any other file is refused. */
  lemma LoadFoilsIntendedSendsDat(path: string)
    ensures |path| >= 4 && path[|path| - 4..] == ".dat" ==> LoadFoilsIntended(Str(path)) == Success(Some(List([Str(path)])))
    ensures !(|path| >= 4 && path[|path| - 4..] == ".dat") ==> LoadFoilsIntended(Str(path)) == Success(None)
  {
    var items := [Str(path)];
    assert items[0] == Str(path);
    assert AllDatPaths(items) <==> IsDatPath(Str(path));
    LoadFoilsIntendedList(items);
  }

  /** With the intended test a list of paths is sent exactly when every one of them names a `.dat` file. */
  lemma LoadFoilsIntendedList(items: seq<Value>)
    ensures LoadFoilsIntended(List(items)).Success?
    ensures LoadFoilsIntended(List(items)).value.Some? <==> forall i | 0 <= i < |items| :: IsDatPath(items[i])
    ensures LoadFoilsIntended(List(items)).value.Some? ==> LoadFoilsIntended(List(items)).value.value == List(items)
  {
    assert AllDatPaths(items) <==> forall i | 0 <= i < |items| :: IsDatPath(items[i]);
  }

  /** `FoilManager.loadFoils`: makes the call only when `LoadFoilsSends` has something to send. */
  method LoadFoils(client: RpcClient, paths: Value, reply: Wire) returns (r: Result<Value, Error>)
    modifies client
    ensures r.Success? <==> LoadFoilsSends(paths).Success?
    ensures r.Failure? ==> r.error == LoadFoilsSends(paths).error
    ensures client.log == old(client.log) +
              (if LoadFoilsSends(paths).Success? && LoadFoilsSends(paths).value.Some?
               then [Request("loadFoils", [LoadFoilsSends(paths).value.value])] else [])
  {
    var sends := LoadFoilsSends(paths);
    if sends.Failure? {
      return Failure(sends.error);
    }
    if sends.value.Some? {
      var _ := client.Call("loadFoils", [sends.value.value], reply);
    }
    return Success(Nil);
  }

  /** The name `createNACAFoil` sends: the given name, or "NACA" followed by `str(digits)` when none is given. */
  function NacaName(digits: int, name: Value): Value
  {
    if name == Nil then Str("NACA" + PyStr.IntToString(digits)) else name
  }

  /** The default NACA name spells out exactly the requested digits, and a given name is kept. */
  lemma NacaNameSpellsDigits(digits: int, name: Value)
    ensures name != Nil ==> NacaName(digits, name) == name
    ensures name == Nil ==> NacaName(digits, name).Str? && |NacaName(digits, name).s| > 4 &&
                            NacaName(digits, name).s[..4] == "NACA" &&
                            PyStr.ParseInt(NacaName(digits, name).s[4..]) == Some(digits)
  {
    if name == Nil {
      var s := NacaName(digits, name).s;
      assert s[4..] == PyStr.IntToString(digits);
      PyStr.IntToStringRoundTrip(digits);
    }
  }

  method CreateNACAFoil(client: RpcClient, digits: int, name: Value, reply: Wire)
    modifies client
    ensures client.log == old(client.log) + [Request("createNACAFoil", [Int(digits), NacaName(digits, name)])]
  {
    var sent := name;
    if name == Nil {
      sent := Str("NACA" + PyStr.IntToString(digits));
    }
    var _ := client.Call("createNACAFoil", [Int(digits), sent], reply);
  }

  /**
   * `Afoil.getLineStyle` on the reply: decode a LineStyle, then coerce
   * `point_style` and then `stipple` to their enums (ValueError for a
   * non-member; AttributeError if the attribute is missing).
   */
  function ReadLineStyle(raw: Value): (r: Result<map<string, Value>, Error>)
  {
    match Decode(ClassName.LineStyle, raw, false)
    case Failure(e) => Failure(e)
    case Success(d) =>
      match Attr(ClassName.LineStyle, d, "point_style")
      case None => Failure(AttributeError)
      case Some(ps) =>
        match Coerce(PointStyle, ps)
        case Failure(e) => Failure(e)
        case Success(pointStyle) =>
          var d1 := d["point_style" := pointStyle];
          match Attr(ClassName.LineStyle, d1, "stipple")
          case None => Failure(AttributeError)
          case Some(st) =>
            match Coerce(LineStipple, st)
            case Failure(e) => Failure(e)
            case Success(stipple) => Success(d1["stipple" := stipple])
  }

  /**
   * A line style received with integer `point_style` p and `stipple` s is
   * accepted exactly when p is in 0..14 and s in 0..5, and then holds the
   * matching enum members, every other field as received.
   */
  lemma ReadLineStyleInts(entries: map<string, Value>, p: int, s: int)
    requires forall k | k in entries :: !entries[k].Dict?
    requires "point_style" in entries && entries["point_style"] == Int(p)
    requires "stipple" in entries && entries["stipple"] == Int(s)
    ensures ReadLineStyle(Dict(entries)).Success? <==> 0 <= p <= 14 && 0 <= s <= 5
    ensures !(0 <= p <= 14) ==> ReadLineStyle(Dict(entries)) == Failure(ValueError)
    ensures ReadLineStyle(Dict(entries)).Failure? ==> ReadLineStyle(Dict(entries)).error == ValueError
    ensures ReadLineStyle(Dict(entries)).Success? ==>
              ReadLineStyle(Dict(entries)).value ==
              Decode(ClassName.LineStyle, Dict(entries), false).value["point_style" := Enum(PointStyle, p)]["stipple" := Enum(LineStipple, s)]
  {
    DecodeThroughTemplate(ClassName.LineStyle, Dict(entries), false);
    DecodePlainEntries(ClassName.LineStyle, Construct(ClassName.LineStyle, false).value, entries);
    LineStyleEnumRanges(p);
    LineStyleEnumRanges(s);
    CoerceInt(PointStyle, p);
    CoerceInt(LineStipple, s);
  }

  method GetLineStyle(client: RpcClient, name: Value, reply: Wire) returns (r: Result<PyObject, Error>)
    modifies client
    ensures client.log == old(client.log) + [Request("getLineStyle", [name])]
    ensures r.Success? <==> ReadLineStyle(Lift(reply)).Success?
    ensures r.Failure? ==> r.error == ReadLineStyle(Lift(reply)).error
    ensures r.Success? ==> fresh(r.value) && r.value.cls == ClassName.LineStyle && r.value.dict == ReadLineStyle(Lift(reply)).value
  {
    var raw := client.Call("getLineStyle", [name], reply);
    var decoded := FromMsgpack(ClassName.LineStyle, raw, false);
    if decoded.Failure? {
      return Failure(decoded.error);
    }
    var lineStyle := decoded.value;
    var ps := lineStyle.GetAttr("point_style");
    if ps.None? {
      return Failure(AttributeError);
    }
    var pointStyle := Coerce(PointStyle, ps.value);
    if pointStyle.Failure? {
      return Failure(pointStyle.error);
    }
    lineStyle.dict := lineStyle.dict["point_style" := pointStyle.value];
    var st := lineStyle.GetAttr("stipple");
    if st.None? {
      return Failure(AttributeError);
    }
    var stipple := Coerce(LineStipple, st.value);
    if stipple.Failure? {
      return Failure(stipple.error);
    }
    lineStyle.dict := lineStyle.dict["stipple" := stipple.value];
    return Success(lineStyle);
  }

  /** The state of a line style after `setLineStyle`'s two assignments, and the exception that stopped it, if any. */
  datatype Outcome = Outcome(dict: map<string, Value>, error: Option<Error>)

  /**
   * `setLineStyle`'s local half on an object of class `c`: `stipple`, then
   * `point_style`, replaced by their `.value`. A failure on `point_style`
   * leaves `stipple` already converted.
   */
  function WriteLineStyle(c: ClassName, d: map<string, Value>): (r: Outcome)
  {
    match Attr(c, d, "stipple")
    case None => Outcome(d, Some(AttributeError))
    case Some(st) =>
      match ValueOf(st)
      case Failure(e) => Outcome(d, Some(e))
      case Success(stipple) =>
        var d1 := d["stipple" := stipple];
        match Attr(c, d1, "point_style")
        case None => Outcome(d1, Some(AttributeError))
        case Some(ps) =>
          match ValueOf(ps)
          case Failure(e) => Outcome(d1, Some(e))
          case Success(pointStyle) => Outcome(d1["point_style" := pointStyle], None)
  }

  /** `setLineStyle` touches at most `stipple` and `point_style`, and on success leaves each one's `.value` there. */
  lemma WriteLineStyleFields(c: ClassName, d: map<string, Value>)
    ensures forall k | k in d && k != "stipple" && k != "point_style" :: k in WriteLineStyle(c, d).dict && WriteLineStyle(c, d).dict[k] == d[k]
    ensures WriteLineStyle(c, d).dict.Keys <= d.Keys + {"stipple", "point_style"}
    ensures WriteLineStyle(c, d).error.None? ==>
              WriteLineStyle(c, d).dict["stipple"].Int? && WriteLineStyle(c, d).dict["point_style"].Int?
    ensures WriteLineStyle(c, d).error.None? ==>
              && Attr(c, d, "stipple").Some? && Attr(c, d, "point_style").Some?
              && Success(WriteLineStyle(c, d).dict["stipple"]) == ValueOf(Attr(c, d, "stipple").value)
              && Success(WriteLineStyle(c, d).dict["point_style"]) == ValueOf(Attr(c, d, "point_style").value)
  {
  }

  /**
   * Get then set: a line style fetched with integer fields, converted to
   * enums by `getLineStyle` and back by `setLineStyle`, is sent to the server
   * exactly as it was decoded.
   */
  lemma GetThenSetLineStyle(entries: map<string, Value>, p: int, s: int)
    requires forall k | k in entries :: !entries[k].Dict?
    requires "point_style" in entries && entries["point_style"] == Int(p)
    requires "stipple" in entries && entries["stipple"] == Int(s)
    requires ReadLineStyle(Dict(entries)).Success?
    ensures WriteLineStyle(ClassName.LineStyle, ReadLineStyle(Dict(entries)).value)
            == Outcome(Decode(ClassName.LineStyle, Dict(entries), false).value, None)
  {
    ReadLineStyleInts(entries, p, s);
    var d0 := Decode(ClassName.LineStyle, Dict(entries), false).value;
    DecodeThroughTemplate(ClassName.LineStyle, Dict(entries), false);
    DecodePlainEntries(ClassName.LineStyle, Construct(ClassName.LineStyle, false).value, entries);
    var d2 := d0["point_style" := Enum(PointStyle, p)]["stipple" := Enum(LineStipple, s)];
    assert d2["stipple" := Int(s)]["point_style" := Int(p)] == d0;
  }

  method SetLineStyle(client: RpcClient, name: Value, lineStyle: PyObject, reply: Wire) returns (r: Result<Value, Error>)
    modifies lineStyle, client
    ensures lineStyle.cls == old(lineStyle.cls)
    ensures lineStyle.dict == WriteLineStyle(old(lineStyle.cls), old(lineStyle.dict)).dict
    ensures r.Failure? <==> WriteLineStyle(old(lineStyle.cls), old(lineStyle.dict)).error.Some?
    ensures r.Failure? ==> r.error == WriteLineStyle(old(lineStyle.cls), old(lineStyle.dict)).error.value
    ensures client.log == old(client.log) +
              (if r.Success? then [Request("setLineStyle", [name, Dict(lineStyle.dict)])] else [])
  {
    var st := lineStyle.GetAttr("stipple");
    if st.None? {
      return Failure(AttributeError);
    }
    var stipple := ValueOf(st.value);
    if stipple.Failure? {
      return Failure(stipple.error);
    }
    lineStyle.dict := lineStyle.dict["stipple" := stipple.value];
    var ps := lineStyle.GetAttr("point_style");
    if ps.None? {
      return Failure(AttributeError);
    }
    var pointStyle := ValueOf(ps.value);
    if pointStyle.Failure? {
      return Failure(pointStyle.error);
    }
    lineStyle.dict := lineStyle.dict["point_style" := pointStyle.value];
    var _ := client.Call("setLineStyle", [name, Dict(lineStyle.ToMsgpack())], reply);
    return Success(Nil);
  }
}
