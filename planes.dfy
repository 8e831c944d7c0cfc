/**
 * `PlaneManager`: fetching planes by name (guarded by an assertion on the
 * reply's name) and sending a plane, guarded by an assertion on its main wing.
 */
module Planes {
  import opened Wrappers
  import opened Values
  import opened Classes
  import opened Msgpack
  import opened Rpc

  /**
   * `getPlane` and `addDefaultPlane` on the reply: the reply's `name` must
   * equal the requested name (AssertionError otherwise), then the reply is
   * decoded as a Plane with no client.
   */
  function CheckedPlane(name: Value, raw: Value): (r: Result<map<string, Value>, Error>)
  {
    match Subscript(raw, "name")
    case Failure(e) => Failure(e)
    case Success(got) => if got != name then Failure(AssertionError) else Decode(ClassName.Plane, raw, false)
  }

  /** A plane handed out by name carries that name and the four wing slots of the template. */
  lemma CheckedPlaneNamed(name: Value, raw: Value)
    requires CheckedPlane(name, raw).Success?
    ensures "name" in CheckedPlane(name, raw).value && CheckedPlane(name, raw).value["name"] == name
    ensures {"wing", "wing2", "elevator", "fin"} <= CheckedPlane(name, raw).value.Keys
  {
    var template := PlaneFields(Str("Plane Name"));
    assert raw.Dict? && "name" in raw.entries && raw.entries["name"] == name;
    assert CheckedPlane(name, raw) == Decode(ClassName.Plane, raw, false);
    DecodeThroughTemplate(ClassName.Plane, raw, false);
    PlaneTemplate();
    assert Attr(ClassName.Plane, template, "name") == Some(Str("Plane Name"));
    DecodeShape(ClassName.Plane, template, raw.entries);
  }

  /** A reply naming another plane is refused by the assertion. */
  lemma CheckedPlaneRejectsOtherName(name: Value, entries: map<string, Value>)
    requires "name" in entries && entries["name"] != name
    ensures CheckedPlane(name, Dict(entries)) == Failure(AssertionError)
  {
  }

  /** Fetches a plane by the remote call `call` ("getPlane" or "addDefaultPlane") and checks and decodes the reply. */
  method FetchPlane(client: RpcClient, call: string, name: Value, reply: Wire) returns (r: Result<PyObject, Error>)
    modifies client
    ensures client.log == old(client.log) + [Request(call, [name])]
    ensures r.Success? <==> CheckedPlane(name, Lift(reply)).Success?
    ensures r.Failure? ==> r.error == CheckedPlane(name, Lift(reply)).error
    ensures r.Success? ==> fresh(r.value) && r.value.cls == ClassName.Plane && r.value.dict == CheckedPlane(name, Lift(reply)).value
  {
    var raw := client.Call(call, [name], reply);
    var got := Subscript(raw, "name");
    if got.Failure? {
      return Failure(got.error);
    }
    if got.value != name {
      return Failure(AssertionError);
    }
    r := FromMsgpack(ClassName.Plane, raw, false);
  }

  /** `PlaneManager.getPlane`. */
  method GetPlane(client: RpcClient, name: Value, reply: Wire) returns (r: Result<PyObject, Error>)
    modifies client
    ensures client.log == old(client.log) + [Request("getPlane", [name])]
    ensures r.Success? <==> CheckedPlane(name, Lift(reply)).Success?
    ensures r.Failure? ==> r.error == CheckedPlane(name, Lift(reply)).error
    ensures r.Success? ==> fresh(r.value) && r.value.cls == ClassName.Plane && r.value.dict == CheckedPlane(name, Lift(reply)).value
  {
    r := FetchPlane(client, "getPlane", name, reply);
  }

  /** `PlaneManager.addDefaultPlane`: the same check and decode on the reply to "addDefaultPlane". */
  method AddDefaultPlane(client: RpcClient, name: Value, reply: Wire) returns (r: Result<PyObject, Error>)
    modifies client
    ensures client.log == old(client.log) + [Request("addDefaultPlane", [name])]
    ensures r.Success? <==> CheckedPlane(name, Lift(reply)).Success?
    ensures r.Failure? ==> r.error == CheckedPlane(name, Lift(reply)).error
    ensures r.Success? ==> fresh(r.value) && r.value.cls == ClassName.Plane && r.value.dict == CheckedPlane(name, Lift(reply)).value
  {
    r := FetchPlane(client, "addDefaultPlane", name, reply);
  }

  /** `len(v)` for the values `len` accepts: lists, dicts and strings; TypeError otherwise. */
  function Len(v: Value): (r: Result<int, Error>)
    ensures r.Success? ==> r.value >= 0
    ensures r.Success? <==> v.List? || v.Dict? || v.Str?
  {
    match v
    case List(items) => Success(|items|)
    case Dict(entries) => Success(|entries|)
    case Str(s) => Success(|s|)
    case _ => Failure(TypeError)
  }

  /**
   * `len(plane.wing.sections)` for a plane object of class `c` with
   * instance dict `d`: `wing` must be an object (a plain dict or list has no
   * attribute `sections`), and its `sections` a sized value.
   */
  function SectionCount(c: ClassName, d: map<string, Value>): (r: Result<int, Error>)
  {
    match Attr(c, d, "wing")
    case Some(Obj(wingClass, wingFields)) =>
      (match Attr(wingClass, wingFields, "sections")
       case Some(sections) => Len(sections)
       case None => Failure(AttributeError))
    case _ => Failure(AttributeError)
  }

  /** The check `addPlane` makes before sending: the main wing has at least one section. */
  function AddPlaneCheck(c: ClassName, d: map<string, Value>): (r: Result<Value, Error>)
    ensures r.Success? <==> SectionCount(c, d).Success? && SectionCount(c, d).value > 0
    ensures r.Failure? && SectionCount(c, d).Success? ==> r.error == AssertionError
  {
    match SectionCount(c, d)
    case Failure(e) => Failure(e)
    case Success(n) => if n > 0 then Success(Nil) else Failure(AssertionError)
  }

  /** A plane fresh from `Plane(name)` has empty wings, so `addPlane` refuses it. */
  lemma DefaultPlaneRefused(name: Value)
    ensures SectionCount(ClassName.Plane, PlaneFields(name)) == Success(0)
    ensures AddPlaneCheck(ClassName.Plane, PlaneFields(name)) == Failure(AssertionError)
  {
  }

  /** Giving the main wing of a `Plane(name)` a non-empty section list is enough for `addPlane`. */
  lemma PlaneWithSectionsAccepted(name: Value, sections: seq<Value>)
    requires |sections| > 0
    ensures var d := PlaneFields(name)["wing" := Obj(ClassName.Wing, WingFields(Enum(WingType, 0), List(sections)))];
            AddPlaneCheck(ClassName.Plane, d) == Success(Nil)
  {
  }

  /** `PlaneManager.addPlane`: the assertion, then the plane object itself as the argument. */
  method AddPlane(client: RpcClient, plane: PyObject, reply: Wire) returns (r: Result<Value, Error>)
    modifies client
    ensures r == AddPlaneCheck(plane.cls, plane.dict)
    ensures client.log == old(client.log) + (if r.Success? then [Request("addPlane", [Obj(plane.cls, plane.dict)])] else [])
  {
    var wing := plane.GetAttr("wing");
    if !(wing.Some? && wing.value.Obj?) {
      return Failure(AttributeError);
    }
    var sections := Attr(wing.value.cls, wing.value.fields, "sections");
    if sections.None? {
      return Failure(AttributeError);
    }
    var count := Len(sections.value);
    if count.Failure? {
      return Failure(count.error);
    }
    if count.value <= 0 {
      return Failure(AssertionError);
    }
    var _ := client.Call("addPlane", [Obj(plane.cls, plane.dict)], reply);
    return Success(Nil);
  }
}
