# xflrpy marshaling and the xflServer foil handlers, in Dafny

xflrpy is a Python client that drives the xflr5 aerodynamics program over
msgpack-rpc. This project models the two ends of that link.

- **The client's marshaling layer** (`types.py`). The server sends replies as
  untyped msgpack maps. `MsgpackMixin.from_msgpack` turns them back into typed
  objects. It builds a fresh template instance, copies plain values verbatim
  and decodes nested dicts as the class of the template's attribute. The
  model also covers:
  - `to_msgpack`;
  - the IntEnum coercions;
  - the class constructors and their defaults;
  - the `Foil` methods;
  - `FoilManager.getFoil`, `foilDict` and `loadFoils`;
  - `Afoil.createNACAFoil`, `getLineStyle` and `setLineStyle`;
  - the assertions in `PlaneManager`.
- **The server's handlers** (`xflserver.cpp`) and its wire records
  (`RpcLibAdapters.h`):
  - `getFoilCoords` and `setFoilCoords`, which copy between a foil's
    fixed-capacity coordinate arrays and a vector of `Coord` pairs;
  - `setGeom`, which updates only non-zero geometry;
  - the `setApp` dispatch;
  - `getFoil`, current or named;
  - `normalizeFoil` and `derotateFoil`, which select the foil first.

  Qt signals are recorded in the server's event log.

Module layout:

| file | module | models |
|---|---|---|
| `wrappers.dfy` | `Wrappers` | `Option` and `Result`. |
| `values.dfy` | `Values` | Python values and msgpack wire values. The transport's packer and unpacker appear as `Pack` and `Lift`. |
| `enums.dfy` | `Enums` | The IntEnum classes: `kind(v)` and `.value`. |
| `classes.dfy` | `Classes` | Class attributes, `__init__` dicts, attribute lookup, and the mutable object `PyObject`. |
| `msgpack.dfy` | `Msgpack` | `from_msgpack`. `Decode` specifies it and the `FromMsgpack` method follows the source. Also its properties and the wire round trip. |
| `pystr.dfy` | `PyStr` | `str(int)` and its inverse. |
| `rpc.dfy` | `Rpc` | The rpc client as a call log, and dict subscripting. |
| `foils.dfy` | `Foils` | `Foil`, `FoilManager` and `Afoil`. |
| `planes.dfy` | `Planes` | `PlaneManager`. |
| `objects2d.dfy` | `Objects2d` | The server's `Foil`: geometry fields and four coordinate arrays. |
| `rpclibadapters.dfy` | `RpcLibAdapters` | `StateAdapter`, `FoilAdapter` and `Coord`, their encodings, and what the client decodes from them. |
| `xflserver.dfy` | `XflServer` | The server handlers and the event log. |

The code adds keys the template lacks: every non-dict value received is stored,
whether or not the class declares it. The model follows the code.

## Model

| member | source | states |
|---|---|---|
| Values.PackLift | PythonClient/xflrpy/types.py:12-23 | Unpacking a wire value and packing it again gives the same wire value, so the client loses no wire data. |
| Values.LiftPackPlain | PythonClient/xflrpy/types.py:12-23 | Plain data (no objects, dicts, enum classes or client) packs. Unpacked again, it equals the original with IntEnum members flattened to their integers. |
| Enums.CoerceInt | PythonClient/xflrpy/types.py:33-58 | `kind(i)` succeeds exactly for 0 <= i < number of members and gives the member with value i. Any other int raises ValueError. |
| Enums.LineStyleEnumRanges | PythonClient/xflrpy/types.py:33-58 | `enumPointStyle` accepts exactly 0..14 and `enumLineStipple` accepts exactly 0..5. |
| Enums.CoerceYieldsMember | PythonClient/xflrpy/types.py:33-58 | Coercion returns only members of the requested enum. It succeeds exactly when the argument's value (int, bool, integral float or member) is in range. |
| Enums.ValueOfCoerce | PythonClient/xflrpy/types.py:392-398 | `.value` then `kind(...)` gives back the same member. |
| Enums.CoerceValueOf | PythonClient/xflrpy/types.py:388-398 | `kind(i)` then `.value` gives back i for every valid i. |
| Enums.Coerce | PythonClient/xflrpy/types.py:33-58 | `kind(v)` for an IntEnum class. Definition; constrained by `Enums.CoerceInt`, `Enums.CoerceYieldsMember` and `Enums.ValueOfCoerce`. |
| Enums.ValueOf | PythonClient/xflrpy/types.py:395-398 | `v.value`. Definition; constrained by `Enums.CoerceValueOf` and `Enums.ValueOfCoerce`. |
| Classes.PyObject.LineStyle | PythonClient/xflrpy/types.py:68-74 | `LineStyle(...)` stores each argument under its field, with the source's defaults. |
| Classes.PyObject.Foil | PythonClient/xflrpy/types.py:85-86 | `Foil(client)` stores only `_client`. |
| Classes.PyObject.PolarSpec | PythonClient/xflrpy/types.py:283-292 | `PolarSpec(...)` stores its nine fields with the source's defaults. Parameter `re_type` lands in field `Re_type`. |
| Classes.PyObject.Polar | PythonClient/xflrpy/types.py:320-324 | `Polar(name, foil_name)` holds a fresh default PolarSpec and an empty PolarResult. |
| Classes.PyObject.WingSection | PythonClient/xflrpy/types.py:455-466 | `WingSection(...)` stores its eleven fields with the source's defaults. |
| Classes.PyObject.Wing | PythonClient/xflrpy/types.py:472-477 | `Wing(type, sections)` turns `sections=None` into a fresh empty list and keeps any other value. |
| Classes.PyObject.Plane | PythonClient/xflrpy/types.py:486-491 | `Plane(name)` holds four fresh wings: MAINWING, SECONDWING, ELEVATOR and FIN. |
| Classes.NestedDefaultsConstructible | PythonClient/xflrpy/types.py:15-23 | Every object a template holds is a PolarSpec, PolarResult or Wing, and each of those classes can be built with no argument. So a nested `from_msgpack` never fails on its constructor. |
| Classes.Construct | PythonClient/xflrpy/types.py:60-491 | The instance dict of `cls(client)` or `cls()` for each class, with `Foil` requiring its client. Definition; its meaning is proved by `Msgpack.DecodeThroughTemplate`, `Msgpack.FoilNeedsClient` and `Classes.NestedDefaultsConstructible`. |
| Classes.ClassAttrs | PythonClient/xflrpy/types.py:60-491 | The class-level data attributes of each class. Definition; constrained by `RpcLibAdapters.FoilAdapterCoversFoil`, `RpcLibAdapters.StateAdapterCoversState` and `Msgpack.OpPointHoldsOnlyReceivedFields`. |
| Classes.Attr | PythonClient/xflrpy/types.py:21 | `getattr`: the instance dict first, then the class. Definition; constrained by `Foils.WithGeomAttrs`, `Msgpack.DecodeShapeNested` and `Msgpack.UnknownKey`. |
| Classes.PyObject.ToMsgpack | PythonClient/xflrpy/types.py:12-13 | `to_msgpack` returns the instance dict. Its round trip with `from_msgpack` is `Msgpack.ToMsgpackRoundTrip`. |
| Msgpack.FromMsgpack | PythonClient/xflrpy/types.py:15-23 | `from_msgpack` as written returns a fresh object of the class whose dict is `Decode`'s result. It fails exactly when `Decode` fails, with the same exception. |
| Msgpack.Decode | PythonClient/xflrpy/types.py:15-23 | The reference definition of `from_msgpack`. Its meaning is proved by `Msgpack.DecodeShape`, `Msgpack.DecodeFailure` and the round-trip lemmas. |
| Msgpack.DecodeInto | PythonClient/xflrpy/types.py:20-23 | The update of the template by the decoded items. Definition; constrained by the `Msgpack.DecodeShape*` lemmas, `Msgpack.DecodeFailureWitness` and `Msgpack.RefusedFieldFails`. |
| Msgpack.DecodeField | PythonClient/xflrpy/types.py:21 | One item of the comprehension. Definition; constrained by `Msgpack.DecodeFieldFails`. |
| Msgpack.DecodeEntries | PythonClient/xflrpy/types.py:21 | The comprehension's loop succeeds exactly when every item decodes, and then yields the decoded value of every encoded key. |
| Msgpack.DecodeThroughTemplate | PythonClient/xflrpy/types.py:16-19 | The template `cls(client)` or `cls()` is built first. Its TypeError wins; otherwise decoding proceeds against that template. |
| Msgpack.DecodeShape | PythonClient/xflrpy/types.py:21 | A successful decode has the template's keys plus the encoded keys. Template fields not sent stay as they were. Non-dicts, unknown keys included, are stored verbatim. A dict is decoded, without a client, as the class of the template's attribute. |
| Msgpack.DecodeShapeKeys | PythonClient/xflrpy/types.py:16-21 | A successful decode holds the template's keys plus the encoded keys, and no others. |
| Msgpack.DecodeShapeKept | PythonClient/xflrpy/types.py:16-21 | A template field the encoding leaves out keeps the template's value. |
| Msgpack.DecodeShapeVerbatim | PythonClient/xflrpy/types.py:21 | An encoded value that is not a dict is stored as received, under a known or an unknown name. |
| Msgpack.DecodeShapeNested | PythonClient/xflrpy/types.py:21 | An encoded dict is decoded, without a client, as the class of the object the template holds under that name. |
| Msgpack.DecodeFieldFails | PythonClient/xflrpy/types.py:21 | One field fails exactly when it is a dict and its attribute is missing, is not an object, or cannot decode it. |
| Msgpack.DecodeFailureWitness | PythonClient/xflrpy/types.py:21 | A failed decode of a dict always has a refused field: a dict whose attribute cannot decode it. |
| Msgpack.RefusedFieldFails | PythonClient/xflrpy/types.py:21 | One refused field makes the whole decode raise AttributeError. |
| Msgpack.DecodeFailure | PythonClient/xflrpy/types.py:21 | A non-dict encoding fails. A dict fails exactly when some nested dict sits under a key whose attribute is missing, is not an object, or does not decode. The error is always AttributeError. |
| Msgpack.UnknownKey | PythonClient/xflrpy/types.py:21 | Under a name the class lacks, a dict is refused and any other value is added. |
| Msgpack.DecodeOwnFields | PythonClient/xflrpy/types.py:12-23 | An instance dict that covers the template and holds no plain dict decodes to itself. |
| Msgpack.ToMsgpackRoundTrip | PythonClient/xflrpy/types.py:12-23 | `cls.from_msgpack(o.to_msgpack())` reproduces `o`'s fields when `o` holds every template field and no plain dict. |
| Msgpack.LineStyleRoundTrip | PythonClient/xflrpy/types.py:60-74 | Every LineStyle built by `__init__` round-trips through `to_msgpack` and `from_msgpack`. |
| Msgpack.PolarSpecRoundTrip | PythonClient/xflrpy/types.py:272-292 | Every PolarSpec built by `__init__` round-trips. |
| Msgpack.WingSectionRoundTrip | PythonClient/xflrpy/types.py:442-466 | Every WingSection built by `__init__` round-trips. |
| Msgpack.NestedPolarSpec | PythonClient/xflrpy/types.py:314-324 | A spec received under `Polar.spec` becomes a PolarSpec: the defaults, overwritten by the received fields. |
| Msgpack.NestedWingKeepsRawSections | PythonClient/xflrpy/types.py:468-491 | A wing received under `Plane.wing` becomes a Wing, but its sections stay plain dicts rather than WingSections. |
| Msgpack.OpPointHoldsOnlyReceivedFields | PythonClient/xflrpy/types.py:255-270 | An OpPoint decodes to exactly the received fields. A field not sent reads as the class default. |
| Msgpack.FoilNeedsClient | PythonClient/xflrpy/types.py:77-86 | Decoding a Foil without a client raises TypeError. With a client, the result holds `_client`. |
| Msgpack.FieldRoundTrip | PythonClient/xflrpy/types.py:12-23 | A conforming field, packed, unpacked and decoded against the template, comes back with its enum members flattened. |
| Msgpack.WireRoundTrip | PythonClient/xflrpy/types.py:12-23 | An object of conforming shape, packed by the transport and decoded as its class, comes back field for field with nested objects rebuilt. |
| Msgpack.PolarConforms | PythonClient/xflrpy/types.py:314-324 | A Polar built by `__init__` conforms, so it survives the wire. |
| PyStr.NatToString | PythonClient/xflrpy/types.py:381 | `str(n)` for n >= 0 is a non-empty string of digits with no leading zero. |
| PyStr.ParseNatToString | PythonClient/xflrpy/types.py:381 | Parsing `str(n)` gives back n. |
| PyStr.IntToStringRoundTrip | PythonClient/xflrpy/types.py:381 | `int(str(n)) == n` for every int, negative ones included. |
| PyStr.IntToStringInjective | PythonClient/xflrpy/types.py:381 | Different integers get different default NACA names. |
| Rpc.RpcClient.Call | PythonClient/xflrpy/types.py:140 | A call appends the method name and arguments to the log and returns the unpacked reply. |
| Foils.WithGeomAttrs | PythonClient/xflrpy/types.py:96-105 | After the local half of `setGeom`, each geometry attribute is its argument when that is non-zero and unchanged otherwise. Every other attribute is untouched. |
| Foils.WithGeom | PythonClient/xflrpy/types.py:96-105 | The local half of `setGeom`. Definition; constrained by `Foils.WithGeomAttrs` and `XflServer.SetGeomKeepsAgreement`. |
| Foils.SetGeom | PythonClient/xflrpy/types.py:96-107 | `Foil.setGeom` updates the dict by the non-zero rule, then sends the name and all four arguments as given. |
| Foils.Rename | PythonClient/xflrpy/types.py:119-121 | `rename` assigns the name first, so it sends the new name twice; the old name never reaches the server. |
| Foils.Coords | PythonClient/xflrpy/types.py:88-90 | The `coords` getter sends `getFoilCoords` with the foil's name and returns the reply unpacked. |
| Foils.SetCoords | PythonClient/xflrpy/types.py:92-94 | The `coords` setter sends the list and stores nothing locally. |
| Foils.Duplicate | PythonClient/xflrpy/types.py:109-114 | `duplicate` sends the name and the new name, and decodes the reply as a Foil holding the same client. |
| Foils.Forward | PythonClient/xflrpy/types.py:116-130 | `delete`, `normalize` and `derotate` each send one call naming the foil. |
| Foils.GetFoilReturnsRequested | PythonClient/xflrpy/types.py:139-145 | A foil that `getFoil` hands out carries the requested name and its client. |
| Foils.GetFoilRejectsOtherName | PythonClient/xflrpy/types.py:139-145 | A reply whose name differs from the request ends in `exit(0)` (SystemExit). |
| Foils.GetFoilSpec | PythonClient/xflrpy/types.py:139-145 | The check and decode of `getFoil`. Definition; constrained by `Foils.GetFoilReturnsRequested`, `Foils.GetFoilRejectsOtherName` and `XflServer.CurrentFoilRefused`. |
| Foils.GetFoil | PythonClient/xflrpy/types.py:139-145 | `getFoil` sends one call and succeeds exactly when the check-then-decode succeeds, returning a fresh Foil with that dict. |
| Foils.FoilEntry | PythonClient/xflrpy/types.py:152 | One item of the `foilDict` comprehension: on success its key is `item["name"]`, a hashable value, and its foil is the item decoded as `Foil(client)`. Definition; constrained by `Foils.FoilEntryKeyedByName`. |
| Foils.FoilDictOf | PythonClient/xflrpy/types.py:150-152 | The comprehension over a list of items, left to right. Definition; constrained by `Foils.FoilDictFirstFailure`, `Foils.FoilDictKeys` and `Foils.FoilDictLastWins`. |
| Foils.FoilEntryKeyedByName | PythonClient/xflrpy/types.py:152 | An item that `FoilEntry` accepts gives a foil whose own `name` is the key it is filed under, and which holds its client. |
| Foils.FoilDictFirstFailure | PythonClient/xflrpy/types.py:150-152 | The first item that raises decides the outcome of the whole comprehension. |
| Foils.FoilDictKeys | PythonClient/xflrpy/types.py:150-152 | On success every item decoded, and the dict's keys are exactly the items' names. |
| Foils.FoilDictLastWins | PythonClient/xflrpy/types.py:150-152 | Under each name, the dict holds the foil decoded from the last item with that name. |
| Foils.FoilDictKeyedByName | PythonClient/xflrpy/types.py:150-152 | Every foil in the dict `foilDict` builds is filed under its own name. |
| Foils.FoilDictSpec | PythonClient/xflrpy/types.py:150-152 | The `foilDict` comprehension on any reply. Definition; constrained by `Foils.FoilDictFirstFailure`, `Foils.FoilDictKeys`, `Foils.FoilDictLastWins` and `Foils.FoilDictKeyedByName`. |
| Foils.FoilDict | PythonClient/xflrpy/types.py:150-152 | `foilDict` sends one call, then gives the keys and fresh Foils of the comprehension over the reply, or its error. |
| Foils.DecodeFoilList | PythonClient/xflrpy/types.py:152 | The loop over a list reply agrees with the comprehension on success, error, keys and each decoded foil. |
| Foils.LoadFoilsNeverCalls | PythonClient/xflrpy/types.py:154-160 | For every argument, `loadFoils` either raises or returns without calling the server. |
| Foils.LoadFoilsSends | PythonClient/xflrpy/types.py:154-160 | What `loadFoils` as written sends. Definition; constrained by `Foils.LoadFoilsNeverCalls`. |
| Foils.LoadFoils | PythonClient/xflrpy/types.py:154-160 | `loadFoils` calls the server only when the check lets the paths through. |
| Foils.LoadFoilsIntended | PythonClient/xflrpy/types.py:154-160 | The corrected `loadFoils` check: it succeeds exactly for a string or a list argument. Definition; constrained by `Foils.LoadFoilsIntendedSendsDat` and `Foils.LoadFoilsIntendedList`. |
| Foils.LoadFoilsIntendedSendsDat | PythonClient/xflrpy/types.py:154-160 | With the suffix test applied to the path, a `.dat` path is sent wrapped in a list and any other path is refused. |
| Foils.LoadFoilsIntendedList | PythonClient/xflrpy/types.py:154-160 | With the suffix test applied to the paths, a list is sent exactly when every path names a `.dat` file. |
| Foils.GetFoilIntended | PythonClient/xflrpy/types.py:139-145 | The corrected `getFoil` check: for a non-empty name it is `Foils.GetFoilSpec`; for the empty name it decodes any dict reply that has a name. Definition; constrained by `Foils.GetFoilIntendedHandsOut`. |
| Foils.GetFoilIntendedHandsOut | PythonClient/xflrpy/types.py:139-145 | With the intended check, a foil handed out comes from a dict reply, holds its client and carries the name the server reported. For a non-empty request that name is the requested one. |
| Foils.NacaNameSpellsDigits | PythonClient/xflrpy/types.py:379-383 | The default name is "NACA" followed by text that parses back to exactly the digits; a given name is kept. |
| Foils.NacaName | PythonClient/xflrpy/types.py:379-383 | The name `createNACAFoil` sends. Definition; constrained by `Foils.NacaNameSpellsDigits`. |
| Foils.CreateNACAFoil | PythonClient/xflrpy/types.py:379-383 | `createNACAFoil` sends the digits and the given or default name. |
| Foils.ReadLineStyleInts | PythonClient/xflrpy/types.py:388-393 | A line style with integer point_style p and stipple s is accepted exactly when 0 <= p <= 14 and 0 <= s <= 5. It then holds the matching members. Every rejection, of either field, is ValueError. |
| Foils.ReadLineStyle | PythonClient/xflrpy/types.py:388-393 | `getLineStyle` on the reply. Definition; constrained by `Foils.ReadLineStyleInts` and `Foils.GetThenSetLineStyle`. |
| Foils.GetLineStyle | PythonClient/xflrpy/types.py:388-393 | `getLineStyle` sends one call and returns a fresh LineStyle with the coerced dict, or the error. |
| Foils.WriteLineStyleFields | PythonClient/xflrpy/types.py:395-398 | `setLineStyle` changes at most `stipple` and `point_style`. On success both attributes existed, and each field now holds the `.value` of the member it held. |
| Foils.WriteLineStyle | PythonClient/xflrpy/types.py:395-398 | The local half of `setLineStyle`. Definition; constrained by `Foils.WriteLineStyleFields` and `Foils.GetThenSetLineStyle`. |
| Foils.GetThenSetLineStyle | PythonClient/xflrpy/types.py:388-398 | A line style fetched by `getLineStyle` and passed to `setLineStyle` is sent back exactly as it was decoded. |
| Foils.SetLineStyle | PythonClient/xflrpy/types.py:395-398 | `setLineStyle` converts in place, raises where `.value` is missing, and sends the dict only on success. |
| Planes.CheckedPlaneNamed | PythonClient/xflrpy/types.py:499-513 | A plane handed out by name carries that name and the four wing slots. |
| Planes.CheckedPlaneRejectsOtherName | PythonClient/xflrpy/types.py:499-513 | A reply naming another plane fails the assertion. |
| Planes.CheckedPlane | PythonClient/xflrpy/types.py:499-513 | The name check and decode of `getPlane` and `addDefaultPlane`. Definition; constrained by `Planes.CheckedPlaneNamed` and `Planes.CheckedPlaneRejectsOtherName`. |
| Planes.SectionCount | PythonClient/xflrpy/types.py:506 | `len(plane.wing.sections)`. Definition; constrained by `Planes.DefaultPlaneRefused` and `Planes.PlaneWithSectionsAccepted`. |
| Planes.FetchPlane | PythonClient/xflrpy/types.py:499-513 | The shared body of `getPlane` and `addDefaultPlane`: one call, then a fresh Plane exactly when `Planes.CheckedPlane` succeeds on the reply, or its error. |
| Planes.GetPlane | PythonClient/xflrpy/types.py:499-503 | `getPlane` checks the reply's name, then decodes a Plane without a client. |
| Planes.AddDefaultPlane | PythonClient/xflrpy/types.py:509-513 | `addDefaultPlane` makes the same check and decode on its reply. |
| Planes.AddPlaneCheck | PythonClient/xflrpy/types.py:506 | The `addPlane` assert passes exactly when the main wing's section count is positive; with a count, a failure is AssertionError. Definition; constrained by `Planes.DefaultPlaneRefused` and `Planes.PlaneWithSectionsAccepted`. |
| Planes.DefaultPlaneRefused | PythonClient/xflrpy/types.py:486-507 | A fresh `Plane(name)` has no sections, so the check `Planes.AddPlaneCheck` refuses it with AssertionError. |
| Planes.PlaneWithSectionsAccepted | PythonClient/xflrpy/types.py:479-507 | Giving the main wing any non-empty section list is enough for `addPlane`. |
| Planes.AddPlane | PythonClient/xflrpy/types.py:505-507 | `addPlane` returns the check's verdict and sends the plane only when the check passes. |
| RpcLibAdapters.MakeState | xflr5v6/xflserver/RpcLibAdapters.h:15-22 | The `StateAdapter` constructor: each member holds its argument, and `display` defaults to true. Definition; constrained by `RpcLibAdapters.StateReachesClient` and `RpcLibAdapters.MakeStateDisplayDefault`. |
| RpcLibAdapters.StateReachesClient | xflr5v6/xflserver/RpcLibAdapters.h:7-22 | A state built by the `StateAdapter` constructor reaches the client with every argument under its member's name. |
| RpcLibAdapters.MakeStateDisplayDefault | xflr5v6/xflserver/RpcLibAdapters.h:15 | Without a `display` argument the state reports `display` true. |
| RpcLibAdapters.EncodeState | xflr5v6/xflserver/RpcLibAdapters.h:13 | The wire map of a `StateAdapter`. Definition; constrained by `RpcLibAdapters.StateWire` and `RpcLibAdapters.StateAdapterDecodes`. |
| RpcLibAdapters.FoilWire | xflr5v6/xflserver/RpcLibAdapters.h:34 | A foil adapter unpacks to a dict of its six members, none of them a dict. |
| RpcLibAdapters.EncodeFoil | xflr5v6/xflserver/RpcLibAdapters.h:34 | The wire map of a `FoilAdapter`. Definition; constrained by `RpcLibAdapters.FoilWire` and `RpcLibAdapters.FoilAdapterDecodes`. |
| RpcLibAdapters.FoilAdapterDecodes | xflr5v6/xflserver/RpcLibAdapters.h:25-34 | A foil adapter decodes on the client as `Foil(client)` updated with all six members. |
| RpcLibAdapters.FoilAdapterCoversFoil | xflr5v6/xflserver/RpcLibAdapters.h:26-34 | The six map keys are exactly the data attributes of the Python `Foil`. |
| RpcLibAdapters.FromFoil | xflr5v6/xflserver/RpcLibAdapters.h:37-44 | `FoilAdapter(Foil&)` copies the foil's name, four geometry values and point count one for one. Definition; constrained by `RpcLibAdapters.ServerFoilReachesClient`. |
| RpcLibAdapters.ServerFoilReachesClient | xflr5v6/xflserver/RpcLibAdapters.h:34-44 | A server foil copied by `FoilAdapter(Foil&)` (`RpcLibAdapters.FromFoil`) reaches the client field for field. |
| RpcLibAdapters.StateWire | xflr5v6/xflserver/RpcLibAdapters.h:13 | A state adapter unpacks to a dict of its five members. |
| RpcLibAdapters.StateAdapterDecodes | xflr5v6/xflserver/RpcLibAdapters.h:7-13 | A state adapter decodes as a State that holds exactly its five members. |
| RpcLibAdapters.StateAdapterCoversState | xflr5v6/xflserver/RpcLibAdapters.h:7-13 | The five keys are the attributes of the Python `State`. `app` arrives as an int where the class holds the enum class. |
| RpcLibAdapters.CoordsArriveAsLists | xflr5v6/xflserver/RpcLibAdapters.h:47-50 | A coordinate vector arrives as a list of two-element lists `[x, y]`, which `from_msgpack` stores verbatim under any key. |
| RpcLibAdapters.EncodeCoord | xflr5v6/xflserver/RpcLibAdapters.h:47-50 | The wire array of a `Coord`. Definition; constrained by `RpcLibAdapters.CoordsArriveAsLists`. |
| RpcLibAdapters.EncodeCoords | xflr5v6/xflserver/RpcLibAdapters.h:47-50 | The wire array of a `vector<Coord>`. Definition; constrained by `RpcLibAdapters.CoordsArriveAsLists`. |
| XflServer.AppDispatch | xflr5v6/xflserver/xflserver.cpp:77-93 | `setApp` emits at most one signal. It emits exactly one for each of the four applications, and none for NOAPP or any other number. |
| XflServer.AppDispatchInjective | xflr5v6/xflserver/xflserver.cpp:77-93 | Different applications raise different signals. |
| XflServer.AppEvents | xflr5v6/xflserver/xflserver.cpp:77-93 | The signals `setApp` emits for each application number. Definition; constrained by `XflServer.AppDispatch` and `XflServer.AppDispatchInjective`. |
| XflServer.Server.SetApp | xflr5v6/xflserver/xflserver.cpp:77-93 | The log grows by the dispatch table's signals for `app`. |
| XflServer.CoordsOf | xflr5v6/xflserver/xflserver.cpp:144-154 | The coordinate list of a point count n has max(n, 0) entries, entry i being `(x[i], y[i])`. |
| XflServer.Server.GetFoilCoords | xflr5v6/xflserver/xflserver.cpp:144-154 | `getFoilCoords` returns exactly `m_n` pairs (none when `m_n` is not positive), in index order, pair i being `(m_x[i], m_y[i])`. |
| XflServer.Server.SetFoilCoords | xflr5v6/xflserver/xflserver.cpp:156-169 | `setFoilCoords` writes `v[i].x` into `m_xb[i]` and `m_x[i]`, and `v[i].y` into `m_yb[i]` and `m_y[i]`, for i < \|v\|. Later cells and `m_n` are unchanged, and `onUpdate` is emitted. |
| XflServer.CoordsAfterSet | xflr5v6/xflserver/xflserver.cpp:144-169 | After a set, a read returns the written pairs while `m_n` <= \|v\|. Beyond them come the points that were there before. |
| XflServer.SetThenGetCoords | xflr5v6/xflserver/xflserver.cpp:144-169 | Reading back with `m_n` == \|v\| returns exactly the vector written. |
| XflServer.Server.SetGeom | xflr5v6/xflserver/xflserver.cpp:171-186 | Each geometry parameter takes its argument only when that is non-zero. The geometry signal carries the geometry so assigned, and the normalization signal follows it. The post-state of the fields rests on the assumption under "## Left out". |
| XflServer.SetGeomKeepsAgreement | xflr5v6/xflserver/xflserver.cpp:171-186 | The client's `Foil.setGeom` and the server's `setGeom` apply the same rule. A client foil that agreed with the server's geometry still agrees with the geometry the server assigns, before its signal and `normalizeGeometry` run. |
| XflServer.DefaultAdapter | xflr5v6/xflserver/RpcLibAdapters.h:36 | `FoilAdapter()`: the name is empty and the numeric members are whatever the uninitialised adapter holds. Definition; constrained by `XflServer.NoCurrentFoilGivesDefault`. |
| XflServer.GetFoil | xflr5v6/xflserver/xflserver.cpp:123-138 | `getFoil`: a non-empty name gives the named foil's adapter; the empty name gives the current foil's adapter, or `FoilAdapter()` when there is none. Definition; constrained by `XflServer.NoCurrentFoilGivesDefault`, `XflServer.NamedFoilReachesClient`, `XflServer.CurrentFoilRefused` and `XflServer.GetFoilIntendedDelivers`. |
| XflServer.NoCurrentFoilGivesDefault | xflr5v6/xflserver/xflserver.cpp:123-133 | With no current foil, the server answers the empty name with `FoilAdapter()`. The client as written accepts it: a foil with an empty name and whatever numbers the default adapter holds. |
| XflServer.NamedFoilReachesClient | xflr5v6/xflserver/xflserver.cpp:123-138 | A foil requested by its name passes the client's check as written and reaches the client field for field. |
| XflServer.CurrentFoilRefused | xflr5v6/xflserver/xflserver.cpp:123-133 | The Python `getFoil()` with its default name exits whenever the current foil has a name. |
| XflServer.GetFoilIntendedDelivers | xflr5v6/xflserver/xflserver.cpp:123-138 | Under the intended client check, the foil the server picks, current or named, reaches the client whole. |
| XflServer.OperationKeepsSelection | xflr5v6/xflserver/xflserver.cpp:212-222 | A signal other than a selection leaves the selected foil unchanged. |
| XflServer.OperationTargetsRequested | xflr5v6/xflserver/xflserver.cpp:212-222 | After a select followed by normalize or derotate, the selected foil is the one requested. |
| XflServer.Server.NormalizeFoilHandler | xflr5v6/xflserver/xflserver.cpp:212-216 | `normalizeFoil` emits the select signal and then the normalize signal, so normalization applies to the requested foil. |
| XflServer.Server.DerotateFoilHandler | xflr5v6/xflserver/xflserver.cpp:218-222 | `derotateFoil` emits the select signal and then the derotate signal, so derotation applies to the requested foil. |

## Left out

- The transport. The msgpack-rpc library's packer and unpacker are stated as `Values.Pack` and `Values.Lift`; they are an assumption, not code in this model. Sockets, threading and the server lifecycle (`run`, `stop`, `close_sessions`) are left out.
- Server replies are parameters of the client methods. Each call only logs its name and arguments.
- Qt wiring is left out. Signal-slot connections are recorded as an event log. What the AFoil and MainFrame slots do with a signal, and the effect of `Foil::normalizeGeometry`, are not modelled.
- The registry lookups `Objects2d::foil(name)` and `Objects2d::curFoil()` are passed to the handlers. A name that finds no foil is not modelled: the source dereferences the null pointer.
- C++ doubles and Python floats are modelled as reals. Rounding and NaN are not modelled.
- IBX, the arrays' capacity, is defined in an xflr5 header outside the modelled files. It is modelled as the arrays' length.
- The numeric values of `xfl::enumApp` come from the Python `enumApp` (0 to 4), because the C++ header is not part of this model.
- XflServer.Server.SetFoilCoords: it requires |v| <= IBX, because the source writes past the arrays for a longer vector and its behaviour is then undefined.
- XflServer.Server.GetFoilCoords: it requires `m_n` <= IBX, the invariant a server foil keeps. The foil code that maintains it is not part of this model.
- Foils methods: `Foils.SetGeom`, `Rename`, `Coords`, `SetCoords`, `Duplicate` and `Forward` require the foil to hold its client (`Rpc.HoldsClient`). A Foil without `_client` raises on `self._client`, and that is not modelled.
- Nested objects are value snapshots. The sharing of class-level defaults between instances (the `spec = PolarSpec()` attributes, the `color = []` default) and aliasing between objects are not modelled.
- Python's `==` treats `1`, `1.0` and `True` as equal and NaN as unequal to itself; the model compares values structurally. This affects the dict keys of `foilDict` and the name checks of `Foils.GetFoilSpec` and `Planes.CheckedPlane`.
- Planes.CheckedPlane: the `PlaneManager` checks are Python `assert` statements, which `python -O` removes. The model always raises AssertionError; the same holds for `Planes.AddPlaneCheck`.
- XflServer.Server.SetGeom: the slot of `onFoilGeom` and `Foil::normalizeGeometry` are treated as having no effect on the foil. The ensures about the geometry fields, the name, `m_n` and the coordinate arrays after the call rest on that assumption. The `FoilGeom` event records the geometry as assigned, before either runs.
- XflServer.GetFoil: for a non-empty name it requires the registry lookup `Objects2d::foil(name)` to return a foil carrying exactly that name. The lookup is not part of this model, and `XflServer.GetFoilIntendedDelivers` and `XflServer.NamedFoilReachesClient` rest on this assumption.
- Msgpack.DecodeFailure: every failure of a key is reported as AttributeError. This covers a missing attribute, a class without `from_msgpack`, and a nested failure, which the source reports with different messages.
- Rpc.Subscript: the error for subscripting a string or list with a string is TypeError, as in Python. Slicing is not modelled.
- `__repr__` is not modelled.
- The `coords` property is modelled as the explicit methods `Foils.Coords` and `Foils.SetCoords`.
- `Foil.normalize` is defined twice in the source; the later definition, identical to the first, is modelled.
- Classes not modelled: `QColor`, `AnalysisSettings2D`, `AnalysisSettings3D`, `WPolarSpec` and `WPolar`. Only their result classes appear, as class attributes.
- Client managers not modelled: `PolarManager`, `OpPointManager`, `XDirect`, `XInverse` and `Miarex`.
- Client methods not modelled: `FoilManager.foilExists`, `exportFoil`, `setCurFoil`, `Afoil.showFoil` and `PlaneManager.getPlaneData`. Each is one call with its arguments and no client-side logic.
- Server handlers that only forward to a slot, not modelled: `renameFoil`, `selectFoil`, `showFoil`, `exportFoil`, `deleteFoil` and `setCurPolar` look up a foil or polar by name and emit a signal with it and their other arguments; `createNACAFoil`, `loadProject`, `newProject` and `saveProject` emit a signal with their arguments. The slots are not part of this model.
- Server handlers that read application data and return an adapter, not modelled: `getLineStyle` returns a `LineStyleAdapter` of the named foil's style, `foilList` returns a `FoilAdapter` of every foil in `Objects2d::pOAFoil()` through `FoilVecFromQFoilQVec`, `getPolar` returns a `PolarAdapter` of the polar it looks up, and `getState` returns a `StateAdapter` of the main frame's project fields. The `LineStyleAdapter` and `PolarAdapter`, the registries and the main frame are not part of this model; the `StateAdapter` constructor is `RpcLibAdapters.MakeState`.
- `duplicateFoil` is not modelled: it emits `onDuplicateFoil` and returns a `FoilAdapter` of the new foil the slot returns. The slot is not part of this model; the adapter is `RpcLibAdapters.FromFoil`.
- `setLineStyle`, `defineAnalysis` and `analyzeCurPolar` are not modelled: the first two convert their argument with the adapter's `from_msgpack` before emitting, and `analyzeCurPolar` emits two signals and returns a `PolarResultAdapter` of the current polar. Those adapters are not part of this model.
- `setProjectPath` is not modelled: it calls `MainFrame::setProjectName` directly, outside this model.
- `ping` and `exit` are not modelled: `ping` returns true, and `exit` stops the server and emits `onClose`, both part of the left-out lifecycle.

## Findings

| source | as written | input that shows it | evidently intended | confidence | as-written member | corrected member |
|---|---|---|---|---|---|---|
| PythonClient/xflrpy/types.py:139-145 | `getFoil(name="")` compares the reply's name with `""`. The server answers `""` with the current foil, which has its own name. | There is a current foil named "NACA 0012". `getFoil()` receives it and exits. | The empty name should accept whichever foil the server reports as current. | not executed | XflServer.CurrentFoilRefused | Foils.GetFoilIntended |
| PythonClient/xflrpy/types.py:154-160 | After wrapping, `paths[-4:]` is a list, which never equals the string ".dat". | `loadFoils("a.dat")` prints an error and never calls the server. | Test each path for the `.dat` suffix. | not executed | Foils.LoadFoilsNeverCalls | Foils.LoadFoilsIntendedList |
