/**
 * `MsgpackMixin.from_msgpack`: rebuilding a typed object from an untyped
 * dict, using the default already present on a fresh template instance as the
 * type oracle for nested objects.
 */
module Msgpack {
  import opened Wrappers
  import opened Values
  import opened Classes

  /**
   * The instance dict `cls.from_msgpack(encoded, client)` returns (as a
   * value), or the exception it raises. The template is built first (so a
   * constructor TypeError comes first); `encoded.items()` then requires a
   * dict; every field is decoded against the template as it was before the
   * update, and the decoded fields are merged into the template's dict.
   */
  function Decode(c: ClassName, encoded: Value, withClient: bool): (r: Result<map<string, Value>, Error>)
    decreases encoded, 1
  {
    match Construct(c, withClient)
    case Failure(e) => Failure(e)
    case Success(template) => DecodeInto(c, template, encoded)
  }

  /** The part of `from_msgpack` after the template `template` of class `c` is built. */
  function DecodeInto(c: ClassName, template: map<string, Value>, encoded: Value): (r: Result<map<string, Value>, Error>)
    decreases encoded, 0
  {
    if !encoded.Dict? then Failure(AttributeError)
    else if forall k | k in encoded.entries :: DecodeField(c, template, k, encoded.entries[k]).Some? then
      Success(template + map k | k in encoded.entries :: DecodeField(c, template, k, encoded.entries[k]).value)
    else Failure(AttributeError)
  }

  /**
   * One entry of the comprehension: a non-dict is kept verbatim; a dict is
   * decoded by `from_msgpack` of the class of the template's attribute `k`,
   * with no client. A missing attribute, an attribute whose class has no
   * `from_msgpack`, or a failing nested decode yields None (AttributeError).
   */
  function DecodeField(c: ClassName, template: map<string, Value>, k: string, v: Value): (r: Option<Value>)
    decreases v, 2
  {
    if !v.Dict? then Some(v)
    else match Attr(c, template, k)
      case Some(Obj(nested, _)) =>
        (match Decode(nested, v, false)
         case Success(d) => Some(Obj(nested, d))
         case Failure(_) => None)
      case _ => None
  }

  /**
   * `from_msgpack` as the source runs it: a fresh template object, the
   * update dict built from the encoded items (recursing on nested dicts),
   * then `obj.__dict__.update(...)`.
   */
  method FromMsgpack(c: ClassName, encoded: Value, withClient: bool) returns (r: Result<PyObject, Error>)
    decreases encoded, 1
    ensures r.Success? <==> Decode(c, encoded, withClient).Success?
    ensures r.Failure? ==> r.error == Decode(c, encoded, withClient).error
    ensures r.Success? ==> fresh(r.value) && r.value.cls == c && r.value.dict == Decode(c, encoded, withClient).value
  {
    var template := Construct(c, withClient);
    DecodeThroughTemplate(c, encoded, withClient);
    if template.Failure? {
      return Failure(template.error);
    }
    var obj := new PyObject(c, template.value);
    if !encoded.Dict? {
      return Failure(AttributeError);
    }
    var updates := DecodeEntries(obj, encoded.entries);
    if updates.None? {
      return Failure(AttributeError);
    }
    obj.dict := obj.dict + updates.value;
    return Success(obj);
  }

  /**
   * The dict comprehension of `from_msgpack` over the items of `entries`,
   * looking nested classes up with `getattr` on the template object `obj`;
   * None when some item raises.
   */
  method DecodeEntries(obj: PyObject, entries: map<string, Value>) returns (r: Option<map<string, Value>>)
    decreases Dict(entries), 0
    ensures r.Some? <==> forall k | k in entries :: DecodeField(obj.cls, obj.dict, k, entries[k]).Some?
    ensures r.Some? ==> r.value == map k | k in entries :: DecodeField(obj.cls, obj.dict, k, entries[k]).value
  {
    var updates: map<string, Value> := map[];
    var todo := entries.Keys;
    while todo != {}
      invariant todo <= entries.Keys
      invariant updates.Keys == entries.Keys - todo
      invariant forall k | k in updates :: DecodeField(obj.cls, obj.dict, k, entries[k]) == Some(updates[k])
      decreases todo
    {
      var k :| k in todo;
      var v := entries[k];
      if v.Dict? {
        var attr := obj.GetAttr(k);
        if !(attr.Some? && attr.value.Obj?) {
          assert DecodeField(obj.cls, obj.dict, k, v).None?;
          return None;
        }
        var nested := FromMsgpack(attr.value.cls, v, false);
        if nested.Failure? {
          assert DecodeField(obj.cls, obj.dict, k, v).None?;
          return None;
        }
        updates := updates[k := Obj(nested.value.cls, nested.value.dict)];
      } else {
        updates := updates[k := v];
      }
      todo := todo - {k};
    }
    return Some(updates);
  }

  /** `dict.update` with a one-entry dict is a single assignment. */
  lemma UpdateWithSingleton(d: map<string, Value>, k: string, x: Value)
    ensures d + map[k := x] == d[k := x]
  {
  }

  /** `dict.update` with a dict that has every key of `d` replaces `d` wholesale. */
  lemma UpdateCovering(d: map<string, Value>, e: map<string, Value>)
    requires d.Keys <= e.Keys
    ensures d + e == e
  {
  }

  /** `from_msgpack` decodes through the template `cls(client)` or `cls()`, built afresh on every call. */
  lemma DecodeThroughTemplate(c: ClassName, encoded: Value, withClient: bool)
    ensures Construct(c, withClient).Failure? ==> Decode(c, encoded, withClient) == Failure(Construct(c, withClient).error)
    ensures Construct(c, withClient).Success? ==>
              Decode(c, encoded, withClient) == DecodeInto(c, Construct(c, withClient).value, encoded)
  {
  }

  /** When every encoded field decodes, the result is the template updated with the decoded fields. */
  lemma DecodeIntoAll(c: ClassName, template: map<string, Value>, entries: map<string, Value>, decoded: map<string, Value>)
    requires decoded.Keys == entries.Keys
    requires forall k | k in entries :: DecodeField(c, template, k, entries[k]) == Some(decoded[k])
    ensures DecodeInto(c, template, Dict(entries)) == Success(template + decoded)
  {
    assert (map k | k in entries :: DecodeField(c, template, k, entries[k]).value) == decoded;
  }

  /** Encoded fields holding no dict are copied verbatim over the template. */
  lemma DecodePlainEntries(c: ClassName, template: map<string, Value>, entries: map<string, Value>)
    requires forall k | k in entries :: !entries[k].Dict?
    ensures DecodeInto(c, template, Dict(entries)) == Success(template + entries)
  {
    DecodeIntoAll(c, template, entries, entries);
  }

  /** An encoding with a single field updates the template at that field alone. */
  lemma DecodeSingleEntry(c: ClassName, template: map<string, Value>, k: string, x: Value, decoded: Value)
    requires DecodeField(c, template, k, x) == Some(decoded)
    ensures DecodeInto(c, template, Dict(map[k := x])) == Success(template[k := decoded])
  {
    DecodeIntoAll(c, template, map[k := x], map[k := decoded]);
    UpdateWithSingleton(template, k, decoded);
  }

  /** A successful decode holds the template's fields and the encoded keys, and nothing else. */
  lemma DecodeShapeKeys(c: ClassName, template: map<string, Value>, entries: map<string, Value>)
    requires DecodeInto(c, template, Dict(entries)).Success?
    ensures DecodeInto(c, template, Dict(entries)).value.Keys == template.Keys + entries.Keys
  {
  }

  /** Template fields absent from the encoding are left as the template has them. */
  lemma DecodeShapeKept(c: ClassName, template: map<string, Value>, entries: map<string, Value>)
    requires DecodeInto(c, template, Dict(entries)).Success?
    ensures var d := DecodeInto(c, template, Dict(entries)).value;
            forall k | k in template && k !in entries :: k in d && d[k] == template[k]
  {
  }

  /** Encoded non-dicts are stored verbatim, under known and unknown names alike. */
  lemma DecodeShapeVerbatim(c: ClassName, template: map<string, Value>, entries: map<string, Value>)
    requires DecodeInto(c, template, Dict(entries)).Success?
    ensures var d := DecodeInto(c, template, Dict(entries)).value;
            forall k | k in entries && !entries[k].Dict? :: k in d && d[k] == entries[k]
  {
  }

  /** An encoded dict is decoded, without a client, as the class of the template's attribute. */
  lemma DecodeShapeNested(c: ClassName, template: map<string, Value>, entries: map<string, Value>)
    requires DecodeInto(c, template, Dict(entries)).Success?
    ensures var d := DecodeInto(c, template, Dict(entries)).value;
            forall k | k in entries && entries[k].Dict? ::
              Attr(c, template, k).Some? && Attr(c, template, k).value.Obj? &&
              Decode(Attr(c, template, k).value.cls, entries[k], false).Success? && k in d &&
              d[k] == Obj(Attr(c, template, k).value.cls, Decode(Attr(c, template, k).value.cls, entries[k], false).value)
  {
  }

  /**
   * The shape of a successful decode: the template's fields plus the encoded
   * keys; encoded non-dicts verbatim (unknown keys included); template fields
   * absent from the encoding untouched; an encoded dict decoded as the class
   * of the template's attribute, without a client.
   */
  lemma DecodeShape(c: ClassName, template: map<string, Value>, entries: map<string, Value>)
    requires DecodeInto(c, template, Dict(entries)).Success?
    ensures var d := DecodeInto(c, template, Dict(entries)).value;
            && d.Keys == template.Keys + entries.Keys
            && (forall k | k in template && k !in entries :: d[k] == template[k])
            && (forall k | k in entries && !entries[k].Dict? :: d[k] == entries[k])
            && (forall k | k in entries && entries[k].Dict? ::
                  Attr(c, template, k).Some? && Attr(c, template, k).value.Obj? &&
                  Decode(Attr(c, template, k).value.cls, entries[k], false).Success? &&
                  d[k] == Obj(Attr(c, template, k).value.cls, Decode(Attr(c, template, k).value.cls, entries[k], false).value))
  {
    DecodeShapeKeys(c, template, entries);
    DecodeShapeKept(c, template, entries);
    DecodeShapeVerbatim(c, template, entries);
    DecodeShapeNested(c, template, entries);
  }

  /** A field fails to decode exactly when it is a dict whose template attribute is missing, is no object, or refuses it. */
  lemma DecodeFieldFails(c: ClassName, template: map<string, Value>, k: string, v: Value)
    ensures DecodeField(c, template, k, v).None? <==>
              v.Dict? && (Attr(c, template, k).None? || !Attr(c, template, k).value.Obj? ||
                          Decode(Attr(c, template, k).value.cls, v, false).Failure?)
  {
  }

  /** A failed decode of a dict has a refused field: a dict under a name whose attribute cannot decode it. */
  lemma DecodeFailureWitness(c: ClassName, template: map<string, Value>, entries: map<string, Value>)
    requires DecodeInto(c, template, Dict(entries)).Failure?
    ensures exists k | k in entries && entries[k].Dict? ::
              Attr(c, template, k).None? || !Attr(c, template, k).value.Obj? ||
              Decode(Attr(c, template, k).value.cls, entries[k], false).Failure?
  {
    var k :| k in entries && DecodeField(c, template, k, entries[k]).None?;
    DecodeFieldFails(c, template, k, entries[k]);
  }

  /** A refused field makes the whole decode fail. */
  lemma RefusedFieldFails(c: ClassName, template: map<string, Value>, entries: map<string, Value>, k: string)
    requires k in entries && entries[k].Dict?
    requires Attr(c, template, k).None? || !Attr(c, template, k).value.Obj? ||
             Decode(Attr(c, template, k).value.cls, entries[k], false).Failure?
    ensures DecodeInto(c, template, Dict(entries)) == Failure(AttributeError)
  {
    DecodeFieldFails(c, template, k, entries[k]);
  }

  /**
   * When decoding fails: AttributeError for a non-dict encoding, otherwise
   * AttributeError exactly when some encoded dict sits under a key whose
   * template attribute is missing, is not an object, or fails to decode it.
   */
  lemma DecodeFailure(c: ClassName, template: map<string, Value>, encoded: Value)
    ensures !encoded.Dict? ==> DecodeInto(c, template, encoded) == Failure(AttributeError)
    ensures encoded.Dict? ==>
              (DecodeInto(c, template, encoded).Failure? <==>
                 exists k | k in encoded.entries && encoded.entries[k].Dict? ::
                   Attr(c, template, k).None? || !Attr(c, template, k).value.Obj? ||
                   Decode(Attr(c, template, k).value.cls, encoded.entries[k], false).Failure?)
    ensures DecodeInto(c, template, encoded).Failure? ==> DecodeInto(c, template, encoded).error == AttributeError
  {
    if encoded.Dict? {
      var entries := encoded.entries;
      if DecodeInto(c, template, encoded).Failure? {
        DecodeFailureWitness(c, template, entries);
      } else {
        DecodeShapeNested(c, template, entries);
      }
    }
  }

  /** A dict under a name the template does not have is refused; any other value under such a name is added. */
  lemma UnknownKey(c: ClassName, template: map<string, Value>, entries: map<string, Value>, k: string)
    requires k in entries && Attr(c, template, k).None?
    ensures entries[k].Dict? ==> DecodeInto(c, template, Dict(entries)) == Failure(AttributeError)
    ensures !entries[k].Dict? && DecodeInto(c, template, Dict(entries)).Success? ==>
              k in DecodeInto(c, template, Dict(entries)).value && DecodeInto(c, template, Dict(entries)).value[k] == entries[k]
  {
    if entries[k].Dict? {
      assert DecodeField(c, template, k, entries[k]).None?;
    }
  }

  /** Decoding an object's own instance dict (no plain dicts inside) gives that dict back, when it covers the template. */
  lemma DecodeOwnFields(c: ClassName, d: map<string, Value>)
    requires Construct(c, false).Success? && Construct(c, false).value.Keys <= d.Keys
    requires forall k | k in d :: !d[k].Dict?
    ensures Decode(c, Dict(d), false) == Success(d)
  {
    var template := Construct(c, false).value;
    DecodeThroughTemplate(c, Dict(d), false);
    DecodePlainEntries(c, template, d);
    UpdateCovering(template, d);
  }

  /**
   * `cls.from_msgpack(o.to_msgpack())` has the same field map as `o` when
   * `o` holds every field of `cls()` and no plain dict.
   */
  lemma ToMsgpackRoundTrip(o: PyObject)
    requires Construct(o.cls, false).Success? && Construct(o.cls, false).value.Keys <= o.dict.Keys
    requires forall k | k in o.dict :: !o.dict[k].Dict?
    ensures Decode(o.cls, Dict(o.ToMsgpack()), false) == Success(o.dict)
  {
    DecodeOwnFields(o.cls, o.dict);
  }

  /** Every LineStyle built by its `__init__` has every field of `LineStyle()` and no plain dict. */
  lemma LineStyleFieldsShape(visible: Value, stipple: Value, pointStyle: Value, width: Value, color: Value, tag: Value)
    requires !visible.Dict? && !stipple.Dict? && !pointStyle.Dict? && !width.Dict? && !color.Dict? && !tag.Dict?
    ensures var d := LineStyleFields(visible, stipple, pointStyle, width, color, tag);
            Construct(LineStyle, false).Success? && Construct(LineStyle, false).value.Keys <= d.Keys
    ensures var d := LineStyleFields(visible, stipple, pointStyle, width, color, tag);
            forall k | k in d :: !d[k].Dict?
  {
  }

  /** Every LineStyle built by its `__init__` round-trips through to_msgpack/from_msgpack. */
  lemma LineStyleRoundTrip(visible: Value, stipple: Value, pointStyle: Value, width: Value, color: Value, tag: Value)
    requires !visible.Dict? && !stipple.Dict? && !pointStyle.Dict? && !width.Dict? && !color.Dict? && !tag.Dict?
    ensures var d := LineStyleFields(visible, stipple, pointStyle, width, color, tag);
            Decode(LineStyle, Dict(d), false) == Success(d)
  {
    LineStyleFieldsShape(visible, stipple, pointStyle, width, color, tag);
    DecodeOwnFields(LineStyle, LineStyleFields(visible, stipple, pointStyle, width, color, tag));
  }

  /** The fields of `PolarSpec()` are exactly the names `PolarSpec.__init__` assigns, whatever the arguments. */
  lemma PolarSpecFieldsKeys(polarType: Value, reType: Value, maType: Value, aoa: Value, mach: Value,
                            ncrit: Value, xtop: Value, xbot: Value, reynolds: Value)
    ensures Construct(PolarSpec, false).Success?
    ensures Construct(PolarSpec, false).value.Keys
            <= PolarSpecFields(polarType, reType, maType, aoa, mach, ncrit, xtop, xbot, reynolds).Keys
  {
    PolarSpecTemplate();
  }

  /** A PolarSpec built from non-dict arguments holds no plain dict. */
  lemma PolarSpecFieldsPlain(polarType: Value, reType: Value, maType: Value, aoa: Value, mach: Value,
                             ncrit: Value, xtop: Value, xbot: Value, reynolds: Value)
    requires !polarType.Dict? && !reType.Dict? && !maType.Dict? && !aoa.Dict? && !mach.Dict?
    requires !ncrit.Dict? && !xtop.Dict? && !xbot.Dict? && !reynolds.Dict?
    ensures var d := PolarSpecFields(polarType, reType, maType, aoa, mach, ncrit, xtop, xbot, reynolds);
            forall k | k in d :: !d[k].Dict?
  {
  }

  /** Every PolarSpec built by its `__init__` round-trips through to_msgpack/from_msgpack. */
  lemma PolarSpecRoundTrip(polarType: Value, reType: Value, maType: Value, aoa: Value, mach: Value,
                           ncrit: Value, xtop: Value, xbot: Value, reynolds: Value)
    requires !polarType.Dict? && !reType.Dict? && !maType.Dict? && !aoa.Dict? && !mach.Dict?
    requires !ncrit.Dict? && !xtop.Dict? && !xbot.Dict? && !reynolds.Dict?
    ensures var d := PolarSpecFields(polarType, reType, maType, aoa, mach, ncrit, xtop, xbot, reynolds);
            Decode(PolarSpec, Dict(d), false) == Success(d)
  {
    PolarSpecFieldsKeys(polarType, reType, maType, aoa, mach, ncrit, xtop, xbot, reynolds);
    PolarSpecFieldsPlain(polarType, reType, maType, aoa, mach, ncrit, xtop, xbot, reynolds);
    DecodeOwnFields(PolarSpec, PolarSpecFields(polarType, reType, maType, aoa, mach, ncrit, xtop, xbot, reynolds));
  }

  /** The fields of `WingSection()` are exactly the names `WingSection.__init__` assigns, whatever the arguments. */
  lemma WingSectionFieldsKeys(yPosition: Value, chord: Value, offset: Value, dihedral: Value, twist: Value,
                              rightFoilName: Value, leftFoilName: Value, nXPanels: Value, xPanelDist: Value,
                              nYPanels: Value, yPanelDist: Value)
    ensures Construct(WingSection, false).Success?
    ensures Construct(WingSection, false).value.Keys
            <= WingSectionFields(yPosition, chord, offset, dihedral, twist, rightFoilName, leftFoilName,
                                 nXPanels, xPanelDist, nYPanels, yPanelDist).Keys
  {
  }

  /** A WingSection built from non-dict arguments holds no plain dict. */
  lemma WingSectionFieldsPlain(yPosition: Value, chord: Value, offset: Value, dihedral: Value, twist: Value,
                               rightFoilName: Value, leftFoilName: Value, nXPanels: Value, xPanelDist: Value,
                               nYPanels: Value, yPanelDist: Value)
    requires !yPosition.Dict? && !chord.Dict? && !offset.Dict? && !dihedral.Dict? && !twist.Dict?
    requires !rightFoilName.Dict? && !leftFoilName.Dict? && !nXPanels.Dict? && !xPanelDist.Dict?
    requires !nYPanels.Dict? && !yPanelDist.Dict?
    ensures var d := WingSectionFields(yPosition, chord, offset, dihedral, twist, rightFoilName, leftFoilName,
                                       nXPanels, xPanelDist, nYPanels, yPanelDist);
            forall k | k in d :: !d[k].Dict?
  {
  }

  /** Every WingSection built by its `__init__` round-trips through to_msgpack/from_msgpack. */
  lemma WingSectionRoundTrip(yPosition: Value, chord: Value, offset: Value, dihedral: Value, twist: Value,
                             rightFoilName: Value, leftFoilName: Value, nXPanels: Value, xPanelDist: Value,
                             nYPanels: Value, yPanelDist: Value)
    requires !yPosition.Dict? && !chord.Dict? && !offset.Dict? && !dihedral.Dict? && !twist.Dict?
    requires !rightFoilName.Dict? && !leftFoilName.Dict? && !nXPanels.Dict? && !xPanelDist.Dict?
    requires !nYPanels.Dict? && !yPanelDist.Dict?
    ensures var d := WingSectionFields(yPosition, chord, offset, dihedral, twist, rightFoilName, leftFoilName,
                                       nXPanels, xPanelDist, nYPanels, yPanelDist);
            Decode(WingSection, Dict(d), false) == Success(d)
  {
    WingSectionFieldsKeys(yPosition, chord, offset, dihedral, twist, rightFoilName, leftFoilName,
                          nXPanels, xPanelDist, nYPanels, yPanelDist);
    WingSectionFieldsPlain(yPosition, chord, offset, dihedral, twist, rightFoilName, leftFoilName,
                           nXPanels, xPanelDist, nYPanels, yPanelDist);
    DecodeOwnFields(WingSection, WingSectionFields(yPosition, chord, offset, dihedral, twist, rightFoilName,
                                                   leftFoilName, nXPanels, xPanelDist, nYPanels, yPanelDist));
  }

  lemma PolarSpecTemplate()
    ensures Construct(PolarSpec, false) == Success(DefaultPolarSpec)
  {
    assert DefaultPolarSpec["polar_type" := Enum(PolarType, 0)] == DefaultPolarSpec;
  }

  lemma PolarTemplate()
    ensures Construct(Polar, false) == Success(PolarFields(Str(""), Str("")))
    ensures Attr(Polar, PolarFields(Str(""), Str("")), "spec") == Some(Obj(PolarSpec, DefaultPolarSpec))
  {
  }

  /** A spec received under `Polar.spec` becomes a PolarSpec: the defaults overwritten by the received fields. */
  lemma NestedPolarSpec(spec: map<string, Value>)
    requires forall k | k in spec :: !spec[k].Dict?
    ensures Decode(Polar, Dict(map["spec" := Dict(spec)]), false)
            == Success(PolarFields(Str(""), Str(""))["spec" := Obj(PolarSpec, DefaultPolarSpec + spec)])
  {
    PolarSpecTemplate();
    DecodeThroughTemplate(PolarSpec, Dict(spec), false);
    DecodePlainEntries(PolarSpec, DefaultPolarSpec, spec);
    PolarTemplate();
    DecodeThroughTemplate(Polar, Dict(map["spec" := Dict(spec)]), false);
    var decoded := Obj(PolarSpec, DefaultPolarSpec + spec);
    assert DecodeField(Polar, PolarFields(Str(""), Str("")), "spec", Dict(spec)) == Some(decoded);
    DecodeSingleEntry(Polar, PolarFields(Str(""), Str("")), "spec", Dict(spec), decoded);
  }

  lemma WingTemplate()
    ensures Construct(Wing, false) == Success(WingFields(Enum(WingType, 0), Nil))
  {
  }

  lemma PlaneTemplate()
    ensures Construct(Plane, false) == Success(PlaneFields(Str("Plane Name")))
    ensures Attr(Plane, PlaneFields(Str("Plane Name")), "wing") == Some(Obj(Wing, WingFields(Enum(WingType, 0), Nil)))
  {
  }

  /**
   * A wing received under `Plane.wing` becomes a Wing, but its `sections`
   * list is stored verbatim: received sections stay plain dicts, not WingSections.
   */
  lemma NestedWingKeepsRawSections(sections: seq<map<string, Value>>)
    ensures var raw := List(seq(|sections|, i requires 0 <= i < |sections| => Dict(sections[i])));
            Decode(Plane, Dict(map["wing" := Dict(map["sections" := raw])]), false)
            == Success(PlaneFields(Str("Plane Name"))["wing" := Obj(Wing, WingFields(Enum(WingType, 0), raw))])
  {
    var raw := List(seq(|sections|, i requires 0 <= i < |sections| => Dict(sections[i])));
    var inner := WingFields(Enum(WingType, 0), Nil);
    WingTemplate();
    DecodeThroughTemplate(Wing, Dict(map["sections" := raw]), false);
    DecodePlainEntries(Wing, inner, map["sections" := raw]);
    UpdateWithSingleton(inner, "sections", raw);
    assert inner["sections" := raw] == WingFields(Enum(WingType, 0), raw);
    assert Decode(Wing, Dict(map["sections" := raw]), false) == Success(WingFields(Enum(WingType, 0), raw));
    PlaneTemplate();
    var encoded := Dict(map["wing" := Dict(map["sections" := raw])]);
    DecodeThroughTemplate(Plane, encoded, false);
    var decoded := Obj(Wing, WingFields(Enum(WingType, 0), raw));
    assert DecodeField(Plane, PlaneFields(Str("Plane Name")), "wing", Dict(map["sections" := raw])) == Some(decoded);
    DecodeSingleEntry(Plane, PlaneFields(Str("Plane Name")), "wing", Dict(map["sections" := raw]), decoded);
  }

  /**
   * An OpPoint (no `__init__`) decodes to exactly the received fields; a field
   * the server leaves out is only visible through the class attribute.
   */
  lemma OpPointHoldsOnlyReceivedFields(entries: map<string, Value>)
    requires forall k | k in entries :: !entries[k].Dict?
    ensures Decode(OpPoint, Dict(entries), false) == Success(entries)
    ensures "Cl" !in entries ==> Attr(OpPoint, entries, "Cl") == Some(Float(0.0))
  {
    DecodeOwnFields(OpPoint, entries);
  }

  /** A Foil can only be decoded with its client, which the template stores as `_client`. */
  lemma FoilNeedsClient(entries: map<string, Value>)
    ensures Decode(Foil, Dict(entries), false) == Failure(TypeError)
    ensures Decode(Foil, Dict(entries), true).Success? && "_client" !in entries ==>
              "_client" in Decode(Foil, Dict(entries), true).value &&
              Decode(Foil, Dict(entries), true).value["_client"] == Handle
  {
    if Decode(Foil, Dict(entries), true).Success? {
      DecodeShape(Foil, map["_client" := Handle], entries);
    }
  }

  /**
   * An object whose fields have the shape its class's template expects:
   * every template field present, nested objects of the template's class
   * where the template holds an object, plain data elsewhere.
   */
  ghost predicate Conforms(v: Value)
    decreases v, 1
  {
    && v.Obj?
    && Construct(v.cls, false).Success?
    && Construct(v.cls, false).value.Keys <= v.fields.Keys
    && forall k | k in v.fields :: FieldConforms(v.cls, Construct(v.cls, false).value, k, v.fields[k])
  }

  /** A field conforms: an object of the template attribute's class where that attribute is an object, plain data elsewhere. */
  ghost predicate FieldConforms(c: ClassName, template: map<string, Value>, k: string, x: Value)
    decreases x, 2
  {
    if Attr(c, template, k).Some? && Attr(c, template, k).value.Obj? then
      x.Obj? && x.cls == Attr(c, template, k).value.cls && Conforms(x)
    else Plain(x)
  }

  /** One field of the wire round trip: packed, unpacked and decoded against the template, it comes back flattened. */
  lemma {:induction false} FieldRoundTrip(c: ClassName, template: map<string, Value>, k: string, x: Value)
    requires FieldConforms(c, template, k, x)
    ensures Pack(x).Success? && DecodeField(c, template, k, Lift(Pack(x).value)) == Some(Flatten(x))
    decreases x, 1
  {
    if Attr(c, template, k).Some? && Attr(c, template, k).value.Obj? {
      WireRoundTrip(x);
      assert Lift(Pack(x).value).Dict?;
    } else {
      LiftPackPlain(x);
    }
  }

  /**
   * The wire round trip: an object of conforming shape, packed by the
   * transport, unpacked on the client and decoded as its class, comes back
   * field for field, nested objects included, with enum members as integers.
   */
  lemma {:induction false} WireRoundTrip(v: Value)
    requires Conforms(v)
    ensures Pack(v).Success? && Pack(v).value.MMap?
    ensures Decode(v.cls, Lift(Pack(v).value), false) == Success(Flatten(v).fields)
    decreases v, 0
  {
    var c, f := v.cls, v.fields;
    var template := Construct(c, false).value;
    forall k | k in f
      ensures Pack(f[k]).Success?
      ensures DecodeField(c, template, k, Lift(Pack(f[k]).value)) == Some(Flatten(f[k]))
    {
      FieldRoundTrip(c, template, k, f[k]);
    }
    var packed := map k | k in f :: Pack(f[k]).value;
    PackObj(c, f, packed);
    DecodeConforming(v, template, packed);
  }

  /** An object whose fields all pack, packs as the map of their packings. */
  lemma PackObj(c: ClassName, f: map<string, Value>, packed: map<string, Wire>)
    requires packed.Keys == f.Keys
    requires forall k | k in f :: Pack(f[k]) == Success(packed[k])
    ensures Pack(Obj(c, f)) == Success(MMap(packed))
  {
    assert forall k | k in f :: Pack(f[k]).Success?;
    assert Pack(Obj(c, f)).Success?;
    assert Pack(Obj(c, f)).value == MMap(packed);
  }

  /** The decoding half of the wire round trip, once every packed field is known to come back flattened. */
  lemma DecodeConforming(v: Value, template: map<string, Value>, packed: map<string, Wire>)
    requires Conforms(v) && template == Construct(v.cls, false).value
    requires packed.Keys == v.fields.Keys
    requires forall k | k in packed :: DecodeField(v.cls, template, k, Lift(packed[k])) == Some(Flatten(v.fields[k]))
    ensures Decode(v.cls, Lift(MMap(packed)), false) == Success(Flatten(v).fields)
  {
    var entries := map k | k in packed :: Lift(packed[k]);
    assert Lift(MMap(packed)) == Dict(entries);
    var flat := map k | k in v.fields :: Flatten(v.fields[k]);
    assert Flatten(v).fields == flat;
    DecodeIntoAll(v.cls, template, entries, flat);
    DecodeThroughTemplate(v.cls, Dict(entries), false);
    UpdateCovering(template, flat);
  }

  /** A Polar built by its `__init__` with string names conforms, so it survives the wire. */
  lemma PolarConforms(name: string, foilName: string)
    ensures Conforms(Obj(Polar, PolarFields(Str(name), Str(foilName))))
  {
    var spec := Obj(PolarSpec, DefaultPolarSpec);
    assert Conforms(spec);
    assert Conforms(Obj(PolarResult, map[]));
  }
}
