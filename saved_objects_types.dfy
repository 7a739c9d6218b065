/**
 * The saved-object records and their JSON field rules.
 *
 * `SavedObjectOSD` is what the dashboards API speaks: a type, an id and an embedded
 * `SavedObjectPostPayload` whose fields are promoted into the same JSON object.
 * `SavedObjectTF` is what the resource keeps: the same, with the attributes held as an
 * encoded JSON string. A Go `map[string]any` may be `nil` or empty; the two differ when the
 * map is encoded on its own (`null` against `{}`), so `attributes` is an `Option`.
 */
module SavedObjectTypes {
  import opened Wrappers
  import opened Json

  datatype Reference = Reference(id: string, name: string, refType: string)

  datatype PostPayload = PostPayload(attributes: Option<map<string, Json>>, references: seq<Reference>)

  datatype SavedObjectOSD = SavedObjectOSD(objType: string, id: string, payload: PostPayload)

  datatype SavedObjectTF = SavedObjectTF(objType: string, id: string, attributes: string, references: seq<Reference>)

  // ---------------------------------------------------------------------------------------
  // Encoding: the struct tags
  // ---------------------------------------------------------------------------------------

  /** A string field tagged `omitempty`: left out when empty. */
  function OmitEmptyString(key: string, s: string): map<string, Json>
  {
    if s == "" then map[] else map[key := JString(s)]
  }

  /** `Reference`: `id` and `type` always, `name` only when it is not empty. */
  function ReferenceJson(r: Reference): Json
  {
    JObject(map["id" := JString(r.id), "type" := JString(r.refType)] + OmitEmptyString("name", r.name))
  }

  function ReferencesJson(refs: seq<Reference>): (r: seq<Json>)
    ensures |r| == |refs|
    ensures forall i :: 0 <= i < |refs| ==> r[i] == ReferenceJson(refs[i])
  {
    if refs == [] then [] else [ReferenceJson(refs[0])] + ReferencesJson(refs[1..])
  }

  /** The members of `SavedObjectPostPayload`: each left out when empty (`omitempty`). */
  function PayloadFields(p: PostPayload): map<string, Json>
  {
    (if p.attributes.Some? && |p.attributes.value| > 0 then map["attributes" := JObject(p.attributes.value)] else map[])
    + (if |p.references| > 0 then map["references" := JArray(ReferencesJson(p.references))] else map[])
  }

  /** The POST body: the payload alone. */
  function PayloadJson(p: PostPayload): Json
  {
    JObject(PayloadFields(p))
  }

  /** `SavedObjectOSD`, with the embedded payload's fields promoted. */
  function ObjectJson(o: SavedObjectOSD): Json
  {
    JObject(OmitEmptyString("type", o.objType) + OmitEmptyString("id", o.id) + PayloadFields(o.payload))
  }

  // ---------------------------------------------------------------------------------------
  // Decoding: `json.Unmarshal` into the structs (None is a type mismatch)
  // ---------------------------------------------------------------------------------------

  /** A string field: absent or `null` leaves the zero value, a non-string is a type error. */
  function StringField(m: map<string, Json>, key: string): Option<string>
  {
    if key !in m || m[key] == JNull then Some("")
    else if m[key].JString? then Some(m[key].s)
    else None
  }

  function ReferenceFromJson(j: Json): Option<Reference>
  {
    match j
    case JNull => Some(Reference("", "", ""))
    case JObject(m) =>
      (match (StringField(m, "id"), StringField(m, "name"), StringField(m, "type"))
       case (Some(id), Some(name), Some(t)) => Some(Reference(id, name, t))
       case _ => None)
    case _ => None
  }

  function ReferenceList(items: seq<Json>): (r: Option<seq<Reference>>)
    ensures r.Some? ==> |r.value| == |items|
  {
    if items == [] then Some([])
    else
      match (ReferenceFromJson(items[0]), ReferenceList(items[1..]))
      case (Some(x), Some(xs)) => Some([x] + xs)
      case _ => None
  }

  /** A `[]Reference` field: absent or `null` is nil, an array decodes element by element. */
  function ReferencesField(m: map<string, Json>): Option<seq<Reference>>
  {
    if "references" !in m || m["references"] == JNull then Some([])
    else if m["references"].JArray? then ReferenceList(m["references"].items)
    else None
  }

  /** A `map[string]any` field: absent or `null` is nil, an object is the map. */
  function AttributesField(m: map<string, Json>): Option<Option<map<string, Json>>>
  {
    if "attributes" !in m || m["attributes"] == JNull then Some(None)
    else if m["attributes"].JObject? then Some(Some(m["attributes"].fields))
    else None
  }

  /** `json.Unmarshal` into a fresh `SavedObjectOSD`. */
  function ObjectFromJson(j: Json): Option<SavedObjectOSD>
  {
    match j
    case JNull => Some(SavedObjectOSD("", "", PostPayload(None, [])))
    case JObject(m) =>
      (match (StringField(m, "type"), StringField(m, "id"), AttributesField(m), ReferencesField(m))
       case (Some(t), Some(id), Some(attributes), Some(refs)) => Some(SavedObjectOSD(t, id, PostPayload(attributes, refs)))
       case _ => None)
    case _ => None
  }

  /** `json.Unmarshal` into a `map[string]any`: `null` gives the nil map, an object the map. */
  function AttributesFromJson(j: Json): Option<Option<map<string, Json>>>
  {
    match j
    case JNull => Some(None)
    case JObject(m) => Some(Some(m))
    case _ => None
  }

  /** A `map[string]any` on its own, as `json.Marshal` writes it: `nil` is `null`. */
  function AttributesJson(a: Option<map<string, Json>>): Json
  {
    if a.Some? then JObject(a.value) else JNull
  }

  // ---------------------------------------------------------------------------------------
  // Properties of the field rules
  // ---------------------------------------------------------------------------------------

  /** An empty attributes map and a nil one encode alike under `omitempty`. */
  function Normalized(o: SavedObjectOSD): (r: SavedObjectOSD)
  {
    if o.payload.attributes == Some(map[]) then o.(payload := o.payload.(attributes := None)) else o
  }

  /** `name` is written exactly when it is not empty; `id` and `type` always are. */
  lemma ReferenceFieldsPresent(r: Reference)
    ensures ReferenceJson(r).JObject?
    ensures "id" in ReferenceJson(r).fields && "type" in ReferenceJson(r).fields
    ensures "name" in ReferenceJson(r).fields <==> r.name != ""
    ensures ReferenceJson(r).fields.Keys <= {"id", "name", "type"}
  {
  }

  /** The POST body carries at most `attributes` and `references`, each only when not empty;
      never `type` or `id`. */
  lemma PayloadFieldsPresent(p: PostPayload)
    ensures PayloadJson(p).fields.Keys <= {"attributes", "references"}
    ensures "type" !in PayloadJson(p).fields && "id" !in PayloadJson(p).fields
    ensures "attributes" in PayloadJson(p).fields <==> p.attributes.Some? && |p.attributes.value| > 0
    ensures "references" in PayloadJson(p).fields <==> |p.references| > 0
  {
  }

  lemma ReferenceRoundTrip(r: Reference)
    ensures ReferenceFromJson(ReferenceJson(r)) == Some(r)
  {
    var m := ReferenceJson(r).fields;
    assert StringField(m, "id") == Some(r.id);
    assert StringField(m, "type") == Some(r.refType);
    assert StringField(m, "name") == Some(r.name);
  }

  lemma {:induction false} ReferencesRoundTrip(refs: seq<Reference>)
    ensures ReferenceList(ReferencesJson(refs)) == Some(refs)
  {
    if refs != [] {
      ReferenceRoundTrip(refs[0]);
      ReferencesRoundTrip(refs[1..]);
      assert ReferencesJson(refs)[1..] == ReferencesJson(refs[1..]);
      assert [refs[0]] + refs[1..] == refs;
    }
  }

  lemma ObjectStringFields(o: SavedObjectOSD)
    ensures StringField(ObjectJson(o).fields, "type") == Some(o.objType)
    ensures StringField(ObjectJson(o).fields, "id") == Some(o.id)
  {
    var p := PayloadFields(o.payload);
    PayloadKeys(o.payload);
    var head := OmitEmptyString("type", o.objType) + OmitEmptyString("id", o.id);
    assert ObjectJson(o).fields == head + p;
    OmittedString(head, p, "type", o.objType);
    OmittedString(head, p, "id", o.id);
  }

  /** The payload writes `attributes` and `references` and nothing else. */
  lemma PayloadKeys(p: PostPayload)
    ensures PayloadFields(p).Keys <= {"attributes", "references"}
  {
  }

  /** A string field written with `omitempty` and not overwritten reads back as the string. */
  lemma OmittedString(head: map<string, Json>, p: map<string, Json>, key: string, s: string)
    requires key !in p
    requires s == "" ==> key !in head
    requires s != "" ==> key in head && head[key] == JString(s)
    ensures StringField(head + p, key) == Some(s)
  {
  }

  lemma ObjectAttributesField(o: SavedObjectOSD)
    ensures AttributesField(ObjectJson(o).fields) == Some(Normalized(o).payload.attributes)
  {
    var m := ObjectJson(o).fields;
    var a := o.payload.attributes;
    if a.Some? && |a.value| > 0 {
      assert m["attributes"] == JObject(a.value);
    } else {
      assert "attributes" !in m;
      assert a.Some? ==> a.value == map[];
    }
  }

  lemma ObjectReferencesField(o: SavedObjectOSD)
    ensures ReferencesField(ObjectJson(o).fields) == Some(o.payload.references)
  {
    var m := ObjectJson(o).fields;
    if |o.payload.references| > 0 {
      ReferencesRoundTrip(o.payload.references);
      assert m["references"] == JArray(ReferencesJson(o.payload.references));
    } else {
      assert "references" !in m;
    }
  }

  /** Decoding an encoded object gives it back, save that an empty attributes map comes back nil. */
  lemma ObjectRoundTrip(o: SavedObjectOSD)
    ensures ObjectFromJson(ObjectJson(o)) == Some(Normalized(o))
  {
    ObjectStringFields(o);
    ObjectAttributesField(o);
    ObjectReferencesField(o);
  }

  /** The attributes map on its own round-trips exactly, `nil` included. */
  lemma AttributesRoundTrip(a: Option<map<string, Json>>)
    ensures AttributesFromJson(AttributesJson(a)) == Some(a)
  {
  }
}
