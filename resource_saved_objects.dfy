/**
 * The `opensearch-dashboards_saved_object` resource: converts its configuration (`obj_id`,
 * `type`, the `attributes` JSON string and the `references` set) into a saved object, and
 * writes what the API returns back into the resource state.
 *
 * Each operation is a method on the SDK's `ResourceData`, proved against a function on the
 * state it starts from (`ReadSpec`, `WriteSpec`, `DeleteSpec`); the properties of the
 * operations are lemmas about those functions.
 */
module ResourceSavedObjects {
  import opened Wrappers
  import opened Json
  import opened Http
  import opened SavedObjectTypes
  import opened SavedObjects
  import opened Schema
  import opened ProviderMeta

  /** The attribute types the resource's schema fixes: three strings and a set of blocks. */
  predicate Conforms(values: map<string, Value>)
  {
    ("obj_id" in values ==> values["obj_id"].Str?)
    && ("type" in values ==> values["type"].Str?)
    && ("attributes" in values ==> values["attributes"].Str?)
    && ("references" in values ==> values["references"].Refs?)
  }

  /** The resource state: attribute values and id. */
  datatype State = State(values: map<string, Value>, id: string)

  function ReferenceOf(b: RefBlock): Reference
  {
    Reference(b.id, b.name, b.refType)
  }

  function BlockOf(r: Reference): RefBlock
  {
    RefBlock(r.id, r.name, r.refType)
  }

  function ReferencesOf(blocks: seq<RefBlock>): seq<Reference>
  {
    seq(|blocks|, i requires 0 <= i < |blocks| => ReferenceOf(blocks[i]))
  }

  function BlocksOf(refs: seq<Reference>): seq<RefBlock>
  {
    seq(|refs|, i requires 0 <= i < |refs| => BlockOf(refs[i]))
  }

  /** `json.Unmarshal` into a fresh, empty `map[string]any`: an object fills it, anything else
      but `null` (or text that is not JSON) is an error. `null` sets the map to nil, held here as
      the empty map, since `omitempty` drops nil and empty maps alike. */
  function ParseAttributes(text: string): Option<map<string, Json>>
  {
    match Decode(text)
    case Some(JNull) => Some(map[])
    case Some(JObject(m)) => Some(m)
    case _ => None
  }

  /** The three required settings are set (not their zero values). */
  predicate RequiredSet(values: map<string, Value>)
  {
    Lookup(values, "obj_id").Some? && Lookup(values, "type").Some? && Lookup(values, "attributes").Some?
  }

  /** `resourceSavedObjectsToRequest`, as a value. */
  function Convert(values: map<string, Value>): Result<SavedObjectOSD, Error>
    requires Conforms(values)
  {
    if Lookup(values, "obj_id").None? then Err(MissingField("obj_id"))
    else if Lookup(values, "type").None? then Err(MissingField("type"))
    else if Lookup(values, "attributes").None? then Err(MissingField("attributes"))
    else
      match ParseAttributes(values["attributes"].s)
      case None => Err(InvalidAttributes)
      case Some(m) =>
        var refs := if Lookup(values, "references").Some? then ReferencesOf(values["references"].items) else [];
        Ok(SavedObjectOSD(values["type"].s, values["obj_id"].s, PostPayload(Some(m), refs)))
  }

  /** The id after conversion: `obj_id` once the three settings are found, before the JSON is
      checked. */
  function IdAfterConvert(values: map<string, Value>, id: string): string
    requires Conforms(values)
  {
    if RequiredSet(values) then values["obj_id"].s else id
  }

  /** The resource state after a successful fetch: absent clears the id; present writes type,
      attributes and references, then the id. An error changes nothing. */
  function ApplyFetched(s: State, fetched: Result<Option<SavedObjectTF>, Error>): (State, Option<Error>)
  {
    match fetched
    case Err(e) => (s, Some(e))
    case Ok(None) => (s.(id := ""), None)
    case Ok(Some(tf)) =>
      var values := s.values["type" := Str(tf.objType)]["attributes" := Str(tf.attributes)]["references" := Refs(BlocksOf(tf.references))];
      (State(values, tf.id), None)
  }

  /** `resourceSavedObjectRead` against a saved-objects client on `baseUrl` whose server answers
      with `respond`. */
  function ReadSpec(s: State, baseUrl: string, respond: Sent -> Reply, syncFields: bool): (State, Option<Error>)
    requires Conforms(s.values)
  {
    var converted := State(s.values, IdAfterConvert(s.values, s.id));
    match Convert(s.values)
    case Err(e) => (converted, Some(e))
    case Ok(obj) => ApplyFetched(converted, GetResult(baseUrl, respond, syncFields, obj))
  }

  /** `resourceSavedObjectWrite` (create and update alike). */
  function WriteSpec(s: State, baseUrl: string, respond: Sent -> Reply): (State, Option<Error>)
    requires Conforms(s.values)
  {
    var converted := State(s.values, IdAfterConvert(s.values, s.id));
    match Convert(s.values)
    case Err(e) => (converted, Some(e))
    case Ok(obj) => (converted, SaveResult(baseUrl, respond, obj))
  }

  /** `resourceSavedObjectsDelete`. */
  function DeleteSpec(s: State, baseUrl: string, respond: Sent -> Reply): (State, Option<Error>)
    requires Conforms(s.values)
  {
    var converted := State(s.values, IdAfterConvert(s.values, s.id));
    match Convert(s.values)
    case Err(e) => (converted, Some(e))
    case Ok(obj) => (converted, DeleteResult(baseUrl, respond, obj))
  }

  // ---------------------------------------------------------------------------------------
  // The operations
  // ---------------------------------------------------------------------------------------

  /** The loop over `Set.List()`: one reference per block, fields copied. */
  method BlocksToReferences(blocks: seq<RefBlock>) returns (refs: seq<Reference>)
    ensures |refs| == |blocks|
    ensures forall i :: 0 <= i < |blocks| ==> refs[i].id == blocks[i].id && refs[i].name == blocks[i].name && refs[i].refType == blocks[i].refType
  {
    refs := [];
    for i := 0 to |blocks|
      invariant |refs| == i
      invariant forall j :: 0 <= j < i ==> refs[j] == ReferenceOf(blocks[j])
    {
      refs := refs + [Reference(blocks[i].id, blocks[i].name, blocks[i].refType)];
    }
  }

  /** The loop in Read that fills a slice of the response's length with one block per
      reference. */
  method ReferencesToBlocks(refs: seq<Reference>) returns (blocks: seq<RefBlock>)
    ensures |blocks| == |refs|
    ensures forall i :: 0 <= i < |refs| ==> blocks[i].id == refs[i].id && blocks[i].name == refs[i].name && blocks[i].refType == refs[i].refType
  {
    var a := new RefBlock[|refs|];
    for i := 0 to |refs|
      invariant forall j :: 0 <= j < i ==> a[j] == BlockOf(refs[j])
    {
      a[i] := RefBlock(refs[i].id, refs[i].name, refs[i].refType);
    }
    blocks := a[..];
  }

  /** `resourceSavedObjectsToRequest`: the id is set to `obj_id` as soon as the three settings
      are found, so an invalid `attributes` string still changes it. */
  method ToRequest(d: ResourceData) returns (r: Result<SavedObjectOSD, Error>)
    requires Conforms(d.values)
    modifies d
    ensures r == Convert(old(d.values))
    ensures d.values == old(d.values) && d.id == IdAfterConvert(old(d.values), old(d.id))
  {
    var objId := d.GetOk("obj_id");
    if objId.None? {
      return Err(MissingField("obj_id"));
    }
    var objType := d.GetOk("type");
    if objType.None? {
      return Err(MissingField("type"));
    }
    var objAttr := d.GetOk("attributes");
    if objAttr.None? {
      return Err(MissingField("attributes"));
    }
    d.SetId(objId.value.s);
    var attrMap := ParseAttributes(objAttr.value.s);
    if attrMap.None? {
      return Err(InvalidAttributes);
    }
    var refs: seq<Reference> := [];
    var refsAny := d.GetOk("references");
    if refsAny.Some? {
      refs := BlocksToReferences(refsAny.value.items);
      assert refs == ReferencesOf(refsAny.value.items);
    }
    r := Ok(SavedObjectOSD(objType.value.s, objId.value.s, PostPayload(attrMap, refs)));
  }

  method Read(d: ResourceData, meta: Meta) returns (r: Option<Error>)
    requires Conforms(d.values)
    modifies d, if meta.Dashboards? then {meta.client.savedObjects.client} else {}
    ensures Conforms(d.values)
    ensures meta.Foreign? ==> r == Some(UnexpectedClient) && d.values == old(d.values) && d.id == old(d.id)
    ensures meta.Dashboards? ==>
      var p := meta.client.savedObjects;
      (State(d.values, d.id), r) == ReadSpec(State(old(d.values), old(d.id)), p.baseUrl, p.client.respond, p.syncIndexPatternFields)
  {
    if meta.Foreign? {
      return Some(UnexpectedClient);
    }
    var p := meta.client.savedObjects;
    ReadSpecConverted(State(d.values, d.id), p.baseUrl, p.client.respond, p.syncIndexPatternFields);
    var obj := ToRequest(d);
    if obj.Err? {
      return Some(obj.error);
    }
    var resp := p.GetObject(obj.value);
    ApplyFetchedConforms(State(d.values, d.id), resp);
    if resp.Err? {
      return Some(resp.error);
    }
    if resp.value.None? {
      d.SetId("");
      return None;
    }
    var tf := resp.value.value;
    d.Set("type", Str(tf.objType));
    d.Set("attributes", Str(tf.attributes));
    var refs := ReferencesToBlocks(tf.references);
    assert refs == BlocksOf(tf.references);
    d.Set("references", Refs(refs));
    d.SetId(tf.id);
    r := None;
  }

  /** `ReadSpec`, unfolded: the conversion, then the fetch applied to the converted state. */
  lemma ReadSpecConverted(s: State, baseUrl: string, respond: Sent -> Reply, syncFields: bool)
    requires Conforms(s.values)
    ensures var converted := State(s.values, IdAfterConvert(s.values, s.id));
      ReadSpec(s, baseUrl, respond, syncFields)
      == if Convert(s.values).Err? then (converted, Some(Convert(s.values).error))
         else ApplyFetched(converted, GetResult(baseUrl, respond, syncFields, Convert(s.values).value))
  {
  }

  /** Read keeps the settings of the schema's types. */
  lemma ApplyFetchedConforms(s: State, fetched: Result<Option<SavedObjectTF>, Error>)
    requires Conforms(s.values)
    ensures Conforms(ApplyFetched(s, fetched).0.values)
  {
  }

  /** Create and Update: convert, then save, passing either error through. */
  method Write(d: ResourceData, meta: Meta) returns (r: Option<Error>)
    requires Conforms(d.values)
    modifies d, if meta.Dashboards? then {meta.client.savedObjects.client} else {}
    ensures meta.Foreign? ==> r == Some(UnexpectedClient) && d.values == old(d.values) && d.id == old(d.id)
    ensures meta.Dashboards? ==>
      var p := meta.client.savedObjects;
      (State(d.values, d.id), r) == WriteSpec(State(old(d.values), old(d.id)), p.baseUrl, p.client.respond)
  {
    if meta.Foreign? {
      return Some(UnexpectedClient);
    }
    var p := meta.client.savedObjects;
    var req := ToRequest(d);
    if req.Err? {
      return Some(req.error);
    }
    r := p.SaveObject(req.value);
  }

  method Delete(d: ResourceData, meta: Meta) returns (r: Option<Error>)
    requires Conforms(d.values)
    modifies d, if meta.Dashboards? then {meta.client.savedObjects.client} else {}
    ensures meta.Foreign? ==> r == Some(UnexpectedClient) && d.values == old(d.values) && d.id == old(d.id)
    ensures meta.Dashboards? ==>
      var p := meta.client.savedObjects;
      (State(d.values, d.id), r) == DeleteSpec(State(old(d.values), old(d.id)), p.baseUrl, p.client.respond)
  {
    if meta.Foreign? {
      return Some(UnexpectedClient);
    }
    var p := meta.client.savedObjects;
    var req := ToRequest(d);
    if req.Err? {
      return Some(req.error);
    }
    r := p.DeleteObject(req.value);
  }

  // ---------------------------------------------------------------------------------------
  // Properties
  // ---------------------------------------------------------------------------------------

  /** Conversion fails, naming the field, exactly when a required setting is unset, and the
      first unset one in the order `obj_id`, `type`, `attributes` is named. */
  lemma ConvertMissing(values: map<string, Value>)
    requires Conforms(values)
    ensures Convert(values).Err? && Convert(values).error.MissingField? <==> !RequiredSet(values)
    ensures Lookup(values, "obj_id").None? ==> Convert(values) == Err(MissingField("obj_id"))
    ensures Lookup(values, "obj_id").Some? && Lookup(values, "type").None? ==> Convert(values) == Err(MissingField("type"))
  {
  }

  /** Past the required settings, conversion fails exactly when the attributes string is not a
      JSON object (or `null`), and the id has already moved to `obj_id`. */
  lemma ConvertInvalidAttributes(values: map<string, Value>, id: string)
    requires Conforms(values) && RequiredSet(values)
    ensures Convert(values) == Err(InvalidAttributes) <==> ParseAttributes(values["attributes"].s).None?
    ensures IdAfterConvert(values, id) == values["obj_id"].s
  {
  }

  /** A successful conversion carries `obj_id` as ID, `type` as type, the parsed attributes, and
      one reference per configured block, fields copied, in order. */
  lemma ConvertFields(values: map<string, Value>)
    requires Conforms(values) && Convert(values).Ok?
    ensures var obj := Convert(values).value;
      obj.id == values["obj_id"].s && obj.objType == values["type"].s
      && obj.payload.attributes.Some? && ParseAttributes(values["attributes"].s) == Some(obj.payload.attributes.value)
      && (Lookup(values, "references").Some? ==>
           |obj.payload.references| == |values["references"].items|
           && forall i :: 0 <= i < |obj.payload.references| ==>
                BlockOf(obj.payload.references[i]) == values["references"].items[i])
      && (Lookup(values, "references").None? ==> obj.payload.references == [])
  {
  }

  /** The attributes of a JSON object round-trip through their text. */
  lemma ParseAttributesEncode(m: map<string, Json>)
    ensures ParseAttributes(Encode(JObject(m))) == Some(m)
  {
    DecodeEncode(JObject(m));
  }

  /** The attributes string a fetched object carries parses back to the map Read saw: the
      stripped map, or an empty one for a nil map. */
  lemma ParseFetchedAttributes(obj: SavedObjectOSD, syncFields: bool)
    ensures var a := StripFields(obj.objType, syncFields, obj.payload.attributes);
      ParseAttributes(ToTF(obj, syncFields).attributes) == Some(if a.Some? then a.value else map[])
  {
    var a := StripFields(obj.objType, syncFields, obj.payload.attributes);
    assert ToTF(obj, syncFields).attributes == Encode(AttributesJson(a));
    ParseAttributesOf(a);
  }

  /** A map, or the nil map, written by `json.Marshal` parses back to the map (nil to empty). */
  lemma ParseAttributesOf(a: Option<map<string, Json>>)
    ensures ParseAttributes(Encode(AttributesJson(a))) == Some(if a.Some? then a.value else map[])
  {
    if a.Some? {
      ParseAttributesEncode(a.value);
    } else {
      DecodeEncode(JNull);
    }
  }

  /** Read on an absent object clears the id, keeps the settings and reports no error. */
  lemma ReadAbsent(s: State, baseUrl: string, respond: Sent -> Reply, syncFields: bool)
    requires Conforms(s.values) && Convert(s.values).Ok?
    requires GetResult(baseUrl, respond, syncFields, Convert(s.values).value) == Ok(None)
    ensures ReadSpec(s, baseUrl, respond, syncFields) == (State(s.values, ""), None)
  {
  }

  /** Read on a present object writes its type, its attributes string and one block per
      reference, element by element, and then takes its id; nothing else changes. */
  lemma ReadPresent(s: State, baseUrl: string, respond: Sent -> Reply, syncFields: bool, tf: SavedObjectTF)
    requires Conforms(s.values) && Convert(s.values).Ok?
    requires GetResult(baseUrl, respond, syncFields, Convert(s.values).value) == Ok(Some(tf))
    ensures var (after, err) := ReadSpec(s, baseUrl, respond, syncFields);
      err == None && after.id == tf.id
      && after.values["type"] == Str(tf.objType) && after.values["attributes"] == Str(tf.attributes)
      && after.values["references"].Refs? && |after.values["references"].items| == |tf.references|
      && (forall i :: 0 <= i < |tf.references| ==> ReferenceOf(after.values["references"].items[i]) == tf.references[i])
      && (forall k :: k !in {"type", "attributes", "references"} ==> (k in after.values <==> k in s.values))
      && (forall k :: k in s.values && k !in {"type", "attributes", "references"} ==> after.values[k] == s.values[k])
  {
  }

  /** A failed fetch is reported as it is and leaves the settings alone. */
  lemma ReadError(s: State, baseUrl: string, respond: Sent -> Reply, syncFields: bool)
    requires Conforms(s.values) && Convert(s.values).Ok?
    requires GetResult(baseUrl, respond, syncFields, Convert(s.values).value).Err?
    ensures ReadSpec(s, baseUrl, respond, syncFields)
         == (State(s.values, s.values["obj_id"].s), Some(GetResult(baseUrl, respond, syncFields, Convert(s.values).value).error))
  {
  }

  /** What Read writes converts back to the object it fetched: same type, same references, and
      the attributes as the fetched string encodes them. */
  lemma ReadThenConvert(s: State, tf: SavedObjectTF)
    requires Conforms(s.values) && RequiredSet(s.values)
    requires tf.objType != "" && tf.attributes != ""
    requires ParseAttributes(tf.attributes).Some?
    ensures var after := ApplyFetched(s, Ok(Some(tf))).0;
      Conforms(after.values)
      && Convert(after.values).Ok?
      && Convert(after.values).value.objType == tf.objType
      && Convert(after.values).value.payload.references == tf.references
      && Convert(after.values).value.payload.attributes == ParseAttributes(tf.attributes)
  {
    var blocks := BlocksOf(tf.references);
    var values := s.values["type" := Str(tf.objType)]["attributes" := Str(tf.attributes)]["references" := Refs(blocks)];
    assert ApplyFetched(s, Ok(Some(tf))).0.values == values;
    FetchedValues(s.values, tf, values);
    var m := ParseAttributes(tf.attributes).value;
    var refs := if Lookup(values, "references").Some? then ReferencesOf(values["references"].items) else [];
    if blocks != [] {
      assert ReferencesOf(blocks) == tf.references;
    } else {
      assert tf.references == [];
    }
    assert refs == tf.references;
    ConvertOk(values, m);
  }

  /** The settings Read writes for a fetched object, key by key. */
  lemma FetchedValues(values: map<string, Value>, tf: SavedObjectTF, after: map<string, Value>)
    requires Conforms(values) && RequiredSet(values)
    requires tf.objType != "" && tf.attributes != ""
    requires after == values["type" := Str(tf.objType)]["attributes" := Str(tf.attributes)]["references" := Refs(BlocksOf(tf.references))]
    ensures Conforms(after) && RequiredSet(after)
    ensures after["type"] == Str(tf.objType) && after["attributes"] == Str(tf.attributes)
    ensures after["references"] == Refs(BlocksOf(tf.references))
  {
    assert after["obj_id"] == values["obj_id"];
  }

  /** `Convert`, unfolded for settings that convert. */
  lemma ConvertOk(values: map<string, Value>, m: map<string, Json>)
    requires Conforms(values) && RequiredSet(values)
    requires ParseAttributes(values["attributes"].s) == Some(m)
    ensures Convert(values) == Ok(SavedObjectOSD(values["type"].s, values["obj_id"].s, PostPayload(Some(m),
      if Lookup(values, "references").Some? then ReferencesOf(values["references"].items) else [])))
  {
  }

  /** Write and Delete pass the client's error through, and on a conversion error send nothing. */
  lemma WriteOutcome(s: State, baseUrl: string, respond: Sent -> Reply)
    requires Conforms(s.values)
    ensures Convert(s.values).Err? ==> WriteSpec(s, baseUrl, respond).1 == Some(Convert(s.values).error)
    ensures Convert(s.values).Ok? ==> WriteSpec(s, baseUrl, respond).1 == SaveResult(baseUrl, respond, Convert(s.values).value)
    ensures WriteSpec(s, baseUrl, respond).0 == State(s.values, IdAfterConvert(s.values, s.id))
  {
  }

  lemma DeleteOutcome(s: State, baseUrl: string, respond: Sent -> Reply)
    requires Conforms(s.values)
    ensures Convert(s.values).Err? ==> DeleteSpec(s, baseUrl, respond).1 == Some(Convert(s.values).error)
    ensures Convert(s.values).Ok? ==> DeleteSpec(s, baseUrl, respond).1 == DeleteResult(baseUrl, respond, Convert(s.values).value)
    ensures DeleteSpec(s, baseUrl, respond).0 == State(s.values, IdAfterConvert(s.values, s.id))
  {
  }
}
