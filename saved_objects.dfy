/**
 * The saved-objects client: one HTTP exchange per operation against
 * `{base}/_dashboards/api/saved_objects/{type}/{id}`.
 *
 * Each method builds its request, sets the two dashboards headers, sends it through the
 * provider's client and interprets the reply. What a reply means is stated once, by the
 * functions `GetOutcome` and `Http.StatusOutcome`; the methods are proved to send exactly one
 * request and to return what those functions say of the reply.
 */
module SavedObjects {
  import opened Wrappers
  import opened Json
  import opened Http
  import opened SavedObjectTypes

  const IndexPatternType := "index-pattern"
  const ApiPrefix := "/_dashboards/api/saved_objects"
  const OverwriteQuery := "?overwrite=true"

  /** The provider's `URL(path)`: the base URL, the API prefix, then the path, verbatim. */
  function ApiUrl(baseUrl: string, path: string): string
  {
    baseUrl + ApiPrefix + path
  }

  /** `/{type}/{id}`. */
  function ObjectPath(objType: string, id: string): string
  {
    "/" + objType + "/" + id
  }

  function ObjectUrl(baseUrl: string, obj: SavedObjectOSD): string
  {
    ApiUrl(baseUrl, ObjectPath(obj.objType, obj.id))
  }

  /** The save URL: the object URL with `?overwrite=true`. */
  function SaveUrl(baseUrl: string, obj: SavedObjectOSD): string
  {
    ApiUrl(baseUrl, ObjectPath(obj.objType, obj.id) + OverwriteQuery)
  }

  /** Drops `fields` from an index pattern's attributes unless field sync is on. Deleting from a
      nil map does nothing. */
  function StripFields(objType: string, syncFields: bool, attributes: Option<map<string, Json>>): Option<map<string, Json>>
  {
    if objType == IndexPatternType && !syncFields && attributes.Some? then Some(attributes.value - {"fields"})
    else attributes
  }

  /** The resource-side record of a fetched object: the attributes re-encoded as a string. */
  function ToTF(obj: SavedObjectOSD, syncFields: bool): SavedObjectTF
  {
    var attributes := StripFields(obj.objType, syncFields, obj.payload.attributes);
    SavedObjectTF(obj.objType, obj.id, Encode(AttributesJson(attributes)), obj.payload.references)
  }

  /** What `GetObject` makes of the reply to its GET: absent on 404, an error on any other
      status but 200, else the decoded object with its attributes stripped and re-encoded. */
  function GetOutcome(reply: Reply, url: string, syncFields: bool): Result<Option<SavedObjectTF>, Error>
  {
    match reply
    case TransportFailed(reason) => Err(Transport(reason))
    case Replied(res) =>
      if res.status == StatusNotFound then Ok(None)
      else if res.status != StatusOK then Err(Status(Get, url, res.status, res.body))
      else
        match DecodeFirst(res.body)
        case None => Err(ResponseDecode)
        case Some(j) =>
          match ObjectFromJson(j)
          case None => Err(ResponseDecode)
          case Some(obj) => Ok(Some(ToTF(obj, syncFields)))
  }

  /** The POST request: the payload alone is the body. */
  function SaveRequest(url: string, obj: SavedObjectOSD): Sent
  {
    DashboardsRequest(Post, url, Content(Encode(PayloadJson(obj.payload))))
  }

  /** The outcome of `GetObject` against a server answering with `respond`: a request-build
      failure sends nothing, otherwise the reply to the one GET decides. */
  function GetResult(baseUrl: string, respond: Sent -> Reply, syncFields: bool, obj: SavedObjectOSD): Result<Option<SavedObjectTF>, Error>
  {
    var url := ObjectUrl(baseUrl, obj);
    if UrlParses(url) then GetOutcome(respond(DashboardsRequest(Get, url, NoBody)), url, syncFields)
    else Err(RequestBuild(url))
  }

  /** The requests `GetObject` (and likewise `DeleteObject`, with `verb`) puts on the wire. */
  function ObjectSent(verb: Method, baseUrl: string, obj: SavedObjectOSD): seq<Sent>
  {
    var url := ObjectUrl(baseUrl, obj);
    if UrlParses(url) then [DashboardsRequest(verb, url, NoBody)] else []
  }

  function SaveResult(baseUrl: string, respond: Sent -> Reply, obj: SavedObjectOSD): Option<Error>
  {
    var url := SaveUrl(baseUrl, obj);
    if UrlParses(url) then StatusOutcome(Post, url, respond(SaveRequest(url, obj))) else Some(RequestBuild(url))
  }

  function SaveSent(baseUrl: string, obj: SavedObjectOSD): seq<Sent>
  {
    var url := SaveUrl(baseUrl, obj);
    if UrlParses(url) then [SaveRequest(url, obj)] else []
  }

  function DeleteResult(baseUrl: string, respond: Sent -> Reply, obj: SavedObjectOSD): Option<Error>
  {
    var url := ObjectUrl(baseUrl, obj);
    if UrlParses(url) then StatusOutcome(Delete, url, respond(DashboardsRequest(Delete, url, NoBody))) else Some(RequestBuild(url))
  }

  /** `SavedObjectsProvider`. */
  class Provider {
    const baseUrl: string
    const client: Client
    const syncIndexPatternFields: bool

    /** `NewSavedObjectsProvider`. */
    constructor (baseUrl: string, client: Client, syncIndexPatternFields: bool)
      ensures this.baseUrl == baseUrl && this.client == client
      ensures this.syncIndexPatternFields == syncIndexPatternFields
    {
      this.baseUrl := baseUrl;
      this.client := client;
      this.syncIndexPatternFields := syncIndexPatternFields;
    }

    /** `URL(path)`. */
    function Url(path: string): string
    {
      ApiUrl(baseUrl, path)
    }

    method GetObject(obj: SavedObjectOSD) returns (r: Result<Option<SavedObjectTF>, Error>)
      modifies client
      ensures client.log == old(client.log) + ObjectSent(Get, baseUrl, obj)
      ensures r == GetResult(baseUrl, client.respond, syncIndexPatternFields, obj)
    {
      var url := Url(ObjectPath(obj.objType, obj.id));
      var built := NewRequest(Get, url, NoBody);
      if built.Err? {
        return Err(built.error);
      }
      var req := built.value;
      SetDashboardsHeaders(req);
      var reply := client.Do(req);
      if reply.TransportFailed? {
        return Err(Transport(reply.reason));
      }
      var res := reply.response;
      if res.status == StatusNotFound {
        return Ok(None);
      }
      if res.status != StatusOK {
        return Err(Status(Get, url, res.status, res.body));
      }
      var decoded := DecodeFirst(res.body);
      if decoded.None? {
        return Err(ResponseDecode);
      }
      var fetched := ObjectFromJson(decoded.value);
      if fetched.None? {
        return Err(ResponseDecode);
      }
      var attributes := fetched.value.payload.attributes;
      if fetched.value.objType == IndexPatternType && !syncIndexPatternFields && attributes.Some? {
        attributes := Some(attributes.value - {"fields"});
      }
      var stringified := Encode(AttributesJson(attributes));
      r := Ok(Some(SavedObjectTF(fetched.value.objType, fetched.value.id, stringified, fetched.value.payload.references)));
    }

    method SaveObject(obj: SavedObjectOSD) returns (r: Option<Error>)
      modifies client
      ensures client.log == old(client.log) + SaveSent(baseUrl, obj)
      ensures r == SaveResult(baseUrl, client.respond, obj)
    {
      var url := Url(ObjectPath(obj.objType, obj.id) + OverwriteQuery);
      var jsonText := Encode(PayloadJson(obj.payload));
      var built := NewRequest(Post, url, Content(jsonText));
      if built.Err? {
        return Some(built.error);
      }
      var req := built.value;
      SetDashboardsHeaders(req);
      var reply := client.Do(req);
      if reply.TransportFailed? {
        return Some(Transport(reply.reason));
      }
      if reply.response.status != StatusOK {
        return Some(Status(Post, url, reply.response.status, reply.response.body));
      }
      r := None;
    }

    method DeleteObject(obj: SavedObjectOSD) returns (r: Option<Error>)
      modifies client
      ensures client.log == old(client.log) + ObjectSent(Delete, baseUrl, obj)
      ensures r == DeleteResult(baseUrl, client.respond, obj)
    {
      var url := Url(ObjectPath(obj.objType, obj.id));
      var built := NewRequest(Delete, url, NoBody);
      if built.Err? {
        return Some(built.error);
      }
      var req := built.value;
      SetDashboardsHeaders(req);
      var reply := client.Do(req);
      if reply.TransportFailed? {
        return Some(Transport(reply.reason));
      }
      if reply.response.status != StatusOK {
        return Some(Status(Delete, url, reply.response.status, reply.response.body));
      }
      r := None;
    }
  }

  // ---------------------------------------------------------------------------------------
  // URLs
  // ---------------------------------------------------------------------------------------

  /** Two strings joined by a slash split back apart when the first holds no slash. */
  lemma SplitAtSlash(a: string, b: string, c: string, d: string)
    requires '/' !in a && '/' !in c
    requires a + "/" + b == c + "/" + d
    ensures a == c && b == d
  {
    var s := a + "/" + b;
    assert s[|a|] == '/' && s[|c|] == '/';
    assert forall i :: 0 <= i < |a| ==> s[i] == a[i];
    assert forall i :: 0 <= i < |c| ==> s[i] == c[i];
    assert |a| == |c|;
    assert a == s[..|a|] == c;
    assert b == s[|a| + 1..] == d;
  }

  /** Distinct objects have distinct URLs on one base, when types hold no slash (ids may). */
  lemma ObjectUrlInjective(baseUrl: string, t1: string, id1: string, t2: string, id2: string)
    requires '/' !in t1 && '/' !in t2
    requires ApiUrl(baseUrl, ObjectPath(t1, id1)) == ApiUrl(baseUrl, ObjectPath(t2, id2))
    ensures t1 == t2 && id1 == id2
  {
    var prefix := baseUrl + ApiPrefix + "/";
    var u1 := ApiUrl(baseUrl, ObjectPath(t1, id1));
    var u2 := ApiUrl(baseUrl, ObjectPath(t2, id2));
    assert u1 == prefix + (t1 + "/" + id1);
    assert u2 == prefix + (t2 + "/" + id2);
    assert t1 + "/" + id1 == u1[|prefix|..] == u2[|prefix|..] == t2 + "/" + id2;
    SplitAtSlash(t1, id1, t2, id2);
  }

  /** The save URL is the object URL followed by `?overwrite=true`, under the fixed prefix. */
  lemma {:induction false} SaveUrlShape(baseUrl: string, obj: SavedObjectOSD)
    ensures SaveUrl(baseUrl, obj) == ObjectUrl(baseUrl, obj) + OverwriteQuery
    ensures SaveUrl(baseUrl, obj) == baseUrl + "/_dashboards/api/saved_objects/" + obj.objType + "/" + obj.id + "?overwrite=true"
  {
    assert SaveUrl(baseUrl, obj) == baseUrl + ApiPrefix + ("/" + obj.objType + "/" + obj.id + OverwriteQuery);
  }

  // ---------------------------------------------------------------------------------------
  // The `fields` rule
  // ---------------------------------------------------------------------------------------

  /** Only `fields` is ever removed, only from an index pattern without field sync, and every
      value that stays is unchanged. */
  lemma StripFieldsKeeps(objType: string, syncFields: bool, attributes: Option<map<string, Json>>)
    ensures StripFields(objType, syncFields, attributes).Some? == attributes.Some?
    ensures attributes.Some? ==> forall k ::
      k in StripFields(objType, syncFields, attributes).value <==>
      k in attributes.value && (k != "fields" || objType != IndexPatternType || syncFields)
    ensures attributes.Some? ==> forall k :: k in StripFields(objType, syncFields, attributes).value ==>
      StripFields(objType, syncFields, attributes).value[k] == attributes.value[k]
  {
  }

  /** Any other type, or field sync on, leaves the attributes exactly as decoded. */
  lemma StripFieldsIdentity(objType: string, syncFields: bool, attributes: Option<map<string, Json>>)
    requires objType != IndexPatternType || syncFields
    ensures StripFields(objType, syncFields, attributes) == attributes
  {
  }

  lemma StripFieldsIdempotent(objType: string, syncFields: bool, attributes: Option<map<string, Json>>)
    ensures StripFields(objType, syncFields, StripFields(objType, syncFields, attributes))
         == StripFields(objType, syncFields, attributes)
  {
    if objType == IndexPatternType && !syncFields && attributes.Some? {
      assert attributes.value - {"fields"} - {"fields"} == attributes.value - {"fields"};
    }
  }

  // ---------------------------------------------------------------------------------------
  // Status rules
  // ---------------------------------------------------------------------------------------

  /** "Absent" is a 404 and nothing else; it is not an error. */
  lemma GetAbsentIff404(reply: Reply, url: string, syncFields: bool)
    ensures GetOutcome(reply, url, syncFields) == Ok(None) <==> reply.Replied? && reply.response.status == StatusNotFound
  {
  }

  /** Any status other than 200 and 404 is an error carrying that status, and no object. */
  lemma GetOtherStatusFails(reply: Reply, url: string, syncFields: bool)
    requires reply.Replied? && reply.response.status != StatusOK && reply.response.status != StatusNotFound
    ensures GetOutcome(reply, url, syncFields) == Err(Status(Get, url, reply.response.status, reply.response.body))
  {
  }

  /** An object is returned only for a 200 whose body decodes. */
  lemma GetObjectOnlyOn200(reply: Reply, url: string, syncFields: bool)
    requires GetOutcome(reply, url, syncFields).Ok? && GetOutcome(reply, url, syncFields).value.Some?
    ensures reply.Replied? && reply.response.status == StatusOK
    ensures DecodeFirst(reply.response.body).Some?
    ensures ObjectFromJson(DecodeFirst(reply.response.body).value).Some?
  {
  }

  // ---------------------------------------------------------------------------------------
  // A fetched object
  // ---------------------------------------------------------------------------------------

  /** The record copies type, id and references, and its attributes string decodes to the
      stripped map (`nil` as `null`). */
  lemma ToTFFaithful(obj: SavedObjectOSD, syncFields: bool)
    ensures ToTF(obj, syncFields).objType == obj.objType && ToTF(obj, syncFields).id == obj.id
    ensures ToTF(obj, syncFields).references == obj.payload.references
    ensures Decode(ToTF(obj, syncFields).attributes).Some?
    ensures AttributesFromJson(Decode(ToTF(obj, syncFields).attributes).value)
         == Some(StripFields(obj.objType, syncFields, obj.payload.attributes))
  {
    var a := StripFields(obj.objType, syncFields, obj.payload.attributes);
    DecodeEncode(AttributesJson(a));
    AttributesRoundTrip(a);
  }

  /** A 200 whose body decodes to an object yields that object's record. */
  lemma GetOn200(body: string, j: Json, obj: SavedObjectOSD, url: string, syncFields: bool)
    requires DecodeFirst(body) == Some(j) && ObjectFromJson(j) == Some(obj)
    ensures GetOutcome(Replied(Response(StatusOK, body)), url, syncFields) == Ok(Some(ToTF(obj, syncFields)))
  {
  }

  /** A 200 whose body is the encoding of an object, as the dashboards API sends it, yields that
      object with the `fields` rule applied. */
  lemma GetDecodesServedObject(obj: SavedObjectOSD, url: string, syncFields: bool)
    ensures GetOutcome(Replied(Response(StatusOK, Encode(ObjectJson(obj)))), url, syncFields)
         == Ok(Some(ToTF(Normalized(obj), syncFields)))
  {
    var body := Encode(ObjectJson(obj));
    DecodeFirstEncode(ObjectJson(obj), "");
    assert body + "" == body;
    ObjectRoundTrip(obj);
    GetOn200(body, ObjectJson(obj), Normalized(obj), url, syncFields);
  }

  /** End to end, as the server-side tests exercise it: an object served with a `fields`
      attribute comes back with `fields` in its attributes string exactly when it is not an
      index pattern or field sync is on. */
  lemma GetFieldsPresence(served: SavedObjectOSD, url: string, syncFields: bool)
    requires served.payload.attributes.Some? && "fields" in served.payload.attributes.value
    ensures var outcome := GetOutcome(Replied(Response(StatusOK, Encode(ObjectJson(served)))), url, syncFields);
      outcome.Ok? && outcome.value.Some?
      && Decode(outcome.value.value.attributes).Some?
      && Decode(outcome.value.value.attributes).value.JObject?
      && ("fields" in Decode(outcome.value.value.attributes).value.fields
          <==> served.objType != IndexPatternType || syncFields)
  {
    GetDecodesServedObject(served, url, syncFields);
    assert Normalized(served) == served;
    ToTFFaithful(served, syncFields);
    StripFieldsKeeps(served.objType, syncFields, served.payload.attributes);
  }

  /** Saving is not a create-once operation: against a server that accepts every POST, saving an
      object succeeds, and saving it again under another type succeeds too. */
  lemma SaveTwiceSucceeds(baseUrl: string, respond: Sent -> Reply, obj: SavedObjectOSD, otherType: string)
    requires forall s: Sent :: s.verb == Post ==> respond(s).Replied? && respond(s).response.status == StatusOK
    requires UrlParses(SaveUrl(baseUrl, obj)) && UrlParses(SaveUrl(baseUrl, obj.(objType := otherType)))
    ensures SaveResult(baseUrl, respond, obj) == None
    ensures SaveResult(baseUrl, respond, obj.(objType := otherType)) == None
  {
    var second := obj.(objType := otherType);
    StatusOutcomeIff200(Post, SaveUrl(baseUrl, obj), respond(SaveRequest(SaveUrl(baseUrl, obj), obj)));
    StatusOutcomeIff200(Post, SaveUrl(baseUrl, second), respond(SaveRequest(SaveUrl(baseUrl, second), second)));
  }
}
