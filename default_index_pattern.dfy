/**
 * The default-index-pattern client: reads and writes the `defaultIndex` setting through
 * `{base}/_dashboards/api/opensearch-dashboards/settings`.
 *
 * Both directions use the same envelope, `{"changes":{"defaultIndex": <id or null>}}`. A GET
 * on 404 reports "no setting" (not an error); a POST succeeds on 200 only.
 */
module DefaultIndexPattern {
  import opened Wrappers
  import opened Json
  import opened Http

  const SettingsPath := "/_dashboards/api/opensearch-dashboards/settings"

  function SettingsUrl(baseUrl: string): string
  {
    baseUrl + SettingsPath
  }

  /** `OpenSearchRequestBody`: the setting as the resource sees it; `None` is a nil pointer. */
  datatype RequestBody = RequestBody(indexPatternId: Option<string>)

  /** A `*string` as JSON: nil is `null`. */
  function IdJson(id: Option<string>): Json
  {
    if id.Some? then JString(id.value) else JNull
  }

  /** `httpPayload{Changes: httpPayloadChanges{DefaultIndex: id}}` as `json.Marshal` sees it. */
  function EnvelopeJson(id: Option<string>): Json
  {
    JObject(map["changes" := JObject(map["defaultIndex" := IdJson(id)])])
  }

  /** Decoding a `*string` field: absent or `null` is nil, a string is itself, else a type error. */
  function IdField(m: map<string, Json>): Option<Option<string>>
  {
    if "defaultIndex" !in m || m["defaultIndex"] == JNull then Some(None)
    else if m["defaultIndex"].JString? then Some(Some(m["defaultIndex"].s))
    else None
  }

  /** `json.Decoder.Decode` into a fresh `httpPayload`: `null`, or a missing or `null` `changes`,
      leave the zero value (a nil id); other members are ignored; a type mismatch is an error. */
  function EnvelopeFromJson(j: Json): Option<Option<string>>
  {
    match j
    case JNull => Some(None)
    case JObject(m) =>
      if "changes" !in m || m["changes"] == JNull then Some(None)
      else if m["changes"].JObject? then IdField(m["changes"].fields)
      else None
    case _ => None
  }

  /** What `GetDefaultIndexPattern` makes of the reply to its GET: `None` (a nil body, no error)
      on 404, an error on any other status but 200, else the decoded setting. */
  function GetSettingOutcome(reply: Reply, url: string): Result<Option<RequestBody>, Error>
  {
    match reply
    case TransportFailed(reason) => Err(Transport(reason))
    case Replied(res) =>
      if res.status == StatusNotFound then Ok(None)
      else if res.status != StatusOK then Err(Status(Get, url, res.status, res.body))
      else
        match DecodeFirst(res.body)
        case None => Err(ResponseDecode)
        case Some(j) =>
          match EnvelopeFromJson(j)
          case None => Err(ResponseDecode)
          case Some(id) => Ok(Some(RequestBody(id)))
  }

  /** The POST that sets the default index pattern. */
  function SetRequest(url: string, id: Option<string>): Sent
  {
    DashboardsRequest(Post, url, Content(Encode(EnvelopeJson(id))))
  }

  /** The outcome of `GetDefaultIndexPattern` against a server answering with `respond`. */
  function GetSettingResult(url: string, respond: Sent -> Reply): Result<Option<RequestBody>, Error>
  {
    if UrlParses(url) then GetSettingOutcome(respond(DashboardsRequest(Get, url, NoBody)), url) else Err(RequestBuild(url))
  }

  function GetSettingSent(url: string): seq<Sent>
  {
    if UrlParses(url) then [DashboardsRequest(Get, url, NoBody)] else []
  }

  /** The outcome of `SetDefaultIndexPattern(id)` against a server answering with `respond`. */
  function SetResult(url: string, respond: Sent -> Reply, id: Option<string>): Option<Error>
  {
    if UrlParses(url) then StatusOutcome(Post, url, respond(SetRequest(url, id))) else Some(RequestBuild(url))
  }

  function SetSent(url: string, id: Option<string>): seq<Sent>
  {
    if UrlParses(url) then [SetRequest(url, id)] else []
  }

  /** The settings client. */
  class Provider {
    const url: string
    const client: Client

    /** `NewProvider`. */
    constructor (baseUrl: string, client: Client)
      ensures url == SettingsUrl(baseUrl) && this.client == client
    {
      url := baseUrl + SettingsPath;
      this.client := client;
    }

    method GetDefaultIndexPattern() returns (r: Result<Option<RequestBody>, Error>)
      modifies client
      ensures client.log == old(client.log) + GetSettingSent(url)
      ensures r == GetSettingResult(url, client.respond)
    {
      var built := NewRequest(Get, url, NoBody);
      if built.Err? {
        return Err(built.error);
      }
      var req := built.value;
      SetDashboardsHeaders(req);
      var reply := client.Do(req);
      if reply.TransportFailed? {
        return Err(Transport(reply.reason));
      }
      var res := reply.response;
      if res.status == StatusNotFound {
        return Ok(None);
      }
      if res.status != StatusOK {
        return Err(Status(Get, url, res.status, res.body));
      }
      var decoded := DecodeFirst(res.body);
      if decoded.None? {
        return Err(ResponseDecode);
      }
      var result := EnvelopeFromJson(decoded.value);
      if result.None? {
        return Err(ResponseDecode);
      }
      r := Ok(Some(RequestBody(result.value)));
    }

    method SetDefaultIndexPattern(indexPatternId: Option<string>) returns (r: Option<Error>)
      modifies client
      ensures client.log == old(client.log) + SetSent(url, indexPatternId)
      ensures r == SetResult(url, client.respond, indexPatternId)
    {
      var jsonText := Encode(EnvelopeJson(indexPatternId));
      var built := NewRequest(Post, url, Content(jsonText));
      if built.Err? {
        return Some(built.error);
      }
      var req := built.value;
      SetDashboardsHeaders(req);
      var reply := client.Do(req);
      if reply.TransportFailed? {
        return Some(Transport(reply.reason));
      }
      if reply.response.status != StatusOK {
        return Some(Status(Post, url, reply.response.status, reply.response.body));
      }
      r := None;
    }
  }

  // ---------------------------------------------------------------------------------------
  // Properties
  // ---------------------------------------------------------------------------------------

  /** The envelope decodes back to the id it carries, nil included. */
  lemma EnvelopeRoundTrip(id: Option<string>)
    ensures EnvelopeFromJson(EnvelopeJson(id)) == Some(id)
  {
  }

  lemma PlainChanges()
    ensures forall i :: 0 <= i < |"changes"| ==> IsPlain("changes"[i])
  {
  }

  lemma WrapChanges(q: string, k: string)
    requires k == "changes" && q == "\"" + k + "\""
    ensures q == "\"changes\""
  {
  }

  lemma QuotedChanges()
    ensures Quote("changes") == "\"changes\""
  {
    PlainChanges();
    QuotePlain("changes");
    WrapChanges(Quote("changes"), "changes");
  }

  lemma PlainDefaultIndex()
    ensures forall i :: 0 <= i < |"defaultIndex"| ==> IsPlain("defaultIndex"[i])
  {
  }

  lemma WrapDefaultIndex(q: string, k: string)
    requires k == "defaultIndex" && q == "\"" + k + "\""
    ensures q == "\"defaultIndex\""
  {
  }

  lemma QuotedDefaultIndex()
    ensures Quote("defaultIndex") == "\"defaultIndex\""
  {
    PlainDefaultIndex();
    QuotePlain("defaultIndex");
    WrapDefaultIndex(Quote("defaultIndex"), "defaultIndex");
  }

  lemma EnvelopeConcat(outer: string, inner: string, e: string, qc: string, qd: string)
    requires qc == "\"changes\"" && qd == "\"defaultIndex\""
    requires inner == "{" + qd + ":" + e + "}"
    requires outer == "{" + qc + ":" + inner + "}"
    ensures outer == "{\"changes\":{\"defaultIndex\":" + e + "}}"
  {
  }

  /** The body `SetDefaultIndexPattern` posts, written out: the id's own encoding inside the
      fixed envelope. */
  lemma EnvelopeText(id: Option<string>)
    ensures Encode(EnvelopeJson(id)) == "{\"changes\":{\"defaultIndex\":" + Encode(IdJson(id)) + "}}"
  {
    var inner := JObject(map["defaultIndex" := IdJson(id)]);
    EncodeSingleton("defaultIndex", IdJson(id));
    EncodeSingleton("changes", inner);
    assert EnvelopeJson(id) == JObject(map["changes" := inner]);
    QuotedChanges();
    QuotedDefaultIndex();
    EnvelopeConcat(Encode(EnvelopeJson(id)), Encode(inner), Encode(IdJson(id)), Quote("changes"), Quote("defaultIndex"));
  }

  lemma NullConcat(t: string, e: string)
    requires e == "null"
    requires t == "{\"changes\":{\"defaultIndex\":" + e + "}}"
    ensures t == "{\"changes\":{\"defaultIndex\":null}}"
  {
  }

  /** Clearing the setting sends an explicit `null`, not an empty object. */
  lemma ClearText()
    ensures Encode(EnvelopeJson(None)) == "{\"changes\":{\"defaultIndex\":null}}"
  {
    EnvelopeText(None);
    NullConcat(Encode(EnvelopeJson(None)), Encode(IdJson(None)));
  }

  /** "Absent" is a 404 and nothing else; it is not an error. */
  lemma GetAbsentIff404(reply: Reply, url: string)
    ensures GetSettingOutcome(reply, url) == Ok(None) <==> reply.Replied? && reply.response.status == StatusNotFound
  {
  }

  /** Any status other than 200 and 404 is an error carrying that status. */
  lemma GetOtherStatusFails(reply: Reply, url: string)
    requires reply.Replied? && reply.response.status != StatusOK && reply.response.status != StatusNotFound
    ensures GetSettingOutcome(reply, url) == Err(Status(Get, url, reply.response.status, reply.response.body))
  {
  }

  /** A 200 whose body decodes to an envelope yields the id it carries. */
  lemma GetOn200(body: string, j: Json, id: Option<string>, url: string)
    requires DecodeFirst(body) == Some(j) && EnvelopeFromJson(j) == Some(id)
    ensures GetSettingOutcome(Replied(Response(StatusOK, body)), url) == Ok(Some(RequestBody(id)))
  {
  }

  /** What `SetDefaultIndexPattern` posts, served back with 200, reads back as the same id. */
  lemma SetThenGet(url: string, id: Option<string>)
    ensures var posted := SetRequest(url, id).body;
      posted.Content?
      && GetSettingOutcome(Replied(Response(StatusOK, posted.data)), url) == Ok(Some(RequestBody(id)))
  {
    var text := Encode(EnvelopeJson(id));
    DecodeFirstEncode(EnvelopeJson(id), "");
    assert text + "" == text;
    EnvelopeRoundTrip(id);
    GetOn200(text, EnvelopeJson(id), id, url);
  }

  /** A settings reply without the member, or with `null`, reads as "no default" rather than an
      error. */
  lemma MissingDefaultIsNil(m: map<string, Json>)
    requires "changes" !in m || m["changes"] == JNull
      || (m["changes"].JObject? && ("defaultIndex" !in m["changes"].fields || m["changes"].fields["defaultIndex"] == JNull))
    ensures EnvelopeFromJson(JObject(m)) == Some(None)
  {
  }
}
