/**
 * The `opensearch-dashboards_default_index_pattern` resource: a singleton whose one setting,
 * `index_pattern_id`, is the dashboards' default index pattern. Create and Update set the
 * remote pointer to the configured id, Delete clears it (sets it to `null`), and every
 * successful operation names the resource `default-pattern`.
 *
 * Read as the source writes it dereferences the client's "absent" result, which is nil; it is
 * modelled as written by `ReadAsWritten`, and the operation the resource uses, `Read`, treats
 * an absent setting the way the saved-object resource treats an absent object.
 */
module ResourceDefaultIndexPattern {
  import opened Wrappers
  import opened Json
  import opened Http
  import opened DefaultIndexPattern
  import opened Schema
  import opened ProviderMeta

  const ResourceId := "default-pattern"
  const IdKey := "index_pattern_id"

  predicate Conforms(values: map<string, Value>)
  {
    IdKey in values ==> values[IdKey].Str?
  }

  datatype State = State(values: map<string, Value>, id: string)

  /** `d.Set(key, *string)`: a nil pointer stores the zero value. */
  function IdValue(id: Option<string>): Value
  {
    Str(if id.Some? then id.value else "")
  }

  /** How an operation ends as the source is written: it returns, or it panics. */
  datatype Outcome = Returned(err: Option<Error>) | Panicked

  /** `defaultIndexPatternRead` as written: the "absent" result (nil) is dereferenced. */
  function ReadAsWritten(s: State, fetched: Result<Option<RequestBody>, Error>): (State, Outcome)
  {
    match fetched
    case Err(e) => (s, Returned(Some(e)))
    case Ok(None) => (s, Panicked)
    case Ok(Some(body)) => (State(s.values[IdKey := IdValue(body.indexPatternId)], ResourceId), Returned(None))
  }

  /** Read, with an absent setting clearing the id (the resource must be created again) instead
      of panicking. */
  function ApplyRead(s: State, fetched: Result<Option<RequestBody>, Error>): (State, Option<Error>)
  {
    match fetched
    case Err(e) => (s, Some(e))
    case Ok(None) => (s.(id := ""), None)
    case Ok(Some(body)) => (State(s.values[IdKey := IdValue(body.indexPatternId)], ResourceId), None)
  }

  function ReadSpec(s: State, url: string, respond: Sent -> Reply): (State, Option<Error>)
  {
    ApplyRead(s, GetSettingResult(url, respond))
  }

  /** The state after a POST of the setting: named `default-pattern` on success, untouched on
      error. */
  function ApplySet(s: State, err: Option<Error>): (State, Option<Error>)
  {
    if err.Some? then (s, err) else (s.(id := ResourceId), None)
  }

  /** `defaultIndexPatternWrite` (create and update alike). */
  function WriteSpec(s: State, url: string, respond: Sent -> Reply): (State, Option<Error>)
  {
    ApplySet(s, SetResult(url, respond, Some(StringOf(s.values, IdKey))))
  }

  /** `defaultIndexPatternDelete`. */
  function DeleteSpec(s: State, url: string, respond: Sent -> Reply): (State, Option<Error>)
  {
    ApplySet(s, SetResult(url, respond, None))
  }

  method Read(d: ResourceData, meta: Meta) returns (r: Option<Error>)
    modifies d, if meta.Dashboards? then {meta.client.defaultIndexPattern.client} else {}
    ensures meta.Foreign? ==> r == Some(UnexpectedClient) && d.values == old(d.values) && d.id == old(d.id)
    ensures meta.Dashboards? ==>
      var p := meta.client.defaultIndexPattern;
      p.client.log == old(p.client.log) + GetSettingSent(p.url)
      && (State(d.values, d.id), r) == ReadSpec(State(old(d.values), old(d.id)), p.url, p.client.respond)
  {
    if meta.Foreign? {
      return Some(UnexpectedClient);
    }
    var p := meta.client.defaultIndexPattern;
    var resp := p.GetDefaultIndexPattern();
    if resp.Err? {
      return Some(resp.error);
    }
    if resp.value.None? {
      d.SetId("");
      return None;
    }
    d.Set(IdKey, IdValue(resp.value.value.indexPatternId));
    d.SetId(ResourceId);
    r := None;
  }

  method Write(d: ResourceData, meta: Meta) returns (r: Option<Error>)
    modifies d, if meta.Dashboards? then {meta.client.defaultIndexPattern.client} else {}
    ensures meta.Foreign? ==> r == Some(UnexpectedClient) && d.values == old(d.values) && d.id == old(d.id)
    ensures meta.Dashboards? ==>
      var p := meta.client.defaultIndexPattern;
      p.client.log == old(p.client.log) + SetSent(p.url, Some(StringOf(old(d.values), IdKey)))
      && (State(d.values, d.id), r) == WriteSpec(State(old(d.values), old(d.id)), p.url, p.client.respond)
  {
    if meta.Foreign? {
      return Some(UnexpectedClient);
    }
    var p := meta.client.defaultIndexPattern;
    var patternId := StringOf(d.values, IdKey);
    var diagnostics := p.SetDefaultIndexPattern(Some(patternId));
    if diagnostics.Some? {
      return diagnostics;
    }
    d.SetId(ResourceId);
    r := None;
  }

  method Delete(d: ResourceData, meta: Meta) returns (r: Option<Error>)
    modifies d, if meta.Dashboards? then {meta.client.defaultIndexPattern.client} else {}
    ensures meta.Foreign? ==> r == Some(UnexpectedClient) && d.values == old(d.values) && d.id == old(d.id)
    ensures meta.Dashboards? ==>
      var p := meta.client.defaultIndexPattern;
      p.client.log == old(p.client.log) + SetSent(p.url, None)
      && (State(d.values, d.id), r) == DeleteSpec(State(old(d.values), old(d.id)), p.url, p.client.respond)
  {
    if meta.Foreign? {
      return Some(UnexpectedClient);
    }
    var p := meta.client.defaultIndexPattern;
    var diagnostics := p.SetDefaultIndexPattern(None);
    if diagnostics.Some? {
      return diagnostics;
    }
    d.SetId(ResourceId);
    r := None;
  }

  // ---------------------------------------------------------------------------------------
  // Properties
  // ---------------------------------------------------------------------------------------

  /** As written, Read panics on a 404, which the settings client reports as "absent" and not
      as an error. */
  lemma ReadAsWrittenPanicsOn404(s: State, url: string, respond: Sent -> Reply, body: string)
    requires UrlParses(url)
    requires respond(DashboardsRequest(Get, url, NoBody)) == Replied(Response(StatusNotFound, body))
    ensures GetSettingResult(url, respond) == Ok(None)
    ensures ReadAsWritten(s, GetSettingResult(url, respond)).1 == Panicked
  {
    GetAbsentIff404(Replied(Response(StatusNotFound, body)), url);
  }

  /** The corrected Read agrees with the source wherever the source does not panic. */
  lemma ReadAgreesWhereDefined(s: State, fetched: Result<Option<RequestBody>, Error>)
    ensures ReadAsWritten(s, fetched).1.Panicked? <==> fetched == Ok(None)
    ensures ReadAsWritten(s, fetched).1.Returned? ==>
      ApplyRead(s, fetched) == (ReadAsWritten(s, fetched).0, ReadAsWritten(s, fetched).1.err)
  {
  }

  /** An absent setting clears the id without an error, keeping the settings. */
  lemma ReadAbsent(s: State, url: string, respond: Sent -> Reply)
    requires GetSettingResult(url, respond) == Ok(None)
    ensures ReadSpec(s, url, respond) == (State(s.values, ""), None)
  {
  }

  /** Every successful operation that finds or writes the setting names the resource
      `default-pattern`; a provider error is passed through as it is and changes nothing. */
  lemma SuccessNamesResource(s: State, url: string, respond: Sent -> Reply)
    ensures WriteSpec(s, url, respond).1 == None ==> WriteSpec(s, url, respond).0.id == ResourceId
    ensures DeleteSpec(s, url, respond).1 == None ==> DeleteSpec(s, url, respond).0.id == ResourceId
    ensures GetSettingResult(url, respond).Ok? && GetSettingResult(url, respond).value.Some? ==>
      ReadSpec(s, url, respond).1 == None && ReadSpec(s, url, respond).0.id == ResourceId
    ensures SetResult(url, respond, Some(StringOf(s.values, IdKey))).Some? ==>
      WriteSpec(s, url, respond) == (s, SetResult(url, respond, Some(StringOf(s.values, IdKey))))
    ensures SetResult(url, respond, None).Some? ==> DeleteSpec(s, url, respond) == (s, SetResult(url, respond, None))
    ensures GetSettingResult(url, respond).Err? ==> ReadSpec(s, url, respond) == (s, Some(GetSettingResult(url, respond).error))
  {
  }

  /** Delete posts the cleared pointer, an explicit `null`. */
  lemma DeleteSendsNull(url: string)
    requires UrlParses(url)
    ensures SetSent(url, None) == [DashboardsRequest(Post, url, Content("{\"changes\":{\"defaultIndex\":null}}"))]
  {
    ClearText();
  }

  /** Write posts the configured id (the empty string when unset). */
  lemma WriteSendsConfigured(s: State, url: string)
    requires UrlParses(url) && Conforms(s.values)
    ensures var id := if IdKey in s.values then s.values[IdKey].s else "";
      SetSent(url, Some(StringOf(s.values, IdKey)))
      == [DashboardsRequest(Post, url, Content("{\"changes\":{\"defaultIndex\":" + Quote(id) + "}}"))]
  {
    EnvelopeText(Some(StringOf(s.values, IdKey)));
  }

  /** When the server serves back what Write posted, Read stores the configured id again. */
  lemma WriteThenRead(s: State, url: string, respond: Sent -> Reply)
    requires UrlParses(url)
    requires respond(DashboardsRequest(Get, url, NoBody))
          == Replied(Response(StatusOK, SetRequest(url, Some(StringOf(s.values, IdKey))).body.data))
    ensures ReadSpec(s, url, respond).1 == None
    ensures ReadSpec(s, url, respond).0.values == s.values[IdKey := Str(StringOf(s.values, IdKey))]
    ensures ReadSpec(s, url, respond).0.id == ResourceId
  {
    SetThenGet(url, Some(StringOf(s.values, IdKey)));
  }
}
