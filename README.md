# OpenSearch Dashboards Terraform provider: a Dafny model of its core

This project models the logic of a Terraform provider for OpenSearch Dashboards. It covers
four parts.

- **The saved-objects client.** It makes GET, POST (`?overwrite=true`) and DELETE requests on
  `{base}/_dashboards/api/saved_objects/{type}/{id}`. A GET on 404 means "absent", and any
  other status but 200 is an error. The `fields` attribute of an index pattern is dropped
  unless field sync is on, and the attributes are re-encoded as a JSON string.
- **The default-index-pattern client.** It reads and writes the `defaultIndex` setting
  through one envelope, `{"changes":{"defaultIndex": id|null}}`.
- **The two Terraform resources built on these clients.**
  - The saved-object resource: conversion of its configuration into a request, and the
    write-back of a fetched object into the resource state.
  - The default-index-pattern resource: write sets the pointer, delete clears it, and every
    successful operation names the resource `default-pattern`.
- **The AWS Signature Version 4 round tripper.** It copies the request, picks the bytes to
  sign, re-escapes a raw path holding `%2C`, lets the signer add its headers, and merges the
  original headers back without overwriting any of them. A failed preparation never reaches
  the next transport.

The network is a parameter. An `Http.Client` is built from a function `respond` that says
how the server answers each request. Its `Do` logs every request it sends, so each client
method is proved to put exactly the requests its specification names on the wire, and to
return what a function of the server's reply says.

JSON is modelled concretely in `Json`, as `encoding/json` writes it: keys sorted, HTML
characters and control characters escaped. The model proves that decoding the encoding of
any value gives the value back (`Json.DecodeEncode`). The properties about round trips
through text rest on this.

Files:

- `wrappers.dfy`: `Option` and `Result`.
- `strings.dfy`: string order, sorted keys, `strings.Contains`.
- `json.dfy`: the JSON codec and its round trip.
- `http.dfy`: requests, headers, the client, and the 200-only rule.
- `saved_objects_types.dfy`: the records and their JSON field tags.
- `saved_objects.dfy`: the saved-objects client.
- `default_index_pattern.dfy`: the settings client.
- `sigv4.dfy`: the signing round tripper.
- `schema.dfy`: `schema.ResourceData`.
- `provider_meta.dfy`: the client handed to the resources.
- `resource_saved_objects.dfy` and `resource_default_index_pattern.dfy`: the two resources.

Behaviours of the code the model keeps, though a reader might expect otherwise:

- Only status 200 counts as success. A 201 or a 204 is an error.
- Nothing checks that the signing scope (service, region) is non-empty before signing. An
  empty scope is passed to the signer, which may fail.
- When the signed copy and the original request share a header key, the signer's values win
  and the caller's header for that key is dropped: the original headers only fill keys the
  signer left unset.
- Conversion of the saved-object configuration sets the resource id to `obj_id` before it
  checks that `attributes` is valid JSON. So a validation error is not free of effects.
- The default-index-pattern resource's Read dereferences the client's "absent" result. See
  Findings.

## Model

| member | source | states |
|---|---|---|
| Json.DecodeEncode | pkg/saved_objects/saved_objects.go:88-91 | `json.Unmarshal` of `json.Marshal(v)` is `v`, for every JSON value |
| Json.DecodeFirstEncode | pkg/saved_objects/saved_objects.go:79 | a stream decoder reading an encoded value yields that value, whatever follows it that cannot extend a number |
| Json.EncodeInjective | pkg/saved_objects/saved_objects.go:88 | distinct values have distinct encodings |
| Strings.ContainsIffOccurs | pkg/sigv4/sigv4_signer.go:100 | `strings.Contains(s, t)` holds exactly when `t` occurs at some position of `s` |
| Http.NewRequest | pkg/saved_objects/saved_objects.go:49-54 | request construction succeeds exactly when the URL parses; on success the request is fresh, with the given method, URL and body and an empty header map; on failure the error names the URL |
| Http.Client.Do | pkg/saved_objects/saved_objects.go:62 | the request goes out as it stands (appended to the log), and the reply is the server's answer to it |
| Http.SetDashboardsHeaders | pkg/saved_objects/saved_objects.go:55-56 | the request then carries exactly `osd-xsrf: true` and `Content-Type: application/json` |
| Http.StatusOutcomeIff200 | pkg/saved_objects/saved_objects.go:128-134 | a save, delete or settings write succeeds exactly on a reply with status 200; any other status, 404 included, is an error carrying that status and the body |
| SavedObjectTypes.ReferenceFieldsPresent | pkg/saved_objects/types.go:38-42 | a reference always writes `id` and `type`, writes `name` exactly when it is not empty, and writes nothing else |
| SavedObjectTypes.PayloadFieldsPresent | pkg/saved_objects/types.go:25-28 | the POST body holds at most `attributes` and `references`, each exactly when not empty, and never `type` or `id` |
| SavedObjectTypes.ReferencesRoundTrip | pkg/saved_objects/types.go:38-42 | decoding the encoding of a reference list gives the list back |
| SavedObjectTypes.ObjectRoundTrip | pkg/saved_objects/types.go:19-28 | decoding the encoding of an object gives it back, except that an empty attributes map comes back nil (both are omitted) |
| SavedObjectTypes.AttributesRoundTrip | pkg/saved_objects/types.go:26 | an attributes map on its own round-trips exactly, a nil map as `null` |
| SavedObjects.Provider.constructor | pkg/saved_objects/saved_objects.go:38-44 | the provider keeps the base URL, the client and the field-sync flag as given |
| SavedObjects.ObjectUrlInjective | pkg/saved_objects/saved_objects.go:167-170 | on one base URL, `base + "/_dashboards/api/saved_objects/" + type + "/" + id` determines type and id, when the type holds no slash |
| SavedObjects.SaveUrlShape | pkg/saved_objects/saved_objects.go:104 | the save URL is the object URL followed by `?overwrite=true` |
| SavedObjects.Provider.GetObject | pkg/saved_objects/saved_objects.go:46-101 | exactly one GET with the two headers goes out, or none if the URL does not parse; the result is `GetResult` of the server's reply |
| SavedObjects.Provider.SaveObject | pkg/saved_objects/saved_objects.go:103-136 | exactly one POST goes out, to the overwrite URL, with the encoded payload as its body, or none if the URL does not parse; the result is `SaveResult` of the reply |
| SavedObjects.Provider.DeleteObject | pkg/saved_objects/saved_objects.go:138-165 | exactly one DELETE goes out, or none if the URL does not parse; the result is `DeleteResult` of the reply |
| SavedObjects.GetAbsentIff404 | pkg/saved_objects/saved_objects.go:66-68 | GET yields "absent, no error" exactly on a 404 |
| SavedObjects.GetOtherStatusFails | pkg/saved_objects/saved_objects.go:69-75 | on any status but 200 and 404, GET yields an error carrying that status and no object |
| SavedObjects.GetObjectOnlyOn200 | pkg/saved_objects/saved_objects.go:77-82 | an object is returned only for a 200 whose body decodes to an object |
| SavedObjects.StripFieldsKeeps | pkg/saved_objects/saved_objects.go:84-86 | only `fields` is removed, and only from an index pattern with field sync off; every other key stays with its value |
| SavedObjects.StripFieldsIdentity | pkg/saved_objects/saved_objects.go:84 | for any other type, or with field sync on, the attributes are unchanged, `fields` included |
| SavedObjects.StripFieldsIdempotent | pkg/saved_objects/saved_objects.go:84-86 | stripping twice is stripping once |
| SavedObjects.ToTFFaithful | pkg/saved_objects/saved_objects.go:88-98 | the result copies type, id and references, and its attributes string decodes to the stripped map |
| SavedObjects.GetDecodesServedObject | pkg/saved_objects/saved_objects.go:77-100 | a 200 whose body is an encoded object yields that object, with the `fields` rule applied |
| SavedObjects.GetFieldsPresence | pkg/saved_objects/saved_objects_test.go:35-114 | end to end, an object served with a `fields` attribute comes back with `fields` in its attributes string exactly when it is not an index pattern or field sync is on |
| SavedObjects.SaveTwiceSucceeds | pkg/saved_objects/saved_objects_test.go:207-242 | against a server that accepts every POST, a save succeeds, and a second save under another type succeeds too |
| DefaultIndexPattern.Provider.constructor | pkg/default_index_pattern/default_index_pattern.go:32-37 | the URL is fixed as `base + "/_dashboards/api/opensearch-dashboards/settings"` |
| DefaultIndexPattern.Provider.GetDefaultIndexPattern | pkg/default_index_pattern/default_index_pattern.go:39-70 | exactly one GET to the settings URL goes out, or none if the URL does not parse; the result is `GetSettingResult` of the reply |
| DefaultIndexPattern.Provider.SetDefaultIndexPattern | pkg/default_index_pattern/default_index_pattern.go:72-99 | exactly one POST of the envelope for the given id goes to the same URL, or none; the result is `SetResult` of the reply |
| DefaultIndexPattern.GetAbsentIff404 | pkg/default_index_pattern/default_index_pattern.go:52-54 | the GET yields nil and no error exactly on a 404 |
| DefaultIndexPattern.GetOtherStatusFails | pkg/default_index_pattern/default_index_pattern.go:55-61 | on any status but 200 and 404 the GET is an error carrying the status |
| DefaultIndexPattern.GetOn200 | pkg/default_index_pattern/default_index_pattern.go:63-69 | on a 200 the returned id is exactly the decoded `changes.defaultIndex` |
| DefaultIndexPattern.MissingDefaultIsNil | pkg/default_index_pattern/default_index_pattern.go:63-69 | a missing or `null` `changes`, or `defaultIndex`, reads as a nil id, not an error |
| DefaultIndexPattern.EnvelopeRoundTrip | pkg/default_index_pattern/default_index_pattern.go:18-24 | the envelope decodes back to the id it carries, nil included |
| DefaultIndexPattern.EnvelopeText | pkg/default_index_pattern/default_index_pattern.go:73-74 | the posted body is `{"changes":{"defaultIndex":` + the id's encoding + `}}` |
| DefaultIndexPattern.ClearText | pkg/default_index_pattern/default_index_pattern.go:22-24 | a nil id is sent as an explicit `null`: `{"changes":{"defaultIndex":null}}` |
| DefaultIndexPattern.SetThenGet | pkg/default_index_pattern/default_index_pattern.go:63-74 | what Set posts, served back with 200, reads back through Get as the same id |
| SigV4.CopyHeaderWithoutOverwrite | pkg/sigv4/sigv4_signer.go:124-132 | the nested loops leave `dst` equal to `MergeWithoutOverwrite(old dst, src)`, whatever order the keys are visited in |
| SigV4.MergeKeepsExisting | pkg/sigv4/sigv4_signer.go:124-126 | every key already in `dst` keeps exactly its previous values |
| SigV4.MergeAddsAbsent | pkg/sigv4/sigv4_signer.go:124-132 | a key `dst` lacks gets all of `src`'s values in order, or stays absent when `src` has none for it; no key outside `dst` and `src` appears |
| SigV4.MergeIdempotent | pkg/sigv4/sigv4_signer.go:124-132 | merging the same source twice is merging it once |
| SigV4.BodyToSignCases | pkg/sigv4/sigv4_signer.go:91-98 | a nil body is signed as no bytes, content is signed in full, and only an unreadable body fails |
| SigV4.RawPathUntouchedWithoutComma | pkg/sigv4/sigv4_signer.go:100-102 | a raw path without `%2C` is left as it is |
| SigV4.RawPathEscapedWithComma | pkg/sigv4/sigv4_signer.go:100-102 | a raw path with `%2C` is replaced by its path-escaped form |
| SigV4.SignerHeadersWin | pkg/sigv4/sigv4_signer.go:104-109 | every header the signer set survives unchanged, and an original header only fills a key the signer left alone |
| SigV4.SignedRequestFails | pkg/sigv4/sigv4_signer.go:85-112 | preparation fails exactly when the URL does not parse, the body cannot be read, or the signer fails |
| SigV4.SigV4Transport.CreateSignedRequest | pkg/sigv4/sigv4_signer.go:85-112 | the copy is fresh and equals `SignedRequest` of the original, or the error is the one `SignedRequest` names |
| SigV4.SigV4Transport.Exec | pkg/sigv4/sigv4_signer.go:75-83 | a preparation error is returned and nothing reaches `next`; otherwise exactly the signed copy goes to `next`, and its reply is returned unchanged |
| SigV4.Signer.constructor | pkg/sigv4/sigv4_signer.go:56-73 | building the round tripper never fails and keeps its configuration |
| SigV4.Signer.RoundTrip | pkg/sigv4/sigv4_signer.go:50-73 | a call behaves as `Exec` on `next`, or on the default transport when `next` is nil |
| Schema.ResourceData.Set | opensearch/resource_saved_objects.go:171 | the value is stored and the id is untouched |
| Schema.ResourceData.SetId | opensearch/resource_saved_objects.go:98 | the id is replaced and the values are untouched |
| ResourceSavedObjects.BlocksToReferences | opensearch/resource_saved_objects.go:110-123 | one reference per configured block, in order, with id, name and type copied |
| ResourceSavedObjects.ReferencesToBlocks | opensearch/resource_saved_objects.go:181-188 | one block per returned reference, same length, fields copied element by element |
| ResourceSavedObjects.ToRequest | opensearch/resource_saved_objects.go:80-126 | the result is `Convert` of the settings; the id becomes `obj_id` once the three settings are found, before the JSON check |
| ResourceSavedObjects.ConvertMissing | opensearch/resource_saved_objects.go:81-94 | conversion fails with a missing-field error exactly when `obj_id`, `type` or `attributes` is unset (zero values count as unset), naming the first one |
| ResourceSavedObjects.ConvertInvalidAttributes | opensearch/resource_saved_objects.go:98-107 | with the settings present, conversion fails exactly when `attributes` is not a JSON object or `null`, and the id has already moved to `obj_id` |
| ResourceSavedObjects.ConvertFields | opensearch/resource_saved_objects.go:99-123 | a converted object has `obj_id` as ID, `type` as type, the parsed attributes, and one reference per block in order, or none when the set is unset |
| ResourceSavedObjects.ParseAttributesEncode | opensearch/resource_saved_objects.go:102-107 | the attributes of an encoded object parse back to the same map |
| ResourceSavedObjects.ParseFetchedAttributes | pkg/saved_objects/saved_objects.go:84-96 | the attributes string a fetched object carries parses back to the stripped map, or an empty map for a nil one |
| ResourceSavedObjects.Read | opensearch/resource_saved_objects.go:149-198 | a foreign client is refused with nothing changed; otherwise the new state and the error are `ReadSpec` of the old state and the server |
| ResourceSavedObjects.ReadAbsent | opensearch/resource_saved_objects.go:165-169 | an absent object clears the id, keeps the settings and reports no error |
| ResourceSavedObjects.ReadPresent | opensearch/resource_saved_objects.go:171-195 | a present object writes its type, its attributes string and one block per reference, then takes its id; no other setting changes |
| ResourceSavedObjects.ReadError | opensearch/resource_saved_objects.go:160-163 | a failed fetch is reported as it is and leaves the settings alone |
| ResourceSavedObjects.ReadThenConvert | opensearch/resource_saved_objects.go:171-195 | what Read writes converts back to the fetched type, references and attributes |
| ResourceSavedObjects.Write | opensearch/resource_saved_objects.go:200-217 | create and update alike: a foreign client is refused; otherwise the state and error are `WriteSpec` (convert, then save) |
| ResourceSavedObjects.WriteOutcome | opensearch/resource_saved_objects.go:206-216 | a conversion error is returned as it is, otherwise the save's own outcome; only the id can change |
| ResourceSavedObjects.Delete | opensearch/resource_saved_objects.go:128-147 | a foreign client is refused; otherwise the state and error are `DeleteSpec` (convert, then delete) |
| ResourceSavedObjects.DeleteOutcome | opensearch/resource_saved_objects.go:134-146 | a conversion error is returned as it is, otherwise the delete's own outcome |
| ResourceDefaultIndexPattern.ReadAsWrittenPanicsOn404 | opensearch/resource_default_index_pattern.go:51-55 | as written, Read panics when the settings endpoint answers 404 |
| ResourceDefaultIndexPattern.ReadAgreesWhereDefined | opensearch/resource_default_index_pattern.go:45-63 | the corrected Read agrees with the source on every fetch outcome but "absent" |
| ResourceDefaultIndexPattern.Read | opensearch/resource_default_index_pattern.go:45-63 | one GET; the state and error are `ReadSpec`: the fetched id stored and the resource named `default-pattern`, the id cleared when absent, and errors passed through |
| ResourceDefaultIndexPattern.ReadAbsent | opensearch/resource_default_index_pattern.go:51-55 | (corrected) an absent setting clears the id, without an error |
| ResourceDefaultIndexPattern.Write | opensearch/resource_default_index_pattern.go:65-83 | one POST of the configured `index_pattern_id`; the state and error are `WriteSpec` |
| ResourceDefaultIndexPattern.WriteSendsConfigured | opensearch/resource_default_index_pattern.go:72-73 | Write posts `{"changes":{"defaultIndex":"<configured id>"}}` |
| ResourceDefaultIndexPattern.Delete | opensearch/resource_default_index_pattern.go:26-43 | one POST of the cleared pointer; the state and error are `DeleteSpec` |
| ResourceDefaultIndexPattern.DeleteSendsNull | opensearch/resource_default_index_pattern.go:33 | Delete posts `{"changes":{"defaultIndex":null}}` |
| ResourceDefaultIndexPattern.SuccessNamesResource | opensearch/resource_default_index_pattern.go:65-83 | every successful write, delete or read that finds the setting names the resource `default-pattern`; a provider error is returned unchanged and leaves the state alone |
| ResourceDefaultIndexPattern.WriteThenRead | opensearch/resource_default_index_pattern.go:55-60 | when the server serves back what Write posted, Read stores the configured id and names the resource |

## Left out

- Transport, sockets and context cancellation: the server is a function from request to reply, and a transport failure is a reply value.
- The nil dereferences on failure paths are modelled as returned errors. These are:
  - setting headers on a request that failed to build (pkg/saved_objects/saved_objects.go:55-58, pkg/default_index_pattern/default_index_pattern.go:41-45);
  - reading `res.StatusCode` after a transport error (pkg/saved_objects/saved_objects.go:126, 154; pkg/default_index_pattern/default_index_pattern.go:89).
- Error message text is not modelled, including the `%d` given `err` in three messages. A failure to read an error response's body only shortens the message, so it is not modelled either.
- `json.Marshal` failing is not modelled: a map of decoded JSON values always encodes.
- JSON numbers are integers only, and strings are sequences of code points. `\b`/`\f` short escapes and surrogate pairs are not modelled. Go decodes every number in `map[string]any` to a `float64`, so it accepts fractions and exponents, and it rounds integers beyond 2^53 when it encodes them again.
- ResourceSavedObjects.ConvertInvalidAttributes: the model rejects an `attributes` string holding a fraction or an exponent (`{"opacity":0.5}`, `{"n":1e3}`) as invalid JSON, while Go accepts it; the "exactly" holds of integer-only JSON.
- ResourceSavedObjects.ConvertFields: the parsed attributes keep every digit of a large integer; Go keeps the nearest `float64` (`12345678901234567891` becomes `12345678901234567000`).
- SavedObjects.Provider.GetObject: the attributes string re-encodes integers exactly, and a body holding a fraction or an exponent is a decode error in the model; Go re-encodes the `float64` values.
- SavedObjects.Provider.SaveObject: the posted body writes integers exactly; Go writes the `float64` rounding of integers beyond 2^53.
- SavedObjects.GetDecodesServedObject: holds of integer-only JSON; with fractions, exponents or integers beyond 2^53, Go's result differs as above.
- Json.DecodeEncode: the round trip is over integer-only JSON; Go's `map[string]any` round trip loses precision beyond 2^53.
- ResourceSavedObjects.ParseFetchedAttributes: same integer-only domain as `Json.DecodeEncode`.
- Go's case-insensitive matching of JSON keys to struct fields is not modelled: keys match exactly.
- SavedObjects.Provider.GetObject: when the GET body repeats a key, the model keeps its last value (`GetResult` reads a map). Go's decoder merges a repeated `attributes` object into the map it already filled, decodes a repeated `references` array into the slice's existing elements, and leaves `type` or `id` unchanged on a repeated `null`. So `{"type":"search","attributes":{"title":"x"},"attributes":{"b":"y"}}` gives attributes `{"b":"y"}` in the model and `{"b":"y","title":"x"}` in Go.
- DefaultIndexPattern.Provider.GetDefaultIndexPattern: likewise a repeated `changes` key keeps its last value in the model, while Go decodes the repetition into the same `changes` struct: a `null` leaves it as it was, and an object without `defaultIndex` keeps the earlier id. So `{"changes":{"defaultIndex":"p1"},"changes":null}` reads as nil in the model and as `"p1"` in Go.
- URL parsing is approximated. A URL parses when it has no control character and no broken `%` escape before the query. `RawPath` is the path when it holds a `%`, else empty.
- Header keys are not canonicalised (`textproto.CanonicalMIMEHeaderKey`): keys are used as given.
- The AWS signer is a parameter (`Sign`): the HMAC computation, credential lookup, and the body re-attachment it performs are all outside the model. The same goes for `rest.EscapePath` (`escapePath`) and the clock (`now`).
- Reading the body for signing consumes the original request's reader in Go. The model reads it without consuming it.
- `SigV4.Signer.RoundTrip` resolves a nil `next` on every call, as the closure does. Because the captured variable is only ever set to the default transport, the model does not track that assignment.
- `Set.List()` order is the order of the `Refs` sequence. The hash order the SDK uses is not modelled.
- ResourceSavedObjects.ReadPresent: `references` is a `schema.TypeSet`, so `d.Set` collapses identical blocks into one; the model keeps one block per fetched reference, duplicates included.
- ResourceSavedObjects.ReadThenConvert: because duplicates are kept, the converted references equal the fetched list; in Go, a fetched list with identical references (`[r, r]`) converts back with that reference once.
- Go's nil and empty reference slices are one value, the empty sequence. Both are omitted from the JSON.
- `d.Set` on a nil `*string` stores the empty string. Schema type errors from `d.Set` cannot arise with typed values and are not modelled.
- The `SyncIndexPatternFields` field of the settings provider is never read, so it is not modelled.
- Schema literals, `opensearch/provider.go` (configuration, credentials, transport selection) and `main.go` are not part of this model. The base URL is an opaque input.
- zerolog logging is not part of this model.

## Findings

| source | as written | input that shows it | evidently intended | confidence | as-written member | corrected member |
|---|---|---|---|---|---|---|
| opensearch/resource_default_index_pattern.go:51-55 | Read copies `resp.IndexPatternId` without a nil check, but the settings client returns a nil `resp` and no error on 404 | the settings endpoint answers a refresh with 404 | an absent setting is reported like an absent saved object: id cleared, no error (as opensearch/resource_saved_objects.go:165-169 does) | medium, not executed | ResourceDefaultIndexPattern.ReadAsWrittenPanicsOn404 | ResourceDefaultIndexPattern.Read |
