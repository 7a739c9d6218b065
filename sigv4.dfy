/**
 * The AWS Signature Version 4 middleware: a round tripper that copies each outgoing request,
 * prepares the bytes and path to sign, has the signer add its headers, merges the original
 * headers back without overwriting any the signer set, and hands the copy to the next
 * transport.
 *
 * The signature itself belongs to the AWS signer and is a parameter (`sign`), as is the
 * path-escaping routine of the AWS REST protocol package (`escapePath`) and the clock (`now`).
 */
module SigV4 {
  import opened Wrappers
  import opened Strings
  import opened Http

  type HeaderMap = map<string, seq<string>>

  /** `Config`: where the signature is scoped. */
  datatype Config = Config(service: string, region: string)

  /** What the signer is given: the copied request as it stands when `Sign` is called (its
      header map is still empty), the bytes to sign, the scope and the time. */
  datatype SigningInput = SigningInput(
    verb: Method, url: string, rawPath: string, payload: string,
    service: string, region: string, now: int)

  /** The signer: the headers it sets on the empty header map, or why it failed. */
  type Sign = SigningInput -> Result<HeaderMap, string>

  // ---------------------------------------------------------------------------------------
  // Merging headers
  // ---------------------------------------------------------------------------------------

  /** The header map `copyHeaderWithoutOverwrite(dst, src)` leaves: every key of `dst` as it
      was, and every other key of `src` with all its values (a key whose value list is empty
      gets nothing added, so it stays absent). */
  function MergeWithoutOverwrite(dst: HeaderMap, src: HeaderMap): HeaderMap
  {
    map k | k in dst.Keys + src.Keys && (k in dst || |src[k]| > 0) :: if k in dst then dst[k] else src[k]
  }

  /** `copyHeaderWithoutOverwrite`: for each key of `src` (in map order, which Go leaves
      unspecified) that `dst` does not hold, add its values one by one. */
  method CopyHeaderWithoutOverwrite(dst: Header, src: HeaderMap)
    modifies dst
    ensures dst.entries == MergeWithoutOverwrite(old(dst.entries), src)
  {
    ghost var original := dst.entries;
    var remaining := src.Keys;
    while remaining != {}
      invariant remaining <= src.Keys
      invariant dst.entries == MergeWithoutOverwrite(original, src - remaining)
      decreases remaining
    {
      var k :| k in remaining;
      ghost var before := dst.entries;
      MergeLacks(original, src - remaining, k);
      if k !in dst.entries {
        var vv := src[k];
        var i := 0;
        while i < |vv|
          invariant 0 <= i <= |vv|
          invariant dst.entries == if i == 0 then before else before[k := vv[..i]]
        {
          dst.Add(k, vv[i]);
          assert vv[..i + 1] == vv[..i] + [vv[i]];
          i := i + 1;
        }
        assert vv[..|vv|] == vv;
        MergeStepAdd(original, src, remaining, k);
      } else {
        MergeStepKeep(original, src, remaining, k);
      }
      remaining := remaining - {k};
    }
    assert src - {} == src;
  }

  /** A key not yet visited is in the merge so far exactly when it was in `dst`. */
  lemma MergeLacks(dst: HeaderMap, done: HeaderMap, k: string)
    requires k !in done
    ensures k in MergeWithoutOverwrite(dst, done) <==> k in dst
    ensures k in dst ==> MergeWithoutOverwrite(dst, done)[k] == dst[k]
  {
  }

  /** Visiting a key that `dst` lacks adds its values, or nothing when it has none. */
  lemma MergeStepAdd(dst: HeaderMap, src: HeaderMap, remaining: set<string>, k: string)
    requires k in remaining && remaining <= src.Keys && k !in dst
    ensures var before := MergeWithoutOverwrite(dst, src - remaining);
      MergeWithoutOverwrite(dst, src - (remaining - {k}))
      == if |src[k]| == 0 then before else before[k := src[k]]
  {
    var before := MergeWithoutOverwrite(dst, src - remaining);
    var after := MergeWithoutOverwrite(dst, src - (remaining - {k}));
    var expected := if |src[k]| == 0 then before else before[k := src[k]];
    assert after.Keys == expected.Keys;
  }

  /** Visiting a key that `dst` holds changes nothing. */
  lemma MergeStepKeep(dst: HeaderMap, src: HeaderMap, remaining: set<string>, k: string)
    requires k in remaining && remaining <= src.Keys && k in dst
    ensures MergeWithoutOverwrite(dst, src - (remaining - {k})) == MergeWithoutOverwrite(dst, src - remaining)
  {
    var before := MergeWithoutOverwrite(dst, src - remaining);
    var after := MergeWithoutOverwrite(dst, src - (remaining - {k}));
    assert after.Keys == before.Keys;
  }

  /** Keys already present keep exactly their previous values. */
  lemma MergeKeepsExisting(dst: HeaderMap, src: HeaderMap)
    ensures forall k :: k in dst ==> k in MergeWithoutOverwrite(dst, src) && MergeWithoutOverwrite(dst, src)[k] == dst[k]
  {
  }

  /** A key `dst` lacks gets all of `src`'s values in order, or stays absent when it has none;
      no key outside `dst` and `src` appears. */
  lemma MergeAddsAbsent(dst: HeaderMap, src: HeaderMap)
    ensures forall k :: k !in dst && k in src && |src[k]| > 0 ==>
      k in MergeWithoutOverwrite(dst, src) && MergeWithoutOverwrite(dst, src)[k] == src[k]
    ensures forall k :: k !in dst && (k !in src || |src[k]| == 0) ==> k !in MergeWithoutOverwrite(dst, src)
    ensures MergeWithoutOverwrite(dst, src).Keys <= dst.Keys + src.Keys
  {
  }

  /** Merging the same source twice is merging it once. */
  lemma MergeIdempotent(dst: HeaderMap, src: HeaderMap)
    ensures MergeWithoutOverwrite(MergeWithoutOverwrite(dst, src), src) == MergeWithoutOverwrite(dst, src)
  {
    var once := MergeWithoutOverwrite(dst, src);
    var twice := MergeWithoutOverwrite(once, src);
    assert twice.Keys == once.Keys;
  }

  // ---------------------------------------------------------------------------------------
  // Preparing the copy
  // ---------------------------------------------------------------------------------------

  /** The bytes to sign: none for a nil body, else everything read from it. */
  function BodyToSign(body: Body): Result<string, Error>
  {
    match body
    case NoBody => Ok("")
    case Content(data) => Ok(data)
    case Unreadable(reason) => Err(BodyRead(reason))
  }

  /** The raw path after preparation: re-escaped when it holds `%2C`, otherwise as it was. */
  function PreparedRawPath(rawPath: string, escapePath: string -> string): string
  {
    if Contains(rawPath, "%2C") then escapePath(rawPath) else rawPath
  }

  /** `createSignedRequest`, as a value: the copy the next transport receives, or the error
      that stops it. */
  function SignedRequest(orig: Sent, config: Config, sign: Sign, escapePath: string -> string, now: int): Result<Sent, Error>
  {
    if !UrlParses(orig.url) then Err(RequestBuild(orig.url))
    else
      match BodyToSign(orig.body)
      case Err(e) => Err(e)
      case Ok(payload) =>
        var rawPath := PreparedRawPath(RawPathOf(orig.url), escapePath);
        match sign(SigningInput(orig.verb, orig.url, rawPath, payload, config.service, config.region, now))
        case Err(reason) => Err(Signing(reason))
        case Ok(signed) => Ok(Sent(orig.verb, orig.url, rawPath, MergeWithoutOverwrite(signed, orig.header), orig.body))
  }

  /** `SigV4Transport`: one signer configuration in front of the next transport. */
  class SigV4Transport {
    const config: Config
    const next: Client
    const sign: Sign
    const escapePath: string -> string

    constructor (config: Config, next: Client, sign: Sign, escapePath: string -> string)
      ensures this.config == config && this.next == next && this.sign == sign && this.escapePath == escapePath
    {
      this.config := config;
      this.next := next;
      this.sign := sign;
      this.escapePath := escapePath;
    }

    method CreateSignedRequest(origReq: Request, now: int) returns (r: Result<Request, Error>)
      ensures var expected := SignedRequest(origReq.Snapshot(), config, sign, escapePath, now);
        (r.Ok? <==> expected.Ok?)
        && (r.Err? ==> r.error == expected.error)
        && (r.Ok? ==> fresh(r.value) && fresh(r.value.header) && r.value.Snapshot() == expected.value)
    {
      var built := NewRequest(origReq.verb, origReq.url, origReq.body);
      if built.Err? {
        return Err(RequestBuild(origReq.url));
      }
      var req := built.value;
      var payload := "";
      if req.body != NoBody {
        if req.body.Unreadable? {
          return Err(BodyRead(req.body.reason));
        }
        payload := req.body.data;
      }
      if Contains(req.rawPath, "%2C") {
        req.rawPath := escapePath(req.rawPath);
      }
      var signed := sign(SigningInput(req.verb, req.url, req.rawPath, payload, config.service, config.region, now));
      if signed.Err? {
        return Err(Signing(signed.error));
      }
      // The signer writes its headers into the copy's (empty) header map.
      req.header.entries := signed.value;
      CopyHeaderWithoutOverwrite(req.header, origReq.header.entries);
      r := Ok(req);
    }

    /** `exec`: a failed preparation goes back to the caller and nothing reaches `next`;
        otherwise `next`'s reply is returned as it is. */
    method Exec(origReq: Request, now: int) returns (r: Result<Reply, Error>)
      modifies next
      ensures var expected := SignedRequest(old(origReq.Snapshot()), config, sign, escapePath, now);
        if expected.Err? then
          r == Err(expected.error) && next.log == old(next.log)
        else
          next.log == old(next.log) + [expected.value] && r == Ok(next.respond(expected.value))
    {
      var signed := CreateSignedRequest(origReq, now);
      if signed.Err? {
        return Err(signed.error);
      }
      var reply := next.Do(signed.value);
      r := Ok(reply);
    }
  }

  /** The round tripper `NewSigner` returns (a `RoundTripperFunc` around its closure). */
  class Signer {
    const config: Config
    const next: Option<Client>
    const defaultTransport: Client
    const sign: Sign
    const escapePath: string -> string

    /** `NewSigner`: never fails; creating the AWS signer cannot fail either. */
    constructor (config: Config, next: Option<Client>, defaultTransport: Client, sign: Sign, escapePath: string -> string)
      ensures this.config == config && this.next == next && this.defaultTransport == defaultTransport
      ensures this.sign == sign && this.escapePath == escapePath
    {
      this.config := config;
      this.next := next;
      this.defaultTransport := defaultTransport;
      this.sign := sign;
      this.escapePath := escapePath;
    }

    /** The transport the closure forwards to: `next`, or the default one when `next` is nil. */
    function Forward(): Client
    {
      if next.Some? then next.value else defaultTransport
    }

    /** `RoundTripperFunc.RoundTrip`: calls the closure, which builds a `SigV4Transport` over the
        forward transport and runs `exec`. */
    method RoundTrip(r: Request, now: int) returns (result: Result<Reply, Error>)
      modifies Forward()
      ensures var expected := SignedRequest(old(r.Snapshot()), config, sign, escapePath, now);
        if expected.Err? then
          result == Err(expected.error) && Forward().log == old(Forward().log)
        else
          Forward().log == old(Forward().log) + [expected.value] && result == Ok(Forward().respond(expected.value))
    {
      var forward := defaultTransport;
      if next.Some? {
        forward := next.value;
      }
      var m := new SigV4Transport(config, forward, sign, escapePath);
      result := m.Exec(r, now);
    }
  }

  // ---------------------------------------------------------------------------------------
  // Properties of the preparation
  // ---------------------------------------------------------------------------------------

  /** A nil body is signed as no bytes; content is signed in full; only an unreadable body
      fails. */
  lemma BodyToSignCases(body: Body)
    ensures BodyToSign(body).Err? <==> body.Unreadable?
    ensures body == NoBody ==> BodyToSign(body) == Ok("")
    ensures body.Content? ==> BodyToSign(body) == Ok(body.data)
  {
  }

  /** The raw path is rewritten only when `%2C` occurs in it. */
  lemma RawPathUntouchedWithoutComma(rawPath: string, escapePath: string -> string)
    requires forall i :: !OccursAt(rawPath, "%2C", i)
    ensures PreparedRawPath(rawPath, escapePath) == rawPath
  {
    ContainsIffOccurs(rawPath, "%2C");
  }

  lemma RawPathEscapedWithComma(rawPath: string, escapePath: string -> string, i: nat)
    requires OccursAt(rawPath, "%2C", i)
    ensures PreparedRawPath(rawPath, escapePath) == escapePath(rawPath)
  {
    ContainsIffOccurs(rawPath, "%2C");
  }

  /** The copy keeps every header the signer set, exactly; an original header only fills a
      key the signer left alone. */
  lemma SignerHeadersWin(orig: Sent, config: Config, sign: Sign, escapePath: string -> string, now: int)
    requires SignedRequest(orig, config, sign, escapePath, now).Ok?
    ensures var out := SignedRequest(orig, config, sign, escapePath, now).value;
      var payload := BodyToSign(orig.body).value;
      var input := SigningInput(orig.verb, orig.url, out.rawPath, payload, config.service, config.region, now);
      sign(input).Ok?
      && (forall k :: k in sign(input).value ==> k in out.header && out.header[k] == sign(input).value[k])
      && (forall k :: k in out.header && k !in sign(input).value ==> k in orig.header && out.header[k] == orig.header[k])
  {
    var payload := BodyToSign(orig.body).value;
    var rawPath := PreparedRawPath(RawPathOf(orig.url), escapePath);
    var input := SigningInput(orig.verb, orig.url, rawPath, payload, config.service, config.region, now);
    MergeKeepsExisting(sign(input).value, orig.header);
  }

  /** Preparation fails exactly when the URL does not parse, the body cannot be read, or the
      signer fails. */
  lemma SignedRequestFails(orig: Sent, config: Config, sign: Sign, escapePath: string -> string, now: int)
    ensures SignedRequest(orig, config, sign, escapePath, now).Err? <==>
      !UrlParses(orig.url) || orig.body.Unreadable?
      || sign(SigningInput(orig.verb, orig.url, PreparedRawPath(RawPathOf(orig.url), escapePath),
                           BodyToSign(orig.body).value, config.service, config.region, now)).Err?
  {
  }
}
