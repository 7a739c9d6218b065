/**
 * The slice of Go's `net/http` the clients and the signer use: request construction
 * (`http.NewRequest`), header maps updated in place (`Header.Set`, `Header.Add`), and a client
 * whose `Do` puts a request on the wire and hands back the server's reply.
 *
 * The network is a parameter: a `Client` is built from a function that says how the server
 * answers a request, and it logs every request it sends, so contracts can speak of exactly
 * what went out.
 */
module Http {
  import opened Wrappers

  datatype Method = Get | Post | Delete

  /** A request body as `io.Reader`: none (`nil`), readable content, or a reader that fails. */
  datatype Body = NoBody | Content(data: string) | Unreadable(reason: string)

  /** A response that arrived: its status code and the text of its body. */
  datatype Response = Response(status: int, body: string)

  /** What `Client.Do` returns: a response, or the transport error (`res` is then `nil`). */
  datatype Reply = Replied(response: Response) | TransportFailed(reason: string)

  const StatusOK := 200
  const StatusNotFound := 404

  /** The errors the core reports as diagnostics, by cause. Message text is not modelled. */
  datatype Error =
    | RequestBuild(url: string)
    | Transport(reason: string)
    | Status(verb: Method, url: string, status: int, body: string)
    | ResponseDecode
    | MissingField(name: string)
    | InvalidAttributes
    | BodyRead(reason: string)
    | Signing(reason: string)
    | UnexpectedClient

  /** A request as it is handed to the transport. */
  datatype Sent = Sent(verb: Method, url: string, rawPath: string, header: map<string, seq<string>>, body: Body)

  /** The values stored under `key`, none when the key is absent. */
  function Values(h: map<string, seq<string>>, key: string): seq<string>
  {
    if key in h then h[key] else []
  }

  predicate IsControl(c: char)
  {
    c < ' ' || c == '\U{7F}'
  }

  predicate IsHex(c: char)
  {
    '0' <= c <= '9' || 'a' <= c <= 'f' || 'A' <= c <= 'F'
  }

  /** Every `%` in `s` starts a two-digit hexadecimal escape. */
  predicate ValidEscapes(s: string)
  {
    forall i :: 0 <= i < |s| && s[i] == '%' ==> i + 2 < |s| && IsHex(s[i + 1]) && IsHex(s[i + 2])
  }

  /** The text before the first `?`: the part of a URL whose escapes `url.Parse` checks. */
  function BeforeQuery(url: string): (r: string)
    ensures |r| <= |url| && r == url[..|r|]
    ensures '?' !in r
  {
    if url == [] || url[0] == '?' then [] else [url[0]] + BeforeQuery(url[1..])
  }

  /** `url.Parse` accepts the URL: no control character anywhere, no broken escape before the query. */
  predicate UrlParses(url: string)
  {
    (forall i :: 0 <= i < |url| ==> !IsControl(url[i])) && ValidEscapes(BeforeQuery(url))
  }

  /** The escaped path Go keeps in `URL.RawPath`: the path as written when it holds an escape. */
  function RawPathOf(url: string): string
  {
    var p := PathOf(url);
    if '%' in p then p else ""
  }

  /** The path of an absolute URL: from the first `/` after `scheme://host` up to the query. */
  function PathOf(url: string): string
  {
    var b := BeforeQuery(url);
    var afterScheme := AfterSchemeSeparator(b);
    DropUntilSlash(afterScheme)
  }

  function AfterSchemeSeparator(s: string): string
  {
    if |s| < 3 then s
    else if s[..3] == "://" then s[3..]
    else AfterSchemeSeparator(s[1..])
  }

  function DropUntilSlash(s: string): (r: string)
    ensures |r| <= |s|
  {
    if s == [] || s[0] == '/' then s else DropUntilSlash(s[1..])
  }

  /** An `http.Header`: a map from keys to value lists that methods update in place. */
  class Header {
    var entries: map<string, seq<string>>

    constructor ()
      ensures entries == map[]
    {
      entries := map[];
    }

    /** `Header.Set`: the key's values become exactly `[value]`. */
    method Set(key: string, value: string)
      modifies this
      ensures entries == old(entries)[key := [value]]
    {
      entries := entries[key := [value]];
    }

    /** `Header.Add`: `value` is appended to the key's values. */
    method Add(key: string, value: string)
      modifies this
      ensures entries == old(entries)[key := Values(old(entries), key) + [value]]
    {
      entries := entries[key := Values(entries, key) + [value]];
    }
  }

  /** An `http.Request` under construction. */
  class Request {
    var verb: Method
    var url: string
    var rawPath: string
    var body: Body
    const header: Header

    /** `http.NewRequest` once `url.Parse` has accepted the URL; the header map starts empty. */
    constructor (verb: Method, url: string, body: Body)
      requires UrlParses(url)
      ensures this.verb == verb && this.url == url && this.body == body
      ensures rawPath == RawPathOf(url)
      ensures fresh(header) && header.entries == map[]
    {
      this.verb := verb;
      this.url := url;
      this.rawPath := RawPathOf(url);
      this.body := body;
      header := new Header();
    }

    /** The request as the transport sees it. */
    function Snapshot(): Sent
      reads this, header
    {
      Sent(verb, url, rawPath, header.entries, body)
    }
  }

  /** `http.NewRequestWithContext`: fails, sending nothing, when the URL does not parse. */
  method NewRequest(verb: Method, url: string, body: Body) returns (r: Result<Request, Error>)
    ensures r.Ok? <==> UrlParses(url)
    ensures r.Err? ==> r.error == RequestBuild(url)
    ensures r.Ok? ==> fresh(r.value) && fresh(r.value.header)
    ensures r.Ok? ==> r.value.Snapshot() == Sent(verb, url, RawPathOf(url), map[], body)
  {
    if UrlParses(url) {
      var req := new Request(verb, url, body);
      r := Ok(req);
    } else {
      r := Err(RequestBuild(url));
    }
  }

  /** An `http.Client` (or any `http.RoundTripper`): `respond` is the other end of the wire. */
  class Client {
    const respond: Sent -> Reply
    var log: seq<Sent>

    constructor (respond: Sent -> Reply)
      ensures this.respond == respond && log == []
    {
      this.respond := respond;
      log := [];
    }

    /** `Client.Do`: the request goes out as it stands, and the server's reply comes back. */
    method Do(req: Request) returns (reply: Reply)
      modifies this
      ensures log == old(log) + [req.Snapshot()]
      ensures reply == respond(req.Snapshot())
    {
      var sent := req.Snapshot();
      log := log + [sent];
      reply := respond(sent);
    }
  }

  /** The two headers every dashboards request carries, as `Header.Set` leaves them. */
  function DashboardsHeaders(): map<string, seq<string>>
  {
    map["osd-xsrf" := ["true"], "Content-Type" := ["application/json"]]
  }

  /** Sets the dashboards headers on a fresh request. */
  method SetDashboardsHeaders(req: Request)
    requires req.header.entries == map[]
    modifies req.header
    ensures req.header.entries == DashboardsHeaders()
  {
    req.header.Set("osd-xsrf", "true");
    req.header.Set("Content-Type", "application/json");
  }

  /** A dashboards request as it goes on the wire: the two headers and nothing else. */
  function DashboardsRequest(verb: Method, url: string, body: Body): Sent
  {
    Sent(verb, url, RawPathOf(url), DashboardsHeaders(), body)
  }

  /** What a write or a delete makes of its reply: success on 200 only. */
  function StatusOutcome(verb: Method, url: string, reply: Reply): Option<Error>
  {
    match reply
    case TransportFailed(reason) => Some(Transport(reason))
    case Replied(res) => if res.status != StatusOK then Some(Status(verb, url, res.status, res.body)) else None
  }

  /** Success is a 200 and nothing else; every other status, 404 included, is an error carrying
      that status and the response body. */
  lemma StatusOutcomeIff200(verb: Method, url: string, reply: Reply)
    ensures StatusOutcome(verb, url, reply) == None <==> reply.Replied? && reply.response.status == StatusOK
    ensures reply.Replied? && reply.response.status != StatusOK ==>
      StatusOutcome(verb, url, reply) == Some(Status(verb, url, reply.response.status, reply.response.body))
  {
  }
}
