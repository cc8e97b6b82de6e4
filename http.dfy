/**
 * HTTP as the wrappers see it through `urllib.request`: requests with
 * headers and a body, replies that are a body, an HTTP error status or a
 * transport failure, and the User-Agent rule the container handler
 * installs around `urlopen` and `requests.request`.
 */
module Http {
  import opened Wrappers
  import opened Text
  import opened Json

  datatype Body = NoBody | JsonBody(doc: Json) | RawBody(bytes: seq<byte>)

  /** A `urllib.request.Request`: header names are stored as `str.capitalize()` makes them. */
  datatype Request = Request(verb: string, url: string, headers: map<string, string>, body: Body)

  /**
   * What sending a request gives: the body of a successful reply, an
   * `HTTPError` (its status, its `str()` and its body) or any other failure
   * (its `str()`).
   */
  datatype Reply =
    | Ok(body: seq<byte>)
    | HttpError(code: int, describe: string, errorBody: seq<byte>)
    | Failed(cause: string)

  /**
   * The library functions the wrappers call: the network, `json.loads` of
   * a UTF-8 body (failing with the text of the decode error), UTF-8
   * decoding, `str()` of a value, and `urllib.parse.urlencode`.
   */
  datatype Wire = Wire(
    send: Request -> Reply,
    parse: seq<byte> -> Result<Json, string>,
    text: seq<byte> -> string,
    render: Json -> string,
    urlencode: seq<(string, string)> -> string)

  /** `Request.add_header`: the name is capitalised before it is stored. */
  function AddHeader(req: Request, name: string, value: string): (r: Request)
    ensures r.headers == req.headers[Capitalize(name) := value]
    ensures r.verb == req.verb && r.url == req.url && r.body == req.body
  {
    req.(headers := req.headers[Capitalize(name) := value])
  }

  /** `Request.has_header`: a literal look-up of the stored name. */
  predicate HasHeader(req: Request, name: string)
  {
    name in req.headers
  }

  const UserAgent: string :=
    "SeBS/1.2 (https://github.com/spcl/serverless-benchmarks) SeBS Benchmark Suite/1.2"

  /** `has_header('User-Agent')` never sees a header stored by `add_header`, whose name is "User-agent". */
  lemma CapitalizedNeverUserAgent(name: string)
    ensures Capitalize(name) != "User-Agent"
  {
    var c := Capitalize(name);
    if |c| == 10 {
      assert c[5] == LowerChar(name[5]);
      assert "User-Agent"[5] == 'A';
    }
  }

  /** An exception a client raises: a `RuntimeError` with its message, or any other kind. */
  datatype Error = RuntimeError(message: string) | OtherError(message: string)

  /** What `urlopen` is called with: a URL string or a prepared request. */
  datatype Target = UrlString(url: string, data: Body) | Prepared(req: Request)

  /**
   * `patched_urlopen`: a URL string becomes a request carrying the
   * User-Agent; a request gets one unless it already has a header
   * stored literally as "User-Agent".
   */
  function PatchedUrlopen(t: Target): (r: Request)
  {
    match t
    case UrlString(url, data) =>
      var verb := if data.NoBody? then "GET" else "POST";
      AddHeader(Request(verb, url, map[], data), "User-Agent", UserAgent)
    case Prepared(req) =>
      if HasHeader(req, "User-Agent") then req else AddHeader(req, "User-Agent", UserAgent)
  }

  /**
   * Whatever `urlopen` is given, a request whose headers were all added
   * through `add_header` leaves with the SeBS User-Agent.
   */
  lemma PatchedUrlopenSetsAgent(t: Target)
    requires t.Prepared? ==> forall k :: k in t.req.headers ==> exists n :: k == Capitalize(n)
    ensures "User-agent" in PatchedUrlopen(t).headers && PatchedUrlopen(t).headers["User-agent"] == UserAgent
    ensures PatchedUrlopen(t).url == (if t.UrlString? then t.url else t.req.url)
  {
    assert Capitalize("User-Agent") == "User-agent";
    if t.Prepared? && HasHeader(t.req, "User-Agent") {
      var n :| "User-Agent" == Capitalize(n);
      CapitalizedNeverUserAgent(n);
    }
  }

  /**
   * `patched_request` around `requests.request`: the header dict is
   * created when absent and gets the User-Agent unless it has one.
   */
  function PatchedRequestHeaders(headers: Option<map<string, string>>): (h: map<string, string>)
    ensures "User-Agent" in h
    ensures headers.Some? && "User-Agent" in headers.value ==> h == headers.value
    ensures headers.Some? && "User-Agent" !in headers.value ==> h == headers.value["User-Agent" := UserAgent]
    ensures headers.None? ==> h == map["User-Agent" := UserAgent]
  {
    var base := if headers.Some? then headers.value else map[];
    if "User-Agent" in base then base else base["User-Agent" := UserAgent]
  }

  /** `d['key']` on a decoded reply: a missing key or a non-dict value raises. */
  function Field(v: Json, key: string): (r: Result<Json, string>)
    ensures r.Success? <==> v.JObj? && key in v.fields
    ensures r.Success? ==> r.value == v.fields[key]
  {
    if !v.JObj? then Failure("TypeError: not a dict")
    else if key !in v.fields then Failure("'" + key + "'")
    else Success(v.fields[key])
  }
}
