/**
 * `ContainerHandler.handle_request` of the Python container: builds the
 * benchmark event from the JSON body and the query string, hands the
 * worker URL to the storage and NoSQL clients, runs the benchmark and
 * wraps its result.
 */
module ContainerHandler {
  import opened Wrappers
  import opened Text
  import opened Json
  import opened Dicts
  import Envelope
  import Storage
  import NoSql

  /** An incoming request: the path with its query, the headers and the raw body. */
  datatype HttpRequest = HttpRequest(path: string, headers: map<string, string>, body: seq<byte>)

  /** What is written back: status, Content-Type header if any, and the body text. */
  datatype Response = Response(status: int, contentType: Option<string>, body: string)

  /**
   * The code the handler calls but does not define: UTF-8 decoding,
   * `json.loads`, `parse_qs` of the path's query, the benchmark (its result
   * or the text of its exception), `str`, `json.dumps` and the traceback.
   */
  datatype Env = Env(
    decode: seq<byte> -> Result<string, string>,
    loads: string -> Result<Json, string>,
    query: string -> Dict<string, seq<string>>,
    benchmark: map<string, Json> -> Result<Json, string>,
    str: Json -> string,
    dumps: Json -> string,
    traceback: string)

  const FaviconReply: Response := Response(200, None, "None")
  const JsonType: string := "application/json"
  const HtmlType: string := "text/html; charset=utf-8"

  predicate IsFavicon(path: string)
  {
    Contains(path, "favicon")
  }

  /** `int(v)` when it parses, else the text itself. */
  function Coerce(v: string): (j: Json)
    ensures ParseInt(v).Some? ==> j == JInt(ParseInt(v).value)
    ensures ParseInt(v).None? ==> j == JStr(v)
  {
    match ParseInt(v)
    case Some(n) => JInt(n)
    case None => JStr(v)
  }

  /** The query loop: each name absent from the event takes its first value. */
  function QueryFill(event: map<string, Json>, params: Dict<string, seq<string>>): (e: map<string, Json>)
    decreases |params|
  {
    if |params| == 0 then event
    else
      var (key, values) := params[0];
      var next := if key !in event && |values| > 0 then event[key := Coerce(values[0])] else event;
      QueryFill(next, params[1..])
  }

  /** The query loop as the handler runs it. */
  method FillFromQuery(event: map<string, Json>, params: Dict<string, seq<string>>) returns (e: map<string, Json>)
    ensures e == QueryFill(event, params)
  {
    e := event;
    for i := 0 to |params|
      invariant QueryFill(e, params[i..]) == QueryFill(event, params)
    {
      assert params[i..][1..] == params[i + 1..];
      var (key, values) := params[i];
      if key !in e && |values| > 0 {
        e := e[key := Coerce(values[0])];
      }
    }
    assert params[|params|..] == [];
  }

  /** A key already in the event is never replaced by a query parameter. */
  lemma {:induction false} BodyKeysWin(event: map<string, Json>, params: Dict<string, seq<string>>, k: string)
    requires k in event
    ensures k in QueryFill(event, params) && QueryFill(event, params)[k] == event[k]
    decreases |params|
  {
    if |params| > 0 {
      var (key, values) := params[0];
      var next := if key !in event && |values| > 0 then event[key := Coerce(values[0])] else event;
      BodyKeysWin(next, params[1..], k);
    }
  }

  /** The keys of the filled event: the event's, and every parameter name with a value. */
  lemma {:induction false} QueryFillKeys(event: map<string, Json>, params: Dict<string, seq<string>>)
    ensures QueryFill(event, params).Keys
      == event.Keys + set i | 0 <= i < |params| && |params[i].1| > 0 :: params[i].0
    decreases |params|
  {
    if |params| > 0 {
      var (key, values) := params[0];
      var next := if key !in event && |values| > 0 then event[key := Coerce(values[0])] else event;
      QueryFillKeys(next, params[1..]);
      var tail := set i | 0 <= i < |params[1..]| && |params[1..][i].1| > 0 :: params[1..][i].0;
      var all := set i | 0 <= i < |params| && |params[i].1| > 0 :: params[i].0;
      assert next.Keys == event.Keys + (if |values| > 0 then {key} else {});
      forall x | x in all ensures x in next.Keys + tail {
        var i :| 0 <= i < |params| && |params[i].1| > 0 && params[i].0 == x;
        if i > 0 {
          assert params[1..][i - 1] == params[i];
        }
      }
      forall x | x in tail ensures x in all {
        var i :| 0 <= i < |params[1..]| && |params[1..][i].1| > 0 && params[1..][i].0 == x;
        assert params[1..][i] == params[i + 1];
      }
    }
  }

  /** A name absent from the body takes its first value, coerced, when `parse_qs` gives it once. */
  lemma {:induction false} QueryFillsAbsent(event: map<string, Json>, params: Dict<string, seq<string>>, i: nat)
    requires Distinct(params)
    requires i < |params| && params[i].0 !in event && |params[i].1| > 0
    ensures params[i].0 in QueryFill(event, params)
    ensures QueryFill(event, params)[params[i].0] == Coerce(params[i].1[0])
    decreases |params|
  {
    var (key, values) := params[0];
    var next := if key !in event && |values| > 0 then event[key := Coerce(values[0])] else event;
    if i == 0 {
      BodyKeysWin(next, params[1..], key);
    } else {
      assert params[1..][i - 1] == params[i];
      assert Distinct(params[1..]) by {
        forall a, b | 0 <= a < b < |params[1..]| ensures params[1..][a].0 != params[1..][b].0 {
          assert params[1..][a] == params[a + 1] && params[1..][b] == params[b + 1];
        }
      }
      assert params[i].0 != key;
      QueryFillsAbsent(next, params[1..], i - 1);
    }
  }

  /** `int(self.headers.get('Content-Length', 0))`. */
  function ContentLength(headers: map<string, string>): (r: Option<int>)
    ensures "Content-Length" !in headers ==> r == Some(0)
    ensures "Content-Length" in headers ==> r == ParseInt(headers["Content-Length"])
  {
    if "Content-Length" in headers then ParseInt(headers["Content-Length"]) else Some(0)
  }

  /** The body text: the first `n` bytes decoded, or '' when `n` is not positive. */
  function BodyText(req: HttpRequest, n: int, env: Env): (r: Result<string, string>)
    ensures n <= 0 ==> r == Success("")
    ensures n > 0 ==> r == env.decode(req.body[..if n < |req.body| then n else |req.body|])
  {
    if n > 0 then env.decode(req.body[..if n < |req.body| then n else |req.body|]) else Success("")
  }

  /** The event before the query loop: the body's JSON, or {} for an empty or undecodable body. */
  function BodyEvent(text: string, env: Env): (r: Json)
    ensures text == "" ==> r == JObj(map[])
    ensures text != "" && env.loads(text).Failure? ==> r == JObj(map[])
    ensures text != "" && env.loads(text).Success? ==> r == env.loads(text).value
  {
    if text == "" then JObj(map[])
    else match env.loads(text)
      case Success(v) => v
      case Failure(_) => JObj(map[])
  }

  /**
   * The event the benchmark receives, or the text of the exception raised
   * building it. A body that is JSON but not an object fails once a key is
   * assigned, which always happens.
   */
  function EventOf(req: HttpRequest, reqId: nat, timestamp: real, env: Env): (r: Result<map<string, Json>, string>)
    ensures r.Success? ==> "request-id" in r.value && r.value["request-id"] == JStr(NatToString(reqId))
    ensures r.Success? ==> "income-timestamp" in r.value && r.value["income-timestamp"] == JReal(timestamp)
    ensures r.Success? <==>
      ContentLength(req.headers).Some?
      && BodyText(req, ContentLength(req.headers).value, env).Success?
      && BodyEvent(BodyText(req, ContentLength(req.headers).value, env).value, env).JObj?
  {
    match ContentLength(req.headers)
    case None => Failure("ValueError: invalid literal for int() with base 10")
    case Some(n) =>
      match BodyText(req, n, env)
      case Failure(e) => Failure(e)
      case Success(text) =>
        var body := BodyEvent(text, env);
        if !body.JObj? then Failure("TypeError: object does not support item assignment")
        else
          var filled := QueryFill(body.fields, env.query(req.path));
          Success(filled["request-id" := JStr(NatToString(reqId))]["income-timestamp" := JReal(timestamp)])
  }

  /** The reply to a benchmark result: the HTML of its 'result', or the JSON envelope. */
  function Reply(event: map<string, Json>, result: Json, env: Env): (r: Result<Response, string>)
    ensures r.Success? <==> result.JObj? && "result" in result.fields
    ensures r.Success? && "html" in event && Truthy(event["html"]) ==>
      r.value == Response(200, Some(HtmlType), env.str(result.fields["result"]))
    ensures r.Success? && !("html" in event && Truthy(event["html"])) ==>
      r.value == Response(200, Some(JsonType), env.dumps(Envelope.Wrap(Envelope.LogData(result.fields, false))))
  {
    if !result.JObj? || "result" !in result.fields then Failure("KeyError: 'result'")
    else if "html" in event && Truthy(event["html"]) then
      Success(Response(200, Some(HtmlType), env.str(result.fields["result"])))
    else
      Success(Response(200, Some(JsonType), env.dumps(Envelope.Wrap(Envelope.LogData(result.fields, false)))))
  }

  /** The 500 reply to an exception. */
  function ErrorReply(message: string, env: Env): (r: Response)
    ensures r.status == 500 && r.contentType == Some(JsonType)
    ensures r.body == env.dumps(JObj(map["error" := JStr(message), "traceback" := JStr(env.traceback)]))
  {
    Response(500, Some(JsonType), env.dumps(JObj(map["error" := JStr(message), "traceback" := JStr(env.traceback)])))
  }

  /** What `handle_request` writes back. */
  function Handle(req: HttpRequest, reqId: nat, timestamp: real, env: Env): (r: Response)
    ensures IsFavicon(req.path) ==> r == FaviconReply
    ensures !IsFavicon(req.path) && EventOf(req, reqId, timestamp, env).Failure? ==>
      r == ErrorReply(EventOf(req, reqId, timestamp, env).error, env)
    ensures !IsFavicon(req.path) && EventOf(req, reqId, timestamp, env).Success? ==>
      var event := EventOf(req, reqId, timestamp, env).value;
      (env.benchmark(event).Failure? ==> r == ErrorReply(env.benchmark(event).error, env))
      && (env.benchmark(event).Success? && Reply(event, env.benchmark(event).value, env).Success? ==>
            r == Reply(event, env.benchmark(event).value, env).value)
      && (env.benchmark(event).Success? && Reply(event, env.benchmark(event).value, env).Failure? ==>
            r == ErrorReply(Reply(event, env.benchmark(event).value, env).error, env))
  {
    if IsFavicon(req.path) then FaviconReply
    else
      match EventOf(req, reqId, timestamp, env)
      case Failure(e) => ErrorReply(e, env)
      case Success(event) =>
        match env.benchmark(event)
        case Failure(e) => ErrorReply(e, env)
        case Success(result) =>
          match Reply(event, result, env)
          case Success(ok) => ok
          case Failure(e) => ErrorReply(e, env)
  }

  /** A favicon request is answered without consulting the body, the query or the benchmark. */
  lemma FaviconIgnoresBenchmark(req: HttpRequest, reqId: nat, timestamp: real, env: Env, other: Env)
    requires IsFavicon(req.path)
    ensures Handle(req, reqId, timestamp, env) == Handle(req, reqId, timestamp, other) == FaviconReply
  {
  }

  /** A body that is not JSON gives the event a query-only start, as an empty body would. */
  lemma InvalidJsonBodyIsEmpty(req: HttpRequest, reqId: nat, timestamp: real, env: Env)
    requires ContentLength(req.headers).Some?
    requires var text := BodyText(req, ContentLength(req.headers).value, env);
      text.Success? && env.loads(text.value).Failure?
    ensures EventOf(req, reqId, timestamp, env).Success?
    ensures EventOf(req, reqId, timestamp, env).value
      == QueryFill(map[], env.query(req.path))["request-id" := JStr(NatToString(reqId))]["income-timestamp" := JReal(timestamp)]
  {
  }

  /** The worker URL header, when it is set and non-empty. */
  function WorkerUrlHeader(headers: map<string, string>): Option<string>
  {
    if "X-Worker-URL" in headers && headers["X-Worker-URL"] != "" then Some(headers["X-Worker-URL"]) else None
  }

  /**
   * `handle_request`: the worker URL goes to both proxy clients before the
   * body is read, then the reply is computed as `Handle` says.
   */
  method HandleRequest(req: HttpRequest, reqId: nat, timestamp: real, env: Env,
                       storage: Storage.StorageClass, nosql: NoSql.NoSqlClass) returns (r: Response)
    modifies storage, nosql
    ensures r == Handle(req, reqId, timestamp, env)
    ensures !IsFavicon(req.path) && WorkerUrlHeader(req.headers).Some? ==>
      storage.workerUrl == WorkerUrlHeader(req.headers) && nosql.workerUrl == WorkerUrlHeader(req.headers)
    ensures IsFavicon(req.path) || WorkerUrlHeader(req.headers).None? ==>
      storage.workerUrl == old(storage.workerUrl) && nosql.workerUrl == old(nosql.workerUrl)
    ensures storage.instance == old(storage.instance) && nosql.instance == old(nosql.instance)
  {
    if IsFavicon(req.path) {
      return FaviconReply;
    }
    var url := WorkerUrlHeader(req.headers);
    if url.Some? {
      storage.SetWorkerUrl(url);
      nosql.SetWorkerUrl(url);
    }
    var event := EventOf(req, reqId, timestamp, env);
    if event.Failure? {
      return ErrorReply(event.error, env);
    }
    var filled := FillFromQuery(BodyEvent(BodyText(req, ContentLength(req.headers).value, env).value, env).fields,
                                env.query(req.path));
    assert filled["request-id" := JStr(NatToString(reqId))]["income-timestamp" := JReal(timestamp)] == event.value;
    var result := env.benchmark(event.value);
    if result.Failure? {
      return ErrorReply(result.error, env);
    }
    var reply := Reply(event.value, result.value, env);
    r := if reply.Success? then reply.value else ErrorReply(reply.error, env);
  }
}
