/**
 * `Default.fetch` of the Python worker: a hand-rolled query-string parser
 * builds the event, the benchmark runs, and its result is wrapped.
 */
module WorkerHandler {
  import opened Wrappers
  import opened Text
  import opened Json
  import Envelope

  /** What the worker answers: the favicon stub, the raw HTML result, or the envelope as JSON text. */
  datatype Reply = FaviconStub | Html(result: Json) | Enveloped(text: string)

  /**
   * The code `fetch` calls but does not define: `json.dumps`, and the
   * benchmark (its result or the text of its exception).
   */
  datatype Env = Env(dumps: Json -> string, benchmark: map<string, Json> -> Result<Json, string>)

  /** The text between the first '?' and the next one, if the URL has a '?'. */
  function QueryText(url: string): (q: Option<string>)
    ensures q.Some? <==> '?' in url
    ensures q.Some? ==> '?' !in q.value
  {
    var parts := Split(url, '?');
    SplitNoSeparator(url, '?');
    SplitWithout(url, '?');
    JoinSplit(url, '?');
    if |parts| > 1 then
      assert parts[1] in parts;
      Some(parts[1])
    else
      assert url == parts[0];
      None
  }

  /** The query text is what lies between the first '?' and the next one, or the end of the URL. */
  lemma QueryTextBetween(base: string, query: string, rest: string)
    requires '?' !in base && '?' !in query
    ensures QueryText(base + "?" + query) == Some(query)
    ensures QueryText(base + "?" + query + "?" + rest) == Some(query)
  {
    assert base + "?" + query == base + ['?'] + query;
    SplitAround(base, query, '?');
    SplitWithout(query, '?');
    assert base + "?" + query + "?" + rest == base + ['?'] + (query + ['?'] + rest);
    SplitAround(base, query + ['?'] + rest, '?');
    SplitAround(query, rest, '?');
  }

  /** The event entry one '&'-chunk gives: int of the second '=' part, else that text, else None. */
  function ChunkEntry(chunk: string): (e: (string, Json))
    ensures '=' !in chunk ==> e == (chunk, JNull)
  {
    var param := Split(chunk, '=');
    SplitWithout(chunk, '=');
    if |param| < 2 then (param[0], JNull)
    else
      (param[0], match ParseInt(param[1]) case Some(n) => JInt(n) case None => JStr(param[1]))
  }

  /** "name=value" gives the name and `int(value)` when that parses, else the value as text. */
  lemma ChunkEntryValue(name: string, value: string)
    requires '=' !in name && '=' !in value
    ensures ChunkEntry(name + "=" + value)
         == (name, if ParseInt(value).Some? then JInt(ParseInt(value).value) else JStr(value))
  {
    assert name + "=" + value == name + ['='] + value;
    SplitAround(name, value, '=');
    SplitWithout(value, '=');
  }

  /** The query loop: each chunk assigns its entry, so later chunks overwrite earlier ones. */
  function Assign(event: map<string, Json>, chunks: seq<string>): (e: map<string, Json>)
    ensures event.Keys <= e.Keys
    decreases |chunks|
  {
    if |chunks| == 0 then event
    else
      var (name, value) := ChunkEntry(chunks[0]);
      Assign(event[name := value], chunks[1..])
  }

  /** The query loop as `fetch` runs it. */
  method AssignChunks(event: map<string, Json>, chunks: seq<string>) returns (e: map<string, Json>)
    ensures e == Assign(event, chunks)
  {
    e := event;
    for i := 0 to |chunks|
      invariant Assign(e, chunks[i..]) == Assign(event, chunks)
    {
      assert chunks[i..][1..] == chunks[i + 1..];
      var (name, value) := ChunkEntry(chunks[i]);
      e := e[name := value];
    }
    assert chunks[|chunks|..] == [];
  }

  /** The last chunk decides its name's value. */
  lemma {:induction false} LastChunkWins(event: map<string, Json>, chunks: seq<string>, last: string)
    ensures Assign(event, chunks + [last]) == Assign(event, chunks)[ChunkEntry(last).0 := ChunkEntry(last).1]
    decreases |chunks|
  {
    if |chunks| == 0 {
      assert chunks + [last] == [last];
    } else {
      assert (chunks + [last])[1..] == chunks[1..] + [last];
      var (name, value) := ChunkEntry(chunks[0]);
      LastChunkWins(event[name := value], chunks[1..], last);
    }
  }

  /** A name no chunk mentions keeps its value. */
  lemma {:induction false} AssignFrame(event: map<string, Json>, chunks: seq<string>, k: string)
    requires forall i :: 0 <= i < |chunks| ==> ChunkEntry(chunks[i]).0 != k
    ensures k in Assign(event, chunks) <==> k in event
    ensures k in event ==> Assign(event, chunks)[k] == event[k]
    decreases |chunks|
  {
    if |chunks| > 0 {
      var (name, value) := ChunkEntry(chunks[0]);
      assert name != k;
      assert forall i :: 0 <= i < |chunks[1..]| ==> chunks[1..][i] == chunks[i + 1];
      AssignFrame(event[name := value], chunks[1..], k);
    }
  }

  /** A name's value in the event is set by the last chunk that names it. */
  lemma LastChunkValue(event: map<string, Json>, chunks: seq<string>, name: string, value: string)
    requires '=' !in name && '=' !in value
    ensures name in Assign(event, chunks + [name + "=" + value])
    ensures Assign(event, chunks + [name + "=" + value])[name]
         == if ParseInt(value).Some? then JInt(ParseInt(value).value) else JStr(value)
  {
    LastChunkWins(event, chunks, name + "=" + value);
    ChunkEntryValue(name, value);
  }

  /** Everything after a second '=' in a chunk is ignored. */
  lemma ExtraEqualsIgnored(name: string, value: string, rest: string)
    requires '=' !in name && '=' !in value
    ensures ChunkEntry(name + "=" + value + "=" + rest) == ChunkEntry(name + "=" + value)
  {
    SplitAround(name, value + "=" + rest, '=');
    assert name + "=" + value + "=" + rest == name + ['='] + (value + "=" + rest);
    SplitAround(value, rest, '=');
    assert value + "=" + rest == value + ['='] + rest;
    SplitAround(name, value, '=');
    SplitWithout(value, '=');
    assert name + "=" + value == name + ['='] + value;
  }

  /** The event built from the URL, before the metadata keys. */
  function QueryEvent(url: string): (e: map<string, Json>)
    ensures QueryText(url).None? ==> e == map[]
  {
    match QueryText(url)
    case None => map[]
    case Some(q) => Assign(map[], Split(q, '&'))
  }

  /**
   * The event the benchmark receives. A body text that is None reaches
   * `json.loads(None)`, which raises; any other body is ignored.
   */
  function EventOf(url: string, bodyText: Option<string>, timestamp: real): (r: Result<map<string, Json>, string>)
    ensures bodyText.None? <==> r.Failure?
    ensures r.Success? ==> "request-id" in r.value && r.value["request-id"] == JInt(0)
    ensures r.Success? ==> "income-timestamp" in r.value && r.value["income-timestamp"] == JReal(timestamp)
    ensures r.Success? ==> forall k :: k != "request-id" && k != "income-timestamp" ==>
      (k in r.value <==> k in QueryEvent(url)) && (k in r.value ==> r.value[k] == QueryEvent(url)[k])
  {
    if bodyText.None? then Failure("TypeError: the JSON object must be str, bytes or bytearray, not NoneType")
    else Success(QueryEvent(url)["request-id" := JInt(0)]["income-timestamp" := JReal(timestamp)])
  }

  /** The reply to a benchmark result; a result without 'result' raises. */
  function ReplyOf(event: map<string, Json>, result: Json, env: Env): (r: Result<Reply, string>)
    ensures r.Success? <==> result.JObj? && "result" in result.fields
    ensures r.Success? && "html" in event ==> r.value == Html(result.fields["result"])
    ensures r.Success? && "html" !in event ==>
      r.value == Enveloped(env.dumps(Envelope.Wrap(Envelope.LogData(result.fields, "logs" in event))))
  {
    if !result.JObj? || "result" !in result.fields then Failure("KeyError: 'result'")
    else if "html" in event then Success(Html(result.fields["result"]))
    else Success(Enveloped(env.dumps(Envelope.Wrap(Envelope.LogData(result.fields, "logs" in event)))))
  }

  /** `fetch`: its reply, or the exception that escapes it. */
  function Fetch(url: string, bodyText: Option<string>, timestamp: real, env: Env): (r: Result<Reply, string>)
    ensures Contains(url, "favicon") ==> r == Success(FaviconStub)
    ensures !Contains(url, "favicon") && EventOf(url, bodyText, timestamp).Success? ==>
      var event := EventOf(url, bodyText, timestamp).value;
      (env.benchmark(event).Failure? ==> r == Failure(env.benchmark(event).error))
      && (env.benchmark(event).Success? ==> r == ReplyOf(event, env.benchmark(event).value, env))
    ensures !Contains(url, "favicon") && bodyText.None? ==> r.Failure?
  {
    if Contains(url, "favicon") then Success(FaviconStub)
    else
      match EventOf(url, bodyText, timestamp)
      case Failure(e) => Failure(e)
      case Success(event) =>
        match env.benchmark(event)
        case Failure(e) => Failure(e)
        case Success(res) => ReplyOf(event, res, env)
  }

  /** `fetch` with its query loop. */
  method FetchRequest(url: string, bodyText: Option<string>, timestamp: real, env: Env) returns (r: Result<Reply, string>)
    ensures r == Fetch(url, bodyText, timestamp, env)
  {
    if Contains(url, "favicon") {
      return Success(FaviconStub);
    }
    if bodyText.None? {
      return Failure("TypeError: the JSON object must be str, bytes or bytearray, not NoneType");
    }
    var event: map<string, Json> := map[];
    var query := QueryText(url);
    if query.Some? {
      event := AssignChunks(event, Split(query.value, '&'));
    }
    assert event == QueryEvent(url);
    event := event["request-id" := JInt(0)]["income-timestamp" := JReal(timestamp)];
    assert EventOf(url, bodyText, timestamp) == Success(event);
    var res := env.benchmark(event);
    if res.Failure? {
      return Failure(res.error);
    }
    r := ReplyOf(event, res.value, env);
  }

  /** An 'html' key selects the HTML reply whatever its value, even None. */
  lemma HtmlKeyPresenceSuffices(url: string, bodyText: Option<string>, timestamp: real, env: Env)
    requires !Contains(url, "favicon") && bodyText.Some?
    requires "html" in QueryEvent(url) && QueryEvent(url)["html"] == JNull
    requires var event := EventOf(url, bodyText, timestamp).value;
      env.benchmark(event).Success? && env.benchmark(event).value.JObj? && "result" in env.benchmark(event).value.fields
    ensures Fetch(url, bodyText, timestamp, env).Success? && Fetch(url, bodyText, timestamp, env).value.Html?
  {
    var event := EventOf(url, bodyText, timestamp).value;
    assert "html" in event;
  }
}
