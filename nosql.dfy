/**
 * The NoSQL client of a Python container: every operation is a JSON POST
 * to the worker's `/nosql/<operation>` proxy endpoint, whose URL is
 * class-wide state set by the request handler.
 */
module NoSql {
  import opened Wrappers
  import opened Json
  import opened Http
  import opened Text

  /** The requests an operation sent, in order, and what it returned or raised. */
  datatype Call<T> = Call(sent: seq<Request>, result: Result<T, Error>)

  const UrlNotSet: string := "Worker URL not set - cannot access NoSQL"
  const FailurePrefix: string := "NoSQL operation failed: "

  /** An instance of the client; it has no state of its own. */
  class NoSqlClient {
    constructor ()
    {
    }
  }

  /** The class-level attributes `nosql.instance` and `nosql.worker_url`. */
  class NoSqlClass {
    var instance: Option<NoSqlClient>
    var workerUrl: Option<string>

    constructor ()
      ensures instance == None && workerUrl == None
    {
      instance := None;
      workerUrl := None;
    }

    /** `init_instance`: the singleton, created on the first call only. */
    method InitInstance() returns (c: NoSqlClient)
      modifies this
      ensures old(instance).Some? ==> c == old(instance).value && instance == old(instance)
      ensures old(instance).None? ==> fresh(c) && instance == Some(c)
      ensures workerUrl == old(workerUrl)
    {
      if instance.None? {
        var created := new NoSqlClient();
        instance := Some(created);
      }
      c := instance.value;
    }

    /** `get_instance`: the same rule as `init_instance`. */
    method GetInstance() returns (c: NoSqlClient)
      modifies this
      ensures old(instance).Some? ==> c == old(instance).value && instance == old(instance)
      ensures old(instance).None? ==> fresh(c) && instance == Some(c)
      ensures workerUrl == old(workerUrl)
    {
      c := InitInstance();
    }

    /** `set_worker_url`: one URL shared by every instance. */
    method SetWorkerUrl(url: Option<string>)
      modifies this
      ensures workerUrl == url && instance == old(instance)
    {
      workerUrl := url;
    }
  }

  /** Two calls to `get_instance` return the same object. */
  method SingletonStable(cls: NoSqlClass) returns (a: NoSqlClient, b: NoSqlClient)
    modifies cls
    ensures a == b
  {
    a := cls.GetInstance();
    b := cls.GetInstance();
  }

  /** `str(v)` for a value placed in an f-string. */
  function Str(wire: Wire, v: Json): (s: string)
    ensures v.JStr? ==> s == v.s
  {
    if v.JStr? then v.s else wire.render(v)
  }

  /** The request `_make_request` sends. */
  function ProxyRequest(workerUrl: string, operation: string, params: map<string, Json>): (r: Request)
    ensures r.verb == "POST" && r.url == workerUrl + "/nosql/" + operation
    ensures r.body == JsonBody(JObj(params)) && r.headers == map["Content-type" := "application/json"]
  {
    assert Capitalize("Content-Type") == "Content-type";
    AddHeader(Request("POST", workerUrl + "/nosql/" + operation, map[], JsonBody(JObj(params))),
              "Content-Type", "application/json")
  }

  /** The error an `HTTPError` becomes: the JSON body's 'error' field, else the raw body. */
  function HttpErrorOf(wire: Wire, errorBody: seq<byte>): (e: Error)
    ensures wire.parse(errorBody).Failure? ==> e == RuntimeError(FailurePrefix + wire.text(errorBody))
    ensures wire.parse(errorBody).Success? && wire.parse(errorBody).value.JObj? ==>
      var fields := wire.parse(errorBody).value.fields;
      e == RuntimeError(FailurePrefix +
             if "error" in fields then Str(wire, fields["error"]) else wire.text(errorBody))
    ensures wire.parse(errorBody).Success? && !wire.parse(errorBody).value.JObj? ==> e.OtherError?
  {
    match wire.parse(errorBody)
    case Failure(_) => RuntimeError(FailurePrefix + wire.text(errorBody))
    case Success(v) =>
      if v.JObj? then
        RuntimeError(FailurePrefix + if "error" in v.fields then Str(wire, v.fields["error"]) else wire.text(errorBody))
      else OtherError("AttributeError: object has no attribute 'get'")
  }

  /**
   * `_make_request`: nothing is sent without a worker URL; otherwise one
   * POST, whose decoded reply is returned, and every failure becomes a
   * "NoSQL operation failed" error.
   */
  function MakeRequest(workerUrl: Option<string>, operation: string, params: map<string, Json>, wire: Wire)
    : (c: Call<Json>)
    ensures !TruthyStr(workerUrl) ==> c == Call([], Failure(RuntimeError(UrlNotSet)))
    ensures TruthyStr(workerUrl) ==> c.sent == [PatchedUrlopen(Prepared(ProxyRequest(workerUrl.value, operation, params)))]
    ensures TruthyStr(workerUrl) ==>
      var reply := wire.send(c.sent[0]);
      (reply.Ok? && wire.parse(reply.body).Success? ==> c.result == Success(wire.parse(reply.body).value))
      && (reply.Ok? && wire.parse(reply.body).Failure? ==>
            c.result == Failure(RuntimeError(FailurePrefix + wire.parse(reply.body).error)))
      && (reply.HttpError? ==> c.result == Failure(HttpErrorOf(wire, reply.errorBody)))
      && (reply.Failed? ==> c.result == Failure(RuntimeError(FailurePrefix + reply.cause)))
  {
    if !TruthyStr(workerUrl) then Call([], Failure(RuntimeError(UrlNotSet)))
    else
      var req := PatchedUrlopen(Prepared(ProxyRequest(workerUrl.value, operation, params)));
      var result: Result<Json, Error> :=
        match wire.send(req)
        case Ok(body) =>
          (match wire.parse(body)
           case Success(v) => Success(v)
           case Failure(e) => Failure(RuntimeError(FailurePrefix + e)))
        case HttpError(_, _, errorBody) => Failure(HttpErrorOf(wire, errorBody))
        case Failed(cause) => Failure(RuntimeError(FailurePrefix + cause));
      Call([req], result)
  }

  function Pair(key: (string, string)): Json
  {
    JArr([JStr(key.0), JStr(key.1)])
  }

  /** The body of insert and update. */
  function WriteParams(table: string, primaryKey: (string, string), secondaryKey: (string, string), data: Json)
    : (p: map<string, Json>)
    ensures p.Keys == {"table_name", "primary_key", "secondary_key", "data"}
    ensures p["table_name"] == JStr(table) && p["data"] == data
    ensures p["primary_key"] == Pair(primaryKey) && p["secondary_key"] == Pair(secondaryKey)
  {
    map["table_name" := JStr(table), "primary_key" := Pair(primaryKey),
        "secondary_key" := Pair(secondaryKey), "data" := data]
  }

  /** The body of get and delete: the keys without data. */
  function KeyParams(table: string, primaryKey: (string, string), secondaryKey: (string, string))
    : (p: map<string, Json>)
    ensures p.Keys == {"table_name", "primary_key", "secondary_key"}
    ensures p["table_name"] == JStr(table)
    ensures p["primary_key"] == Pair(primaryKey) && p["secondary_key"] == Pair(secondaryKey)
  {
    map["table_name" := JStr(table), "primary_key" := Pair(primaryKey), "secondary_key" := Pair(secondaryKey)]
  }

  /** The body of query: the secondary key's name instead of a secondary key. */
  function QueryParams(table: string, primaryKey: (string, string), secondaryKeyName: string)
    : (p: map<string, Json>)
    ensures p.Keys == {"table_name", "primary_key", "secondary_key_name"}
    ensures p["table_name"] == JStr(table) && p["primary_key"] == Pair(primaryKey)
    ensures p["secondary_key_name"] == JStr(secondaryKeyName)
  {
    map["table_name" := JStr(table), "primary_key" := Pair(primaryKey), "secondary_key_name" := JStr(secondaryKeyName)]
  }

  function Insert(cls: NoSqlClass, table: string, primaryKey: (string, string), secondaryKey: (string, string),
                  data: Json, wire: Wire): (c: Call<Json>)
    reads cls
    ensures c == MakeRequest(cls.workerUrl, "insert", WriteParams(table, primaryKey, secondaryKey, data), wire)
  {
    MakeRequest(cls.workerUrl, "insert", WriteParams(table, primaryKey, secondaryKey, data), wire)
  }

  function Update(cls: NoSqlClass, table: string, primaryKey: (string, string), secondaryKey: (string, string),
                  data: Json, wire: Wire): (c: Call<Json>)
    reads cls
    ensures c == MakeRequest(cls.workerUrl, "update", WriteParams(table, primaryKey, secondaryKey, data), wire)
  {
    MakeRequest(cls.workerUrl, "update", WriteParams(table, primaryKey, secondaryKey, data), wire)
  }

  /** `result.get(key, default)` on the decoded reply; a non-dict reply has no `get`. */
  function GetField(c: Call<Json>, key: string, default: Json): (r: Call<Json>)
    ensures r.sent == c.sent
    ensures c.result.Failure? ==> r.result == c.result
    ensures c.result.Success? && c.result.value.JObj? ==>
      r.result == Success(if key in c.result.value.fields then c.result.value.fields[key] else default)
    ensures c.result.Success? && !c.result.value.JObj? ==> r.result.Failure? && r.result.error.OtherError?
  {
    match c.result
    case Failure(e) => Call(c.sent, Failure(e))
    case Success(v) =>
      if v.JObj? then Call(c.sent, Success(if key in v.fields then v.fields[key] else default))
      else Call(c.sent, Failure(OtherError("AttributeError: object has no attribute 'get'")))
  }

  /** `get`: the reply's 'data', or None. */
  function Get(cls: NoSqlClass, table: string, primaryKey: (string, string), secondaryKey: (string, string),
               wire: Wire): (c: Call<Json>)
    reads cls
    ensures c == GetField(MakeRequest(cls.workerUrl, "get", KeyParams(table, primaryKey, secondaryKey), wire), "data", JNull)
  {
    GetField(MakeRequest(cls.workerUrl, "get", KeyParams(table, primaryKey, secondaryKey), wire), "data", JNull)
  }

  /** `query`: the reply's 'items', or the empty list. */
  function Query(cls: NoSqlClass, table: string, primaryKey: (string, string), secondaryKeyName: string,
                 wire: Wire): (c: Call<Json>)
    reads cls
    ensures c == GetField(MakeRequest(cls.workerUrl, "query", QueryParams(table, primaryKey, secondaryKeyName), wire), "items", JArr([]))
  {
    GetField(MakeRequest(cls.workerUrl, "query", QueryParams(table, primaryKey, secondaryKeyName), wire), "items", JArr([]))
  }

  function Delete(cls: NoSqlClass, table: string, primaryKey: (string, string), secondaryKey: (string, string),
                  wire: Wire): (c: Call<Json>)
    reads cls
    ensures c == MakeRequest(cls.workerUrl, "delete", KeyParams(table, primaryKey, secondaryKey), wire)
  {
    MakeRequest(cls.workerUrl, "delete", KeyParams(table, primaryKey, secondaryKey), wire)
  }

  /** Without a worker URL every operation raises the same error and sends nothing. */
  lemma NoUrlSendsNothing(cls: NoSqlClass, table: string, pk: (string, string), sk: (string, string),
                          data: Json, name: string, wire: Wire)
    requires !TruthyStr(cls.workerUrl)
    ensures Insert(cls, table, pk, sk, data, wire) == Call([], Failure(RuntimeError(UrlNotSet)))
    ensures Update(cls, table, pk, sk, data, wire) == Call([], Failure(RuntimeError(UrlNotSet)))
    ensures Get(cls, table, pk, sk, wire) == Call([], Failure(RuntimeError(UrlNotSet)))
    ensures Query(cls, table, pk, name, wire) == Call([], Failure(RuntimeError(UrlNotSet)))
    ensures Delete(cls, table, pk, sk, wire) == Call([], Failure(RuntimeError(UrlNotSet)))
  {
  }

  /** Insert and update send the same body and differ only in the endpoint. */
  lemma InsertUpdateSameBody(cls: NoSqlClass, table: string, pk: (string, string), sk: (string, string),
                             data: Json, wire: Wire)
    requires TruthyStr(cls.workerUrl)
    ensures var i := Insert(cls, table, pk, sk, data, wire).sent[0];
      var u := Update(cls, table, pk, sk, data, wire).sent[0];
      i.body == u.body && i.headers == u.headers && i.verb == u.verb
      && i.url == cls.workerUrl.value + "/nosql/insert" && u.url == cls.workerUrl.value + "/nosql/update"
  {
  }

  /** Inside the container the proxy request leaves with its JSON content type and the SeBS User-Agent. */
  lemma ProxyRequestHeaders(workerUrl: string, operation: string, params: map<string, Json>)
    ensures PatchedUrlopen(Prepared(ProxyRequest(workerUrl, operation, params))).headers
      == map["Content-type" := "application/json", "User-agent" := UserAgent]
  {
    assert Capitalize("User-Agent") == "User-agent";
  }

  /** Get and delete send the same body; query replaces the secondary key by its name. */
  lemma GetDeleteQueryBodies(cls: NoSqlClass, table: string, pk: (string, string), sk: (string, string),
                             name: string, wire: Wire)
    requires TruthyStr(cls.workerUrl)
    ensures Get(cls, table, pk, sk, wire).sent[0].body == Delete(cls, table, pk, sk, wire).sent[0].body
    ensures var q := Query(cls, table, pk, name, wire).sent[0].body.doc.fields;
      "secondary_key" !in q && q["secondary_key_name"] == JStr(name) && "data" !in q
  {
  }
}
