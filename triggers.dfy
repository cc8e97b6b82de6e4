/**
 * The two trigger kinds of a Cloudflare worker: a library trigger, whose
 * invocations are not implemented, and an HTTP trigger holding the
 * worker's URL. Serialised triggers are JSON objects.
 */
module Triggers {
  import opened Wrappers
  import opened Json

  datatype TriggerType = LIBRARY | HTTP | STORAGE

  /** The system object a library trigger would invoke through. */
  datatype DeploymentClient = CloudflareSystem

  const LibraryTypename: string := "Cloudflare.LibraryTrigger"
  const HttpTypename: string := "Cloudflare.HTTPTrigger"

  const SyncNotImplemented: string := "Cloudflare Worker invocation not yet implemented"
  const AsyncNotImplemented: string := "Cloudflare Workers do not support async invocation"
  const AsyncHttpNotImplemented: string := "Cloudflare Workers do not support async HTTP invocation"
  const UrlNotSet: string := "HTTP trigger URL has not been set"

  datatype LibraryTrigger = LibraryTrigger(workerName: string, deploymentClient: Option<DeploymentClient>)
  {
    function TriggerKind(): (t: TriggerType)
      ensures t == LIBRARY
    {
      LIBRARY
    }

    /** Invocation through the library is not implemented, whatever the payload. */
    function SyncInvoke(payload: Json): (r: Result<string, string>)
      ensures r == Failure(SyncNotImplemented)
    {
      Failure(SyncNotImplemented)
    }

    function AsyncInvoke(payload: Json): (r: Result<Json, string>)
      ensures r == Failure(AsyncNotImplemented)
    {
      Failure(AsyncNotImplemented)
    }
  }

  /** The string stored under `key`, a missing key or a non-string value being an error. */
  function StringField(obj: map<string, Json>, key: string): (r: Result<string, string>)
    ensures r.Success? <==> key in obj && obj[key].JStr?
    ensures r.Success? ==> obj[key] == JStr(r.value)
  {
    if key !in obj then Failure("KeyError: " + key)
    else if !obj[key].JStr? then Failure("not a string: " + key)
    else Success(obj[key].s)
  }

  /** `LibraryTrigger.deserialize`: the name only, and no deployment client. */
  function DeserializeLibrary(obj: map<string, Json>): (r: Result<LibraryTrigger, string>)
    ensures r.Success? <==> StringField(obj, "name").Success?
    ensures r.Success? ==> r.value.workerName == obj["name"].s && r.value.deploymentClient == None
  {
    var name :- StringField(obj, "name");
    Success(LibraryTrigger(name, None))
  }

  /** A URL as stored in a serialised trigger: `None` is JSON null. */
  function UrlValue(v: Json): (r: Result<Option<string>, string>)
    ensures r.Success? <==> v.JNull? || v.JStr?
    ensures v.JNull? ==> r == Success(None)
    ensures v.JStr? ==> r == Success(Some(v.s))
  {
    match v
    case JNull => Success(None)
    case JStr(s) => Success(Some(s))
    case _ => Failure("not a URL")
  }

  /** What `HTTPTrigger.deserialize` reads from a serialised trigger: its name and URL. */
  function HttpFields(obj: map<string, Json>): (r: Result<(string, Option<string>), string>)
    ensures r.Success? ==> "name" in obj && obj["name"] == JStr(r.value.0)
    ensures r.Success? && "url" !in obj ==> r.value.1 == None
    ensures r.Success? && "url" in obj ==> UrlValue(obj["url"]) == Success(r.value.1)
    ensures r.Failure? <==>
      StringField(obj, "name").Failure? || ("url" in obj && UrlValue(obj["url"]).Failure?)
  {
    var name :- StringField(obj, "name");
    if "url" in obj then
      var url :- UrlValue(obj["url"]);
      Success((name, url))
    else Success((name, None))
  }

  class HttpTrigger {
    const workerName: string
    var url: Option<string>

    constructor (workerName: string, url: Option<string>)
      ensures this.workerName == workerName && this.url == url
    {
      this.workerName := workerName;
      this.url := url;
    }

    function TriggerKind(): (t: TriggerType)
      ensures t == HTTP
    {
      HTTP
    }

    /** The `url` property: an assertion failure while no URL has been set. */
    function Url(): (r: Result<string, string>)
      reads this
      ensures url.None? <==> r == Failure(UrlNotSet)
      ensures url.Some? ==> r == Success(url.value)
    {
      if url.None? then Failure(UrlNotSet) else Success(url.value)
    }

    method SetUrl(newUrl: string)
      modifies this
      ensures url == Some(newUrl)
    {
      url := Some(newUrl);
    }

    function AsyncInvoke(payload: Json): (r: Result<Json, string>)
      ensures r == Failure(AsyncHttpNotImplemented)
    {
      Failure(AsyncHttpNotImplemented)
    }

    /**
     * `HTTPTrigger.serialize`: the fields of the base trigger (`base`)
     * with a "url" entry, null while unset.
     */
    function Serialize(base: map<string, Json>): (out: map<string, Json>)
      reads this
      ensures out.Keys == base.Keys + {"url"}
      ensures out["url"] == OptStr(url)
      ensures forall k :: k in base && k != "url" ==> out[k] == base[k]
    {
      base["url" := OptStr(url)]
    }
  }

  /** `HTTPTrigger.deserialize`: the name from "name", the URL only when "url" is present. */
  method DeserializeHttp(obj: map<string, Json>) returns (r: Result<HttpTrigger, string>)
    ensures r.Failure? <==> HttpFields(obj).Failure?
    ensures r.Success? ==>
      fresh(r.value) && (r.value.workerName, r.value.url) == HttpFields(obj).value
  {
    var name := StringField(obj, "name");
    if name.Failure? {
      return Failure(name.error);
    }
    var trigger := new HttpTrigger(name.value, None);
    if "url" in obj {
      var url := UrlValue(obj["url"]);
      if url.Failure? {
        return Failure(url.error);
      }
      trigger.url := url.value;
    }
    return Success(trigger);
  }

  /**
   * A serialised HTTP trigger reads back with the same URL, and with the
   * same name when the base fields carry it.
   */
  method HttpRoundTrip(t: HttpTrigger, base: map<string, Json>) returns (back: HttpTrigger)
    requires "name" in base && base["name"] == JStr(t.workerName)
    ensures back.workerName == t.workerName && back.url == t.url
  {
    var out := t.Serialize(base);
    assert out["name"] == JStr(t.workerName);
    var r := DeserializeHttp(out);
    assert r.Success?;
    back := r.value;
  }
}
