/**
 * A deployed Cloudflare worker (the benchmark's function): its cached
 * form and how it is read back together with its HTTP triggers.
 */
module Worker {
  import opened Wrappers
  import opened Json
  import opened Triggers

  class CloudflareWorker {
    const name: string
    const benchmark: string
    const scriptId: string
    const codeHash: string
    const runtime: string
    /** The function configuration, kept in its serialised form. */
    const config: Json
    const accountId: Option<string>
    var triggers: seq<HttpTrigger>

    constructor (name: string, benchmark: string, scriptId: string, codeHash: string,
                 runtime: string, config: Json, accountId: Option<string>)
      ensures this.name == name && this.benchmark == benchmark && this.scriptId == scriptId
      ensures this.codeHash == codeHash && this.runtime == runtime && this.config == config
      ensures this.accountId == accountId && triggers == []
    {
      this.name := name;
      this.benchmark := benchmark;
      this.scriptId := scriptId;
      this.codeHash := codeHash;
      this.runtime := runtime;
      this.config := config;
      this.accountId := accountId;
      triggers := [];
    }

    method AddTrigger(t: HttpTrigger)
      modifies this
      ensures triggers == old(triggers) + [t]
    {
      triggers := triggers + [t];
    }

    /**
     * `CloudflareWorker.serialize`: the base function's fields (`base`)
     * extended with script id, runtime and account id.
     */
    function Serialize(base: map<string, Json>): (out: map<string, Json>)
      ensures out.Keys == base.Keys + {"script_id", "runtime", "account_id"}
      ensures out["script_id"] == JStr(scriptId) && out["runtime"] == JStr(runtime)
      ensures out["account_id"] == OptStr(accountId)
      ensures forall k :: k in base && k !in {"script_id", "runtime", "account_id"} ==> out[k] == base[k]
    {
      base["script_id" := JStr(scriptId)]["runtime" := JStr(runtime)]["account_id" := OptStr(accountId)]
    }
  }

  /** `cached_config.get("account_id")`. */
  function AccountField(cached: map<string, Json>): (r: Result<Option<string>, string>)
    ensures "account_id" !in cached ==> r == Success(None)
    ensures "account_id" in cached ==> r == UrlValue(cached["account_id"])
  {
    if "account_id" in cached then UrlValue(cached["account_id"]) else Success(None)
  }

  /** The trigger type check: only serialised HTTP triggers are accepted. */
  function CheckTrigger(t: Json): (r: Result<map<string, Json>, string>)
    ensures r.Success? <==> t.JObj? && "type" in t.fields && t.fields["type"] == JStr(HttpTypename)
    ensures r.Success? ==> r.value == t.fields
  {
    if t.JObj? && "type" in t.fields && t.fields["type"] == JStr(HttpTypename) then Success(t.fields)
    else Failure("Unknown trigger type")
  }

  /** A cached trigger list is accepted when every entry is a well-formed HTTP trigger. */
  predicate TriggerAccepted(t: Json)
  {
    CheckTrigger(t).Success? && HttpFields(t.fields).Success?
  }

  /**
   * `CloudflareWorker.deserialize`: the scalar fields, then one HTTP
   * trigger per cached trigger, in the cached order; any other trigger
   * type fails.
   */
  method Deserialize(cached: map<string, Json>) returns (r: Result<CloudflareWorker, string>)
    ensures r.Success? ==>
      var w := r.value;
      fresh(w)
      && "config" in cached && w.config == cached["config"]
      && StringField(cached, "name") == Success(w.name)
      && StringField(cached, "benchmark") == Success(w.benchmark)
      && StringField(cached, "script_id") == Success(w.scriptId)
      && StringField(cached, "hash") == Success(w.codeHash)
      && StringField(cached, "runtime") == Success(w.runtime)
      && AccountField(cached) == Success(w.accountId)
      && "triggers" in cached && cached["triggers"].JArr?
      && |w.triggers| == |cached["triggers"].items|
      && forall k :: 0 <= k < |w.triggers| ==>
           TriggerAccepted(cached["triggers"].items[k])
           && fresh(w.triggers[k])
           && (w.triggers[k].workerName, w.triggers[k].url) == HttpFields(cached["triggers"].items[k].fields).value
    ensures (r.Failure? && "triggers" in cached && cached["triggers"].JArr?
             && forall t :: t in cached["triggers"].items ==> TriggerAccepted(t)) ==>
      StringField(cached, "name").Failure? || StringField(cached, "benchmark").Failure?
      || StringField(cached, "script_id").Failure? || StringField(cached, "hash").Failure?
      || StringField(cached, "runtime").Failure? || "config" !in cached || AccountField(cached).Failure?
  {
    if "config" !in cached {
      return Failure("KeyError: config");
    }
    var name := StringField(cached, "name");
    var benchmark := StringField(cached, "benchmark");
    var scriptId := StringField(cached, "script_id");
    var codeHash := StringField(cached, "hash");
    var runtime := StringField(cached, "runtime");
    var account := AccountField(cached);
    if name.Failure? || benchmark.Failure? || scriptId.Failure? || codeHash.Failure? || runtime.Failure? || account.Failure? {
      return Failure("malformed cached worker");
    }
    var w := new CloudflareWorker(name.value, benchmark.value, scriptId.value, codeHash.value,
                                  runtime.value, cached["config"], account.value);
    if "triggers" !in cached || !cached["triggers"].JArr? {
      return Failure("KeyError: triggers");
    }
    var docs := cached["triggers"].items;
    var i := 0;
    while i < |docs|
      invariant 0 <= i <= |docs|
      invariant |w.triggers| == i
      invariant forall k :: 0 <= k < i ==>
        TriggerAccepted(docs[k]) && fresh(w.triggers[k])
        && (w.triggers[k].workerName, w.triggers[k].url) == HttpFields(docs[k].fields).value
    {
      var doc := CheckTrigger(docs[i]);
      if doc.Failure? {
        assert !TriggerAccepted(docs[i]);
        return Failure(doc.error);
      }
      var t := DeserializeHttp(doc.value);
      if t.Failure? {
        return Failure(t.error);
      }
      w.AddTrigger(t.value);
      i := i + 1;
    }
    return Success(w);
  }
}
