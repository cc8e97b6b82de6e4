/**
 * Cloudflare credentials, resources and platform configuration, and the
 * precedence between the user's configuration, the environment and the
 * cache when they are read back.
 */
module Config {
  import opened Wrappers

  /** API token, or e-mail plus global API key, and the account id; each may be `None`. */
  datatype Credentials = Credentials(
    apiToken: Option<string>,
    email: Option<string>,
    apiKey: Option<string>,
    accountId: Option<string>)

  /** A string-valued section of a configuration document (`config["credentials"]`). */
  type Section = map<string, string>

  function Lookup(dct: Section, key: string): (r: Option<string>)
    ensures r.Some? <==> key in dct
    ensures r.Some? ==> r.value == dct[key]
  {
    if key in dct then Some(dct[key]) else None
  }

  /** `CloudflareCredentials.initialize`: every field read with `.get`, missing ones become `None`. */
  function InitializeCredentials(dct: Section): (c: Credentials)
    ensures c.apiToken == Lookup(dct, "api_token") && c.email == Lookup(dct, "email")
    ensures c.apiKey == Lookup(dct, "api_key") && c.accountId == Lookup(dct, "account_id")
  {
    Credentials(Lookup(dct, "api_token"), Lookup(dct, "email"), Lookup(dct, "api_key"), Lookup(dct, "account_id"))
  }

  const MissingCredentialsMessage: string :=
    "Cloudflare login credentials are missing! Please set up environmental variables "
    + "CLOUDFLARE_API_TOKEN and CLOUDFLARE_ACCOUNT_ID, or CLOUDFLARE_EMAIL, "
    + "CLOUDFLARE_API_KEY, and CLOUDFLARE_ACCOUNT_ID"

  function MismatchMessage(cached: string): string
  {
    "Cloudflare login credentials do not match the account " + cached + " in cache!"
  }

  /** Where a set of credentials came from. */
  datatype Source = FromConfig | FromToken | FromEmailKey | Missing

  /** The first credential source that is available, in the order the code tries them. */
  function CredentialSource(configCredentials: Option<Section>, env: Section): (s: Source)
    ensures configCredentials.Some? <==> s == FromConfig
    ensures s == FromToken <==> configCredentials.None? && "CLOUDFLARE_API_TOKEN" in env
    ensures s == Missing <==>
      configCredentials.None? && "CLOUDFLARE_API_TOKEN" !in env
      && ("CLOUDFLARE_EMAIL" !in env || "CLOUDFLARE_API_KEY" !in env)
  {
    if configCredentials.Some? then FromConfig
    else if "CLOUDFLARE_API_TOKEN" in env then FromToken
    else if "CLOUDFLARE_EMAIL" in env && "CLOUDFLARE_API_KEY" in env then FromEmailKey
    else Missing
  }

  /**
   * `CloudflareCredentials.deserialize`. `configCredentials` is
   * `config["credentials"]` when present, `env` the process environment and
   * `cachedCredentials` the cached `credentials` section when the cache holds one.
   */
  function DeserializeCredentials(configCredentials: Option<Section>, env: Section,
                                  cachedCredentials: Option<Section>): (r: Result<Credentials, string>)
    ensures CredentialSource(configCredentials, env) == Missing ==> r == Failure(MissingCredentialsMessage)
    ensures cachedCredentials.None? ==> (r.Success? <==> CredentialSource(configCredentials, env) != Missing)
  {
    var cachedAccount := if cachedCredentials.Some? then Lookup(cachedCredentials.value, "account_id") else None;
    var account := Lookup(env, "CLOUDFLARE_ACCOUNT_ID");
    var ret: Option<Credentials> :=
      match CredentialSource(configCredentials, env)
      case FromConfig => Some(InitializeCredentials(configCredentials.value))
      case FromToken => Some(Credentials(Some(env["CLOUDFLARE_API_TOKEN"]), None, None, account))
      case FromEmailKey =>
        Some(Credentials(None, Some(env["CLOUDFLARE_EMAIL"]), Some(env["CLOUDFLARE_API_KEY"]), account))
      case Missing => None;
    if ret.None? then Failure(MissingCredentialsMessage)
    else if cachedAccount.Some? && ret.value.accountId.Some? && cachedAccount != ret.value.accountId then
      Failure(MismatchMessage(cachedAccount.value))
    else Success(ret.value)
  }

  /** `CloudflareCredentials.serialize`: only a non-empty account id is written out. */
  function SerializeCredentials(c: Credentials): (out: Section)
    ensures out.Keys <= {"account_id"}
    ensures "account_id" in out <==> c.accountId.Some? && c.accountId.value != ""
    ensures "account_id" in out ==> out["account_id"] == c.accountId.value
  {
    if c.accountId.Some? && c.accountId.value != "" then map["account_id" := c.accountId.value] else map[]
  }

  /** Credentials in the user's configuration are used even when the environment holds others. */
  lemma ConfigCredentialsWin(section: Section, env: Section)
    ensures DeserializeCredentials(Some(section), env, None) == Success(InitializeCredentials(section))
  {
  }

  /** Without configured credentials, a token in the environment wins over e-mail and key. */
  lemma EnvironmentPrecedence(env: Section, cached: Option<Section>)
    requires "CLOUDFLARE_API_TOKEN" in env
    ensures var r := DeserializeCredentials(None, env, cached);
      r.Success? ==> r.value == Credentials(Some(env["CLOUDFLARE_API_TOKEN"]), None, None,
                                            Lookup(env, "CLOUDFLARE_ACCOUNT_ID"))
  {
  }

  /** Without configured credentials or a token, the e-mail and API key of the environment are used. */
  lemma EmailKeyCredentials(env: Section, cached: Option<Section>)
    requires "CLOUDFLARE_API_TOKEN" !in env
    requires "CLOUDFLARE_EMAIL" in env && "CLOUDFLARE_API_KEY" in env
    ensures DeserializeCredentials(None, env, None)
         == Success(Credentials(None, Some(env["CLOUDFLARE_EMAIL"]), Some(env["CLOUDFLARE_API_KEY"]),
                                Lookup(env, "CLOUDFLARE_ACCOUNT_ID")))
    ensures var r := DeserializeCredentials(None, env, cached);
      r.Success? ==> r.value == Credentials(None, Some(env["CLOUDFLARE_EMAIL"]), Some(env["CLOUDFLARE_API_KEY"]),
                                            Lookup(env, "CLOUDFLARE_ACCOUNT_ID"))
  {
  }

  /** No credential source at all is an error. */
  lemma NoSourceFails(env: Section, cached: Option<Section>)
    requires "CLOUDFLARE_API_TOKEN" !in env
    requires "CLOUDFLARE_EMAIL" !in env || "CLOUDFLARE_API_KEY" !in env
    ensures DeserializeCredentials(None, env, cached) == Failure(MissingCredentialsMessage)
  {
  }

  /** The cached account id rejects credentials exactly when both ids are known and differ. */
  lemma CachedAccountCheck(configCredentials: Option<Section>, env: Section, cached: Section)
    requires CredentialSource(configCredentials, env) != Missing
    ensures var r := DeserializeCredentials(configCredentials, env, Some(cached));
      var plain := DeserializeCredentials(configCredentials, env, None);
      plain.Success? &&
      (r.Failure? <==>
         "account_id" in cached && plain.value.accountId.Some?
         && plain.value.accountId.value != cached["account_id"])
  {
  }

  /** Serialised credentials read back as configuration carry only the account id. */
  lemma SerializedCredentialsRoundTrip(c: Credentials, env: Section)
    ensures DeserializeCredentials(Some(SerializeCredentials(c)), env, None)
         == Success(Credentials(None, None, None,
                                if c.accountId.Some? && c.accountId.value != "" then c.accountId else None))
  {
  }

  /** The Cloudflare resources: a KV namespace id and the region copied from the platform config. */
  class Resources {
    var namespaceId: Option<string>
    var region: string

    constructor ()
      ensures namespaceId == None && region == ""
    {
      namespaceId := None;
      region := "";
    }

    /** `CloudflareResources.initialize`: a present "namespace_id" overrides the current one. */
    method Initialize(dct: Section)
      modifies this
      ensures namespaceId == if "namespace_id" in dct then Some(dct["namespace_id"]) else old(namespaceId)
      ensures region == old(region)
    {
      if "namespace_id" in dct {
        namespaceId := Some(dct["namespace_id"]);
      }
    }

    /**
     * `CloudflareResources.serialize`: the base class's entries `base`, with
     * the namespace id written over them only when it is non-empty.
     */
    function Serialize(base: Section): (out: Section)
      reads this
      ensures out.Keys <= base.Keys + {"namespace_id"}
      ensures forall k :: k in base && k != "namespace_id" ==> k in out && out[k] == base[k]
      ensures namespaceId.Some? && namespaceId.value != "" ==> "namespace_id" in out && out["namespace_id"] == namespaceId.value
      ensures !(namespaceId.Some? && namespaceId.value != "") ==> out == base
    {
      if namespaceId.Some? && namespaceId.value != "" then base["namespace_id" := namespaceId.value] else base
    }
  }

  /** Reading back what `Serialize` wrote restores a non-empty namespace id, whatever the base entries. */
  method ResourcesRoundTrip(r: Resources, base: Section) returns (restored: Resources)
    requires r.namespaceId.Some? && r.namespaceId.value != ""
    ensures fresh(restored)
    ensures restored.namespaceId == r.namespaceId
  {
    var out := r.Serialize(base);
    restored := new Resources();
    restored.Initialize(out);
  }

  /**
   * `CloudflareResources.deserialize`: the cached section wins over the
   * user's; with neither, nothing is set.
   */
  method DeserializeResources(configResources: Option<Section>, cachedResources: Option<Section>)
    returns (ret: Resources)
    ensures fresh(ret)
    ensures cachedResources.Some? ==> ret.namespaceId == Lookup(cachedResources.value, "namespace_id")
    ensures cachedResources.None? && configResources.Some? ==>
      ret.namespaceId == Lookup(configResources.value, "namespace_id")
    ensures cachedResources.None? && configResources.None? ==> ret.namespaceId == None
  {
    ret := new Resources();
    if cachedResources.Some? {
      ret.Initialize(cachedResources.value);
    } else if configResources.Some? {
      ret.Initialize(configResources.value);
    } else {
      ret.Initialize(map[]);
    }
  }

  /**
   * The keys of a platform configuration document that are read here; a
   * document is truthy when it has any key at all.
   */
  datatype ConfigDoc = ConfigDoc(
    region: Option<string>,
    credentials: Option<Section>,
    resources: Option<Section>,
    otherKeys: set<string>)
  {
    predicate Truthy()
    {
      region.Some? || credentials.Some? || resources.Some? || otherKeys != {}
    }
  }

  /** The platform configuration: credentials, resources and region. */
  class CloudflareConfig {
    const credentials: Credentials
    const resources: Resources
    var region: string

    constructor (credentials: Credentials, resources: Resources)
      ensures this.credentials == credentials && this.resources == resources && region == ""
    {
      this.credentials := credentials;
      this.resources := resources;
      region := "";
    }

    /** `CloudflareConfig.initialize`: the region, or "global" when the document has none. */
    method Initialize(dct: ConfigDoc)
      modifies this
      ensures region == dct.region.GetOr("global")
    {
      region := if dct.region.Some? then dct.region.value else "global";
    }

    /** `CloudflareConfig.serialize`; `resourcesBase` is what the resources' base class serialises. */
    function Serialize(resourcesBase: Section): (out: SerializedConfig)
      reads this, resources
      ensures out.name == "cloudflare" && out.region == region
      ensures out.credentials == SerializeCredentials(credentials)
      ensures out.resources == resources.Serialize(resourcesBase)
    {
      SerializedConfig("cloudflare", region, SerializeCredentials(credentials), resources.Serialize(resourcesBase))
    }
  }

  datatype SerializedConfig = SerializedConfig(name: string, region: string, credentials: Section, resources: Section)

  /**
   * `CloudflareConfig.deserialize`: credentials and resources are read
   * first, then the region from the cache when it is truthy, else from
   * the user's configuration, and the region is copied into the resources.
   */
  method DeserializeConfig(config: ConfigDoc, cache: Option<ConfigDoc>, env: Section)
    returns (r: Result<CloudflareConfig, string>)
    ensures r.Failure? <==> DeserializeCredentials(config.credentials, env, CachedCredentials(cache)).Failure?
    ensures r.Success? ==>
      var c := r.value;
      var source := if cache.Some? && cache.value.Truthy() then cache.value else config;
      fresh(c) && fresh(c.resources)
      && Success(c.credentials) == DeserializeCredentials(config.credentials, env, CachedCredentials(cache))
      && c.region == source.region.GetOr("global")
      && c.resources.region == c.region
      && c.resources.namespaceId ==
         (if CachedResources(cache).Some? then Lookup(CachedResources(cache).value, "namespace_id")
          else if config.resources.Some? then Lookup(config.resources.value, "namespace_id")
          else None)
  {
    var creds := DeserializeCredentials(config.credentials, env, CachedCredentials(cache));
    if creds.Failure? {
      return Failure(creds.error);
    }
    var resources := DeserializeResources(config.resources, CachedResources(cache));
    var c := new CloudflareConfig(creds.value, resources);
    if cache.Some? && cache.value.Truthy() {
      c.Initialize(cache.value);
    } else {
      c.Initialize(config);
    }
    resources.region := c.region;
    return Success(c);
  }

  /** The cached `credentials` section, read only when the cached document is truthy. */
  function CachedCredentials(cache: Option<ConfigDoc>): Option<Section>
  {
    if cache.Some? && cache.value.Truthy() then cache.value.credentials else None
  }

  function CachedResources(cache: Option<ConfigDoc>): Option<Section>
  {
    if cache.Some? && cache.value.Truthy() then cache.value.resources else None
  }
}
