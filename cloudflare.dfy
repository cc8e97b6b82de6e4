/**
 * The Cloudflare system object: worker naming, the authentication
 * headers of REST calls and trigger creation. Metrics are in `Metrics`.
 */
module Cloudflare {
  import opened Wrappers
  import opened Text
  import opened Config
  import opened Triggers
  import opened Worker

  // ---- worker names ------------------------------------------------------

  predicate IsDash(c: char) { c == '-' }

  /** The characters a worker name may contain. */
  predicate WorkerNameChar(c: char) { IsAsciiLower(c) || IsDigit(c) || c == '-' }

  /** Lower case letters, digits and '-', neither first nor last. */
  predicate ValidWorkerName(s: string)
  {
    (forall i :: 0 <= i < |s| ==> WorkerNameChar(s[i]))
    && (|s| == 0 || (s[0] != '-' && s[|s| - 1] != '-'))
  }

  /** The characters kept by the generator in `format_function_name`. */
  function KeepAllowed(s: string): (r: string)
    ensures forall i :: 0 <= i < |r| ==> IsAsciiAlnum(r[i]) || r[i] == '-'
    ensures forall c :: c in r ==> c in s
  {
    if |s| == 0 then ""
    else if IsAsciiAlnum(s[0]) || s[0] == '-' then [s[0]] + KeepAllowed(s[1..])
    else KeepAllowed(s[1..])
  }

  /** `name.lower().replace('_', '-').replace('.', '-')`. */
  function Normalize(name: string): (r: string)
    ensures forall i :: 0 <= i < |r| ==> !IsAsciiUpper(r[i])
  {
    ReplaceChar(ReplaceChar(Lower(name), '_', '-'), '.', '-')
  }

  /** `format_function_name`: lower case, '_' and '.' to '-', other symbols dropped, '-' stripped. */
  function FormatFunctionName(name: string): (r: string)
    ensures ValidWorkerName(r)
  {
    var kept := KeepAllowed(Normalize(name));
    assert forall i :: 0 <= i < |kept| ==> WorkerNameChar(kept[i]) by {
      forall i | 0 <= i < |kept| ensures WorkerNameChar(kept[i]) {
        assert kept[i] in Normalize(name);
      }
    }
    StripKeeps(kept);
    Strip(kept, IsDash)
  }

  /** Stripping keeps only characters of the original, so the allowed set survives it. */
  lemma StripKeeps(kept: string)
    requires forall i :: 0 <= i < |kept| ==> WorkerNameChar(kept[i])
    ensures forall i :: 0 <= i < |Strip(kept, IsDash)| ==> WorkerNameChar(Strip(kept, IsDash)[i])
  {
    var l := StripLeft(kept, IsDash);
    var r := StripRight(l, IsDash);
    forall i | 0 <= i < |r|
      ensures WorkerNameChar(r[i])
    {
      assert r[i] == l[..|r|][i];
      assert l[i] == kept[|kept| - |l|..][i];
    }
  }

  /**
   * The same rule one character at a time: '_', '.' and '-' become '-',
   * ASCII letters and digits are lowered, anything else is dropped.
   */
  function MapChar(c: char): Option<char>
  {
    if c == '_' || c == '.' || c == '-' then Some('-')
    else if IsAsciiAlnum(c) then Some(LowerChar(c))
    else None
  }

  function MapChars(s: string): string
  {
    if |s| == 0 then ""
    else
      match MapChar(s[0])
      case Some(c) => [c] + MapChars(s[1..])
      case None => MapChars(s[1..])
  }

  lemma {:induction false} KeepAllowedNormalize(s: string)
    ensures KeepAllowed(Normalize(s)) == MapChars(s)
  {
    if |s| > 0 {
      assert Normalize(s) == Normalize(s[..1]) + Normalize(s[1..]);
      assert Normalize(s)[1..] == Normalize(s[1..]);
      KeepAllowedNormalize(s[1..]);
    }
  }

  /** `format_function_name` equals the per-character rule followed by stripping '-'. */
  lemma FormatIsPerCharacter(name: string)
    ensures FormatFunctionName(name) == Strip(MapChars(name), IsDash)
  {
    KeepAllowedNormalize(name);
  }

  lemma {:induction false} MapCharsOfNameChars(s: string)
    requires forall i :: 0 <= i < |s| ==> WorkerNameChar(s[i])
    ensures MapChars(s) == s
  {
    if |s| > 0 {
      assert WorkerNameChar(s[0]);
      MapCharsOfNameChars(s[1..]);
    }
  }

  /** A name that already follows the rules is returned unchanged. */
  lemma FormatKeepsValidName(name: string)
    requires ValidWorkerName(name)
    ensures FormatFunctionName(name) == name
  {
    FormatIsPerCharacter(name);
    MapCharsOfNameChars(name);
  }

  /** Formatting twice is the same as formatting once. */
  lemma FormatIdempotent(name: string)
    ensures FormatFunctionName(FormatFunctionName(name)) == FormatFunctionName(name)
  {
    FormatKeepsValidName(FormatFunctionName(name));
  }

  /** `default_function_name`: "{benchmark}-{language}-{version without dots}", lower-cased. */
  function DefaultFunctionName(benchmark: string, language: string, version: string): (r: string)
    ensures r == Lower(benchmark) + "-" + Lower(language) + "-" + Lower(RemoveChar(version, '.'))
    ensures forall i :: 0 <= i < |r| ==> !IsAsciiUpper(r[i])
  {
    LowerDashed(benchmark, language, RemoveChar(version, '.'));
    Lower(benchmark + "-" + language + "-" + RemoveChar(version, '.'))
  }

  lemma LowerConcat(a: string, b: string)
    ensures Lower(a + b) == Lower(a) + Lower(b)
  {
  }

  /** Lower-casing three names joined by '-' lower-cases each of them. */
  lemma LowerDashed(a: string, b: string, c: string)
    ensures Lower(a + "-" + b + "-" + c) == Lower(a) + "-" + Lower(b) + "-" + Lower(c)
  {
    LowerConcat(a + "-" + b + "-", c);
    LowerConcat(a + "-" + b, "-");
    LowerConcat(a + "-", b);
    LowerConcat(a, "-");
    assert Lower("-") == "-";
  }

  // ---- REST authentication -----------------------------------------------

  const JsonContentType: string := "application/json"
  const InvalidCredentials: string := "Invalid Cloudflare credentials configuration"

  /**
   * `_get_auth_headers`: a bearer token when the API token is non-empty,
   * else the e-mail and global key when both are non-empty.
   */
  function AuthHeaders(c: Credentials): (r: Result<map<string, string>, string>)
    ensures r.Success? ==> "Content-Type" in r.value && r.value["Content-Type"] == JsonContentType
    ensures r.Failure? ==> r.error == InvalidCredentials
  {
    if c.apiToken.Some? && c.apiToken.value != "" then
      Success(map["Authorization" := "Bearer " + c.apiToken.value, "Content-Type" := JsonContentType])
    else if c.email.Some? && c.email.value != "" && c.apiKey.Some? && c.apiKey.value != "" then
      Success(map["X-Auth-Email" := c.email.value, "X-Auth-Key" := c.apiKey.value,
                  "Content-Type" := JsonContentType])
    else Failure(InvalidCredentials)
  }

  predicate HasToken(c: Credentials) { c.apiToken.Some? && c.apiToken.value != "" }
  predicate HasEmailKey(c: Credentials)
  {
    c.email.Some? && c.email.value != "" && c.apiKey.Some? && c.apiKey.value != ""
  }

  /**
   * Headers exist exactly when one scheme is usable; the token scheme wins
   * and the two schemes never mix; JSON is always the content type.
   */
  lemma AuthHeadersSchemes(c: Credentials)
    ensures AuthHeaders(c).Success? <==> HasToken(c) || HasEmailKey(c)
    ensures AuthHeaders(c).Failure? ==> AuthHeaders(c).error == InvalidCredentials
    ensures AuthHeaders(c).Success? ==>
      var h := AuthHeaders(c).value;
      h["Content-Type"] == JsonContentType
      && ("Authorization" in h <==> HasToken(c))
      && ("X-Auth-Key" in h <==> !HasToken(c))
      && ("Authorization" in h ==> h["Authorization"] == "Bearer " + c.apiToken.value)
  {
  }

  // ---- triggers ----------------------------------------------------------

  /** `worker.account_id or config.credentials.account_id`. */
  function TriggerAccount(workerAccount: Option<string>, configAccount: Option<string>): (r: Option<string>)
    ensures workerAccount.Some? && workerAccount.value != "" ==> r == workerAccount
    ensures !(workerAccount.Some? && workerAccount.value != "") ==> r == configAccount
  {
    if workerAccount.Some? && workerAccount.value != "" then workerAccount else configAccount
  }

  /** The public URL of a worker on the workers.dev domain. */
  function WorkerUrl(name: string, account: Option<string>): (r: string)
    ensures r == "https://" + name + "." + Render(account) + ".workers.dev"
    ensures StartsWith(r, "https://") && EndsWith(r, ".workers.dev")
  {
    var r := "https://" + name + "." + Render(account) + ".workers.dev";
    assert r[..8] == "https://";
    assert r[|r| - 12..] == ".workers.dev";
    r
  }

  datatype CreatedTrigger = Library(library: LibraryTrigger) | Http(http: HttpTrigger)

  /**
   * `create_trigger`: a library trigger bound to this system, or an HTTP
   * trigger at the worker's workers.dev URL; other types are not supported.
   */
  method CreateTrigger(worker: CloudflareWorker, configAccount: Option<string>, kind: TriggerType)
    returns (r: Result<CreatedTrigger, string>)
    ensures kind == LIBRARY <==> r.Success? && r.value.Library?
    ensures kind == HTTP <==> r.Success? && r.value.Http?
    ensures kind == LIBRARY ==>
      r.value.library == LibraryTrigger(worker.name, Some(CloudflareSystem))
    ensures kind == HTTP ==>
      fresh(r.value.http) && r.value.http.workerName == worker.name
      && r.value.http.url == Some(WorkerUrl(worker.name, TriggerAccount(worker.accountId, configAccount)))
  {
    if kind == LIBRARY {
      return Success(Library(LibraryTrigger(worker.name, Some(CloudflareSystem))));
    } else if kind == HTTP {
      var account := TriggerAccount(worker.accountId, configAccount);
      var t := new HttpTrigger(worker.name, Some(WorkerUrl(worker.name, account)));
      return Success(Http(t));
    } else {
      return Failure("Trigger type is not supported for Cloudflare Workers");
    }
  }
}
