/**
 * `CloudflareContainer`: image names in the Cloudflare container
 * registry, the registry look-up for an existing tag, and the image name
 * handed to `wrangler containers push`.
 */
module ContainerRegistry {
  import opened Wrappers
  import opened Text
  import opened Json
  import opened Config

  const ApiBase: string := "https://api.cloudflare.com/client/v4"
  const TokenMissing: string := "Cloudflare API token is not configured (api_token)"
  const AccountMissing: string := "Cloudflare account ID is not configured (account_id)"
  const PushTokenMissing: string := "Cloudflare API token is required to push images with wrangler."
  const WranglerMissing: string :=
    "`wrangler` CLI is not installed or not in PATH. It is required for Cloudflare container operations."

  /** `_get_auth_headers` of the container client: only an API token is accepted. */
  function AuthHeaders(c: Credentials): (r: Result<map<string, string>, string>)
    ensures r.Success? <==> TruthyStr(c.apiToken)
    ensures r.Success? ==> r.value == map["Authorization" := "Bearer " + c.apiToken.value,
                                          "Content-Type" := "application/json"]
    ensures r.Failure? ==> r.error == TokenMissing
  {
    if TruthyStr(c.apiToken) then
      Success(map["Authorization" := "Bearer " + c.apiToken.value, "Content-Type" := "application/json"])
    else Failure(TokenMissing)
  }

  /** E-mail and global key, which the Workers client accepts, are refused here. */
  lemma EmailKeyRefused(email: string, key: string, account: Option<string>)
    ensures AuthHeaders(Credentials(None, Some(email), Some(key), account)) == Failure(TokenMissing)
  {
  }

  datatype Names = Names(registryUrl: string, repositoryName: string, imageTag: string, imageUri: string)

  /** `registry_name`: registry, repository, tag and full URI of a benchmark image. */
  function RegistryName(accountId: Option<string>, benchmark: string, language: string, version: string,
                        architecture: string): (r: Result<Names, string>)
    ensures r.Failure? <==> !TruthyStr(accountId)
    ensures r.Failure? ==> r.error == AccountMissing
    ensures r.Success? ==>
      var n := r.value;
      n.registryUrl == "registry.cloudflare.com/" + accountId.value
      && n.repositoryName == ReplaceChar(Lower("sebs-" + benchmark + "-" + language), '_', '-')
      && n.imageTag == ReplaceChar(Lower(version + "-" + architecture), '.', '-')
      && n.imageUri == n.registryUrl + "/" + n.repositoryName + ":" + n.imageTag
  {
    if !TruthyStr(accountId) then Failure(AccountMissing)
    else
      var registryUrl := "registry.cloudflare.com/" + accountId.value;
      var repositoryName := ReplaceChar(Lower("sebs-" + benchmark + "-" + language), '_', '-');
      var imageTag := ReplaceChar(Lower(version + "-" + architecture), '.', '-');
      Success(Names(registryUrl, repositoryName, imageTag, registryUrl + "/" + repositoryName + ":" + imageTag))
  }

  /** Repository names have no '_' and tags no '.', and neither has an upper-case ASCII letter. */
  lemma RegistryNameShape(accountId: Option<string>, benchmark: string, language: string, version: string,
                          architecture: string)
    requires TruthyStr(accountId)
    ensures var n := RegistryName(accountId, benchmark, language, version, architecture).value;
      '_' !in n.repositoryName && '.' !in n.imageTag
      && (forall i :: 0 <= i < |n.repositoryName| ==> !IsAsciiUpper(n.repositoryName[i]))
      && (forall i :: 0 <= i < |n.imageTag| ==> !IsAsciiUpper(n.imageTag[i]))
      && StartsWith(n.repositoryName, "sebs-")
  {
    var n := RegistryName(accountId, benchmark, language, version, architecture).value;
    var low := Lower("sebs-" + benchmark + "-" + language);
    forall i | 0 <= i < 5 ensures n.repositoryName[i] == "sebs-"[i] {
      assert low[i] == LowerChar(("sebs-" + benchmark + "-" + language)[i]);
    }
  }

  /** `push_image`: the URI up to its first ':' (all of it when there is none), then the tag. */
  function PushName(repositoryUri: string, imageTag: string): (r: string)
    ensures ':' !in repositoryUri ==> r == repositoryUri + ":" + imageTag
    ensures EndsWith(r, ":" + imageTag)
  {
    SplitWithout(repositoryUri, ':');
    var base := if ':' in repositoryUri then Split(repositoryUri, ':')[0] else repositoryUri;
    var r := base + ":" + imageTag;
    assert r[|r| - |":" + imageTag|..] == ":" + imageTag;
    r
  }

  /** A tag already in the URI is dropped: only the new one survives. */
  lemma PushNameReplacesTag(base: string, oldTag: string, imageTag: string)
    requires ':' !in base
    ensures PushName(base + ":" + oldTag, imageTag) == base + ":" + imageTag
  {
    SplitAround(base, oldTag, ':');
    assert base + ":" + oldTag == base + [':'] + oldTag;
    assert (base + ":" + oldTag)[|base|] == ':';
  }

  /** Pushing a registry URI with its own tag pushes exactly that URI when no part has a ':'. */
  lemma PushNameOfRegistryUri(accountId: Option<string>, benchmark: string, language: string, version: string,
                              architecture: string)
    requires TruthyStr(accountId)
    requires ':' !in accountId.value && ':' !in benchmark && ':' !in language
    ensures var n := RegistryName(accountId, benchmark, language, version, architecture).value;
      PushName(n.imageUri, n.imageTag) == n.imageUri
  {
    var n := RegistryName(accountId, benchmark, language, version, architecture).value;
    var base := n.registryUrl + "/" + n.repositoryName;
    var raw := "sebs-" + benchmark + "-" + language;
    assert ':' !in raw;
    forall i | 0 <= i < |n.repositoryName| ensures n.repositoryName[i] != ':' {
      assert raw[i] != ':';
    }
    assert ':' !in "registry.cloudflare.com/";
    assert ':' !in base by {
      forall i | 0 <= i < |base| ensures base[i] != ':' {
        if i < |"registry.cloudflare.com/"| {
        } else if i < |n.registryUrl| {
          assert base[i] == accountId.value[i - |"registry.cloudflare.com/"|];
        } else if i > |n.registryUrl| {
          assert base[i] == n.repositoryName[i - |n.registryUrl| - 1];
        }
      }
    }
    PushNameReplacesTag(base, n.imageTag, n.imageTag);
  }

  /** What `wrangler containers push` did. */
  datatype PushRun = Pushed | PushFailed(stderr: string) | NotInstalled

  /** `push_image`: the full image name pushed, or the error raised. */
  function PushImage(c: Credentials, repositoryUri: string, imageTag: string, run: string -> PushRun)
    : (r: Result<string, string>)
    ensures !TruthyStr(c.apiToken) ==> r == Failure(PushTokenMissing)
    ensures TruthyStr(c.apiToken) && run(PushName(repositoryUri, imageTag)).Pushed? ==>
      r == Success(PushName(repositoryUri, imageTag))
    ensures TruthyStr(c.apiToken) && run(PushName(repositoryUri, imageTag)).PushFailed? ==>
      r == Failure("Wrangler push failed: " + run(PushName(repositoryUri, imageTag)).stderr)
    ensures TruthyStr(c.apiToken) && run(PushName(repositoryUri, imageTag)).NotInstalled? ==>
      r == Failure(WranglerMissing)
  {
    var full := PushName(repositoryUri, imageTag);
    if !TruthyStr(c.apiToken) then Failure(PushTokenMissing)
    else
      match run(full)
      case Pushed => Success(full)
      case PushFailed(stderr) => Failure("Wrangler push failed: " + stderr)
      case NotInstalled => Failure(WranglerMissing)
  }

  /** The images endpoint queried by `find_image`. */
  function ImagesUrl(accountId: Option<string>, repositoryName: string): string
  {
    ApiBase + "/accounts/" + Render(accountId) + "/registry/repositories/" + repositoryName + "/images"
  }

  /** The registry's answer: a status and the decoded body, or a request exception. */
  datatype RegistryReply = Status(code: int, body: Result<Json, string>) | RequestFailed

  /** `image_tag in image.get('tags', [])`: list membership, substring of a string, key of a dict. */
  function TagIn(imageTag: string, image: Json): (r: Result<bool, string>)
    ensures !image.JObj? ==> r.Failure?
    ensures image.JObj? && "tags" !in image.fields ==> r == Success(false)
    ensures image.JObj? && "tags" in image.fields && image.fields["tags"].JArr? ==>
      r == Success(JStr(imageTag) in image.fields["tags"].items)
  {
    if !image.JObj? then Failure("AttributeError: object has no attribute 'get'")
    else if "tags" !in image.fields then Success(false)
    else
      match image.fields["tags"]
      case JArr(items) => Success(JStr(imageTag) in items)
      case JStr(s) => Success(Contains(s, imageTag))
      case JObj(fields) => Success(imageTag in fields)
      case _ => Failure("TypeError: argument is not iterable")
  }

  /** The search over images: true at the first match, an exception stops it. */
  function Search(images: seq<Json>, imageTag: string): (r: Result<bool, string>)
    ensures r == Success(true) ==> exists i :: 0 <= i < |images| && TagIn(imageTag, images[i]) == Success(true)
    ensures r == Success(false) ==> forall i :: 0 <= i < |images| ==> TagIn(imageTag, images[i]) == Success(false)
    ensures r.Failure? ==> exists i :: 0 <= i < |images| && TagIn(imageTag, images[i]).Failure?
    decreases |images|
  {
    if |images| == 0 then Success(false)
    else
      match TagIn(imageTag, images[0])
      case Failure(e) => Failure(e)
      case Success(found) => if found then Success(true) else Search(images[1..], imageTag)
  }

  /** With well-formed images the search answers whether some image lists the tag. */
  lemma {:induction false} SearchFindsTag(images: seq<Json>, imageTag: string)
    requires forall i :: 0 <= i < |images| ==>
      images[i].JObj? && ("tags" in images[i].fields ==> images[i].fields["tags"].JArr?)
    ensures Search(images, imageTag) == Success(exists i :: 0 <= i < |images| && "tags" in images[i].fields
                                                 && JStr(imageTag) in images[i].fields["tags"].items)
    decreases |images|
  {
    if |images| > 0 {
      SearchFindsTag(images[1..], imageTag);
      assert forall i :: 0 <= i < |images[1..]| ==> images[1..][i] == images[i + 1];
      if !("tags" in images[0].fields && JStr(imageTag) in images[0].fields["tags"].items) {
        if exists i :: 0 <= i < |images| && "tags" in images[i].fields
                       && JStr(imageTag) in images[i].fields["tags"].items {
          var i :| 0 <= i < |images| && "tags" in images[i].fields && JStr(imageTag) in images[i].fields["tags"].items;
          assert i > 0;
          assert images[1..][i - 1] == images[i];
        }
      }
    }
  }

  /** The images the reply lists: `data.get('result', {}).get('images', [])`. */
  function ImagesOf(data: Json): (r: Result<seq<Json>, string>)
    ensures !data.JObj? ==> r.Failure?
    ensures data.JObj? && "result" !in data.fields ==> r == Success([])
  {
    if !data.JObj? then Failure("AttributeError: object has no attribute 'get'")
    else if "result" !in data.fields then Success([])
    else
      var result := data.fields["result"];
      if !result.JObj? then Failure("AttributeError: object has no attribute 'get'")
      else if "images" !in result.fields then Success([])
      else DictItems(result.fields["images"])
  }

  /**
   * `find_image`: whether the tag exists. Missing credentials raise; a 404,
   * an error status, an undecodable body or a failed request all give false.
   */
  function FindImageSpec(c: Credentials, repositoryName: string, imageTag: string, get: string -> RegistryReply)
    : (r: Result<bool, string>)
    ensures !TruthyStr(c.apiToken) ==> r == Failure(TokenMissing)
    ensures TruthyStr(c.apiToken) && get(ImagesUrl(c.accountId, repositoryName)).RequestFailed? ==>
      r == Success(false)
    ensures TruthyStr(c.apiToken) && get(ImagesUrl(c.accountId, repositoryName)).Status? ==>
      var reply := get(ImagesUrl(c.accountId, repositoryName));
      (reply.code == 404 || 400 <= reply.code < 600 || reply.body.Failure? ==> r == Success(false))
      && (!(reply.code == 404 || 400 <= reply.code < 600) && reply.body.Success? && ImagesOf(reply.body.value).Failure? ==>
            r == Failure(ImagesOf(reply.body.value).error))
      && (!(reply.code == 404 || 400 <= reply.code < 600) && reply.body.Success? && ImagesOf(reply.body.value).Success? ==>
            r == Search(ImagesOf(reply.body.value).value, imageTag))
  {
    match AuthHeaders(c)
    case Failure(e) => Failure(e)
    case Success(_) =>
      match get(ImagesUrl(c.accountId, repositoryName))
      case RequestFailed => Success(false)
      case Status(code, body) =>
        if code == 404 || 400 <= code < 600 then Success(false)
        else
          match body
          case Failure(_) => Success(false)
          case Success(data) =>
            match ImagesOf(data)
            case Failure(e) => Failure(e)
            case Success(images) => Search(images, imageTag)
  }

  /** `find_image` with its search loop. */
  method FindImage(c: Credentials, repositoryName: string, imageTag: string, get: string -> RegistryReply)
    returns (r: Result<bool, string>)
    ensures r == FindImageSpec(c, repositoryName, imageTag, get)
  {
    var headers := AuthHeaders(c);
    if headers.Failure? {
      return Failure(headers.error);
    }
    var reply := get(ImagesUrl(c.accountId, repositoryName));
    if reply.RequestFailed? || reply.code == 404 || 400 <= reply.code < 600 || reply.body.Failure? {
      return Success(false);
    }
    var images := ImagesOf(reply.body.value);
    if images.Failure? {
      return Failure(images.error);
    }
    var i := 0;
    while i < |images.value|
      invariant 0 <= i <= |images.value|
      invariant Search(images.value, imageTag) == Search(images.value[i..], imageTag)
    {
      assert images.value[i..][1..] == images.value[i + 1..];
      var found := TagIn(imageTag, images.value[i]);
      if found.Failure? {
        return Failure(found.error);
      }
      if found.value {
        return Success(true);
      }
      i := i + 1;
    }
    r := Success(false);
  }
}
