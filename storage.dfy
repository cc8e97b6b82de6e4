/**
 * The R2 storage client of a Python container. Objects are moved through
 * the worker's `/r2/...` proxy endpoints; the worker URL is class-wide
 * state set by the request handler. Requests go through the patched
 * `urlopen` of the container handler.
 */
module Storage {
  import opened Wrappers
  import opened Text
  import opened Json
  import opened Http

  const UrlNotSet: string := "Worker URL not set - cannot access R2"
  const NotConfigured: string := "R2 not configured"
  const UploadPrefix: string := "Failed to upload to R2: "
  const DownloadPrefix: string := "Failed to download from R2: "
  const DirectoryPrefix: string := "Failed to download directory: "
  /** What `os.makedirs('')` raises. */
  const NoSuchDirectory: string := "[Errno 2] No such file or directory: ''"

  /** `open(path, 'wb')` refuses an empty path and a path that names a directory by ending in '/'. */
  predicate Openable(filepath: string)
  {
    filepath != "" && !EndsWith(filepath, "/")
  }

  /** What `open(path, 'wb')` raises for a path it refuses. */
  function OpenFailure(filepath: string): string
  {
    if filepath == "" then NoSuchDirectory else "[Errno 21] Is a directory: '" + filepath + "'"
  }

  /** The requests sent and the files written, in order, and the result or the exception raised. */
  datatype Outcome<T> = Outcome(sent: seq<Request>, written: seq<(string, seq<byte>)>, result: Result<T, Error>)

  /** An instance of the client; R2 is always enabled when it is created. */
  class StorageClient {
    var r2Enabled: bool

    constructor ()
      ensures r2Enabled
    {
      r2Enabled := true;
    }
  }

  /** The class-level attributes `storage.instance` and `storage.worker_url`. */
  class StorageClass {
    var instance: Option<StorageClient>
    var workerUrl: Option<string>

    constructor ()
      ensures instance == None && workerUrl == None
    {
      instance := None;
      workerUrl := None;
    }

    /** `init_instance`: the singleton, created on the first call only. */
    method InitInstance() returns (c: StorageClient)
      modifies this
      ensures old(instance).Some? ==> c == old(instance).value && instance == old(instance)
      ensures old(instance).None? ==> fresh(c) && c.r2Enabled && instance == Some(c)
      ensures workerUrl == old(workerUrl)
    {
      if instance.None? {
        var created := new StorageClient();
        instance := Some(created);
      }
      c := instance.value;
    }

    /** `get_instance`: the same rule as `init_instance`. */
    method GetInstance() returns (c: StorageClient)
      modifies this
      ensures old(instance).Some? ==> c == old(instance).value && instance == old(instance)
      ensures old(instance).None? ==> fresh(c) && c.r2Enabled && instance == Some(c)
      ensures workerUrl == old(workerUrl)
    {
      c := InitInstance();
    }

    /** `set_worker_url`: one URL shared by every instance. */
    method SetWorkerUrl(url: Option<string>)
      modifies this
      ensures workerUrl == url && instance == old(instance)
    {
      workerUrl := url;
    }
  }

  // ---- object names --------------------------------------------------------

  /** The first dash-separated group of a UUID. */
  function UuidTag(uuid: string): string
  {
    Split(uuid, '-')[0]
  }

  /** `unique_name`: the first UUID group inserted between stem and extension. */
  function UniqueName(name: string, uuid: string): (r: string)
    ensures StartsWith(r, Splitext(name).0 + ".") && EndsWith(r, Splitext(name).1)
    ensures |r| == |name| + 1 + |UuidTag(uuid)|
  {
    var (stem, extension) := Splitext(name);
    stem + "." + UuidTag(uuid) + extension
  }

  predicate UuidShaped(uuid: string)
  {
    |uuid| > 0 && uuid[0] != '-' && forall i :: 0 <= i < |uuid| ==> IsAsciiAlnum(uuid[i]) || uuid[i] == '-'
  }

  lemma {:induction false} SplitFirstPart(s: string, sep: char)
    ensures |Split(s, sep)[0]| <= |s|
    ensures Split(s, sep)[0] == s[..|Split(s, sep)[0]|]
    ensures |s| > 0 && s[0] != sep ==> |Split(s, sep)[0]| > 0
    decreases |s|
  {
    if |s| > 0 {
      SplitFirstPart(s[1..], sep);
    }
  }

  /** The tag of a UUID is a non-empty run of letters and digits. */
  lemma UuidTagPlain(uuid: string)
    requires UuidShaped(uuid)
    ensures |UuidTag(uuid)| > 0
    ensures forall i :: 0 <= i < |UuidTag(uuid)| ==> UuidTag(uuid)[i] != '.' && UuidTag(uuid)[i] != '/'
  {
    var tag := UuidTag(uuid);
    SplitFirstPart(uuid, '-');
    assert forall i :: 0 <= i < |tag| ==> tag[i] == uuid[i];
  }

  /** A name with an extension keeps it, and its stem gains the UUID group. */
  lemma UniqueNameKeepsExtension(name: string, uuid: string)
    requires UuidShaped(uuid)
    requires Splitext(name).1 != ""
    ensures Splitext(UniqueName(name, uuid)) == (Splitext(name).0 + "." + UuidTag(uuid), Splitext(name).1)
  {
    var (stem, ext) := Splitext(name);
    var tag := UuidTag(uuid);
    UuidTagPlain(uuid);
    var r := UniqueName(name, uuid);
    assert r == stem + "." + tag + ext;
    var dot := |stem| + 1 + |tag|;
    assert r[dot] == '.';
    forall j | |stem| <= j < |r|
      ensures r[j] != '/' && (j > dot ==> r[j] != '.')
    {
      if j == |stem| {
      } else if j < dot {
        assert r[j] == tag[j - |stem| - 1];
      } else if j > dot {
        assert r[j] == ext[j - dot];
      }
    }
    LastIndexOfIs(r, '.', dot);
    assert r[|stem| + 1] == tag[0];
    assert r[..dot] == stem + "." + tag;
  }

  // ---- payloads ------------------------------------------------------------

  /** What `upload_stream` accepts: a `BytesIO`, a `str` or raw bytes. */
  datatype Payload = BytesIO(buffer: seq<byte>) | Str(s: string) | Raw(bytes: seq<byte>)

  /** The bytes a payload is sent as: the buffer's value, or the UTF-8 encoding of a string. */
  function PayloadBytes(p: Payload): (bs: seq<byte>)
    ensures p.Raw? ==> bs == p.bytes
    ensures p.BytesIO? ==> bs == p.buffer
    ensures p.Str? ==> bs == Utf8Encode(p.s)
  {
    match p
    case BytesIO(buffer) => buffer
    case Str(s) => Utf8Encode(s)
    case Raw(bytes) => bytes
  }

  // ---- requests ------------------------------------------------------------

  /** The decoded JSON reply to a request, or `str(e)` of what went wrong. */
  function Exchange(wire: Wire, req: Request): (r: Result<Json, string>)
    ensures r.Success? <==> wire.send(req).Ok? && wire.parse(wire.send(req).body).Success?
    ensures r.Success? ==> r.value == wire.parse(wire.send(req).body).value
    ensures wire.send(req).HttpError? ==> r == Failure(wire.send(req).describe)
    ensures wire.send(req).Failed? ==> r == Failure(wire.send(req).cause)
  {
    match wire.send(req)
    case Ok(body) => (match wire.parse(body) case Success(v) => Success(v) case Failure(e) => Failure(e))
    case HttpError(_, describe, _) => Failure(describe)
    case Failed(cause) => Failure(cause)
  }

  /** The upload request, before `urlopen` adds the User-Agent. */
  function UploadRequest(workerUrl: string, bucket: string, key: string, data: Payload, wire: Wire): (r: Request)
    ensures r.verb == "POST" && r.body == RawBody(PayloadBytes(data))
    ensures r.url == workerUrl + "/r2/upload?" + wire.urlencode([("bucket", bucket), ("key", key)])
    ensures r.headers == map["Content-type" := "application/octet-stream"]
  {
    assert Capitalize("Content-Type") == "Content-type";
    AddHeader(Request("POST", workerUrl + "/r2/upload?" + wire.urlencode([("bucket", bucket), ("key", key)]),
                      map[], RawBody(PayloadBytes(data))),
              "Content-Type", "application/octet-stream")
  }

  /** The stored key the worker answers with, or the upload error. */
  function UploadResult(wire: Wire, req: Request): (r: Result<Json, Error>)
    ensures r.Success? <==> Exchange(wire, req).Success? && Field(Exchange(wire, req).value, "key").Success?
    ensures r.Success? ==> r.value == Exchange(wire, req).value.fields["key"]
    ensures r.Failure? ==> r.error.RuntimeError? && StartsWith(r.error.message, UploadPrefix)
  {
    match Exchange(wire, req)
    case Failure(e) => Failure(RuntimeError(UploadPrefix + e))
    case Success(v) =>
      match Field(v, "key")
      case Success(k) => Success(k)
      case Failure(e) => Failure(RuntimeError(UploadPrefix + e))
  }

  /**
   * `upload_stream`: with R2 disabled the key comes back and nothing is
   * sent; without a worker URL it raises; otherwise one POST whose reply's
   * 'key' is returned.
   */
  function UploadStream(client: StorageClient, cls: StorageClass, bucket: string, key: string, data: Payload,
                        wire: Wire): (o: Outcome<Json>)
    reads client, cls
    ensures o.written == []
    ensures !client.r2Enabled ==> o == Outcome([], [], Success(JStr(key)))
    ensures client.r2Enabled && !TruthyStr(cls.workerUrl) ==> o == Outcome([], [], Failure(RuntimeError(UrlNotSet)))
    ensures client.r2Enabled && TruthyStr(cls.workerUrl) ==>
      var req := PatchedUrlopen(Prepared(UploadRequest(cls.workerUrl.value, bucket, key, data, wire)));
      o.sent == [req] && o.result == UploadResult(wire, req)
  {
    if !client.r2Enabled then Outcome([], [], Success(JStr(key)))
    else if !TruthyStr(cls.workerUrl) then Outcome([], [], Failure(RuntimeError(UrlNotSet)))
    else
      var req := PatchedUrlopen(Prepared(UploadRequest(cls.workerUrl.value, bucket, key, data, wire)));
      Outcome([req], [], UploadResult(wire, req))
  }

  /** `_upload_with_key`: the same request as `upload_stream`, returning nothing. */
  function UploadWithKey(client: StorageClient, cls: StorageClass, bucket: string, key: string, data: Payload,
                         wire: Wire): (o: Outcome<()>)
    reads client, cls
    ensures o.written == []
    ensures !client.r2Enabled ==> o == Outcome([], [], Success(()))
    ensures client.r2Enabled && !TruthyStr(cls.workerUrl) ==> o == Outcome([], [], Failure(RuntimeError(UrlNotSet)))
    ensures client.r2Enabled && TruthyStr(cls.workerUrl) ==>
      var req := PatchedUrlopen(Prepared(UploadRequest(cls.workerUrl.value, bucket, key, data, wire)));
      o.sent == [req] && (o.result.Success? <==> UploadResult(wire, req).Success?)
      && (o.result.Failure? ==> o.result.error == UploadResult(wire, req).error)
  {
    if !client.r2Enabled then Outcome([], [], Success(()))
    else if !TruthyStr(cls.workerUrl) then Outcome([], [], Failure(RuntimeError(UrlNotSet)))
    else
      var req := PatchedUrlopen(Prepared(UploadRequest(cls.workerUrl.value, bucket, key, data, wire)));
      match UploadResult(wire, req)
      case Success(_) => Outcome([req], [], Success(()))
      case Failure(e) => Outcome([req], [], Failure(e))
  }

  /** Both uploads send the same request and fail with the same error. */
  lemma UploadsAgree(client: StorageClient, cls: StorageClass, bucket: string, key: string, data: Payload, wire: Wire)
    ensures UploadStream(client, cls, bucket, key, data, wire).sent == UploadWithKey(client, cls, bucket, key, data, wire).sent
    ensures UploadStream(client, cls, bucket, key, data, wire).result.Failure?
        <==> UploadWithKey(client, cls, bucket, key, data, wire).result.Failure?
  {
  }

  /**
   * `upload`: reads the file, uploads it under a fresh unique key and
   * returns that key. A file that cannot be read raises before anything
   * is sent.
   */
  function Upload(client: StorageClient, cls: StorageClass, bucket: string, key: string,
                  file: Result<seq<byte>, string>, uuid: string, wire: Wire): (o: Outcome<string>)
    reads client, cls
    ensures file.Failure? ==> o == Outcome([], [], Failure(OtherError(file.error)))
    ensures file.Success? ==>
      var inner := UploadWithKey(client, cls, bucket, UniqueName(key, uuid), Raw(file.value), wire);
      o.sent == inner.sent && o.written == []
      && (o.result.Success? <==> inner.result.Success?)
      && (o.result.Failure? ==> o.result.error == inner.result.error)
    ensures o.result.Success? ==> o.result.value == UniqueName(key, uuid)
  {
    var uniqueKey := UniqueName(key, uuid);
    match file
    case Failure(e) => Outcome([], [], Failure(OtherError(e)))
    case Success(data) =>
      var inner := UploadWithKey(client, cls, bucket, uniqueKey, Raw(data), wire);
      match inner.result
      case Success(_) => Outcome(inner.sent, [], Success(uniqueKey))
      case Failure(e) => Outcome(inner.sent, [], Failure(e))
  }

  /** The download request as `urlopen` sends it: a GET for the URL, with the User-Agent. */
  function DownloadRequest(workerUrl: string, bucket: string, key: string, wire: Wire): (r: Request)
    ensures r.verb == "GET" && r.body == NoBody && r.headers == map["User-agent" := UserAgent]
    ensures r.url == workerUrl + "/r2/download?" + wire.urlencode([("bucket", bucket), ("key", key)])
  {
    assert Capitalize("User-Agent") == "User-agent";
    PatchedUrlopen(UrlString(workerUrl + "/r2/download?" + wire.urlencode([("bucket", bucket), ("key", key)]), NoBody))
  }

  /**
   * `download_stream`: the object's bytes; a 404 is "Object not found",
   * every other failure "Failed to download from R2".
   */
  function DownloadStream(client: StorageClient, cls: StorageClass, bucket: string, key: string, wire: Wire)
    : (o: Outcome<seq<byte>>)
    reads client, cls
    ensures o.written == []
    ensures !client.r2Enabled ==> o == Outcome([], [], Failure(RuntimeError(NotConfigured)))
    ensures client.r2Enabled && !TruthyStr(cls.workerUrl) ==> o == Outcome([], [], Failure(RuntimeError(UrlNotSet)))
    ensures client.r2Enabled && TruthyStr(cls.workerUrl) ==>
      var req := DownloadRequest(cls.workerUrl.value, bucket, key, wire);
      var reply := wire.send(req);
      o.sent == [req]
      && (reply.Ok? ==> o.result == Success(reply.body))
      && (reply.HttpError? && reply.code == 404 ==> o.result == Failure(RuntimeError("Object not found: " + key)))
      && (reply.HttpError? && reply.code != 404 ==> o.result == Failure(RuntimeError(DownloadPrefix + reply.describe)))
      && (reply.Failed? ==> o.result == Failure(RuntimeError(DownloadPrefix + reply.cause)))
  {
    if !client.r2Enabled then Outcome([], [], Failure(RuntimeError(NotConfigured)))
    else if !TruthyStr(cls.workerUrl) then Outcome([], [], Failure(RuntimeError(UrlNotSet)))
    else
      var req := DownloadRequest(cls.workerUrl.value, bucket, key, wire);
      var result: Result<seq<byte>, Error> :=
        match wire.send(req)
        case Ok(body) => Success(body)
        case HttpError(code, describe, _) =>
          Failure(RuntimeError(if code == 404 then "Object not found: " + key else DownloadPrefix + describe))
        case Failed(cause) => Failure(RuntimeError(DownloadPrefix + cause));
      Outcome([req], [], result)
  }

  /**
   * `download` as written: fetches the object, then creates the parent
   * directory unconditionally, which raises for a path without one, then
   * opens the path for writing.
   */
  function DownloadAsWritten(client: StorageClient, cls: StorageClass, bucket: string, key: string,
                             filepath: string, wire: Wire): (o: Outcome<()>)
    reads client, cls
    ensures o.sent == DownloadStream(client, cls, bucket, key, wire).sent
    ensures o.result.Success? <==>
      DownloadStream(client, cls, bucket, key, wire).result.Success? && '/' in filepath && Openable(filepath)
  {
    var d := DownloadStream(client, cls, bucket, key, wire);
    match d.result
    case Failure(e) => Outcome(d.sent, [], Failure(e))
    case Success(data) =>
      if Dirname(filepath) == "" then Outcome(d.sent, [], Failure(OtherError(NoSuchDirectory)))
      else if !Openable(filepath) then Outcome(d.sent, [], Failure(OtherError(OpenFailure(filepath))))
      else Outcome(d.sent, [(filepath, data)], Success(()))
  }

  /** A bare file name is fetched and then never written. */
  lemma BareFileNameFails(client: StorageClient, cls: StorageClass, bucket: string, key: string,
                          filepath: string, wire: Wire)
    requires DownloadStream(client, cls, bucket, key, wire).result.Success?
    requires '/' !in filepath
    ensures |DownloadAsWritten(client, cls, bucket, key, filepath, wire).sent| == 1
    ensures DownloadAsWritten(client, cls, bucket, key, filepath, wire).result == Failure(OtherError(NoSuchDirectory))
    ensures DownloadAsWritten(client, cls, bucket, key, filepath, wire).written == []
  {
  }

  /**
   * `download`, creating the parent directory only when there is one (as
   * `download_directory` does): the object's bytes are written to the path
   * when `open` accepts it.
   */
  function Download(client: StorageClient, cls: StorageClass, bucket: string, key: string,
                    filepath: string, wire: Wire): (o: Outcome<()>)
    reads client, cls
    ensures var d := DownloadStream(client, cls, bucket, key, wire);
      o.sent == d.sent
      && (o.result.Success? <==> d.result.Success? && Openable(filepath))
      && (o.result.Success? ==> o.written == [(filepath, d.result.value)])
      && (o.result.Failure? ==> o.written == [])
      && (d.result.Failure? ==> o.result.error == d.result.error)
      && (d.result.Success? && !Openable(filepath) ==> o.result.error == OtherError(OpenFailure(filepath)))
  {
    var d := DownloadStream(client, cls, bucket, key, wire);
    match d.result
    case Failure(e) => Outcome(d.sent, [], Failure(e))
    case Success(data) =>
      if !Openable(filepath) then Outcome(d.sent, [], Failure(OtherError(OpenFailure(filepath))))
      else Outcome(d.sent, [(filepath, data)], Success(()))
  }

  /** Wherever the path has a directory part the two definitions agree. */
  lemma DownloadAgreesWithAsWritten(client: StorageClient, cls: StorageClass, bucket: string, key: string,
                                    filepath: string, wire: Wire)
    requires '/' in filepath
    ensures Download(client, cls, bucket, key, filepath, wire) == DownloadAsWritten(client, cls, bucket, key, filepath, wire)
  {
  }

  // ---- directories ---------------------------------------------------------

  /** The local name of an object: the key without the prefix and the slashes after it. */
  function RelPath(key: string, prefix: string): (r: string)
    ensures EndsWith(key, r)
    ensures prefix != "" && StartsWith(key, prefix) ==>
      |r| <= |key| - |prefix| && (r == "" || r[0] != '/')
    ensures !(prefix != "" && StartsWith(key, prefix)) ==> r == key
  {
    if prefix != "" && StartsWith(key, prefix) then
      var r := StripLeft(key[|prefix|..], c => c == '/');
      assert key[|prefix|..][|key| - |prefix| - |r|..] == key[|key| - |r|..];
      r
    else key
  }

  /** Below a non-empty prefix, the local name is what follows the prefix and its slashes. */
  lemma RelPathOf(prefix: string, slashes: nat, rel: string)
    requires prefix != ""
    requires rel == "" || rel[0] != '/'
    ensures RelPath(prefix + Repeat("/", slashes) + rel, prefix) == rel
  {
    var key := prefix + Repeat("/", slashes) + rel;
    assert key[..|prefix|] == prefix;
    assert key[|prefix|..] == Repeat("/", slashes) + rel;
    StripLeftRun('/', slashes, rel, c => c == '/');
  }

  /** The list request: the SeBS User-Agent is set explicitly. */
  function ListRequest(workerUrl: string, bucket: string, prefix: string, wire: Wire): (r: Request)
    ensures r.verb == "GET" && r.body == NoBody && r.headers == map["User-agent" := UserAgent]
    ensures r.url == workerUrl + "/r2/list?" + wire.urlencode([("bucket", bucket), ("prefix", prefix)])
  {
    assert Capitalize("User-Agent") == "User-agent";
    PatchedUrlopen(Prepared(AddHeader(
      Request("GET", workerUrl + "/r2/list?" + wire.urlencode([("bucket", bucket), ("prefix", prefix)]), map[], NoBody),
      "User-Agent", UserAgent)))
  }

  /** Iterating `result.get('objects', [])`: a list, or an empty string or dict; anything else raises. */
  function ObjectList(result: Json): (r: Result<seq<Json>, string>)
    ensures result.JObj? && "objects" in result.fields ==> r == DictItems(result.fields["objects"])
    ensures result.JObj? && "objects" !in result.fields ==> r == Success([])
    ensures !result.JObj? ==> r.Failure?
  {
    if !result.JObj? then Failure("AttributeError: object has no attribute 'get'")
    else if "objects" !in result.fields then Success([])
    else DictItems(result.fields["objects"])
  }

  /** `obj['key']` for one listed object; only a string key can be joined to a path. */
  function ObjectKey(obj: Json): (r: Result<string, string>)
    ensures r.Success? <==> obj.JObj? && "key" in obj.fields && obj.fields["key"].JStr?
    ensures r.Success? ==> r.value == obj.fields["key"].s
  {
    match Field(obj, "key")
    case Failure(e) => Failure(e)
    case Success(k) => if k.JStr? then Success(k.s) else Failure("TypeError: expected str")
  }

  /** Where an object's key is written. */
  function LocalFile(localPath: string, key: string, prefix: string): string
  {
    PathJoin(localPath, RelPath(key, prefix))
  }

  /** Under a non-empty directory, an object's local file always has a directory part. */
  lemma LocalFileHasDirectory(localPath: string, key: string, prefix: string)
    requires localPath != ""
    ensures '/' in LocalFile(localPath, key, prefix)
  {
    var rel := RelPath(key, prefix);
    var p := LocalFile(localPath, key, prefix);
    if StartsWith(rel, "/") {
      assert p[0] == '/';
    } else if EndsWith(localPath, "/") {
      assert p[|localPath| - 1] == '/';
    } else {
      assert p[|localPath|] == '/';
    }
  }

  /**
   * Inside `download_directory` the as-written `download` and the corrected
   * one agree: every local file there has a directory part.
   */
  lemma DirectoryDownloadAgrees(client: StorageClient, cls: StorageClass, bucket: string, key: string,
                                prefix: string, localPath: string, wire: Wire)
    requires localPath != ""
    ensures Download(client, cls, bucket, key, LocalFile(localPath, key, prefix), wire)
         == DownloadAsWritten(client, cls, bucket, key, LocalFile(localPath, key, prefix), wire)
  {
    LocalFileHasDirectory(localPath, key, prefix);
    DownloadAgreesWithAsWritten(client, cls, bucket, key, LocalFile(localPath, key, prefix), wire);
  }

  /**
   * The downloads of `download_directory`, object by object, stopping at
   * the first failure, which becomes "Failed to download directory".
   */
  function DownloadAll(client: StorageClient, cls: StorageClass, bucket: string, prefix: string, localPath: string,
                       objects: seq<Json>, wire: Wire): (o: Outcome<()>)
    reads client, cls
    ensures o.result.Failure? ==> o.result.error.RuntimeError? && StartsWith(o.result.error.message, DirectoryPrefix)
    decreases |objects|
  {
    if |objects| == 0 then Outcome([], [], Success(()))
    else
      match ObjectKey(objects[0])
      case Failure(e) => Outcome([], [], Failure(RuntimeError(DirectoryPrefix + e)))
      case Success(key) =>
        var d := Download(client, cls, bucket, key, LocalFile(localPath, key, prefix), wire);
        match d.result
        case Failure(e) => Outcome(d.sent, d.written, Failure(RuntimeError(DirectoryPrefix + e.message)))
        case Success(_) =>
          var rest := DownloadAll(client, cls, bucket, prefix, localPath, objects[1..], wire);
          Outcome(d.sent + rest.sent, d.written + rest.written, rest.result)
  }

  /**
   * `download_directory`: lists the objects under the prefix and downloads
   * each into `localPath`, returning `localPath`.
   */
  function DownloadDirectorySpec(client: StorageClient, cls: StorageClass, bucket: string, prefix: string,
                                 localPath: string, wire: Wire): (o: Outcome<string>)
    reads client, cls
    ensures !TruthyStr(cls.workerUrl) ==> o == Outcome([], [], Failure(RuntimeError(UrlNotSet)))
    ensures TruthyStr(cls.workerUrl) && localPath == "" ==> o == Outcome([], [], Failure(OtherError(NoSuchDirectory)))
    ensures TruthyStr(cls.workerUrl) && localPath != "" ==> o.sent != [] && o.sent[0] == ListRequest(cls.workerUrl.value, bucket, prefix, wire)
    ensures o.result.Success? ==> o.result.value == localPath
    ensures TruthyStr(cls.workerUrl) && localPath != "" && o.result.Failure? ==>
      o.result.error.RuntimeError? && StartsWith(o.result.error.message, DirectoryPrefix)
  {
    if !TruthyStr(cls.workerUrl) then Outcome([], [], Failure(RuntimeError(UrlNotSet)))
    else if localPath == "" then Outcome([], [], Failure(OtherError(NoSuchDirectory)))
    else
      var req := ListRequest(cls.workerUrl.value, bucket, prefix, wire);
      match Exchange(wire, req)
      case Failure(e) => Outcome([req], [], Failure(RuntimeError(DirectoryPrefix + e)))
      case Success(result) =>
        match ObjectList(result)
        case Failure(e) => Outcome([req], [], Failure(RuntimeError(DirectoryPrefix + e)))
        case Success(objects) =>
          var all := DownloadAll(client, cls, bucket, prefix, localPath, objects, wire);
          Outcome([req] + all.sent, all.written,
                  match all.result case Success(_) => Success(localPath) case Failure(e) => Failure(e))
  }

  /** The outcome `o` after the requests and writes already made. */
  function After<T>(sent: seq<Request>, written: seq<(string, seq<byte>)>, o: Outcome<T>): (r: Outcome<T>)
    ensures r.result == o.result && |r.sent| == |sent| + |o.sent|
  {
    Outcome(sent + o.sent, written + o.written, o.result)
  }

  /** Resuming after one more successful download is resuming after both. */
  lemma AfterAfter(sent: seq<Request>, written: seq<(string, seq<byte>)>, d: Outcome<()>, o: Outcome<()>)
    ensures After(sent, written, After(d.sent, d.written, o)) == After(sent + d.sent, written + d.written, o)
  {
    assert sent + (d.sent + o.sent) == (sent + d.sent) + o.sent;
    assert written + (d.written + o.written) == (written + d.written) + o.written;
  }

  /** The download loop of `download_directory`, one object at a time. */
  method DownloadObjects(client: StorageClient, cls: StorageClass, bucket: string, prefix: string, localPath: string,
                         objects: seq<Json>, wire: Wire) returns (o: Outcome<()>)
    ensures o == DownloadAll(client, cls, bucket, prefix, localPath, objects, wire)
  {
    var sent: seq<Request> := [];
    var written: seq<(string, seq<byte>)> := [];
    var rest := objects;
    assert After(sent, written, DownloadAll(client, cls, bucket, prefix, localPath, rest, wire))
      == DownloadAll(client, cls, bucket, prefix, localPath, objects, wire);
    while rest != []
      invariant After(sent, written, DownloadAll(client, cls, bucket, prefix, localPath, rest, wire))
        == DownloadAll(client, cls, bucket, prefix, localPath, objects, wire)
      decreases |rest|
    {
      var key := ObjectKey(rest[0]);
      if key.Failure? {
        o := Outcome(sent, written, Failure(RuntimeError(DirectoryPrefix + key.error)));
        return;
      }
      var d := Download(client, cls, bucket, key.value, LocalFile(localPath, key.value, prefix), wire);
      if d.result.Failure? {
        o := Outcome(sent + d.sent, written + d.written, Failure(RuntimeError(DirectoryPrefix + d.result.error.message)));
        return;
      }
      AfterAfter(sent, written, d, DownloadAll(client, cls, bucket, prefix, localPath, rest[1..], wire));
      sent := sent + d.sent;
      written := written + d.written;
      rest := rest[1..];
    }
    o := Outcome(sent, written, Success(()));
    assert sent + [] == sent && written + [] == written;
  }

  /** `download_directory`, with its loop. */
  method DownloadDirectory(client: StorageClient, cls: StorageClass, bucket: string, prefix: string,
                           localPath: string, wire: Wire) returns (o: Outcome<string>)
    ensures o == DownloadDirectorySpec(client, cls, bucket, prefix, localPath, wire)
  {
    if !TruthyStr(cls.workerUrl) {
      return Outcome([], [], Failure(RuntimeError(UrlNotSet)));
    }
    if localPath == "" {
      return Outcome([], [], Failure(OtherError(NoSuchDirectory)));
    }
    var req := ListRequest(cls.workerUrl.value, bucket, prefix, wire);
    var listing := Exchange(wire, req);
    if listing.Failure? {
      return Outcome([req], [], Failure(RuntimeError(DirectoryPrefix + listing.error)));
    }
    var objects := ObjectList(listing.value);
    if objects.Failure? {
      return Outcome([req], [], Failure(RuntimeError(DirectoryPrefix + objects.error)));
    }
    var all := DownloadObjects(client, cls, bucket, prefix, localPath, objects.value, wire);
    o := Outcome([req] + all.sent, all.written,
                 if all.result.Success? then Success(localPath) else Failure(all.result.error));
  }

  /** When every download succeeds, each object is fetched once and written once. */
  lemma {:induction false} DownloadAllCounts(client: StorageClient, cls: StorageClass, bucket: string, prefix: string,
                                             localPath: string, objects: seq<Json>, wire: Wire)
    requires client.r2Enabled && TruthyStr(cls.workerUrl)
    requires DownloadAll(client, cls, bucket, prefix, localPath, objects, wire).result.Success?
    ensures |DownloadAll(client, cls, bucket, prefix, localPath, objects, wire).sent| == |objects|
    ensures |DownloadAll(client, cls, bucket, prefix, localPath, objects, wire).written| == |objects|
    decreases |objects|
  {
    if |objects| > 0 {
      DownloadAllCounts(client, cls, bucket, prefix, localPath, objects[1..], wire);
    }
  }

  /** A file is written only after the first object's key was read, and to that key's local file. */
  lemma DownloadAllFirst(client: StorageClient, cls: StorageClass, bucket: string, prefix: string,
                         localPath: string, objects: seq<Json>, wire: Wire)
    requires |objects| > 0
    ensures var written := DownloadAll(client, cls, bucket, prefix, localPath, objects, wire).written;
      |written| > 0 ==>
        ObjectKey(objects[0]).Success? && written[0].0 == LocalFile(localPath, ObjectKey(objects[0]).value, prefix)
        && DownloadStream(client, cls, bucket, ObjectKey(objects[0]).value, wire).result.Success?
        && written[0].1 == DownloadStream(client, cls, bucket, ObjectKey(objects[0]).value, wire).result.value
        && written[1..] == DownloadAll(client, cls, bucket, prefix, localPath, objects[1..], wire).written
  {
    if ObjectKey(objects[0]).Success? {
      var key := ObjectKey(objects[0]).value;
      var d := Download(client, cls, bucket, key, LocalFile(localPath, key, prefix), wire);
      if d.result.Success? {
        var rest := DownloadAll(client, cls, bucket, prefix, localPath, objects[1..], wire);
        assert DownloadAll(client, cls, bucket, prefix, localPath, objects, wire).written == d.written + rest.written;
      }
    }
  }

  /** The k-th file written is the local file of the k-th listed object's key, holding that object's bytes. */
  lemma {:induction false} DownloadAllTargets(client: StorageClient, cls: StorageClass, bucket: string, prefix: string,
                                              localPath: string, objects: seq<Json>, wire: Wire)
    ensures var written := DownloadAll(client, cls, bucket, prefix, localPath, objects, wire).written;
      |written| <= |objects|
      && forall k :: 0 <= k < |written| ==>
           ObjectKey(objects[k]).Success? && written[k].0 == LocalFile(localPath, ObjectKey(objects[k]).value, prefix)
           && DownloadStream(client, cls, bucket, ObjectKey(objects[k]).value, wire).result.Success?
           && written[k].1 == DownloadStream(client, cls, bucket, ObjectKey(objects[k]).value, wire).result.value
    decreases |objects|
  {
    if |objects| > 0 {
      DownloadAllFirst(client, cls, bucket, prefix, localPath, objects, wire);
      DownloadAllTargets(client, cls, bucket, prefix, localPath, objects[1..], wire);
      var written := DownloadAll(client, cls, bucket, prefix, localPath, objects, wire).written;
      var rest := DownloadAll(client, cls, bucket, prefix, localPath, objects[1..], wire).written;
      if |written| > 0 {
        forall k | 1 <= k < |written|
          ensures ObjectKey(objects[k]).Success? && written[k].0 == LocalFile(localPath, ObjectKey(objects[k]).value, prefix)
            && DownloadStream(client, cls, bucket, ObjectKey(objects[k]).value, wire).result.Success?
            && written[k].1 == DownloadStream(client, cls, bucket, ObjectKey(objects[k]).value, wire).result.value
        {
          assert written[k] == rest[k - 1];
          assert objects[1..][k - 1] == objects[k];
        }
      }
    }
  }

  /**
   * A directory-marker key (the prefix and a '/') maps to the local
   * directory itself, which `open` refuses: the download fails after the
   * fetch and nothing is written.
   */
  lemma DirectoryMarkerFails(client: StorageClient, cls: StorageClass, bucket: string, prefix: string,
                             localPath: string, wire: Wire)
    requires prefix != "" && localPath != ""
    requires DownloadStream(client, cls, bucket, prefix + "/", wire).result.Success?
    ensures var o := DownloadAll(client, cls, bucket, prefix, localPath, [JObj(map["key" := JStr(prefix + "/")])], wire);
      o.written == [] && o.result.Failure?
      && o.result.error == RuntimeError(DirectoryPrefix + OpenFailure(LocalFile(localPath, prefix + "/", prefix)))
  {
    assert Repeat("/", 1) == "/";
    assert prefix + "/" == prefix + Repeat("/", 1) + "";
    RelPathOf(prefix, 1, "");
    var path := LocalFile(localPath, prefix + "/", prefix);
    assert path == PathJoin(localPath, "");
    assert path != "" && path[|path| - 1] == '/';
    assert !Openable(path);
  }

  /** A key under a non-empty prefix lands inside the local directory. */
  lemma LocalFileUnderPath(localPath: string, key: string, prefix: string)
    requires prefix != "" && StartsWith(key, prefix)
    ensures StartsWith(LocalFile(localPath, key, prefix), localPath)
    ensures EndsWith(LocalFile(localPath, key, prefix), RelPath(key, prefix))
  {
    var rel := RelPath(key, prefix);
    assert !StartsWith(rel, "/");
  }
}
