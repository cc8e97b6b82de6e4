/**
 * Native Workers deployment (`CloudflareWorkersDeployment`): the
 * wrangler.toml rules, and the Python packaging decisions of
 * `package_code` (dependency filter, pyproject naming, the entries moved
 * under function/, the language check).
 */
module Workers {
  import opened Wrappers
  import opened Text
  import opened Json
  import opened Wrangler

  /** The entry point wrangler loads. */
  function MainFile(language: string): (m: string)
    ensures language == "nodejs" <==> m == "dist/handler.js"
    ensures language != "nodejs" <==> m == "handler.py"
  {
    if language == "nodejs" then "dist/handler.js" else "handler.py"
  }

  /** The module rules of a Node.js worker: JavaScript as ES modules, HTML as text. */
  const NodeRules: Json := JArr([
    JObj(map["type" := JStr("ESModule"), "globs" := JArr([JStr("**/*.js")]), "fallthrough" := JBool(true)]),
    JObj(map["type" := JStr("Text"), "globs" := JArr([JStr("**/*.html")]), "fallthrough" := JBool(true)])])

  /** The keys the language block of `generate_wrangler_toml` sets. */
  predicate LanguageKey(k: string)
  {
    k == "compatibility_flags" || k == "no_bundle" || k == "build" || k == "rules"
  }

  /** The keys `generate_wrangler_toml` for native workers may set. */
  predicate WorkerKey(k: string)
  {
    LanguageKey(k) || k == "name" || k == "main" || k == "account_id" || k == "vars" || k == "r2_buckets"
  }

  /**
   * The entries the language block sets: Node.js gets its compatibility flag,
   * no bundling, the build command and the module rules; Python gets the
   * Python Workers flag.
   */
  predicate LanguageBlock(config: Config, language: string)
  {
    (language == "nodejs" ==>
       "compatibility_flags" in config && config["compatibility_flags"] == JArr([JStr("nodejs_compat")])
       && "no_bundle" in config && config["no_bundle"] == JBool(true)
       && "build" in config && config["build"] == JObj(map["command" := JStr("node build.js")])
       && "rules" in config && config["rules"] == NodeRules)
    && (language == "python" ==>
       "compatibility_flags" in config && config["compatibility_flags"] == JArr([JStr("python_workers")]))
  }

  /** The language block of `generate_wrangler_toml`; any other language leaves the config alone. */
  function ApplyLanguage(before: Config, language: string): (config: Config)
    ensures LanguageBlock(config, language)
    ensures language != "nodejs" && language != "python" ==> Keeps(before, config, "compatibility_flags")
    ensures language != "nodejs" ==>
      Keeps(before, config, "no_bundle") && Keeps(before, config, "build") && Keeps(before, config, "rules")
    ensures forall k {:trigger Keeps(before, config, k)} :: !LanguageKey(k) ==> Keeps(before, config, k)
  {
    if language == "nodejs" then
      before["compatibility_flags" := JArr([JStr("nodejs_compat")])]["no_bundle" := JBool(true)]
            ["build" := JObj(map["command" := JStr("node build.js")])]["rules" := NodeRules]
    else if language == "python" then
      before["compatibility_flags" := JArr([JStr("python_workers")])]
    else before
  }

  /** A later step that keeps the language entries keeps the language block. */
  lemma LanguageBlockKept(before: Config, after: Config, language: string)
    requires LanguageBlock(before, language)
    requires Keeps(before, after, "compatibility_flags") && Keeps(before, after, "no_bundle")
    requires Keeps(before, after, "build") && Keeps(before, after, "rules")
    ensures LanguageBlock(after, language)
  {
  }

  /** The template with the worker's name, entry point and account. */
  function Named(template: Config, workerName: string, language: string, accountId: string): Config
  {
    template["name" := JStr(workerName)]["main" := JStr(MainFile(language))]["account_id" := JStr(accountId)]
  }

  /**
   * The config `generate_wrangler_toml` for native workers writes: name,
   * entry point and account, the language block, then the vars and R2 rules.
   */
  function WorkerConfig(template: Config, workerName: string, language: string, accountId: string,
                        benchmarkName: Option<string>, usesNosql: bool, bucket: BucketLookup): Config
  {
    WithVarsAndR2(ApplyLanguage(Named(template, workerName, language, accountId), language), benchmarkName, usesNosql, bucket)
  }

  /** `generate_wrangler_toml` for native workers, step by step. */
  method GenerateWorkerConfig(template: Config, workerName: string, language: string, accountId: string,
                              benchmarkName: Option<string>, usesNosql: bool, bucket: BucketLookup)
    returns (config: Config)
    ensures config == WorkerConfig(template, workerName, language, accountId, benchmarkName, usesNosql, bucket)
  {
    config := template;
    config := config["name" := JStr(workerName)];
    config := config["main" := JStr(MainFile(language))];
    config := config["account_id" := JStr(accountId)];
    config := ApplyLanguage(config, language);
    config := WithVars(config, benchmarkName, usesNosql);
    config := WithR2(config, bucket);
  }

  /** Name, entry point and account are set, and every key the method does not own keeps its template entry. */
  lemma WorkerConfigBasics(template: Config, workerName: string, language: string, accountId: string,
                           benchmarkName: Option<string>, usesNosql: bool, bucket: BucketLookup)
    ensures var c := WorkerConfig(template, workerName, language, accountId, benchmarkName, usesNosql, bucket);
      "name" in c && c["name"] == JStr(workerName)
      && "main" in c && c["main"] == JStr(MainFile(language))
      && "account_id" in c && c["account_id"] == JStr(accountId)
      && forall k {:trigger Keeps(template, c, k)} :: !WorkerKey(k) ==> Keeps(template, c, k)
  {
    KeysDistinct();
    var named := Named(template, workerName, language, accountId);
    var withLanguage := ApplyLanguage(named, language);
    var c := WithVarsAndR2(withLanguage, benchmarkName, usesNosql, bucket);
    assert Keeps(named, withLanguage, "name") && Keeps(named, withLanguage, "main") && Keeps(named, withLanguage, "account_id");
    assert Keeps(withLanguage, c, "name") && Keeps(withLanguage, c, "main") && Keeps(withLanguage, c, "account_id");
    forall k | !WorkerKey(k)
      ensures Keeps(template, c, k)
    {
      assert Keeps(named, withLanguage, k) && Keeps(withLanguage, c, k);
    }
  }

  /** The language block holds; an unknown language keeps the template's compatibility flags. */
  lemma WorkerConfigLanguage(template: Config, workerName: string, language: string, accountId: string,
                             benchmarkName: Option<string>, usesNosql: bool, bucket: BucketLookup)
    ensures var c := WorkerConfig(template, workerName, language, accountId, benchmarkName, usesNosql, bucket);
      LanguageBlock(c, language)
      && (language != "nodejs" && language != "python" ==> Keeps(template, c, "compatibility_flags"))
  {
    KeysDistinct();
    var named := Named(template, workerName, language, accountId);
    var withLanguage := ApplyLanguage(named, language);
    var c := WithVarsAndR2(withLanguage, benchmarkName, usesNosql, bucket);
    assert Keeps(withLanguage, c, "compatibility_flags") && Keeps(withLanguage, c, "no_bundle");
    assert Keeps(withLanguage, c, "build") && Keeps(withLanguage, c, "rules");
    LanguageBlockKept(withLanguage, c, language);
    assert Keeps(template, named, "compatibility_flags");
  }

  /** The vars and R2 rules hold between the template and the generated config. */
  lemma WorkerConfigVarsAndR2(template: Config, workerName: string, language: string, accountId: string,
                              benchmarkName: Option<string>, usesNosql: bool, bucket: BucketLookup)
    ensures var c := WorkerConfig(template, workerName, language, accountId, benchmarkName, usesNosql, bucket);
      VarsRule(template, c, benchmarkName, usesNosql) && R2Rule(template, c, bucket)
  {
    KeysDistinct();
    var named := Named(template, workerName, language, accountId);
    var withLanguage := ApplyLanguage(named, language);
    assert Keeps(template, named, "vars") && Keeps(template, named, "r2_buckets");
    assert Keeps(named, withLanguage, "vars") && Keeps(named, withLanguage, "r2_buckets");
  }

  /** The keys the method sets are pairwise different. */
  lemma KeysDistinct()
    ensures !LanguageKey("name") && !LanguageKey("main") && !LanguageKey("account_id")
    ensures !LanguageKey("vars") && !LanguageKey("r2_buckets")
    ensures "name" != "main" && "name" != "account_id" && "main" != "account_id"
    ensures "vars" != "name" && "vars" != "main" && "vars" != "account_id" && "vars" != "r2_buckets"
    ensures "r2_buckets" != "name" && "r2_buckets" != "main" && "r2_buckets" != "account_id"
  {
    assert "name"[0] != "main"[0];
    assert "vars"[0] != "name"[0];
    assert "vars"[0] != "main"[0];
  }

  // ---- Python dependencies -------------------------------------------------

  /** The packages the Python Workers runtime provides, in the order they are checked. */
  const SupportedPackages: seq<string> := [
    "affine", "aiohappyeyeballs", "aiohttp", "aiosignal", "altair", "annotated-types", "anyio", "apsw",
    "argon2-cffi", "argon2-cffi-bindings", "asciitree", "astropy", "astropy_iers_data", "asttokens",
    "async-timeout", "atomicwrites", "attrs", "audioop-lts", "autograd", "awkward-cpp", "b2d", "bcrypt",
    "beautifulsoup4", "bilby.cython", "biopython", "bitarray", "bitstring", "bleach", "blosc2", "bokeh",
    "boost-histogram", "brotli", "cachetools", "casadi", "cbor-diag", "certifi", "cffi", "cffi_example",
    "cftime", "charset-normalizer", "clarabel", "click", "cligj", "clingo", "cloudpickle", "cmyt", "cobs",
    "colorspacious", "contourpy", "coolprop", "coverage", "cramjam", "crc32c", "cryptography", "css-inline",
    "cssselect", "cvxpy-base", "cycler", "cysignals", "cytoolz", "decorator", "demes", "deprecation",
    "diskcache", "distlib", "distro", "docutils", "donfig", "ewah_bool_utils", "exceptiongroup", "executing",
    "fastapi", "fastcan", "fastparquet", "fiona", "fonttools", "freesasa", "frozenlist", "fsspec", "future",
    "galpy", "gmpy2", "gsw", "h11", "h3", "h5py", "highspy", "html5lib", "httpcore", "httpx", "idna",
    "igraph", "imageio", "imgui-bundle", "iminuit", "iniconfig", "inspice", "ipython", "jedi", "Jinja2",
    "jiter", "joblib", "jsonpatch", "jsonpointer", "jsonschema", "jsonschema_specifications", "kiwisolver",
    "lakers-python", "lazy_loader", "lazy-object-proxy", "libcst", "lightgbm", "logbook", "lxml", "lz4",
    "MarkupSafe", "matplotlib", "matplotlib-inline", "memory-allocator", "micropip", "mmh3",
    "more-itertools", "mpmath", "msgpack", "msgspec", "msprime", "multidict", "munch", "mypy", "narwhals",
    "ndindex", "netcdf4", "networkx", "newick", "nh3", "nlopt", "nltk", "numcodecs", "numpy", "openai",
    "opencv-python", "optlang", "orjson", "packaging", "pandas", "parso", "patsy", "pcodec", "peewee",
    "pi-heif", "Pillow", "pillow-heif", "pkgconfig", "platformdirs", "pluggy", "ply", "pplpy",
    "primecountpy", "prompt_toolkit", "propcache", "protobuf", "pure-eval", "py", "pyclipper", "pycparser",
    "pycryptodome", "pydantic", "pydantic_core", "pyerfa", "pygame-ce", "Pygments", "pyheif", "pyiceberg",
    "pyinstrument", "pylimer-tools", "PyMuPDF", "pynacl", "pyodide-http", "pyodide-unix-timezones",
    "pyparsing", "pyrsistent", "pysam", "pyshp", "pytaglib", "pytest", "pytest-asyncio", "pytest-benchmark",
    "pytest_httpx", "python-calamine", "python-dateutil", "python-flint", "python-magic", "python-sat",
    "python-solvespace", "pytz", "pywavelets", "pyxel", "pyxirr", "pyyaml", "rasterio", "rateslib",
    "rebound", "reboundx", "referencing", "regex", "requests", "retrying", "rich", "river", "RobotRaconteur",
    "rpds-py", "ruamel.yaml", "rustworkx", "scikit-image", "scikit-learn", "scipy", "screed", "setuptools",
    "shapely", "simplejson", "sisl", "six", "smart-open", "sniffio", "sortedcontainers", "soundfile",
    "soupsieve", "sourmash", "soxr", "sparseqr", "sqlalchemy", "stack-data", "starlette", "statsmodels",
    "strictyaml", "svgwrite", "swiglpk", "sympy", "tblib", "termcolor", "texttable", "texture2ddecoder",
    "threadpoolctl", "tiktoken", "tomli", "tomli-w", "toolz", "tqdm", "traitlets", "traits", "tree-sitter",
    "tree-sitter-go", "tree-sitter-java", "tree-sitter-python", "tskit", "typing-extensions", "tzdata",
    "ujson", "uncertainties", "unyt", "urllib3", "vega-datasets", "vrplib", "wcwidth", "webencodings",
    "wordcloud", "wrapt", "xarray", "xgboost", "xlrd", "xxhash", "xyzservices", "yarl", "yt", "zengl",
    "zfpy", "zstandard"]

  /** Whether the requirements text mentions a package, case-insensitively and as a substring. */
  predicate Mentioned(requirements: string, pkg: string)
  {
    Contains(Lower(requirements), Lower(pkg))
  }

  /** The supported packages the requirements mention, in list order. */
  function Needed(supported: seq<string>, requirements: string): (needed: seq<string>)
    decreases |supported|
  {
    if |supported| == 0 then []
    else
      var rest := Needed(supported[1..], requirements);
      if Mentioned(requirements, supported[0]) then [supported[0]] + rest else rest
  }

  /** The filter loop of `package_code`. */
  method NeededPackages(supported: seq<string>, requirements: string) returns (needed: seq<string>)
    ensures needed == Needed(supported, requirements)
  {
    needed := [];
    var i := |supported|;
    while i > 0
      invariant 0 <= i <= |supported|
      invariant needed == Needed(supported[i..], requirements)
    {
      i := i - 1;
      assert supported[i..][1..] == supported[i + 1..];
      if Mentioned(requirements, supported[i]) {
        needed := [supported[i]] + needed;
      }
    }
  }

  /** A package is needed exactly when it is supported and mentioned. */
  lemma {:induction false} NeededMembers(supported: seq<string>, requirements: string, pkg: string)
    ensures pkg in Needed(supported, requirements) <==> pkg in supported && Mentioned(requirements, pkg)
    decreases |supported|
  {
    if |supported| > 0 {
      NeededMembers(supported[1..], requirements, pkg);
      assert supported == [supported[0]] + supported[1..];
    }
  }

  /** When every supported package is mentioned, all of them are needed, in list order. */
  lemma {:induction false} AllMentionedAllNeeded(supported: seq<string>, requirements: string)
    requires forall i :: 0 <= i < |supported| ==> Mentioned(requirements, supported[i])
    ensures Needed(supported, requirements) == supported
    decreases |supported|
  {
    if |supported| > 0 {
      AllMentionedAllNeeded(supported[1..], requirements);
      assert supported == [supported[0]] + supported[1..];
    }
  }

  /** `repr` of one package name, which never holds a quote or a backslash. */
  function Quoted(pkg: string, quote: char): string
  {
    [quote] + pkg + [quote]
  }

  /** `str(needed_pkg)`: the Python list display, strings in single quotes. */
  function PyListRepr(pkgs: seq<string>): string
  {
    "[" + Join(", ", seq(|pkgs|, i requires 0 <= i < |pkgs| => Quoted(pkgs[i], '\''))) + "]"
  }

  /** The dependencies entry written to pyproject.toml: the list display with ' turned into ". */
  function DependencyString(pkgs: seq<string>): string
  {
    ReplaceChar(PyListRepr(pkgs), '\'', '"')
  }

  lemma ReplaceCharConcat(a: string, b: string, x: char, y: char)
    ensures ReplaceChar(a + b, x, y) == ReplaceChar(a, x, y) + ReplaceChar(b, x, y)
  {
    var l := ReplaceChar(a + b, x, y);
    var r := ReplaceChar(a, x, y) + ReplaceChar(b, x, y);
    assert |l| == |r|;
    forall i | 0 <= i < |l| ensures l[i] == r[i] {
      if i < |a| {
      } else {
        assert (a + b)[i] == b[i - |a|];
      }
    }
  }

  lemma {:induction false} ReplaceCharJoin(parts: seq<string>, quotedDouble: seq<string>, pkgs: seq<string>)
    requires |parts| == |quotedDouble| == |pkgs|
    requires forall i :: 0 <= i < |pkgs| ==> parts[i] == Quoted(pkgs[i], '\'') && quotedDouble[i] == Quoted(pkgs[i], '"')
    requires forall i :: 0 <= i < |pkgs| ==> '\'' !in pkgs[i]
    ensures ReplaceChar(Join(", ", parts), '\'', '"') == Join(", ", quotedDouble)
    decreases |parts|
  {
    if |parts| > 0 {
      var p := parts[0];
      assert ReplaceChar(p, '\'', '"') == quotedDouble[0] by {
        ReplaceCharConcat(['\''] + pkgs[0], ['\''], '\'', '"');
        ReplaceCharConcat(['\''], pkgs[0], '\'', '"');
        assert ReplaceChar(pkgs[0], '\'', '"') == pkgs[0];
      }
      if |parts| > 1 {
        ReplaceCharJoin(parts[1..], quotedDouble[1..], pkgs[1..]);
        ReplaceCharConcat(p + ", ", Join(", ", parts[1..]), '\'', '"');
        ReplaceCharConcat(p, ", ", '\'', '"');
      }
    }
  }

  /** The dependency list reads as a TOML array of double-quoted names. */
  lemma DependencyStringIsTomlArray(pkgs: seq<string>)
    requires forall i :: 0 <= i < |pkgs| ==> '\'' !in pkgs[i]
    ensures DependencyString(pkgs)
      == "[" + Join(", ", seq(|pkgs|, i requires 0 <= i < |pkgs| => Quoted(pkgs[i], '"'))) + "]"
  {
    var parts := seq(|pkgs|, i requires 0 <= i < |pkgs| => Quoted(pkgs[i], '\''));
    var dq := seq(|pkgs|, i requires 0 <= i < |pkgs| => Quoted(pkgs[i], '"'));
    ReplaceCharJoin(parts, dq, pkgs);
    ReplaceCharConcat("[" + Join(", ", parts), "]", '\'', '"');
    ReplaceCharConcat("[", Join(", ", parts), '\'', '"');
  }

  /** The project name in pyproject.toml: dots of the benchmark to '-', dots of the version dropped. */
  function ProjectName(benchmark: string, version: string): (r: string)
    ensures '.' !in r
    ensures StartsWith(r, ReplaceChar(benchmark, '.', '-') + "-python-")
    ensures r[|ReplaceChar(benchmark, '.', '-') + "-python-"|..] == RemoveChar(version, '.')
  {
    var head := ReplaceChar(benchmark, '.', '-') + "-python-";
    var r := head + RemoveChar(version, '.');
    assert r[..|head|] == head;
    assert forall i :: 0 <= i < |head| ==> r[i] != '.';
    assert forall i :: |head| <= i < |r| ==> r[i] == RemoveChar(version, '.')[i - |head|];
    r
  }

  /** A "major.minor" version appears with its dot dropped: "3.11" gives "…-python-311". */
  lemma ProjectNameOfVersion(benchmark: string, major: string, minor: string)
    requires '.' !in major && '.' !in minor
    ensures ProjectName(benchmark, major + "." + minor) == ReplaceChar(benchmark, '.', '-') + "-python-" + major + minor
  {
    RemoveDot(major, minor);
    var head := ReplaceChar(benchmark, '.', '-') + "-python-";
    var r := ProjectName(benchmark, major + "." + minor);
    assert r == r[..|head|] + r[|head|..];
  }

  /** The fields of the generated pyproject.toml that depend on the benchmark. */
  datatype Pyproject = Pyproject(name: string, requiresPython: string, dependencies: string)

  function PyprojectFor(benchmark: string, version: string, requirements: string): Pyproject
  {
    Pyproject(ProjectName(benchmark, version), ">=" + version, DependencyString(Needed(SupportedPackages, requirements)))
  }

  // ---- function/ layout ----------------------------------------------------

  /** The entries that stay at the top of a Python worker package. */
  const DontMove: seq<string> := ["handler.py", "function", "python_modules", "pyproject.toml"]

  /** The moves of the loop over the directory listing: every other entry goes under function/. */
  function Moves(directory: string, listing: seq<string>): (m: seq<(string, string)>)
    decreases |listing|
  {
    if |listing| == 0 then []
    else
      var rest := Moves(directory, listing[1..]);
      if listing[0] in DontMove then rest
      else [(PathJoin(directory, listing[0]), PathJoin(PathJoin(directory, "function"), listing[0]))] + rest
  }

  /** The move loop of `package_code`. */
  method MoveIntoFunction(directory: string, listing: seq<string>) returns (moves: seq<(string, string)>)
    ensures moves == Moves(directory, listing)
  {
    moves := [];
    var i := |listing|;
    while i > 0
      invariant 0 <= i <= |listing|
      invariant moves == Moves(directory, listing[i..])
    {
      i := i - 1;
      assert listing[i..][1..] == listing[i + 1..];
      if listing[i] !in DontMove {
        moves := [(PathJoin(directory, listing[i]), PathJoin(PathJoin(directory, "function"), listing[i]))] + moves;
      }
    }
  }

  /** An entry (a name from a directory listing, so without '/') is moved exactly when it is not kept. */
  lemma {:induction false} MovedExactly(directory: string, listing: seq<string>, entry: string)
    requires forall i :: 0 <= i < |listing| ==> '/' !in listing[i]
    requires '/' !in entry
    ensures (PathJoin(directory, entry), PathJoin(PathJoin(directory, "function"), entry)) in Moves(directory, listing)
      <==> entry in listing && entry !in DontMove
    decreases |listing|
  {
    if |listing| > 0 {
      var x := listing[0];
      var m := (PathJoin(directory, entry), PathJoin(PathJoin(directory, "function"), entry));
      var rest := Moves(directory, listing[1..]);
      MovedExactly(directory, listing[1..], entry);
      assert entry in listing <==> entry == x || entry in listing[1..] by {
        assert listing == [x] + listing[1..];
      }
      if PathJoin(directory, x) == PathJoin(directory, entry) {
        PathJoinInjective(directory, x, entry);
      }
      if x !in DontMove {
        var head := (PathJoin(directory, x), PathJoin(PathJoin(directory, "function"), x));
        assert Moves(directory, listing) == [head] + rest;
        assert m in [head] + rest <==> m == head || m in rest;
      }
    }
  }

  /** Joining the same directory to two relative names gives two different paths. */
  lemma PathJoinInjective(a: string, x: string, y: string)
    requires '/' !in x && '/' !in y
    requires PathJoin(a, x) == PathJoin(a, y)
    ensures x == y
  {
    assert !StartsWith(x, "/") && !StartsWith(y, "/") by {
      if |x| > 0 { assert x[0] in x; }
      if |y| > 0 { assert y[0] in y; }
    }
    var p := PathJoin(a, x);
    var n := if a == "" || EndsWith(a, "/") then |a| else |a| + 1;
    assert x == p[n..] && y == p[n..];
  }

  // ---- language check ------------------------------------------------------

  /** The file a package of the language must contain. */
  function HandlerFile(language: string): string
  {
    if language == "nodejs" then "handler.js" else "handler.py"
  }

  /**
   * The language check and the handler check of `package_code`: only
   * nodejs and python are supported, and the handler file must exist;
   * the package directory is returned.
   */
  function CheckPackage(directory: string, language: string, exists_: string -> bool, listdir: string -> seq<string>)
    : (r: Result<string, string>)
    ensures language != "nodejs" && language != "python" ==>
      r == Failure("Language " + language + " is not yet supported for Cloudflare Workers")
    ensures r.Success? ==> r.value == directory && exists_(PathJoin(directory, HandlerFile(language)))
    ensures (language == "nodejs" || language == "python") ==>
      (r.Success? <==> exists_(PathJoin(directory, HandlerFile(language))))
  {
    if language != "nodejs" && language != "python" then
      Failure("Language " + language + " is not yet supported for Cloudflare Workers")
    else
      var handler := HandlerFile(language);
      var packagePath := PathJoin(directory, handler);
      if exists_(packagePath) then Success(directory)
      else if !exists_(directory) then
        Failure("Package directory " + directory + " does not exist. "
                + "The benchmark build process may have failed to create the deployment package.")
      else
        Failure("Handler file " + handler + " not found in " + directory + ". Available files: "
                + Join(", ", listdir(directory)))
  }
}
