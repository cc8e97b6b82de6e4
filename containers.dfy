/**
 * Container deployment (`CloudflareContainersDeployment`): the
 * wrangler.toml rules for container workers, the local image tag, and the
 * two source rewrites of `package_code` (relative imports, torch wheels).
 */
module Containers {
  import opened Wrappers
  import opened Text
  import opened Json
  import opened Dicts
  import opened Wrangler
  import DurableObjects
  import Workers

  // ---- wrangler.toml -------------------------------------------------------

  /** The benchmarks that get the larger container instance. */
  predicate HighResource(benchmarkName: Option<string>)
  {
    TruthyStr(benchmarkName)
    && (Contains(benchmarkName.value, "411.image-recognition")
        || Contains(benchmarkName.value, "311.compression")
        || Contains(benchmarkName.value, "504.dna-visualisation"))
  }

  /** A list whose first element is a table, as `config[key][0][...]` needs. */
  predicate HasFirstTable(v: Json)
  {
    v.JArr? && |v.items| > 0 && v.items[0].JObj?
  }

  /** `v[0][key] = x` on a list of tables. */
  function SetInFirst(v: Json, key: string, x: Json): (r: Json)
    requires HasFirstTable(v)
    ensures HasFirstTable(r) && |r.items| == |v.items|
    ensures key in r.items[0].fields && r.items[0].fields[key] == x
    ensures forall k :: k in v.items[0].fields && k != key ==> k in r.items[0].fields && r.items[0].fields[k] == v.items[0].fields[k]
    ensures r.items[0].fields.Keys == v.items[0].fields.Keys + {key}
    ensures r.items[1..] == v.items[1..]
  {
    JArr([JObj(v.items[0].fields[key := x])] + v.items[1..])
  }

  /** The durable object binding of one NoSQL table. */
  function Binding(table: string): Json
  {
    JObj(map["name" := JStr(Upper(table)), "class_name" := JStr("KVApiObject")])
  }

  /** The bindings appended for the tables, in table order. */
  function Bindings(tables: seq<string>): (bs: seq<Json>)
    ensures |bs| == |tables|
    ensures forall i :: 0 <= i < |tables| ==> bs[i] == Binding(tables[i])
  {
    seq(|tables|, i requires 0 <= i < |tables| => Binding(tables[i]))
  }

  /** `config['durable_objects']['bindings']` exists and is a list. */
  predicate HasBindings(config: Config)
  {
    "durable_objects" in config && config["durable_objects"].JObj?
    && "bindings" in config["durable_objects"].fields && config["durable_objects"].fields["bindings"].JArr?
  }

  function BindingList(config: Config): seq<Json>
    requires HasBindings(config)
  {
    config["durable_objects"].fields["bindings"].items
  }

  /** `config['migrations'][0]['new_sqlite_classes']` exists and is a list. */
  predicate HasSqliteClasses(config: Config)
  {
    "migrations" in config && HasFirstTable(config["migrations"])
    && "new_sqlite_classes" in config["migrations"].items[0].fields
    && config["migrations"].items[0].fields["new_sqlite_classes"].JArr?
  }

  function SqliteClasses(config: Config): seq<Json>
    requires HasSqliteClasses(config)
  {
    config["migrations"].items[0].fields["new_sqlite_classes"].items
  }

  /** The instance-type rule: high-resource benchmarks get "standard-4" in the first container. */
  function InstanceTyped(config: Config, benchmarkName: Option<string>): (r: Result<Config, string>)
    ensures r.Failure? <==> HighResource(benchmarkName) && !("containers" in config && HasFirstTable(config["containers"]))
    ensures r.Success? && HighResource(benchmarkName) ==>
      "containers" in r.value && r.value["containers"] == SetInFirst(config["containers"], "instance_type", JStr("standard-4"))
    ensures r.Success? && !HighResource(benchmarkName) ==> r.value == config
    ensures r.Success? ==> forall k :: k != "containers" ==> Keeps(config, r.value, k)
  {
    if !HighResource(benchmarkName) then Success(config)
    else if !("containers" in config && HasFirstTable(config["containers"])) then
      Failure("containers[0] is missing from the template")
    else Success(config["containers" := SetInFirst(config["containers"], "instance_type", JStr("standard-4"))])
  }

  /** `config['durable_objects']['bindings']` with `extra` appended. */
  function AppendBindings(config: Config, extra: seq<Json>): (c: Config)
    requires HasBindings(config)
    ensures HasBindings(c) && BindingList(c) == BindingList(config) + extra
    ensures c["durable_objects"].fields.Keys == config["durable_objects"].fields.Keys
    ensures forall k :: k in config["durable_objects"].fields && k != "bindings" ==>
      c["durable_objects"].fields[k] == config["durable_objects"].fields[k]
    ensures forall k :: k != "durable_objects" ==> Keeps(config, c, k)
  {
    var objects := config["durable_objects"].fields;
    config["durable_objects" := JObj(objects["bindings" := JArr(objects["bindings"].items + extra)])]
  }

  lemma AppendNothing(config: Config)
    requires HasBindings(config)
    ensures AppendBindings(config, []) == config
  {
    var objects := config["durable_objects"].fields;
    assert objects["bindings"].items + [] == objects["bindings"].items;
    assert JArr(objects["bindings"].items) == objects["bindings"];
    assert objects["bindings" := JArr(objects["bindings"].items + [])] == objects;
  }

  lemma AppendTwice(config: Config, x: seq<Json>, y: seq<Json>)
    requires HasBindings(config)
    ensures AppendBindings(AppendBindings(config, x), y) == AppendBindings(config, x + y)
  {
    var objects := config["durable_objects"].fields;
    var once := AppendBindings(config, x)["durable_objects"].fields;
    assert once == objects["bindings" := JArr(objects["bindings"].items + x)];
    assert once["bindings"].items + y == objects["bindings"].items + (x + y);
    assert once["bindings" := JArr(once["bindings"].items + y)] == objects["bindings" := JArr(objects["bindings"].items + (x + y))];
  }

  /** The binding loop's effect: one append per table, failing at the first append without a bindings list. */
  function Bound(config: Config, tables: seq<string>): (r: Result<Config, string>)
    ensures r.Failure? <==> |tables| > 0 && !HasBindings(config)
  {
    if |tables| == 0 then Success(config)
    else if !HasBindings(config) then Failure("durable_objects.bindings is missing from the template")
    else Success(AppendBindings(config, Bindings(tables)))
  }

  /** The binding loop over the table names. */
  method BindTables(before: Config, tables: seq<string>) returns (r: Result<Config, string>)
    ensures r == Bound(before, tables)
  {
    if |tables| == 0 {
      return Success(before);
    }
    if !HasBindings(before) {
      return Failure("durable_objects.bindings is missing from the template");
    }
    var config := before;
    AppendNothing(before);
    for i := 0 to |tables|
      invariant HasBindings(config)
      invariant config == AppendBindings(before, Bindings(tables[..i]))
    {
      var objects := config["durable_objects"].fields;
      var appended := JArr(objects["bindings"].items + [Binding(tables[i])]);
      ghost var previous := config;
      config := config["durable_objects" := JObj(objects["bindings" := appended])];
      assert config == AppendBindings(previous, [Binding(tables[i])]);
      AppendTwice(before, Bindings(tables[..i]), [Binding(tables[i])]);
      assert Bindings(tables[..i + 1]) == Bindings(tables[..i]) + [Binding(tables[i])];
    }
    assert tables[..|tables|] == tables;
    r := Success(config);
  }

  /** `config['migrations'][0]['new_sqlite_classes'].append('KVApiObject')`. */
  function WithKVClass(config: Config): (r: Result<Config, string>)
    ensures r.Failure? <==> !HasSqliteClasses(config)
    ensures r.Success? ==>
      HasSqliteClasses(r.value) && SqliteClasses(r.value) == SqliteClasses(config) + [JStr("KVApiObject")]
    ensures r.Success? ==> forall k :: k != "migrations" ==> Keeps(config, r.value, k)
  {
    if !HasSqliteClasses(config) then Failure("migrations[0].new_sqlite_classes is missing from the template")
    else
      var classes := JArr(SqliteClasses(config) + [JStr("KVApiObject")]);
      Success(config["migrations" := SetInFirst(config["migrations"], "new_sqlite_classes", classes)])
  }

  /** The keys the method sets are pairwise different. */
  lemma KeysDistinct()
    ensures "name" != "account_id" && "name" != "containers" && "name" != "durable_objects"
    ensures "name" != "migrations" && "name" != "vars" && "name" != "r2_buckets"
    ensures "account_id" != "containers" && "account_id" != "durable_objects" && "account_id" != "migrations"
    ensures "account_id" != "vars" && "account_id" != "r2_buckets"
    ensures "containers" != "durable_objects" && "containers" != "migrations" && "containers" != "vars"
    ensures "containers" != "r2_buckets"
    ensures "durable_objects" != "migrations" && "durable_objects" != "vars" && "durable_objects" != "r2_buckets"
    ensures "migrations" != "vars" && "migrations" != "r2_buckets" && "vars" != "r2_buckets"
  {
    assert "name"[0] != "migrations"[0];
  }

  /** The keys `generate_wrangler_toml` for containers may set. */
  predicate ContainerKey(k: string)
  {
    k == "name" || k == "account_id" || k == "containers" || k == "durable_objects" || k == "migrations"
    || k == "vars" || k == "r2_buckets"
  }

  /** Whether the NoSQL tables are bound: nosql is used and the cache held the benchmark's tables. */
  predicate BindsTables(usesNosql: bool, tables: Option<DurableObjects.Tables>)
  {
    usesNosql && tables.Some?
  }

  /** The table names in dict order, none when no tables are bound. */
  function TableNames(usesNosql: bool, tables: Option<DurableObjects.Tables>): seq<string>
  {
    if BindsTables(usesNosql, tables) then Keys(tables.value) else []
  }

  /** The config after the name, account, instance type and NoSQL steps. */
  function Prepared(template: Config, workerName: string, accountId: string, benchmarkName: Option<string>,
                    usesNosql: bool, tables: Option<DurableObjects.Tables>): Result<Config, string>
  {
    var named := template["name" := JStr(workerName)]["account_id" := JStr(accountId)];
    var sized := InstanceTyped(named, benchmarkName);
    if sized.Failure? || !BindsTables(usesNosql, tables) then sized
    else
      var bound := Bound(sized.value, Keys(tables.value));
      if bound.Failure? then bound else WithKVClass(bound.value)
  }

  /**
   * The config `generate_wrangler_toml` for containers writes. `tables` is
   * the benchmark's table dict when `retrieve_cache` found it, and `None`
   * when it did not; a template without the entries a step indexes makes
   * the step fail.
   */
  function ContainerConfig(template: Config, workerName: string, accountId: string, benchmarkName: Option<string>,
                           usesNosql: bool, tables: Option<DurableObjects.Tables>, bucket: BucketLookup)
    : (r: Result<Config, string>)
    ensures r.Success? <==> Prepared(template, workerName, accountId, benchmarkName, usesNosql, tables).Success?
  {
    var prepared := Prepared(template, workerName, accountId, benchmarkName, usesNosql, tables);
    if prepared.Failure? then prepared
    else Success(WithVarsAndR2(prepared.value, benchmarkName, usesNosql, bucket))
  }

  /** The name, account, instance type and NoSQL steps of `generate_wrangler_toml` for containers. */
  method Prepare(template: Config, workerName: string, accountId: string, benchmarkName: Option<string>,
                 usesNosql: bool, tables: Option<DurableObjects.Tables>) returns (r: Result<Config, string>)
    ensures r == Prepared(template, workerName, accountId, benchmarkName, usesNosql, tables)
  {
    var config := template;
    config := config["name" := JStr(workerName)];
    config := config["account_id" := JStr(accountId)];
    r := InstanceTyped(config, benchmarkName);
    if r.Success? && BindsTables(usesNosql, tables) {
      r := BindTables(r.value, Keys(tables.value));
      if r.Success? {
        r := WithKVClass(r.value);
      }
    }
  }

  /** `generate_wrangler_toml` for containers, step by step. */
  method GenerateContainerConfig(template: Config, workerName: string, accountId: string,
                                 benchmarkName: Option<string>, usesNosql: bool,
                                 tables: Option<DurableObjects.Tables>, bucket: BucketLookup)
    returns (r: Result<Config, string>)
    ensures r == ContainerConfig(template, workerName, accountId, benchmarkName, usesNosql, tables, bucket)
  {
    r := Prepare(template, workerName, accountId, benchmarkName, usesNosql, tables);
    if r.Success? {
      var config := WithVars(r.value, benchmarkName, usesNosql);
      config := WithR2(config, bucket);
      r := Success(config);
    }
  }

  /** The template shapes the steps need, for the steps that run. */
  predicate Fits(template: Config, benchmarkName: Option<string>, usesNosql: bool, tables: Option<DurableObjects.Tables>)
  {
    (HighResource(benchmarkName) ==> "containers" in template && HasFirstTable(template["containers"]))
    && (BindsTables(usesNosql, tables) && |tables.value| > 0 ==> HasBindings(template))
    && (BindsTables(usesNosql, tables) ==> HasSqliteClasses(template))
  }

  /** The shapes the steps test depend only on the entries they index. */
  lemma SameShapes(a: Config, b: Config)
    ensures Keeps(a, b, "containers") ==>
      ("containers" in a && HasFirstTable(a["containers"]) <==> "containers" in b && HasFirstTable(b["containers"]))
    ensures Keeps(a, b, "durable_objects") ==> (HasBindings(a) <==> HasBindings(b))
    ensures Keeps(a, b, "migrations") ==> (HasSqliteClasses(a) <==> HasSqliteClasses(b))
  {
  }

  /** The steps before vars and R2 succeed exactly on a fitting template. */
  lemma PreparedFits(template: Config, workerName: string, accountId: string, benchmarkName: Option<string>,
                     usesNosql: bool, tables: Option<DurableObjects.Tables>)
    ensures Prepared(template, workerName, accountId, benchmarkName, usesNosql, tables).Success?
      <==> Fits(template, benchmarkName, usesNosql, tables)
  {
    KeysDistinct();
    var named := template["name" := JStr(workerName)]["account_id" := JStr(accountId)];
    assert Keeps(template, named, "containers") && Keeps(template, named, "durable_objects")
      && Keeps(template, named, "migrations");
    SameShapes(template, named);
    var sized := InstanceTyped(named, benchmarkName);
    if sized.Success? && BindsTables(usesNosql, tables) {
      assert Keeps(named, sized.value, "durable_objects") && Keeps(named, sized.value, "migrations");
      SameShapes(named, sized.value);
      var bound := Bound(sized.value, Keys(tables.value));
      if bound.Success? {
        assert Keeps(sized.value, bound.value, "migrations");
        SameShapes(sized.value, bound.value);
      }
    }
  }

  /** The steps before vars and R2 touch only the keys they own. */
  lemma PreparedKeeps(template: Config, workerName: string, accountId: string, benchmarkName: Option<string>,
                      usesNosql: bool, tables: Option<DurableObjects.Tables>, k: string)
    requires !ContainerKey(k) || k == "vars" || k == "r2_buckets"
    ensures var p := Prepared(template, workerName, accountId, benchmarkName, usesNosql, tables);
      p.Success? ==> Keeps(template, p.value, k)
  {
    KeysDistinct();
    var named := template["name" := JStr(workerName)]["account_id" := JStr(accountId)];
    assert Keeps(template, named, k);
    var sized := InstanceTyped(named, benchmarkName);
    if sized.Success? {
      assert Keeps(named, sized.value, k);
      if BindsTables(usesNosql, tables) {
        var bound := Bound(sized.value, Keys(tables.value));
        if bound.Success? {
          assert Keeps(sized.value, bound.value, k);
        }
      }
    }
  }

  /** The generated config fails exactly on a template that lacks an entry a running step indexes. */
  lemma ContainerConfigFails(template: Config, workerName: string, accountId: string, benchmarkName: Option<string>,
                             usesNosql: bool, tables: Option<DurableObjects.Tables>, bucket: BucketLookup)
    ensures ContainerConfig(template, workerName, accountId, benchmarkName, usesNosql, tables, bucket).Failure?
      <==> !Fits(template, benchmarkName, usesNosql, tables)
  {
    PreparedFits(template, workerName, accountId, benchmarkName, usesNosql, tables);
  }

  /** The steps before vars and R2 set the name and the account. */
  lemma PreparedNamed(template: Config, workerName: string, accountId: string, benchmarkName: Option<string>,
                      usesNosql: bool, tables: Option<DurableObjects.Tables>)
    ensures var p := Prepared(template, workerName, accountId, benchmarkName, usesNosql, tables);
      p.Success? ==>
        "name" in p.value && p.value["name"] == JStr(workerName)
        && "account_id" in p.value && p.value["account_id"] == JStr(accountId)
  {
    var p := Prepared(template, workerName, accountId, benchmarkName, usesNosql, tables);
    if p.Success? {
      KeysDistinct();
      var named := template["name" := JStr(workerName)]["account_id" := JStr(accountId)];
      var sized := InstanceTyped(named, benchmarkName).value;
      assert Keeps(named, sized, "name") && Keeps(named, sized, "account_id");
      if BindsTables(usesNosql, tables) {
        var bound := Bound(sized, Keys(tables.value)).value;
        assert Keeps(sized, bound, "name") && Keeps(sized, bound, "account_id");
        assert Keeps(bound, p.value, "name") && Keeps(bound, p.value, "account_id");
      }
    }
  }

  /** Name and account are always set, and every key the method does not own keeps its template entry. */
  lemma ContainerConfigBasics(template: Config, workerName: string, accountId: string, benchmarkName: Option<string>,
                              usesNosql: bool, tables: Option<DurableObjects.Tables>, bucket: BucketLookup)
    ensures var r := ContainerConfig(template, workerName, accountId, benchmarkName, usesNosql, tables, bucket);
      r.Success? ==>
        "name" in r.value && r.value["name"] == JStr(workerName)
        && "account_id" in r.value && r.value["account_id"] == JStr(accountId)
        && forall k :: !ContainerKey(k) ==> Keeps(template, r.value, k)
  {
    var p := Prepared(template, workerName, accountId, benchmarkName, usesNosql, tables);
    if p.Success? {
      PreparedNamed(template, workerName, accountId, benchmarkName, usesNosql, tables);
      var r := WithVarsAndR2(p.value, benchmarkName, usesNosql, bucket);
      assert Keeps(p.value, r, "name") && Keeps(p.value, r, "account_id");
      forall k | !ContainerKey(k)
        ensures Keeps(template, r, k)
      {
        PreparedKeeps(template, workerName, accountId, benchmarkName, usesNosql, tables, k);
        assert Keeps(template, p.value, k) && Keeps(p.value, r, k);
      }
    }
  }

  /** "standard-4" lands in the first container exactly for the high-resource benchmarks. */
  lemma ContainerConfigInstanceType(template: Config, workerName: string, accountId: string,
                                    benchmarkName: Option<string>, usesNosql: bool,
                                    tables: Option<DurableObjects.Tables>, bucket: BucketLookup)
    ensures var r := ContainerConfig(template, workerName, accountId, benchmarkName, usesNosql, tables, bucket);
      r.Success? ==>
        (HighResource(benchmarkName) ==>
           "containers" in template && HasFirstTable(template["containers"]) && "containers" in r.value
           && r.value["containers"] == SetInFirst(template["containers"], "instance_type", JStr("standard-4")))
        && (!HighResource(benchmarkName) ==> Keeps(template, r.value, "containers"))
  {
    var p := Prepared(template, workerName, accountId, benchmarkName, usesNosql, tables);
    if p.Success? {
      KeysDistinct();
      var named := template["name" := JStr(workerName)]["account_id" := JStr(accountId)];
      assert Keeps(template, named, "containers");
      var sized := InstanceTyped(named, benchmarkName).value;
      if BindsTables(usesNosql, tables) {
        var bound := Bound(sized, Keys(tables.value)).value;
        assert Keeps(sized, bound, "containers") && Keeps(bound, p.value, "containers");
      }
      var r := WithVarsAndR2(p.value, benchmarkName, usesNosql, bucket);
      assert Keeps(p.value, r, "containers");
    }
  }

  /** The NoSQL steps: one binding per table in order, and the class registered once. */
  lemma PreparedTables(template: Config, workerName: string, accountId: string,
                       benchmarkName: Option<string>, usesNosql: bool, tables: Option<DurableObjects.Tables>)
    ensures var p := Prepared(template, workerName, accountId, benchmarkName, usesNosql, tables);
      p.Success? ==>
        (|TableNames(usesNosql, tables)| > 0 ==>
           HasBindings(template) && HasBindings(p.value)
           && BindingList(p.value) == BindingList(template) + Bindings(TableNames(usesNosql, tables)))
        && (|TableNames(usesNosql, tables)| == 0 ==> Keeps(template, p.value, "durable_objects"))
        && (BindsTables(usesNosql, tables) ==>
              HasSqliteClasses(template) && HasSqliteClasses(p.value)
              && SqliteClasses(p.value) == SqliteClasses(template) + [JStr("KVApiObject")])
        && (!BindsTables(usesNosql, tables) ==> Keeps(template, p.value, "migrations"))
  {
    var p := Prepared(template, workerName, accountId, benchmarkName, usesNosql, tables);
    if p.Success? {
      KeysDistinct();
      var named := template["name" := JStr(workerName)]["account_id" := JStr(accountId)];
      var sized := InstanceTyped(named, benchmarkName).value;
      assert Keeps(template, named, "durable_objects") && Keeps(template, named, "migrations");
      assert Keeps(named, sized, "durable_objects") && Keeps(named, sized, "migrations");
      if BindsTables(usesNosql, tables) {
        var bound := Bound(sized, Keys(tables.value)).value;
        assert Keeps(sized, bound, "migrations") && Keeps(bound, p.value, "durable_objects");
      }
    }
  }

  /** With NoSQL tables bound, one binding per table in order, and the class registered once. */
  lemma ContainerConfigTables(template: Config, workerName: string, accountId: string,
                              benchmarkName: Option<string>, usesNosql: bool,
                              tables: Option<DurableObjects.Tables>, bucket: BucketLookup)
    ensures var r := ContainerConfig(template, workerName, accountId, benchmarkName, usesNosql, tables, bucket);
      r.Success? ==>
        (|TableNames(usesNosql, tables)| > 0 ==>
           HasBindings(template) && HasBindings(r.value)
           && BindingList(r.value) == BindingList(template) + Bindings(TableNames(usesNosql, tables)))
        && (|TableNames(usesNosql, tables)| == 0 ==> Keeps(template, r.value, "durable_objects"))
        && (BindsTables(usesNosql, tables) ==>
              HasSqliteClasses(template) && HasSqliteClasses(r.value)
              && SqliteClasses(r.value) == SqliteClasses(template) + [JStr("KVApiObject")])
        && (!BindsTables(usesNosql, tables) ==> Keeps(template, r.value, "migrations"))
  {
    var p := Prepared(template, workerName, accountId, benchmarkName, usesNosql, tables);
    PreparedTables(template, workerName, accountId, benchmarkName, usesNosql, tables);
    if p.Success? {
      var r := WithVarsAndR2(p.value, benchmarkName, usesNosql, bucket);
      assert Keeps(p.value, r, "durable_objects") && Keeps(p.value, r, "migrations");
    }
  }

  /** The vars and R2 rules hold between the template and the generated config. */
  lemma ContainerConfigVarsAndR2(template: Config, workerName: string, accountId: string,
                                 benchmarkName: Option<string>, usesNosql: bool,
                                 tables: Option<DurableObjects.Tables>, bucket: BucketLookup)
    ensures var r := ContainerConfig(template, workerName, accountId, benchmarkName, usesNosql, tables, bucket);
      r.Success? ==> VarsRule(template, r.value, benchmarkName, usesNosql) && R2Rule(template, r.value, bucket)
  {
    var p := Prepared(template, workerName, accountId, benchmarkName, usesNosql, tables);
    if p.Success? {
      PreparedKeeps(template, workerName, accountId, benchmarkName, usesNosql, tables, "vars");
      PreparedKeeps(template, workerName, accountId, benchmarkName, usesNosql, tables, "r2_buckets");
      var r := WithVarsAndR2(p.value, benchmarkName, usesNosql, bucket);
      assert Keeps(template, p.value, "vars") && Keeps(template, p.value, "r2_buckets");
    }
  }

  // ---- image tag -----------------------------------------------------------

  /** The tag of the locally built image. */
  function LocalImageTag(benchmark: string, language: string, version: string): (tag: string)
    ensures EndsWith(tag, ":latest")
    ensures StartsWith(tag, ReplaceChar(benchmark, '.', '-') + "-" + language + "-")
    ensures |tag| == |ReplaceChar(benchmark, '.', '-') + "-" + language + "-"| + |RemoveChar(version, '.')| + |":latest"|
    ensures tag[|ReplaceChar(benchmark, '.', '-') + "-" + language + "-"|..|tag| - |":latest"|] == RemoveChar(version, '.')
  {
    var head := ReplaceChar(benchmark, '.', '-') + "-" + language + "-";
    var tag := head + RemoveChar(version, '.') + ":latest";
    assert tag[..|head|] == head;
    assert tag[|tag| - 7..] == ":latest";
    tag
  }

  /** A "major.minor" version appears with its dot dropped: "3.11" gives "…-python-311:latest". */
  lemma LocalImageTagOfVersion(benchmark: string, language: string, major: string, minor: string)
    requires '.' !in major && '.' !in minor
    ensures LocalImageTag(benchmark, language, major + "." + minor)
         == ReplaceChar(benchmark, '.', '-') + "-" + language + "-" + major + minor + ":latest"
  {
    RemoveDot(major, minor);
    var head := ReplaceChar(benchmark, '.', '-') + "-" + language + "-";
    var tag := LocalImageTag(benchmark, language, major + "." + minor);
    assert tag == tag[..|head|] + tag[|head|..|tag| - 7] + tag[|tag| - 7..];
  }

  /** For Python, the image is named like the native worker's pyproject project. */
  lemma PythonTagIsProjectName(benchmark: string, version: string)
    ensures LocalImageTag(benchmark, "python", version) == Workers.ProjectName(benchmark, version) + ":latest"
  {
  }

  // ---- relative imports ----------------------------------------------------

  /** The wrapper files whose imports are left alone. */
  const WrapperFiles: seq<string> := ["handler.py", "storage.py", "nosql.py", "worker.py"]

  /** Whether a file of the package has its relative imports rewritten. */
  predicate Rewritten(name: string)
  {
    EndsWith(name, ".py") && name !in WrapperFiles
  }

  /** One file after the rewrite: every "from . import " becomes "import ". */
  function RewriteFile(file: (string, string)): (r: (string, string))
    ensures r.0 == file.0
    ensures !Rewritten(file.0) ==> r == file
    ensures |r.1| <= |file.1|
  {
    if Rewritten(file.0) then
      ReplaceAllShrinks(file.1, "from . import ", "import ");
      (file.0, ReplaceAll(file.1, "from . import ", "import "))
    else file
  }

  /** Replacing a pattern by a shorter text never makes the text longer. */
  lemma {:induction false} ReplaceAllShrinks(s: string, pattern: string, replacement: string)
    requires |replacement| <= |pattern|
    requires |pattern| > 0
    ensures |ReplaceAll(s, pattern, replacement)| <= |s|
    decreases |s|
  {
    if |s| >= |pattern| {
      if s[..|pattern|] == pattern {
        ReplaceAllShrinks(s[|pattern|..], pattern, replacement);
      } else {
        ReplaceAllShrinks(s[1..], pattern, replacement);
      }
    }
  }

  /** The rewrite loop over the directory listing, as (name, content) pairs. */
  method RewriteImports(files: seq<(string, string)>) returns (out: seq<(string, string)>)
    ensures |out| == |files|
    ensures forall i :: 0 <= i < |files| ==> out[i] == RewriteFile(files[i])
  {
    out := [];
    for i := 0 to |files|
      invariant |out| == i
      invariant forall j :: 0 <= j < i ==> out[j] == RewriteFile(files[j])
    {
      var file := files[i];
      if Rewritten(file.0) {
        file := (file.0, ReplaceAll(file.1, "from . import ", "import "));
      }
      out := out + [file];
    }
  }

  /** A rewritten file without relative imports keeps its content. */
  lemma NoRelativeImportUnchanged(file: (string, string))
    requires !Contains(file.1, "from . import ")
    ensures RewriteFile(file) == file
  {
    ReplaceAllAbsent(file.1, "from . import ", "import ");
  }

  /** A relative import at the head of a file turns into a plain import. */
  lemma LeadingRelativeImport(name: string, rest: string)
    requires Rewritten(name)
    ensures RewriteFile((name, "from . import " + rest)).1 == "import " + ReplaceAll(rest, "from . import ", "import ")
  {
    var s := "from . import " + rest;
    assert s[..|"from . import "|] == "from . import ";
    assert s[|"from . import "|..] == rest;
  }

  // ---- torch wheels --------------------------------------------------------

  /** Where the pattern `https://download\.pytorch\.org/whl/[^\s]+\.whl` starts. */
  const WheelPrefix: string := "https://download.pytorch.org/whl/"

  /** The length of the leading run of non-whitespace characters. */
  function RunLength(t: string): (n: nat)
    ensures n <= |t|
    ensures forall j :: 0 <= j < n ==> !IsPySpace(t[j])
    ensures n < |t| ==> IsPySpace(t[n])
    decreases |t|
  {
    if |t| == 0 || IsPySpace(t[0]) then 0 else 1 + RunLength(t[1..])
  }

  /** A ".whl" ends at position `n` of `t`. */
  predicate WheelEndsAt(t: string, n: int)
  {
    4 <= n <= |t| && t[n - 4..n] == ".whl"
  }

  /** The largest end `n <= m` of a ".whl" that leaves at least one character before it. */
  function LastWheelEnd(t: string, m: nat): (r: Option<nat>)
    requires m <= |t|
    ensures r.Some? ==> 5 <= r.value <= m && t[r.value - 4..r.value] == ".whl"
    ensures r.Some? ==> forall n :: r.value < n <= m ==> !WheelEndsAt(t, n)
    ensures r.None? ==> forall n :: 5 <= n <= m ==> !WheelEndsAt(t, n)
    decreases m
  {
    if m < 5 then None
    else if t[m - 4..m] == ".whl" then Some(m)
    else LastWheelEnd(t, m - 1)
  }

  /**
   * The greedy match of `[^\s]+\.whl` at the start of `t`: the longest
   * non-whitespace stretch ending in ".whl" with at least one character
   * before the ".whl"; its length, or None when there is none.
   */
  function WheelMatch(t: string): (r: Option<nat>)
    ensures r.Some? ==> 5 <= r.value <= |t| && t[r.value - 4..r.value] == ".whl"
    ensures r.Some? ==> forall j :: 0 <= j < r.value ==> !IsPySpace(t[j])
    ensures r.Some? ==> forall n :: r.value < n <= RunLength(t) ==> !WheelEndsAt(t, n)
    ensures r.None? ==> forall n :: 5 <= n <= RunLength(t) ==> !WheelEndsAt(t, n)
  {
    LastWheelEnd(t, RunLength(t))
  }

  /** `re.sub` of the wheel pattern by "torch": leftmost matches, scanning on after each one. */
  function SubWheels(s: string): (r: string)
    ensures |r| <= |s|
    decreases |s|
  {
    if |s| == 0 then ""
    else if StartsWith(s, WheelPrefix) && WheelMatch(s[|WheelPrefix|..]).Some? then
      "torch" + SubWheels(s[|WheelPrefix| + WheelMatch(s[|WheelPrefix|..]).value..])
    else [s[0]] + SubWheels(s[1..])
  }

  /** The requirements rewrite: only when the text mentions the wheel host at all. */
  function FixTorchUrls(content: string): (r: string)
    ensures |r| <= |content|
  {
    if Contains(content, "download.pytorch.org/whl") then SubWheels(content) else content
  }

  /** A text without the wheel prefix is left as it is by the substitution. */
  lemma {:induction false} SubWheelsWithoutPrefix(s: string)
    requires !Contains(s, WheelPrefix)
    ensures SubWheels(s) == s
    decreases |s|
  {
    if |s| > 0 {
      SubWheelsWithoutPrefix(s[1..]);
      assert s == [s[0]] + s[1..];
    }
  }

  /** The wheel pattern matches a whole wheel name up to the whitespace after it. */
  lemma WheelMatchOf(wheel: string, rest: string)
    requires |wheel| > 0 && forall j :: 0 <= j < |wheel| ==> !IsPySpace(wheel[j])
    requires |rest| == 0 || IsPySpace(rest[0])
    ensures WheelMatch(wheel + ".whl" + rest) == Some(|wheel| + 4)
  {
    var t := wheel + ".whl" + rest;
    var n := |wheel| + 4;
    forall j | 0 <= j < n
      ensures !IsPySpace(t[j])
    {
      if j < |wheel| {
        assert t[j] == wheel[j];
      }
    }
    assert n < |t| ==> t[n] == rest[0];
    RunLengthOf(t, n);
    assert t[n - 4..n] == ".whl";
  }

  /** A requirement line holding one wheel URL becomes the line "torch". */
  lemma WheelLine(wheel: string, rest: string)
    requires |wheel| > 0 && forall j :: 0 <= j < |wheel| ==> !IsPySpace(wheel[j])
    requires |rest| == 0 || IsPySpace(rest[0])
    ensures SubWheels(WheelPrefix + wheel + ".whl" + rest) == "torch" + SubWheels(rest)
  {
    PrefixSlices(WheelPrefix, wheel, ".whl", rest);
    WheelMatchOf(wheel, rest);
  }

  /** Slicing a text after a prefix `p`: the prefix, the text after it, and the part after the next two pieces. */
  lemma PrefixSlices(p: string, a: string, b: string, c: string)
    ensures p + a + b + c == p + (a + b + c)
    ensures (p + (a + b + c))[..|p|] == p
    ensures (p + (a + b + c))[|p|..] == a + b + c
    ensures (p + (a + b + c))[|p| + |a| + |b|..] == c
  {
    var s := p + (a + b + c);
    assert s[|p| + |a| + |b|..] == (a + b + c)[|a| + |b|..];
  }

  /** The run length is the position of the first whitespace. */
  lemma RunLengthOf(t: string, n: nat)
    requires n <= |t|
    requires forall j :: 0 <= j < n ==> !IsPySpace(t[j])
    requires n == |t| || IsPySpace(t[n])
    ensures RunLength(t) == n
  {
  }

  /** Requirements without any wheel URL are written back unchanged. */
  lemma FixTorchUrlsNoWheel(content: string)
    requires !Contains(content, WheelPrefix)
    ensures FixTorchUrls(content) == content
  {
    SubWheelsWithoutPrefix(content);
  }
}
