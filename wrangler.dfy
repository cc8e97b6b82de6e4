/**
 * Rules shared by the two `generate_wrangler_toml` methods: the parsed
 * TOML template is a dict, the environment variables block and the R2
 * bucket binding are decided the same way for workers and containers.
 */
module Wrangler {
  import opened Wrappers
  import opened Json

  /** A parsed wrangler.toml: TOML tables and arrays as JSON objects and arrays. */
  type Config = map<string, Json>

  /** `after` has the same entry (or absence) for `key` as `before`. */
  predicate Keeps(before: Config, after: Config, key: string)
  {
    (key in after <==> key in before) && (key in after ==> after[key] == before[key])
  }

  /** The variables the worker gets: the benchmark name if set, the NoSQL backend if used. */
  function Vars(benchmarkName: Option<string>, usesNosql: bool): (v: map<string, Json>)
    ensures "BENCHMARK_NAME" in v <==> TruthyStr(benchmarkName)
    ensures "BENCHMARK_NAME" in v ==> v["BENCHMARK_NAME"] == JStr(benchmarkName.value)
    ensures "NOSQL_STORAGE_DATABASE" in v <==> usesNosql
    ensures "NOSQL_STORAGE_DATABASE" in v ==> v["NOSQL_STORAGE_DATABASE"] == JStr("durable_objects")
    ensures v.Keys <= {"BENCHMARK_NAME", "NOSQL_STORAGE_DATABASE"}
  {
    var named: map<string, Json> := if TruthyStr(benchmarkName) then map["BENCHMARK_NAME" := JStr(benchmarkName.value)] else map[];
    if usesNosql then named["NOSQL_STORAGE_DATABASE" := JStr("durable_objects")] else named
  }

  /** 'vars' is replaced when either variable applies, and kept from the template otherwise. */
  predicate VarsRule(before: Config, after: Config, benchmarkName: Option<string>, usesNosql: bool)
  {
    if TruthyStr(benchmarkName) || usesNosql then "vars" in after && after["vars"] == JObj(Vars(benchmarkName, usesNosql))
    else Keeps(before, after, "vars")
  }

  /** The benchmarks bucket look-up: its name (possibly None), or the exception it raised. */
  datatype BucketLookup = Bucket(name: Option<string>) | LookupFailed(error: string)

  /** The single R2 binding of the benchmarks bucket. */
  function R2Buckets(bucketName: string): (j: Json)
    ensures j.JArr? && |j.items| == 1 && j.items[0].JObj?
    ensures j.items[0].fields == map["binding" := JStr("R2"), "bucket_name" := JStr(bucketName)]
  {
    JArr([JObj(map["binding" := JStr("R2"), "bucket_name" := JStr(bucketName)])])
  }

  predicate HasBucket(bucket: BucketLookup)
  {
    bucket.Bucket? && TruthyStr(bucket.name)
  }

  /** 'r2_buckets' is set when the look-up gave a non-empty name; a failed look-up changes nothing. */
  predicate R2Rule(before: Config, after: Config, bucket: BucketLookup)
  {
    if HasBucket(bucket) then "r2_buckets" in after && after["r2_buckets"] == R2Buckets(bucket.name.value)
    else Keeps(before, after, "r2_buckets")
  }

  /** Applies the vars rule to a config. */
  function WithVars(config: Config, benchmarkName: Option<string>, usesNosql: bool): (c: Config)
    ensures VarsRule(config, c, benchmarkName, usesNosql)
    ensures forall k :: k != "vars" ==> Keeps(config, c, k)
  {
    if TruthyStr(benchmarkName) || usesNosql then config["vars" := JObj(Vars(benchmarkName, usesNosql))] else config
  }

  /** Applies the R2 rule to a config. */
  function WithR2(config: Config, bucket: BucketLookup): (c: Config)
    ensures R2Rule(config, c, bucket)
    ensures forall k :: k != "r2_buckets" ==> Keeps(config, c, k)
  {
    if HasBucket(bucket) then config["r2_buckets" := R2Buckets(bucket.name.value)] else config
  }

  /** The vars rule, then the R2 rule: the entries both deployments finish with. */
  function WithVarsAndR2(config: Config, benchmarkName: Option<string>, usesNosql: bool, bucket: BucketLookup): (c: Config)
    ensures VarsRule(config, c, benchmarkName, usesNosql)
    ensures R2Rule(config, c, bucket)
    ensures forall k {:trigger Keeps(config, c, k)} :: k != "vars" && k != "r2_buckets" ==> Keeps(config, c, k)
  {
    var v := WithVars(config, benchmarkName, usesNosql);
    assert Keeps(v, WithR2(v, bucket), "vars") && Keeps(config, v, "r2_buckets");
    WithR2(v, bucket)
  }
}
