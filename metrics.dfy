/**
 * Enrichment of client-side invocation results with the per-invocation
 * rows of Cloudflare's Analytics Engine, and the summary written into
 * the experiment's metrics (`download_metrics` and the newline-delimited
 * JSON reader of `_query_analytics_engine`).
 */
module Metrics {
  import opened Wrappers
  import opened Text
  import opened Json
  import opened Dicts
  import opened Config
  import Cloudflare

  /** The fields of an invocation result that the provider metrics fill in. */
  datatype ProviderTimes = ProviderTimes(execution: int, initialization: int)
  datatype Stats = Stats(coldStart: bool, memoryUsed: real)
  datatype Billing = Billing(memory: int, billedTime: int, gbSeconds: int)
  datatype ExecutionResult = ExecutionResult(providerTimes: ProviderTimes, stats: Stats, billing: Billing)

  /** The fixed memory of a Cloudflare worker, in MB. */
  const WorkerMemoryMb: int := 128

  // ---- the newline-delimited JSON reply ---------------------------------

  /** The outcome of the SQL query's HTTP call. */
  datatype AnalyticsReply = Replied(status: int, text: string) | TimedOut | OtherError

  /** The decoded non-empty lines, in order; a line `decode` rejects is skipped. */
  function DecodeLines(lines: seq<string>, decode: string -> Option<Json>): (rows: seq<Json>)
    ensures |rows| <= |lines|
  {
    if |lines| == 0 then []
    else
      var init := DecodeLines(lines[..|lines| - 1], decode);
      var line := lines[|lines| - 1];
      if line != "" && decode(line).Some? then init + [decode(line).value] else init
  }

  lemma {:induction false} DecodeLinesAppend(a: seq<string>, b: seq<string>, decode: string -> Option<Json>)
    ensures DecodeLines(a + b, decode) == DecodeLines(a, decode) + DecodeLines(b, decode)
    decreases |b|
  {
    if |b| > 0 {
      assert (a + b)[..|a + b| - 1] == a + b[..|b| - 1];
      assert (a + b)[|a + b| - 1] == b[|b| - 1];
      DecodeLinesAppend(a, b[..|b| - 1], decode);
    } else {
      assert a + b == a;
    }
  }

  /** When every line is non-empty and decodes, each row is the decoding of the line at its position. */
  lemma {:induction false} DecodeLinesAllValid(lines: seq<string>, decode: string -> Option<Json>)
    requires forall i :: 0 <= i < |lines| ==> lines[i] != "" && decode(lines[i]).Some?
    ensures |DecodeLines(lines, decode)| == |lines|
    ensures forall i :: 0 <= i < |lines| ==> DecodeLines(lines, decode)[i] == decode(lines[i]).value
  {
    if |lines| > 0 {
      DecodeLinesAllValid(lines[..|lines| - 1], decode);
    }
  }

  /** Every row comes from some non-empty line that decodes to it. */
  lemma {:induction false} DecodeLinesSound(lines: seq<string>, decode: string -> Option<Json>)
    ensures forall r :: r in DecodeLines(lines, decode) ==>
      exists i :: 0 <= i < |lines| && lines[i] != "" && decode(lines[i]) == Some(r)
  {
    if |lines| > 0 {
      DecodeLinesSound(lines[..|lines| - 1], decode);
    }
  }

  /** The line loop of `_query_analytics_engine`. */
  method ParseLines(lines: seq<string>, decode: string -> Option<Json>) returns (rows: seq<Json>)
    ensures rows == DecodeLines(lines, decode)
  {
    rows := [];
    for i := 0 to |lines|
      invariant rows == DecodeLines(lines[..i], decode)
    {
      assert lines[..i + 1][..i] == lines[..i];
      var line := lines[i];
      if line != "" {
        var parsed := decode(line);
        if parsed.Some? {
          rows := rows + [parsed.value];
        }
      }
    }
    assert lines[..|lines|] == lines;
  }

  /**
   * `_query_analytics_engine`: the authentication headers are built first
   * (their failure propagates); a 200 reply yields the decoded lines of its
   * stripped text, anything else the empty list.
   */
  method QueryAnalyticsEngine(creds: Credentials, reply: AnalyticsReply, decode: string -> Option<Json>)
    returns (r: Result<seq<Json>, string>)
    ensures r == QueryRows(creds, reply, decode)
  {
    var headers := Cloudflare.AuthHeaders(creds);
    if headers.Failure? {
      return Failure(headers.error);
    }
    if reply.Replied? && reply.status == 200 {
      var rows := ParseLines(Split(Strip(reply.text, IsPySpace), '\n'), decode);
      return Success(rows);
    }
    return Success([]);
  }

  function QueryRows(creds: Credentials, reply: AnalyticsReply, decode: string -> Option<Json>)
    : (r: Result<seq<Json>, string>)
    ensures r.Failure? <==> Cloudflare.AuthHeaders(creds).Failure?
    ensures r.Success? && |r.value| > 0 ==> reply.Replied? && reply.status == 200
  {
    if Cloudflare.AuthHeaders(creds).Failure? then Failure(Cloudflare.AuthHeaders(creds).error)
    else if reply.Replied? && reply.status == 200 then
      Success(DecodeLines(Split(Strip(reply.text, IsPySpace), '\n'), decode))
    else Success([])
  }

  /** A non-200 reply, a time-out or a transport error all read as no rows. */
  lemma QueryFailureIsEmpty(creds: Credentials, reply: AnalyticsReply, decode: string -> Option<Json>)
    requires Cloudflare.AuthHeaders(creds).Success?
    requires !(reply.Replied? && reply.status == 200)
    ensures QueryRows(creds, reply, decode) == Success([])
  {
  }

  // ---- one row -----------------------------------------------------------

  /**
   * How one row is treated: an exception stops the loop. `Partial` is a
   * tracked row whose CPU time is text that `int()` accepts once repeated:
   * the first assignments happen, then the division raises.
   */
  datatype RowKind = Tracked(id: string, cpuMs: real) | Partial(id: string, execution: int) | Untracked | NoId | Raises

  /** `row.get('cpu_time_ms', 0)` as a number; `None` where `* 1000` or `int()` would raise. */
  function CpuValue(row: map<string, Json>): (r: Option<real>)
    ensures r.Some? <==>
      "cpu_time_ms" !in row || row["cpu_time_ms"].JInt? || row["cpu_time_ms"].JReal? || row["cpu_time_ms"].JBool?
  {
    if "cpu_time_ms" !in row then Some(0.0)
    else match row["cpu_time_ms"]
      case JInt(i) => Some(i as real)
      case JReal(r) => Some(r)
      case JBool(b) => Some(if b then 1.0 else 0.0)
      case _ => None
  }

  /**
   * `int(cpu_time_ms * 1000)` for a string CPU time: the text repeated a
   * thousand times, then parsed; `None` where `int()` raises or the time is
   * not a string.
   */
  function TextMicros(row: map<string, Json>): Option<int>
  {
    if "cpu_time_ms" in row && row["cpu_time_ms"].JStr? then ParseInt(Repeat(row["cpu_time_ms"].s, 1000))
    else None
  }

  /**
   * The branch taken for a row: `request_id and request_id in requests`.
   * A list or dict id cannot be looked up in a dict, and a non-numeric
   * CPU time cannot be converted.
   */
  function Classify(row: Json, results: Dict<string, ExecutionResult>): (k: RowKind)
    ensures (k.Tracked? || k.Partial?) ==> row.JObj? && HasKey(results, k.id)
    ensures k.Tracked? ==> CpuValue(row.fields) == Some(k.cpuMs)
    ensures k.Partial? ==> CpuValue(row.fields).None? && TextMicros(row.fields) == Some(k.execution)
    ensures !row.JObj? ==> k == Raises
  {
    if !row.JObj? then Raises
    else
      var id := if "request_id" in row.fields then row.fields["request_id"] else JNull;
      if !Truthy(id) then NoId
      else if id.JArr? || id.JObj? then Raises
      else if id.JStr? && HasKey(results, id.s) then
        (if CpuValue(row.fields).Some? then Tracked(id.s, CpuValue(row.fields).value)
         else if TextMicros(row.fields).Some? then Partial(id.s, TextMicros(row.fields).value)
         else Raises)
      else Untracked
  }

  function ColdWarm(row: Json): Json
    requires row.JObj?
  {
    if "cold_warm" in row.fields then row.fields["cold_warm"] else JNull
  }

  /** The new values of a tracked result for a row with this CPU time and cold/warm marker. */
  function Enrich(r: ExecutionResult, cpuMs: real, coldWarm: Json): (e: ExecutionResult)
    ensures e.providerTimes.execution == Trunc(cpuMs * 1000.0) && e.providerTimes.initialization == 0
    ensures e.stats.coldStart <==> coldWarm == JStr("cold")
    ensures e.stats.memoryUsed == 128.0
    ensures e.billing.memory == WorkerMemoryMb && e.billing.billedTime == e.providerTimes.execution
    ensures e.billing.gbSeconds == Trunc(125.0 * cpuMs)
  {
    var gbSeconds := (128.0 / 1024.0) * (cpuMs / 1000.0);
    assert gbSeconds * 1000000.0 == 125.0 * cpuMs;
    ExecutionResult(
      ProviderTimes(Trunc(cpuMs * 1000.0), 0),
      Stats(coldWarm == JStr("cold"), 128.0),
      Billing(WorkerMemoryMb, Trunc(cpuMs * 1000.0), Trunc(gbSeconds * 1000000.0)))
  }

  /**
   * The assignments made before `cpu_time_ms / 1000.0` raises for a string
   * CPU time: all of them except the GB-seconds, which keep their old value.
   */
  function PartialEnrich(r: ExecutionResult, execution: int, coldWarm: Json): (e: ExecutionResult)
    ensures e.providerTimes == ProviderTimes(execution, 0)
    ensures e.stats.coldStart <==> coldWarm == JStr("cold")
    ensures e.stats.memoryUsed == 128.0
    ensures e.billing == Billing(WorkerMemoryMb, execution, r.billing.gbSeconds)
  {
    ExecutionResult(ProviderTimes(execution, 0), Stats(coldWarm == JStr("cold"), 128.0),
                    Billing(WorkerMemoryMb, execution, r.billing.gbSeconds))
  }

  /** A numeric row makes the same assignments as a partial one, then sets the GB-seconds as well. */
  lemma EnrichCompletesPartial(r: ExecutionResult, cpuMs: real, coldWarm: Json)
    ensures var p := PartialEnrich(r, Trunc(cpuMs * 1000.0), coldWarm);
      Enrich(r, cpuMs, coldWarm) == p.(billing := p.billing.(gbSeconds := Trunc(125.0 * cpuMs)))
  {
  }

  /** Enriching again overwrites every field the first enrichment set: the last row wins. */
  lemma EnrichLastWins(r: ExecutionResult, cpu1: real, cw1: Json, cpu2: real, cw2: Json)
    ensures Enrich(Enrich(r, cpu1, cw1), cpu2, cw2) == Enrich(r, cpu2, cw2)
  {
  }

  lemma FloorDiv(x: real)
    requires x >= 0.0
    ensures (x / 8.0).Floor == x.Floor / 8
  {
    var n := x.Floor;
    var q := n / 8;
    assert q as real * 8.0 <= n as real <= x;
    assert x < (q + 1) as real * 8.0 by {
      assert n + 1 <= (q + 1) * 8;
      assert x < (n + 1) as real;
    }
  }

  /**
   * For a non-negative CPU time the micro-GB-seconds are the billed
   * microseconds divided by 8 (128 MB is 1/8 GB), rounded down.
   */
  lemma GbSecondsFromBilledTime(r: ExecutionResult, cpuMs: real, coldWarm: Json)
    requires cpuMs >= 0.0
    ensures Enrich(r, cpuMs, coldWarm).billing.gbSeconds == Enrich(r, cpuMs, coldWarm).billing.billedTime / 8
    ensures Enrich(r, cpuMs, coldWarm).billing.gbSeconds >= 0
  {
    FloorDiv(cpuMs * 1000.0);
    assert cpuMs * 1000.0 / 8.0 == 125.0 * cpuMs;
  }

  // ---- the fold ----------------------------------------------------------

  /** The results and the two counters after some rows; `aborted` once a row raised. */
  datatype Tally = Tally(results: Dict<string, ExecutionResult>, matched: nat, unmatchedMetrics: nat, aborted: bool)

  function Step(t: Tally, row: Json): (t': Tally)
    ensures Keys(t'.results) == Keys(t.results)
  {
    if t.aborted then t
    else match Classify(row, t.results)
      case Raises => t.(aborted := true)
      case NoId => t
      case Untracked => t.(unmatchedMetrics := t.unmatchedMetrics + 1)
      case Tracked(id, cpu) =>
        var prior := Get(t.results, id).value;
        t.(results := Set(t.results, id, Enrich(prior, cpu, ColdWarm(row))), matched := t.matched + 1)
      case Partial(id, execution) =>
        var prior := Get(t.results, id).value;
        t.(results := Set(t.results, id, PartialEnrich(prior, execution, ColdWarm(row))), aborted := true)
  }

  /** The state after the first rows of the loop, row by row. */
  function Fold(t: Tally, rows: seq<Json>): (t': Tally)
    ensures Keys(t'.results) == Keys(t.results)
  {
    if |rows| == 0 then t else Step(Fold(t, rows[..|rows| - 1]), rows[|rows| - 1])
  }

  function Start(results: Dict<string, ExecutionResult>): Tally
  {
    Tally(results, 0, 0, false)
  }

  /** A row whose id is not tracked changes no result and counts one unmatched metric. */
  lemma UntrackedRow(t: Tally, row: Json)
    requires !t.aborted && Classify(row, t.results) == Untracked
    ensures Step(t, row).results == t.results
    ensures Step(t, row).matched == t.matched && Step(t, row).unmatchedMetrics == t.unmatchedMetrics + 1
  {
  }

  /** A row without a request id is counted nowhere. */
  lemma RowWithoutId(t: Tally, row: Json)
    requires row.JObj? && ("request_id" !in row.fields || !Truthy(row.fields["request_id"]))
    ensures Step(t, row) == t
  {
  }

  /** A tracked row replaces that result by its enrichment, counts one match and touches no other result. */
  lemma TrackedRow(t: Tally, row: Json, id: string, other: string)
    requires !t.aborted && Distinct(t.results)
    requires Classify(row, t.results).Tracked? && Classify(row, t.results).id == id
    ensures Step(t, row).matched == t.matched + 1
    ensures Step(t, row).unmatchedMetrics == t.unmatchedMetrics
    ensures Get(Step(t, row).results, id)
         == Some(Enrich(Get(t.results, id).value, Classify(row, t.results).cpuMs, ColdWarm(row)))
    ensures other != id ==> Get(Step(t, row).results, other) == Get(t.results, other)
    ensures Distinct(Step(t, row).results)
  {
    GetSet(t.results, id, Enrich(Get(t.results, id).value, Classify(row, t.results).cpuMs, ColdWarm(row)), other);
  }

  /**
   * A tracked row whose CPU time is decimal text: `int()` accepts the text
   * repeated a thousand times, the result keeps the assignments made before
   * the division raises, no match is counted and the loop stops.
   */
  lemma DigitTextRow(t: Tally, row: Json, id: string, text: string, other: string)
    requires !t.aborted && Distinct(t.results)
    requires row.JObj? && "request_id" in row.fields && row.fields["request_id"] == JStr(id) && id != ""
    requires HasKey(t.results, id)
    requires "cpu_time_ms" in row.fields && row.fields["cpu_time_ms"] == JStr(text) && IsDigits(text)
    ensures IsDigits(Repeat(text, 1000))
    ensures Step(t, row).aborted && Step(t, row).matched == t.matched
    ensures Step(t, row).unmatchedMetrics == t.unmatchedMetrics
    ensures Get(Step(t, row).results, id)
         == Some(PartialEnrich(Get(t.results, id).value, DigitsValue(Repeat(text, 1000)), ColdWarm(row)))
    ensures other != id ==> Get(Step(t, row).results, other) == Get(t.results, other)
    ensures Distinct(Step(t, row).results)
  {
    RepeatDigits(text, 1000);
    var execution := DigitsValue(Repeat(text, 1000));
    assert Classify(row, t.results) == Partial(id, execution);
    GetSet(t.results, id, PartialEnrich(Get(t.results, id).value, execution, ColdWarm(row)), other);
  }

  /** A tracked row whose CPU time is text `int()` rejects raises before any assignment. */
  lemma RejectedTextRow(t: Tally, row: Json, id: string, text: string)
    requires !t.aborted
    requires row.JObj? && "request_id" in row.fields && row.fields["request_id"] == JStr(id) && id != ""
    requires HasKey(t.results, id)
    requires "cpu_time_ms" in row.fields && row.fields["cpu_time_ms"] == JStr(text)
    requires ParseInt(Repeat(text, 1000)).None?
    ensures Step(t, row) == t.(aborted := true)
  {
  }

  /** Folding keeps the keys distinct. */
  lemma {:induction false} FoldDistinct(t: Tally, rows: seq<Json>)
    requires Distinct(t.results)
    ensures Distinct(Fold(t, rows).results)
  {
    if |rows| > 0 {
      var t' := Fold(t, rows[..|rows| - 1]);
      FoldDistinct(t, rows[..|rows| - 1]);
      var row := rows[|rows| - 1];
      if !t'.aborted && Classify(row, t'.results).Tracked? {
        TrackedRow(t', row, Classify(row, t'.results).id, Classify(row, t'.results).id);
      } else if !t'.aborted && Classify(row, t'.results).Partial? {
        var kind := Classify(row, t'.results);
        GetSet(t'.results, kind.id, PartialEnrich(Get(t'.results, kind.id).value, kind.execution, ColdWarm(row)), kind.id);
      }
    }
  }

  /** Whether a row names a tracked request, judged against the (fixed) set of tracked ids. */
  predicate RowTracked(row: Json, ids: seq<string>)
  {
    row.JObj? && "request_id" in row.fields && row.fields["request_id"].JStr?
    && row.fields["request_id"].s != "" && row.fields["request_id"].s in ids
  }

  function CountTracked(rows: seq<Json>, ids: seq<string>): nat
  {
    if |rows| == 0 then 0
    else CountTracked(rows[..|rows| - 1], ids) + (if RowTracked(rows[|rows| - 1], ids) then 1 else 0)
  }

  lemma HasKeyKeys(d: Dict<string, ExecutionResult>, k: string)
    ensures HasKey(d, k) <==> k in Keys(d)
  {
    if k in Keys(d) {
      var i :| 0 <= i < |Keys(d)| && Keys(d)[i] == k;
      assert d[i].0 == k;
    }
  }

  /**
   * While no row has raised, `matched` counts the rows naming a tracked
   * request, a repeated id counting once per row.
   */
  lemma {:induction false} MatchedCountsTrackedRows(t: Tally, rows: seq<Json>)
    requires !Fold(t, rows).aborted
    ensures Fold(t, rows).matched == t.matched + CountTracked(rows, Keys(t.results))
  {
    if |rows| > 0 {
      var init := rows[..|rows| - 1];
      var t' := Fold(t, init);
      assert !t'.aborted;
      MatchedCountsTrackedRows(t, init);
      var row := rows[|rows| - 1];
      if row.JObj? && "request_id" in row.fields && row.fields["request_id"].JStr? {
        HasKeyKeys(t'.results, row.fields["request_id"].s);
      }
    }
  }

  /** When a tracked id appears in several rows, its result holds the values of the last one. */
  lemma LastRowWins(t: Tally, row1: Json, row2: Json, id: string)
    requires !t.aborted && Distinct(t.results)
    requires Classify(row1, t.results).Tracked? && Classify(row1, t.results).id == id
    requires Classify(row2, Step(t, row1).results) == Classify(row2, t.results)
    requires Classify(row2, t.results).Tracked? && Classify(row2, t.results).id == id
    ensures Get(Step(Step(t, row1), row2).results, id)
         == Some(Enrich(Get(t.results, id).value, Classify(row2, t.results).cpuMs, ColdWarm(row2)))
  {
    var t1 := Step(t, row1);
    TrackedRow(t, row1, id, id);
    TrackedRow(t1, row2, id, id);
    EnrichLastWins(Get(t.results, id).value, Classify(row1, t.results).cpuMs, ColdWarm(row1),
                   Classify(row2, t.results).cpuMs, ColdWarm(row2));
  }

  // ---- the summary -------------------------------------------------------

  /** The strictly positive execution times of all results, in order. */
  function CpuTimes(results: Dict<string, ExecutionResult>): (ts: seq<int>)
    ensures forall i :: 0 <= i < |ts| ==> ts[i] > 0
  {
    if |results| == 0 then []
    else
      var init := CpuTimes(results[..|results| - 1]);
      var e := results[|results| - 1].1.providerTimes.execution;
      if e > 0 then init + [e] else init
  }

  function ColdStarts(results: Dict<string, ExecutionResult>): (n: nat)
    ensures n <= |results|
  {
    if |results| == 0 then 0
    else ColdStarts(results[..|results| - 1]) + (if results[|results| - 1].1.stats.coldStart then 1 else 0)
  }

  function Sum(xs: seq<int>): int
  {
    if |xs| == 0 then 0 else Sum(xs[..|xs| - 1]) + xs[|xs| - 1]
  }

  function Min(xs: seq<int>): (m: int)
    requires |xs| > 0
    ensures m in xs
    ensures forall i :: 0 <= i < |xs| ==> m <= xs[i]
  {
    if |xs| == 1 then xs[0]
    else
      var m := Min(xs[..|xs| - 1]);
      if xs[|xs| - 1] < m then xs[|xs| - 1] else m
  }

  function Max(xs: seq<int>): (m: int)
    requires |xs| > 0
    ensures m in xs
    ensures forall i :: 0 <= i < |xs| ==> xs[i] <= m
  {
    if |xs| == 1 then xs[0]
    else
      var m := Max(xs[..|xs| - 1]);
      if xs[|xs| - 1] > m then xs[|xs| - 1] else m
  }

  lemma {:induction false} SumBounds(xs: seq<int>, lo: int, hi: int)
    requires forall i :: 0 <= i < |xs| ==> lo <= xs[i] <= hi
    ensures lo * |xs| <= Sum(xs) <= hi * |xs|
  {
    if |xs| > 0 {
      SumBounds(xs[..|xs| - 1], lo, hi);
      assert lo * (|xs| - 1) + lo == lo * |xs|;
      assert hi * (|xs| - 1) + hi == hi * |xs|;
    }
  }

  lemma MulMono(a: int, b: int, n: nat)
    requires a <= b
    ensures a * n <= b * n
  {
  }

  lemma MulCancelLess(a: int, b: int, n: nat)
    requires n > 0 && a * n < b * n
    ensures a < b
  {
    if a >= b {
      MulMono(b, a, n);
    }
  }

  /** Floor division of a total lying between n·lo and n·hi lies between lo and hi. */
  lemma DivBetween(s: int, n: nat, lo: int, hi: int)
    requires n > 0 && lo * n <= s <= hi * n
    ensures lo <= s / n <= hi
  {
    var q := s / n;
    assert q * n <= s < q * n + n;
    assert (q + 1) * n == q * n + n;
    MulCancelLess(lo, q + 1, n);
    assert (hi + 1) * n == hi * n + n;
    MulCancelLess(q, hi + 1, n);
  }

  /** The floor average lies between the minimum and the maximum. */
  lemma AverageBetweenMinAndMax(xs: seq<int>)
    requires |xs| > 0
    ensures Min(xs) <= Sum(xs) / |xs| <= Max(xs)
  {
    SumBounds(xs, Min(xs), Max(xs));
    DivBetween(Sum(xs), |xs|, Min(xs), Max(xs));
  }

  const DataSource: string := "analytics_engine"
  const SummaryNote: string := "Per-invocation metrics from Analytics Engine"

  /** The CPU-time statistics over the strictly positive execution times. */
  datatype CpuStats = CpuStats(avg: int, min: int, max: int)

  /** `metrics['cloudflare']` after a run with at least one match. */
  datatype Summary = Summary(
    totalInvocations: nat,
    matchedInvocations: nat,
    unmatchedInvocations: int,
    unmatchedMetrics: nat,
    coldStarts: nat,
    warmStarts: int,
    cpu: Option<CpuStats>)

  function Summarize(results: Dict<string, ExecutionResult>, rowCount: nat, matched: nat, unmatchedMetrics: nat)
    : (s: Summary)
    ensures s.totalInvocations == rowCount && s.matchedInvocations == matched
    ensures s.unmatchedInvocations == |results| - matched && s.unmatchedMetrics == unmatchedMetrics
    ensures s.coldStarts == ColdStarts(results) && s.warmStarts == matched - s.coldStarts
    ensures s.cpu.Some? <==> |CpuTimes(results)| > 0
    ensures s.cpu.Some? ==>
      var ts := CpuTimes(results);
      s.cpu.value == CpuStats(Sum(ts) / |ts|, Min(ts), Max(ts))
      && 0 < s.cpu.value.min <= s.cpu.value.avg <= s.cpu.value.max
  {
    var ts := CpuTimes(results);
    var cpu: Option<CpuStats> :=
      if |ts| > 0 then
        AverageBetweenMinAndMax(ts);
        Some(CpuStats(Sum(ts) / |ts|, Min(ts), Max(ts)))
      else None;
    Summary(rowCount, matched, |results| - matched, unmatchedMetrics,
            ColdStarts(results), matched - ColdStarts(results), cpu)
  }

  /** The dict written under 'cloudflare'. */
  function SummaryJson(s: Summary): map<string, Json>
  {
    var base := map[
      "total_invocations" := JInt(s.totalInvocations),
      "matched_invocations" := JInt(s.matchedInvocations),
      "unmatched_invocations" := JInt(s.unmatchedInvocations),
      "unmatched_metrics" := JInt(s.unmatchedMetrics),
      "cold_starts" := JInt(s.coldStarts),
      "warm_starts" := JInt(s.warmStarts),
      "data_source" := JStr(DataSource),
      "note" := JStr(SummaryNote)];
    if s.cpu.Some? then
      base["avg_cpu_time_us" := JInt(s.cpu.value.avg)]["min_cpu_time_us" := JInt(s.cpu.value.min)]
          ["max_cpu_time_us" := JInt(s.cpu.value.max)]
    else base
  }

  // ---- the caller's dictionaries ------------------------------------------

  /** The caller's `requests` dict: request id to invocation result, in insertion order. */
  class Requests {
    var results: Dict<string, ExecutionResult>

    constructor (results: Dict<string, ExecutionResult>)
      ensures this.results == results
    {
      this.results := results;
    }
  }

  /** The caller's `metrics` dict. */
  class MetricsDict {
    var entries: map<string, Json>

    constructor (entries: map<string, Json>)
      ensures this.entries == entries
    {
      this.entries := entries;
    }
  }

  /** The final state `download_metrics` reaches from these rows. */
  function Outcome(results: Dict<string, ExecutionResult>, entries: map<string, Json>, rows: seq<Json>)
    : (Dict<string, ExecutionResult>, map<string, Json>)
  {
    var t := Fold(Start(results), rows);
    if !t.aborted && t.matched > 0 then
      (t.results, entries["cloudflare" := JObj(SummaryJson(Summarize(t.results, |rows|, t.matched, t.unmatchedMetrics)))])
    else (t.results, entries)
  }

  /**
   * `download_metrics`: nothing changes without requests, without an
   * account id in the configured credentials `creds`, or when the query
   * yields no rows (or fails); otherwise the rows are folded into the
   * results and, when any matched and no row raised, the summary is written.
   */
  method DownloadMetrics(requests: Requests, metrics: MetricsDict,
                         creds: Credentials, reply: AnalyticsReply, decode: string -> Option<Json>)
    modifies requests, metrics
    ensures |old(requests.results)| == 0 || !TruthyStr(creds.accountId) ==>
      requests.results == old(requests.results) && metrics.entries == old(metrics.entries)
    ensures |old(requests.results)| > 0 && TruthyStr(creds.accountId) ==>
      var q := QueryRows(creds, reply, decode);
      if q.Failure? || |q.value| == 0 then
        requests.results == old(requests.results) && metrics.entries == old(metrics.entries)
      else
        (requests.results, metrics.entries) == Outcome(old(requests.results), old(metrics.entries), q.value)
  {
    if |requests.results| == 0 {
      return;
    }
    if !TruthyStr(creds.accountId) {
      return;
    }
    var q := QueryAnalyticsEngine(creds, reply, decode);
    if q.Failure? {
      return;
    }
    var rows := q.value;
    if |rows| == 0 {
      return;
    }
    var t := FoldRows(requests, rows);
    if !t.aborted && t.matched > 0 {
      var summary := Summarize(requests.results, |rows|, t.matched, t.unmatchedMetrics);
      metrics.entries := metrics.entries["cloudflare" := JObj(SummaryJson(summary))];
    }
  }

  /** The loop over the rows; it stops at the first row that raises. */
  method FoldRows(requests: Requests, rows: seq<Json>) returns (t: Tally)
    modifies requests
    ensures t == Fold(Start(old(requests.results)), rows)
    ensures requests.results == t.results
  {
    ghost var start := requests.results;
    var matched := 0;
    var unmatchedMetrics := 0;
    var i := 0;
    while i < |rows|
      invariant 0 <= i <= |rows|
      invariant Fold(Start(start), rows[..i]) == Tally(requests.results, matched, unmatchedMetrics, false)
    {
      FoldNext(Start(start), rows, i);
      var row := rows[i];
      var kind := Classify(row, requests.results);
      match kind {
        case Raises =>
          AbortStaysAborted(Start(start), rows, i + 1);
          return Tally(requests.results, matched, unmatchedMetrics, true);
        case NoId =>
        case Untracked =>
          unmatchedMetrics := unmatchedMetrics + 1;
        case Tracked(id, cpu) =>
          var result := Get(requests.results, id).value;
          requests.results := Set(requests.results, id, Enrich(result, cpu, ColdWarm(row)));
          matched := matched + 1;
        case Partial(id, execution) =>
          var result := Get(requests.results, id).value;
          requests.results := Set(requests.results, id, PartialEnrich(result, execution, ColdWarm(row)));
          AbortStaysAborted(Start(start), rows, i + 1);
          return Tally(requests.results, matched, unmatchedMetrics, true);
      }
      i := i + 1;
    }
    assert rows[..|rows|] == rows;
    return Tally(requests.results, matched, unmatchedMetrics, false);
  }

  /** One more row is one more step. */
  lemma FoldNext(t: Tally, rows: seq<Json>, i: nat)
    requires i < |rows|
    ensures Fold(t, rows[..i + 1]) == Step(Fold(t, rows[..i]), rows[i])
  {
    assert rows[..i + 1][..i] == rows[..i];
  }

  /** Once a row has raised, the remaining rows change nothing. */
  lemma {:induction false} AbortStaysAborted(t: Tally, rows: seq<Json>, k: nat)
    requires k <= |rows| && Fold(t, rows[..k]).aborted
    ensures Fold(t, rows) == Fold(t, rows[..k])
    decreases |rows| - k
  {
    if k < |rows| {
      assert rows[..k + 1][..k] == rows[..k];
      AbortStaysAborted(t, rows, k + 1);
    } else {
      assert rows[..k] == rows;
    }
  }
}
