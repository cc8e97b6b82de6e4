/**
 * The response envelope both Python wrapper handlers send back: fixed
 * placeholder timing and container fields around the benchmark's output.
 */
module Envelope {
  import opened Json

  /**
   * `log_data`: the benchmark's 'result' as 'output', its 'measurement'
   * when it returned one, and 'time' 0 when asked for.
   */
  function LogData(result: map<string, Json>, withTime: bool): (m: map<string, Json>)
    requires "result" in result
    ensures "output" in m && m["output"] == result["result"]
    ensures "measurement" in m <==> "measurement" in result
    ensures "measurement" in m ==> m["measurement"] == result["measurement"]
    ensures "time" in m <==> withTime
    ensures withTime ==> m["time"] == JInt(0)
    ensures m.Keys <= {"output", "measurement", "time"}
  {
    var base := map["output" := result["result"]];
    var measured := if "measurement" in result then base["measurement" := result["measurement"]] else base;
    if withTime then measured["time" := JInt(0)] else measured
  }

  /** The envelope's placeholder fields. */
  const Placeholders: map<string, Json> := map[
    "begin" := JStr("0"), "end" := JStr("0"), "results_time" := JStr("0"),
    "is_cold" := JBool(false), "is_cold_worker" := JBool(false), "container_id" := JStr("0"),
    "environ_container_id" := JStr("no_id"), "request_id" := JStr("0")]

  /** The envelope: the placeholders plus the log data under 'result'. */
  function Wrap(logData: map<string, Json>): (r: Json)
    ensures r.JObj? && "result" in r.fields && r.fields["result"] == JObj(logData)
    ensures r.fields.Keys == Placeholders.Keys + {"result"}
    ensures forall k :: k in Placeholders ==> r.fields[k] == Placeholders[k]
  {
    JObj(Placeholders["result" := JObj(logData)])
  }

  /** Only 'result' depends on the benchmark: two envelopes differ in nothing else. */
  lemma WrapOnlyResultVaries(a: map<string, Json>, b: map<string, Json>)
    ensures forall k :: k in Wrap(a).fields && k != "result" ==> Wrap(a).fields[k] == Wrap(b).fields[k]
    ensures Wrap(a) == Wrap(b) <==> a == b
  {
    if Wrap(a) == Wrap(b) {
      assert Wrap(a).fields["result"] == Wrap(b).fields["result"];
    }
  }
}
