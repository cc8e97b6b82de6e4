/**
 * The experiment-name parser of the comparison plots: a result file at
 * results/<benchmark>-<language>-<deployment>/perf-cost/result.csv is
 * attributed to that benchmark, language and deployment.
 */
module PlotComparison {
  import opened Wrappers
  import opened Text

  datatype Info = Info(benchmark: string, language: string, deployment: string)

  /** Drops the empty and "." components, as `pathlib` does. */
  function Components(names: seq<string>): (r: seq<string>)
    ensures forall i :: 0 <= i < |r| ==> r[i] != "" && r[i] != "."
    ensures |r| <= |names|
    decreases |names|
  {
    if |names| == 0 then []
    else if names[0] == "" || names[0] == "." then Components(names[1..])
    else [names[0]] + Components(names[1..])
  }

  lemma {:induction false} ComponentsConcat(a: seq<string>, b: seq<string>)
    ensures Components(a + b) == Components(a) + Components(b)
    decreases |a|
  {
    if |a| == 0 {
      assert a + b == b;
    } else {
      assert (a + b)[1..] == a[1..] + b;
      ComponentsConcat(a[1..], b);
    }
  }

  /** `Path(p).parts` for a POSIX path: the root "/" first when absolute, then the components. */
  function PathParts(p: string): seq<string>
  {
    (if StartsWith(p, "/") then ["/"] else []) + Components(Split(p, '/'))
  }

  /** `parts[-3]`: the experiment directory; a path of fewer than three parts raises IndexError. */
  function ExperimentName(p: string): (r: Result<string, string>)
    ensures r.Success? <==> |PathParts(p)| >= 3
  {
    var parts := PathParts(p);
    if |parts| < 3 then Failure("tuple index out of range") else Success(parts[|parts| - 3])
  }

  /** The text before the first '-'. */
  function BenchmarkOf(name: string): string
  {
    Split(name, '-')[0]
  }

  /** The text after the first '-', or "" when there is none. */
  function RemainderOf(name: string): string
  {
    Join("-", Split(name, '-')[1..])
  }

  /** The benchmark is the part before the first '-', and the remainder completes the name. */
  lemma BenchmarkAndRemainder(name: string)
    ensures '-' !in BenchmarkOf(name)
    ensures '-' in name ==> name == BenchmarkOf(name) + "-" + RemainderOf(name)
    ensures '-' !in name ==> BenchmarkOf(name) == name && RemainderOf(name) == ""
  {
    var parts := Split(name, '-');
    SplitNoSeparator(name, '-');
    assert parts[0] in parts;
    JoinSplit(name, '-');
    if |parts| == 1 {
      assert Join("-", parts) == parts[0];
    } else {
      assert Join("-", parts) == parts[0] + "-" + Join("-", parts[1..]);
    }
    if '-' !in name {
      SplitWithout(name, '-');
    }
  }

  /**
   * The language is python if the remainder mentions it, else nodejs if it
   * mentions that, else unknown; a known language is deployed as a
   * container exactly when the remainder mentions "container".
   */
  function ParseExperiment(name: string): (info: Info)
    ensures info.benchmark == BenchmarkOf(name)
    ensures info.language == "python" <==> Contains(RemainderOf(name), "python")
    ensures info.language == "nodejs" <==> !Contains(RemainderOf(name), "python") && Contains(RemainderOf(name), "nodejs")
    ensures info.language == "unknown" <==> info.deployment == "unknown"
    ensures info.language != "unknown" ==>
      (info.deployment == "container" <==> Contains(RemainderOf(name), "container"))
      && (info.deployment == "native" <==> !Contains(RemainderOf(name), "container"))
    ensures info.language in {"python", "nodejs", "unknown"}
  {
    var benchmark := BenchmarkOf(name);
    var remainder := RemainderOf(name);
    if Contains(remainder, "python") then
      Info(benchmark, "python", if Contains(remainder, "container") then "container" else "native")
    else if Contains(remainder, "nodejs") then
      Info(benchmark, "nodejs", if Contains(remainder, "container") then "container" else "native")
    else Info(benchmark, "unknown", "unknown")
  }

  /** `extract_experiment_info`. */
  function ExtractExperimentInfo(csvPath: string): (r: Result<Info, string>)
    ensures r.Success? <==> |PathParts(csvPath)| >= 3
  {
    var name :- ExperimentName(csvPath);
    Success(ParseExperiment(name))
  }

  /** The experiment label of the plots. */
  function Label(info: Info): string
  {
    info.benchmark + "-" + info.language + "-" + info.deployment
  }

  /** Three plain names joined by '/' split back into those names. */
  lemma SplitThree(name: string, sub: string, file: string)
    requires '/' !in name && '/' !in sub && '/' !in file
    ensures Split(name + "/" + sub + "/" + file, '/') == [name, sub, file]
  {
    assert name + "/" + sub + "/" + file == name + ['/'] + (sub + ['/'] + file);
    SplitAround(name, sub + ['/'] + file, '/');
    SplitAround(sub, file, '/');
    SplitWithout(file, '/');
  }

  /** Plain components survive the component filter. */
  lemma ComponentsThree(name: string, sub: string, file: string)
    requires name != "" && name != "." && sub != "" && sub != "." && file != "" && file != "."
    ensures Components([name, sub, file]) == [name, sub, file]
  {
    assert [file][1..] == [];
    assert Components([file]) == [file];
    assert [sub, file][1..] == [file];
    assert Components([sub, file]) == [sub, file];
    assert [name, sub, file][1..] == [sub, file];
  }

  /** The experiment directory is the third component from the end, whatever comes before it. */
  lemma ExperimentDirectory(dir: string, name: string, sub: string, file: string)
    requires name != "" && name != "." && '/' !in name
    requires sub != "" && sub != "." && '/' !in sub
    requires file != "" && file != "." && '/' !in file
    ensures ExperimentName(dir + "/" + name + "/" + sub + "/" + file) == Success(name)
  {
    var p := dir + "/" + name + "/" + sub + "/" + file;
    var tail := name + "/" + sub + "/" + file;
    assert p == dir + ['/'] + tail;
    SplitConcat(dir, tail, '/');
    SplitThree(name, sub, file);
    ComponentsConcat(Split(dir, '/'), [name, sub, file]);
    ComponentsThree(name, sub, file);
    var parts := PathParts(p);
    assert parts == (if StartsWith(p, "/") then ["/"] else []) + Components(Split(dir, '/')) + [name, sub, file];
  }

  /** A label splits back into its benchmark and the language-deployment remainder. */
  lemma LabelParts(info: Info)
    requires '-' !in info.benchmark
    ensures BenchmarkOf(Label(info)) == info.benchmark
    ensures RemainderOf(Label(info)) == info.language + "-" + info.deployment
  {
    var rest := info.language + "-" + info.deployment;
    assert Label(info) == info.benchmark + ['-'] + rest;
    SplitAround(info.benchmark, rest, '-');
    JoinSplit(rest, '-');
  }

  /** What the remainder of a label mentions. */
  lemma RemainderMentions(language: string, deployment: string)
    requires language == "python" || language == "nodejs"
    requires deployment == "container" || deployment == "native"
    ensures Contains(language + "-" + deployment, "python") <==> language == "python"
    ensures Contains(language + "-" + deployment, "nodejs") <== language == "nodejs"
    ensures Contains(language + "-" + deployment, "container") <==> deployment == "container"
  {
    var rest := language + "-" + deployment;
    if language == "python" {
      assert rest[..6] == "python";
    } else {
      assert rest[..6] == "nodejs";
      assert 'p' !in rest by {
        assert rest == "nodejs-" + deployment;
      }
      AbsentFirstChar(rest, "python");
    }
    if deployment == "container" {
      assert StartsWith("container", "container");
      ContainsInSuffix(language + "-", "container", "container");
    } else {
      assert 'c' !in rest by {
        assert rest == language + "-native";
      }
      AbsentFirstChar(rest, "container");
    }
  }

  /** A label of a known language and deployment parses back into the same experiment. */
  lemma LabelRoundTrip(info: Info)
    requires '-' !in info.benchmark
    requires info.language == "python" || info.language == "nodejs"
    requires info.deployment == "container" || info.deployment == "native"
    ensures ParseExperiment(Label(info)) == info
  {
    LabelParts(info);
    RemainderMentions(info.language, info.deployment);
  }

  /** A result file in the usual layout is attributed to the experiment its directory names. */
  lemma ResultFileInfo(dir: string, info: Info)
    requires '-' !in info.benchmark && '/' !in info.benchmark
    requires info.language == "python" || info.language == "nodejs"
    requires info.deployment == "container" || info.deployment == "native"
    ensures ExtractExperimentInfo(dir + "/" + Label(info) + "/perf-cost/result.csv") == Success(info)
  {
    var text := Label(info);
    assert '/' !in text;
    assert dir + "/" + text + "/perf-cost/result.csv" == dir + "/" + text + "/" + "perf-cost" + "/" + "result.csv";
    ExperimentDirectory(dir, text, "perf-cost", "result.csv");
    LabelRoundTrip(info);
  }
}
