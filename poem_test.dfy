/** multilingual_poem_test.py: one long multilingual completion per running
    server, its speed and language flags, the per-server verdict and the CSV
    lines written at the end. */
module PoemTest {
  import opened Wrappers
  import opened Text
  import opened Json
  import opened Metrics
  import opened Languages

  /** The dictionary `test_poem_generation` returns. */
  datatype PoemResult = PoemResult(
    server: string,
    port: int,
    totalTime: real,
    promptTokens: int,
    completionTokens: int,
    totalTokens: int,
    tokensPerSecond: real,
    textLength: nat,
    flags: LanguageFlags)

  /** `test_poem_generation` after the request: `None` when the request
      raised, the status is an HTTP error, the body is not JSON, it has no
      generated text, or a usage count is malformed. */
  function TestPoemGeneration(port: int, serverName: string, ex: Exchange, totalTime: real): (r: Option<PoemResult>)
    ensures r.Some? <==>
      && ex.Some? && !IsHttpError(ex.value.status) && ex.value.body.Some?
      && GeneratedText(ex.value.body.value).Some?
      && UsageCount(ex.value.body.value, "prompt_tokens").Some?
      && UsageCount(ex.value.body.value, "completion_tokens").Some?
      && UsageCount(ex.value.body.value, "total_tokens").Some?
    ensures r.Some? ==>
      var body := ex.value.body.value;
      var text := GeneratedText(body).value;
      && r.value.server == serverName && r.value.port == port && r.value.totalTime == totalTime
      && Some(r.value.promptTokens) == UsageCount(body, "prompt_tokens")
      && Some(r.value.completionTokens) == UsageCount(body, "completion_tokens")
      && Some(r.value.totalTokens) == UsageCount(body, "total_tokens")
      && (totalTime > 0.0 ==> r.value.tokensPerSecond * totalTime == r.value.completionTokens as real)
      && (totalTime <= 0.0 ==> r.value.tokensPerSecond == 0.0)
      && r.value.textLength == |text|
      && r.value.flags == Detect(text)
  {
    if ex.None? || IsHttpError(ex.value.status) || ex.value.body.None? then None
    else
      var body := ex.value.body.value;
      match (GeneratedText(body), UsageCount(body, "prompt_tokens"),
             UsageCount(body, "completion_tokens"), UsageCount(body, "total_tokens"))
      case (Some(text), Some(prompt), Some(completion), Some(total)) =>
        Some(PoemResult(serverName, port, totalTime, prompt, completion, total,
                        Rate(completion, totalTime), |text|, Detect(text)))
      case _ => None
  }

  /** A body that carries text and all three counts gives a report whose
      length and flags are those of the text. */
  lemma ReportOfAnswer(port: int, serverName: string, text: string, prompt: int, completion: int, totalTime: real)
    requires totalTime > 0.0
    ensures var body := JObj(map[
        "choices" := JArr([JObj(map["text" := JStr(text)])]),
        "usage" := JObj(map["prompt_tokens" := JInt(prompt), "completion_tokens" := JInt(completion),
                            "total_tokens" := JInt(prompt + completion)])]);
      var r := TestPoemGeneration(port, serverName, Some(Response(200, Some(body))), totalTime);
      && r.Some? && r.value.textLength == |text| && r.value.totalTokens == prompt + completion
      && r.value.tokensPerSecond == completion as real / totalTime
  {
    var body := JObj(map[
        "choices" := JArr([JObj(map["text" := JStr(text)])]),
        "usage" := JObj(map["prompt_tokens" := JInt(prompt), "completion_tokens" := JInt(completion),
                            "total_tokens" := JInt(prompt + completion)])]);
    assert GeneratedText(body) == Some(text);
    assert UsageCount(body, "prompt_tokens") == Some(prompt);
    assert UsageCount(body, "completion_tokens") == Some(completion);
    assert UsageCount(body, "total_tokens") == Some(prompt + completion);
  }

  /** The sample printed after the metrics: the first 500 characters, and
      for a longer poem an ellipsis and the full length. */
  function PoemSample(text: string): (lines: seq<string>)
    ensures |lines| >= 1 && lines[0] == text[..Min(|text|, 500)]
    ensures |lines| > 1 <==> |text| > 500
    ensures |lines| > 1 ==>
      lines == [text[..500], "...", LengthNote("Total generated text length: ", |text|)]
  {
    SampleLines(text, 500, "Total generated text length: ")
  }

  // ---------------------------------------------------------------------------
  // main
  // ---------------------------------------------------------------------------

  datatype Server = Server(name: string, port: int)

  const Vllm := Server("vLLM", 8000)
  const SgLang := Server("SGLang", 8001)

  /** The servers to test: vLLM and then SGLang, each only when its health
      check answered with status 200. A health check that raised is `None`. */
  method SelectServers(vllmHealth: Option<int>, sglangHealth: Option<int>) returns (servers: seq<Server>)
    ensures Vllm in servers <==> vllmHealth == Some(200)
    ensures SgLang in servers <==> sglangHealth == Some(200)
    ensures forall k :: 0 <= k < |servers| ==> servers[k] == Vllm || servers[k] == SgLang
    ensures |servers| <= 2 && (|servers| == 2 ==> servers == [Vllm, SgLang])
  {
    servers := [];
    if vllmHealth == Some(200) {
      servers := servers + [Vllm];
    }
    if sglangHealth == Some(200) {
      servers := servers + [SgLang];
    }
  }

  /** What one test returns, for the server in position `k`. */
  function RunOutcome(servers: seq<Server>, runs: seq<(Exchange, real)>, k: nat): Option<PoemResult>
    requires k < |servers| == |runs|
  {
    TestPoemGeneration(servers[k].port, servers[k].name, runs[k].0, runs[k].1)
  }

  function RunOutcomes(servers: seq<Server>, runs: seq<(Exchange, real)>, n: nat): (outs: seq<Option<PoemResult>>)
    requires n <= |servers| == |runs|
    ensures |outs| == n
    ensures forall k :: 0 <= k < n ==> outs[k] == RunOutcome(servers, runs, k)
  {
    if n == 0 then [] else RunOutcomes(servers, runs, n - 1) + [RunOutcome(servers, runs, n - 1)]
  }

  /** The loop of `main` over the servers to test, given what each request
      returned and how long it took: the reports that were returned, in
      server order. */
  method CollectPoemResults(servers: seq<Server>, runs: seq<(Exchange, real)>) returns (results: seq<PoemResult>)
    requires |servers| == |runs|
    ensures results == Somes(RunOutcomes(servers, runs, |servers|))
    ensures |results| <= |servers|
    ensures forall k :: 0 <= k < |results| ==> exists j :: 0 <= j < |servers| && results[k].server == servers[j].name
  {
    results := [];
    for i := 0 to |servers|
      invariant results == Somes(RunOutcomes(servers, runs, i))
    {
      var result := TestPoemGeneration(servers[i].port, servers[i].name, runs[i].0, runs[i].1);
      SomesAppend(RunOutcomes(servers, runs, i), [result]);
      assert Somes([result]) == if result.Some? then [result.value] else [];
      if result.Some? {
        results := results + [result.value];
      }
    }
    forall k | 0 <= k < |results|
      ensures exists j :: 0 <= j < |servers| && results[k].server == servers[j].name
    {
      var outs := RunOutcomes(servers, runs, |servers|);
      SomesMembership(outs, results[k]);
      var j :| 0 <= j < |outs| && outs[j] == Some(results[k]);
      assert results[k].server == servers[j].name;
    }
  }

  const AllLanguagesLine := "\U{2705} All languages present"
  const SomeMissingLine := "\U{26A0}\U{FE0F} Some languages missing"

  /** The "Multilingual:" verdict of one report. */
  function MultilingualVerdict(r: PoemResult): (line: string)
    ensures line == AllLanguagesLine <==> AllPresent(r.flags)
    ensures line == SomeMissingLine <==> Missing(r.flags) != []
  {
    if r.flags.chinese && r.flags.korean && r.flags.english then AllLanguagesLine else SomeMissingLine
  }
  /** The verdicts of the comparison block: one per report, in order, and
      only when more than one server returned a report. */
  function ComparisonVerdicts(results: seq<PoemResult>): (lines: seq<string>)
    ensures |results| <= 1 ==> lines == []
    ensures |results| > 1 ==> |lines| == |results|
    ensures |results| > 1 ==> forall k :: 0 <= k < |lines| ==> lines[k] == MultilingualVerdict(results[k])
  {
    if |results| > 1 then seq(|results|, k requires 0 <= k < |results| => MultilingualVerdict(results[k])) else []
  }


  // ---------------------------------------------------------------------------
  // The CSV file
  // ---------------------------------------------------------------------------

  const CsvColumns: seq<string> := [
    "server", "port", "total_time", "prompt_tokens", "completion_tokens", "total_tokens",
    "tokens_per_second", "text_length", "has_chinese", "has_korean", "has_english"]

  /** The header line, without its newline. */
  const CsvHeader := Join(CsvColumns, ",")

  /** `str(b)` */
  function PyBool(b: bool): (s: string)
    ensures s == "True" <==> b
  {
    if b then "True" else "False"
  }

  /** The fields of a data line, in header order; `fmt` is the `:.2f`
      rendering of a real number. */
  function CsvFields(r: PoemResult, fmt: real -> string): seq<string> {
    [r.server, IntToDecimal(r.port), fmt(r.totalTime),
     IntToDecimal(r.promptTokens), IntToDecimal(r.completionTokens), IntToDecimal(r.totalTokens),
     fmt(r.tokensPerSecond), IntToDecimal(r.textLength),
     PyBool(r.flags.chinese), PyBool(r.flags.korean), PyBool(r.flags.english)]
  }

  /** One data line, without its newline: the fields with a comma between each two. */
  function CsvLine(r: PoemResult, fmt: real -> string): string {
    Join(CsvFields(r, fmt), ",")
  }

  /** Splitting a data line at its commas gives back the header's eleven
      columns in order, as long as the server name and the rendered reals
      hold no comma; the flags read back as the report's. */
  lemma {:induction false} CsvLineFields(r: PoemResult, fmt: real -> string)
    requires ',' !in r.server && ',' !in fmt(r.totalTime) && ',' !in fmt(r.tokensPerSecond)
    ensures var fields := Split(CsvLine(r, fmt), ",");
      && |fields| == |Split(CsvHeader, ",")| == 11
      && fields[0] == r.server
      && (fields[8] == "True" <==> r.flags.chinese)
      && (fields[9] == "True" <==> r.flags.korean)
      && (fields[10] == "True" <==> r.flags.english)
  {
    CsvLineSplits(r, fmt);
    HeaderColumns();
  }

  /** The integer a numeric column of the CSV holds: port, the three token
      counts and the text length. */
  function CsvNumber(r: PoemResult, i: nat): int
    requires i == 1 || i == 3 || i == 4 || i == 5 || i == 7
  {
    if i == 1 then r.port
    else if i == 3 then r.promptTokens
    else if i == 4 then r.completionTokens
    else if i == 5 then r.totalTokens
    else r.textLength
  }

  /** Each numeric column of a data line reads back, through `int`, as the
      report's value. */
  lemma {:induction false} CsvNumberReadsBack(r: PoemResult, fmt: real -> string, i: nat)
    requires ',' !in r.server && ',' !in fmt(r.totalTime) && ',' !in fmt(r.tokensPerSecond)
    requires i == 1 || i == 3 || i == 4 || i == 5 || i == 7
    ensures var fields := Split(CsvLine(r, fmt), ",");
      |fields| == 11 && ParseInt(fields[i]) == Some(CsvNumber(r, i))
  {
    var fields := Split(CsvLine(r, fmt), ",");
    var n := CsvNumber(r, i);
    assert fields == CsvFields(r, fmt) by {
      CsvLineSplits(r, fmt);
    }
    assert fields[i] == IntToDecimal(n);
    ParseIntRoundTrip(n);
  }

  /** A data line splits back into its fields. */
  lemma CsvLineSplits(r: PoemResult, fmt: real -> string)
    requires ',' !in r.server && ',' !in fmt(r.totalTime) && ',' !in fmt(r.tokensPerSecond)
    ensures Split(CsvLine(r, fmt), ",") == CsvFields(r, fmt)
  {
    var f := CsvFields(r, fmt);
    DecimalHasNoComma(r.port);
    DecimalHasNoComma(r.promptTokens);
    DecimalHasNoComma(r.completionTokens);
    DecimalHasNoComma(r.totalTokens);
    DecimalHasNoComma(r.textLength);
    assert forall i :: 0 <= i < |f| ==> ',' !in f[i];
    SplitJoin(f, ",");
  }

  lemma HeaderColumns()
    ensures |Split(CsvHeader, ",")| == 11
  {
    assert forall i :: 0 <= i < |CsvColumns| ==> ',' !in CsvColumns[i];
    SplitJoin(CsvColumns, ",");
  }

  /** The lines of the CSV file, header first, one data line per report in
      order; `None` when there is no report and no file is written. */
  method CsvLines(results: seq<PoemResult>, fmt: real -> string) returns (file: Option<seq<string>>)
    ensures file.None? <==> results == []
    ensures file.Some? ==> |file.value| == |results| + 1 && file.value[0] == CsvHeader
    ensures file.Some? ==> forall k :: 0 <= k < |results| ==> file.value[k + 1] == CsvLine(results[k], fmt)
  {
    if results == [] {
      return None;
    }
    var data: seq<string> := [];
    for i := 0 to |results|
      invariant |data| == i
      invariant forall k :: 0 <= k < i ==> data[k] == CsvLine(results[k], fmt)
    {
      data := data + [CsvLine(results[i], fmt)];
    }
    file := Some([CsvHeader] + data);
  }
}
