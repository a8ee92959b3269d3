/** The load harness shared by comprehensive_benchmark.py and
    vllm_benchmark.py: the concurrent batch of `test_multiple_users` (task
    construction, the per-request outcome of `concurrent_request`, the
    aggregation into a report), the single request of `test_single_user`,
    and the list of reports a benchmark run keeps. */
module Harness {
  import opened Wrappers
  import opened Text
  import opened Json
  import opened Records
  import opened Metrics
  import opened GpuProbe

  /** The two scripts differ in two details: only comprehensive_benchmark.py
      names the server in its reports, and only it clamps the peak VRAM
      reading to be at least the initial one. */
  datatype Script = Comprehensive | VllmOnly

  // ---------------------------------------------------------------------------
  // Task construction
  // ---------------------------------------------------------------------------

  /** The body of one completion request. */
  datatype Payload = Payload(model: string, prompt: string, maxTokens: int, temperature: real, stream: bool)

  const ModelName: string := "Qwen/Qwen3-8B"
  const BatchTemperature: real := 0.7

  const BasePrompts: seq<string> := [
    "Explain quantum computing in simple terms.",
    "What are the benefits of renewable energy?",
    "How does machine learning work?",
    "Describe the water cycle process.",
    "What causes climate change?",
    "Explain blockchain technology.",
    "How do vaccines work?",
    "What is dark matter?",
    "Describe photosynthesis.",
    "How does the internet work?"
  ]

  /** The concurrency levels a run tests after the single-user baseline. */
  const ConcurrencyLevels: seq<int> := [5, 10, 20, 50]

  /** Python's `base_prompts * k`: the ten base prompts, `k` times over. */
  function RepeatPrompts(k: int): (r: seq<string>)
    ensures |r| == if k > 0 then 10 * k else 0
    ensures forall i :: 0 <= i < |r| ==> r[i] == BasePrompts[i % 10]
    decreases if k > 0 then k else 0
  {
    if k <= 0 then []
    else
      var rest := RepeatPrompts(k - 1);
      assert forall i :: 10 <= i < 10 + |rest| ==> (BasePrompts + rest)[i] == BasePrompts[i % 10] by {
        forall i | 10 <= i < 10 + |rest|
          ensures (BasePrompts + rest)[i] == BasePrompts[i % 10]
        {
          assert (BasePrompts + rest)[i] == rest[i - 10];
          assert (i - 10) % 10 == i % 10;
        }
      }
      BasePrompts + rest
  }

  /** The remainder is determined by any quotient-remainder decomposition. */
  lemma ModUnique(x: int, q: int, m: int, r: int)
    requires m > 0 && 0 <= r < m && x == q * m + r
    ensures x % m == r
  {
    var q', r' := x / m, x % m;
    assert x == q' * m + r';
    var d := q - q';
    assert d * m == r' - r;
    if d >= 1 {
      MulAtLeast(d, m);
    } else if d <= -1 {
      MulAtLeast(-d, m);
    }
  }

  lemma MulAtLeast(d: int, m: int)
    requires d >= 1 && m > 0
    ensures d * m >= m
  {
    if d > 1 {
      MulAtLeast(d - 1, m);
      assert d * m == (d - 1) * m + m;
    }
  }

  /** The prompt list of `test_multiple_users`: the ten base prompts repeated
      `num_users // 10 + 1` times. */
  function PromptPool(numUsers: int): seq<string> {
    RepeatPrompts(numUsers / 10 + 1)
  }

  /** The pool always holds more prompts than there are users, and entry `i`
      is base prompt `i mod 10`. */
  lemma PoolCoversUsers(numUsers: int)
    requires numUsers >= 0
    ensures |PromptPool(numUsers)| > numUsers
    ensures forall i :: 0 <= i < |PromptPool(numUsers)| ==> PromptPool(numUsers)[i] == BasePrompts[i % 10]
  {
    var q := numUsers / 10;
    assert numUsers == 10 * q + numUsers % 10;
    assert |PromptPool(numUsers)| == (q + 1) * 10;
  }

  /** `range(num_users)` has this many elements. */
  function TaskCount(numUsers: int): nat {
    if numUsers > 0 then numUsers else 0
  }

  /** The loop of `test_multiple_users` that builds one request per user:
      task `i` asks with prompt `prompts[i % len(prompts)]`, which is base
      prompt `i mod 10`. */
  method BuildTasks(numUsers: int, maxTokens: int) returns (tasks: seq<Payload>)
    ensures |tasks| == TaskCount(numUsers)
    ensures forall i :: 0 <= i < |tasks| ==> tasks[i] == TaskFor(i, maxTokens)
  {
    var prompts := PromptPool(numUsers);
    tasks := [];
    var i := 0;
    while i < numUsers
      invariant 0 <= i
      invariant numUsers > 0 ==> i <= numUsers
      invariant numUsers <= 0 ==> i == 0
      invariant tasks == Tasks(i, maxTokens)
    {
      var prompt := TaskPrompt(prompts, numUsers, i);
      var task := Payload(ModelName, prompt, maxTokens, BatchTemperature, false);
      assert task == TaskFor(i, maxTokens);
      tasks := tasks + [task];
      i := i + 1;
    }
  }

  /** The first `n` tasks. */
  function Tasks(n: nat, maxTokens: int): (ts: seq<Payload>)
    ensures |ts| == n
    ensures forall j :: 0 <= j < n ==> ts[j] == TaskFor(j, maxTokens)
  {
    if n == 0 then [] else Tasks(n - 1, maxTokens) + [TaskFor(n - 1, maxTokens)]
  }

  /** The request task `i` sends: base prompt `i mod 10`, the batch settings. */
  function TaskFor(i: nat, maxTokens: int): Payload
  {
    Payload(ModelName, BasePrompts[i % 10], maxTokens, BatchTemperature, false)
  }

  /** `prompts[i % len(prompts)]` for a task of the batch. */
  function TaskPrompt(prompts: seq<string>, numUsers: int, i: int): (p: string)
    requires prompts == PromptPool(numUsers) && 0 <= i < numUsers
    ensures p == BasePrompts[i % 10]
  {
    PoolCoversUsers(numUsers);
    ModUnique(i, 0, |prompts|, i);
    prompts[i % |prompts|]
  }

  // ---------------------------------------------------------------------------
  // One request: concurrent_request
  // ---------------------------------------------------------------------------

  /** Why a request ended up as a failed record. */
  datatype Failure = Transport | UndecodableBody | MalformedUsage

  /** The record `concurrent_request` returns. A successful record carries
      the measured time and the completion tokens, a failed one the error. */
  datatype Outcome =
    | Succeeded(requestId: int, time: real, tokens: int)
    | Failed(requestId: int, error: Failure)

  /** `concurrent_request`: any exception inside the request (no response,
      a body that is not JSON, a body or `usage` that is not an object) is
      caught and becomes a failed record. The HTTP status is never looked at. */
  function ConcurrentRequest(ex: Exchange, elapsed: real, requestId: int): (o: Outcome)
    ensures o.requestId == requestId
    ensures ex.None? ==> o == Failed(requestId, Transport)
    ensures o.Succeeded? <==>
      ex.Some? && ex.value.body.Some? && UsageCount(ex.value.body.value, "completion_tokens").Some?
    ensures o.Succeeded? ==>
      o.time == elapsed && UsageCount(ex.value.body.value, "completion_tokens") == Some(o.tokens)
  {
    match ex
    case None => Failed(requestId, Transport)
    case Some(resp) =>
      match resp.body
      case None => Failed(requestId, UndecodableBody)
      case Some(body) =>
        match UsageCount(body, "completion_tokens")
        case None => Failed(requestId, MalformedUsage)
        case Some(n) => Succeeded(requestId, elapsed, n)
  }

  /** An error status with a JSON body is recorded exactly like a success
      status with the same body. */
  lemma StatusIsIgnored(status: int, other: int, body: Option<Json>, elapsed: real, requestId: int)
    ensures ConcurrentRequest(Some(Response(status, body)), elapsed, requestId)
         == ConcurrentRequest(Some(Response(other, body)), elapsed, requestId)
  {
  }

  /** `asyncio.gather` returns the records in task order, whatever order the
      responses arrived in: record `i` is that of task `i`. */
  function Gather(exchanges: seq<Exchange>, elapsed: seq<real>): (rs: seq<Outcome>)
    requires |exchanges| == |elapsed|
    ensures |rs| == |exchanges|
    ensures forall i :: 0 <= i < |rs| ==> rs[i].requestId == i
    ensures forall i :: 0 <= i < |rs| ==> rs[i] == ConcurrentRequest(exchanges[i], elapsed[i], i)
  {
    seq(|exchanges|, i requires 0 <= i < |exchanges| => ConcurrentRequest(exchanges[i], elapsed[i], i))
  }

  // ---------------------------------------------------------------------------
  // Aggregation
  // ---------------------------------------------------------------------------

  /** `[r for r in results if r.get('success', False)]` */
  function Successful(rs: seq<Outcome>): (s: seq<Outcome>)
    ensures |s| <= |rs|
    ensures forall i :: 0 <= i < |s| ==> s[i].Succeeded?
  {
    if rs == [] then []
    else (if rs[0].Succeeded? then [rs[0]] else []) + Successful(rs[1..])
  }

  /** `[r for r in results if not r.get('success', False)]` */
  function Unsuccessful(rs: seq<Outcome>): (s: seq<Outcome>)
    ensures |s| <= |rs|
    ensures forall i :: 0 <= i < |s| ==> s[i].Failed?
  {
    if rs == [] then []
    else (if rs[0].Failed? then [rs[0]] else []) + Unsuccessful(rs[1..])
  }

  /** Every record lands in exactly one of the two lists. */
  lemma {:induction false} PartitionSizes(rs: seq<Outcome>)
    ensures |Successful(rs)| + |Unsuccessful(rs)| == |rs|
  {
    if rs != [] {
      PartitionSizes(rs[1..]);
    }
  }

  /** Together the two lists hold the records, each as often as it occurs. */
  lemma {:induction false} PartitionMultiset(rs: seq<Outcome>)
    ensures multiset(Successful(rs)) + multiset(Unsuccessful(rs)) == multiset(rs)
  {
    if rs != [] {
      var s, u := Successful(rs[1..]), Unsuccessful(rs[1..]);
      PartitionMultiset(rs[1..]);
      assert rs == [rs[0]] + rs[1..];
      assert multiset(rs) == multiset([rs[0]]) + multiset(rs[1..]);
      if rs[0].Succeeded? {
        assert Successful(rs) == [rs[0]] + s;
        assert Unsuccessful(rs) == u;
      } else {
        assert Successful(rs) == s;
        assert Unsuccessful(rs) == [rs[0]] + u;
      }
    }
  }

  /** A record is in the successful list iff it is a successful record of
      the batch, and in the failed list iff it is a failed one; so no record
      is in both. */
  lemma {:induction false} PartitionMembership(rs: seq<Outcome>, o: Outcome)
    ensures o in Successful(rs) <==> o in rs && o.Succeeded?
    ensures o in Unsuccessful(rs) <==> o in rs && o.Failed?
  {
    if rs != [] {
      PartitionMembership(rs[1..], o);
      assert rs == [rs[0]] + rs[1..];
    }
  }

  predicate IdsIncreasing(rs: seq<Outcome>) {
    forall i, j :: 0 <= i < j < |rs| ==> rs[i].requestId < rs[j].requestId
  }

  /** Both lists keep the records in their original order. */
  lemma {:induction false} PartitionKeepsOrder(rs: seq<Outcome>)
    requires IdsIncreasing(rs)
    ensures IdsIncreasing(Successful(rs)) && IdsIncreasing(Unsuccessful(rs))
  {
    if rs != [] {
      PartitionKeepsOrder(rs[1..]);
      forall o | o in Successful(rs[1..]) + Unsuccessful(rs[1..])
        ensures rs[0].requestId < o.requestId
      {
        PartitionMembership(rs[1..], o);
        var k :| 0 <= k < |rs[1..]| && rs[1..][k] == o;
        assert rs[k + 1] == o;
      }
    }
  }

  /** `r.get('tokens', 0)`: a failed record has no token count. */
  function TokensOf(o: Outcome): int {
    if o.Succeeded? then o.tokens else 0
  }

  /** `r.get('time', 0)` */
  function TimeOf(o: Outcome): real {
    if o.Succeeded? then o.time else 0.0
  }

  /** `sum(r.get('tokens', 0) for r in rs)` */
  function SumTokens(rs: seq<Outcome>): int {
    if rs == [] then 0 else TokensOf(rs[0]) + SumTokens(rs[1..])
  }

  /** `sum(r.get('time', 0) for r in rs)` */
  function SumTimes(rs: seq<Outcome>): real {
    if rs == [] then 0.0 else TimeOf(rs[0]) + SumTimes(rs[1..])
  }

  /** Failed records add nothing: the sums over the successful records are
      the sums over the whole batch. */
  lemma {:induction false} FailuresAddNothing(rs: seq<Outcome>)
    ensures SumTokens(Successful(rs)) == SumTokens(rs)
    ensures SumTimes(Successful(rs)) == SumTimes(rs)
  {
    if rs != [] {
      FailuresAddNothing(rs[1..]);
      var head := if rs[0].Succeeded? then [rs[0]] else [];
      assert Successful(rs) == head + Successful(rs[1..]);
      SumsAppend(head, Successful(rs[1..]));
    }
  }

  lemma {:induction false} SumsAppend(a: seq<Outcome>, b: seq<Outcome>)
    ensures SumTokens(a + b) == SumTokens(a) + SumTokens(b)
    ensures SumTimes(a + b) == SumTimes(a) + SumTimes(b)
  {
    if a == [] {
      assert a + b == b;
    } else {
      assert (a + b)[0] == a[0];
      assert (a + b)[1..] == a[1..] + b;
      SumsAppend(a[1..], b);
    }
  }

  /** If every successful request took between `lo` and `hi` seconds, so does
      their mean. */
  lemma {:induction false} SumTimesBounds(s: seq<Outcome>, lo: real, hi: real)
    requires forall i :: 0 <= i < |s| ==> s[i].Succeeded? && lo <= s[i].time <= hi
    ensures |s| as real * lo <= SumTimes(s) <= |s| as real * hi
  {
    if s != [] {
      SumTimesBounds(s[1..], lo, hi);
      var n := |s[1..]| as real;
      assert |s| as real * lo == n * lo + lo;
      assert |s| as real * hi == n * hi + hi;
    }
  }

  lemma {:induction false} MeanResponseTimeBounds(rs: seq<Outcome>, lo: real, hi: real)
    requires Successful(rs) != []
    requires forall o :: o in rs && o.Succeeded? ==> lo <= o.time <= hi
    ensures lo <= Mean(SumTimes(Successful(rs)), |Successful(rs)|) <= hi
  {
    var s := Successful(rs);
    assert |s| as real * lo <= SumTimes(s) <= |s| as real * hi by {
      SuccessfulWithin(rs, lo, hi);
      SumTimesBounds(s, lo, hi);
    }
    MeanBetween(SumTimes(s), |s|, lo, hi);
  }

  lemma SuccessfulWithin(rs: seq<Outcome>, lo: real, hi: real)
    requires forall o :: o in rs && o.Succeeded? ==> lo <= o.time <= hi
    ensures forall i :: 0 <= i < |Successful(rs)| ==>
      Successful(rs)[i].Succeeded? && lo <= Successful(rs)[i].time <= hi
  {
    var s := Successful(rs);
    forall i | 0 <= i < |s|
      ensures s[i].Succeeded? && lo <= s[i].time <= hi
    {
      PartitionMembership(rs, s[i]);
    }
  }

  lemma MeanBetween(total: real, n: nat, lo: real, hi: real)
    requires n > 0 && n as real * lo <= total <= n as real * hi
    ensures lo <= Mean(total, n) <= hi
  {
    var m := Mean(total, n);
    var k := n as real;
    assert m * k == total;
  }

  // ---------------------------------------------------------------------------
  // The batch report: test_multiple_users
  // ---------------------------------------------------------------------------

  /** `peak_gpu.get('memory_used_gb', 0)`: gigabytes from megabytes, 0 when
      no sample could be taken. */
  function UsedGb(sample: Option<GpuStats>): real {
    if sample.Some? then sample.value.memoryUsedMb as real / 1024.0 else 0.0
  }

  datatype BatchReport = BatchReport(
    server: string,
    numUsers: int,
    successfulRequests: nat,
    failedRequests: nat,
    totalTime: real,
    totalTokens: int,
    throughput: real,
    avgResponseTime: real,
    vramInitialGb: real,
    vramPeakGb: real,
    vramIncreaseGb: real)

  /** The analysis at the end of `test_multiple_users`: the list
      comprehensions, sums and guarded divisions over the gathered records,
      given the initial and peak VRAM readings. `None` when no request
      succeeded. */
  function Analyze(serverName: string, numUsers: int, rs: seq<Outcome>, totalTime: real,
                   initialGb: real, peakGb: real): (report: Option<BatchReport>)
    ensures report.None? <==> Successful(rs) == []
    ensures report.Some? ==>
      var r := report.value;
      && r.server == serverName
      && r.numUsers == numUsers
      && r.successfulRequests == |Successful(rs)| > 0
      && r.failedRequests == |Unsuccessful(rs)|
      && r.successfulRequests + r.failedRequests == |rs|
      && r.totalTime == totalTime
      && r.totalTokens == SumTokens(rs)
      && (totalTime > 0.0 ==> r.throughput * totalTime == r.totalTokens as real)
      && (totalTime <= 0.0 ==> r.throughput == 0.0)
      && r.avgResponseTime * r.successfulRequests as real == SumTimes(rs)
      && r.vramInitialGb == initialGb
      && r.vramPeakGb == peakGb
      && r.vramIncreaseGb == peakGb - initialGb
  {
    var successful := Successful(rs);
    var failed := Unsuccessful(rs);
    if |successful| > 0 then
      PartitionSizes(rs);
      FailuresAddNothing(rs);
      var totalTokens := SumTokens(successful);
      var avgResponseTime := Mean(SumTimes(successful), |successful|);
      var throughput := Rate(totalTokens, totalTime);
      Some(BatchReport(serverName, numUsers, |successful|, |failed|, totalTime,
                       totalTokens, throughput, avgResponseTime,
                       initialGb, peakGb, peakGb - initialGb))
    else
      None
  }

  /** `test_multiple_users` around the requests: it builds the tasks, takes
      the initial VRAM reading as `max_vram`, gathers the records, takes the
      post-batch reading (comprehensive_benchmark.py keeps the larger of the
      two, vllm_benchmark.py the later one) and analyzes the batch. The
      exchanges, the per-request durations, the batch's wall-clock time and
      the two GPU samples are what the network, the clock and `nvidia-smi`
      supplied. */
  method TestMultipleUsers(script: Script, serverName: string, numUsers: int, maxTokens: int,
                           initial: Option<GpuStats>, peak: Option<GpuStats>,
                           exchanges: seq<Exchange>, elapsed: seq<real>, totalTime: real)
    returns (tasks: seq<Payload>, report: Option<BatchReport>)
    requires |exchanges| == TaskCount(numUsers) && |elapsed| == |exchanges|
    ensures |tasks| == TaskCount(numUsers)
    ensures forall i :: 0 <= i < |tasks| ==> tasks[i] == TaskFor(i, maxTokens)
    ensures report.Some? ==> numUsers > 0 && report.value.successfulRequests + report.value.failedRequests == numUsers
    ensures script == Comprehensive ==>
      report == Analyze(serverName, numUsers, Gather(exchanges, elapsed), totalTime,
                        UsedGb(initial), Max(UsedGb(initial), UsedGb(peak)))
    ensures script == VllmOnly ==>
      report == Analyze(serverName, numUsers, Gather(exchanges, elapsed), totalTime,
                        UsedGb(initial), UsedGb(peak))
    ensures script == Comprehensive && report.Some? ==>
      report.value.vramPeakGb >= report.value.vramInitialGb && report.value.vramIncreaseGb >= 0.0
  {
    tasks := BuildTasks(numUsers, maxTokens);
    var initialGb := UsedGb(initial);
    var maxVram := initialGb;
    var results := Gather(exchanges, elapsed);
    var peakGb := UsedGb(peak);
    if script == Comprehensive {
      maxVram := Max(maxVram, peakGb);
    } else {
      maxVram := peakGb;
    }
    report := Analyze(serverName, numUsers, results, totalTime, initialGb, maxVram);
  }

  /** Without the clamp, a reading that drops after the batch reports a
      negative increase (vllm_benchmark.py). */
  lemma UnclampedIncreaseCanBeNegative()
    ensures var rs := [Succeeded(0, 1.0, 10)];
      var r := Analyze("vLLM", 1, rs, 1.0, UsedGb(Some(GpuStats(2048, 8192, 6144, 0))),
                       UsedGb(Some(GpuStats(1024, 8192, 7168, 0))));
      r.Some? && r.value.vramIncreaseGb == -1.0
  {
    var rs := [Succeeded(0, 1.0, 10)];
    assert rs[1..] == [];
    assert Successful(rs) == [rs[0]];
  }

  /** The test types a run produces. */
  const SingleUserType: string := "single_user"

  function BatchTestType(numUsers: int): string {
    "concurrent_" + IntToDecimal(numUsers) + "_users"
  }

  /** No batch report is ever taken for a single-user one. */
  lemma BatchTypeIsNotSingle(numUsers: int)
    ensures BatchTestType(numUsers) != SingleUserType
  {
    assert BatchTestType(numUsers)[0] == 'c';
  }

  /** The keys every batch dictionary has; `server` is added by
      comprehensive_benchmark.py only. */
  const BatchKeys: set<string> := {
    "test_type", "num_users", "successful_requests", "failed_requests", "total_time",
    "total_tokens", "throughput_tok_s", "avg_response_time", "vram_initial_gb",
    "vram_peak_gb", "vram_increase_gb"}

  /** The columns both benchmark scripts put into a batch dictionary. */
  function BatchColumns(r: BatchReport): (rec: Record)
    ensures rec.Keys == BatchKeys
    ensures "server" !in rec && "speed_tok_s" !in rec && "vram_inference_gb" !in rec
    ensures "test_type" in rec && rec["test_type"] == VStr(BatchTestType(r.numUsers))
    ensures "num_users" in rec && rec["num_users"] == VNum(r.numUsers as real)
    ensures "successful_requests" in rec && rec["successful_requests"] == VNum(r.successfulRequests as real)
    ensures "failed_requests" in rec && rec["failed_requests"] == VNum(r.failedRequests as real)
    ensures "total_time" in rec && rec["total_time"] == VNum(r.totalTime)
    ensures "total_tokens" in rec && rec["total_tokens"] == VNum(r.totalTokens as real)
    ensures "throughput_tok_s" in rec && rec["throughput_tok_s"] == VNum(r.throughput)
    ensures "avg_response_time" in rec && rec["avg_response_time"] == VNum(r.avgResponseTime)
    ensures "vram_initial_gb" in rec && rec["vram_initial_gb"] == VNum(r.vramInitialGb)
    ensures "vram_peak_gb" in rec && rec["vram_peak_gb"] == VNum(r.vramPeakGb)
    ensures "vram_increase_gb" in rec && rec["vram_increase_gb"] == VNum(r.vramIncreaseGb)
  {
    map[
      "test_type" := VStr(BatchTestType(r.numUsers)),
      "num_users" := VNum(r.numUsers as real),
      "successful_requests" := VNum(r.successfulRequests as real),
      "failed_requests" := VNum(r.failedRequests as real),
      "total_time" := VNum(r.totalTime),
      "total_tokens" := VNum(r.totalTokens as real),
      "throughput_tok_s" := VNum(r.throughput),
      "avg_response_time" := VNum(r.avgResponseTime),
      "vram_initial_gb" := VNum(r.vramInitialGb),
      "vram_peak_gb" := VNum(r.vramPeakGb),
      "vram_increase_gb" := VNum(r.vramIncreaseGb)
    ]
  }

  /** The dictionary `test_multiple_users` returns: the batch columns, and
      the server's name in comprehensive_benchmark.py. */
  function BatchRecord(script: Script, r: BatchReport): (rec: Record)
    ensures rec.Keys == BatchKeys + (if script == Comprehensive then {"server"} else {})
    ensures "server" in rec <==> script == Comprehensive
    ensures script == Comprehensive ==> "server" in rec && rec["server"] == VStr(r.server)
    ensures "speed_tok_s" !in rec && "vram_inference_gb" !in rec
    ensures "test_type" in rec && rec["test_type"] == VStr(BatchTestType(r.numUsers))
    ensures "num_users" in rec && rec["num_users"] == VNum(r.numUsers as real)
    ensures "successful_requests" in rec && rec["successful_requests"] == VNum(r.successfulRequests as real)
    ensures "failed_requests" in rec && rec["failed_requests"] == VNum(r.failedRequests as real)
    ensures "total_time" in rec && rec["total_time"] == VNum(r.totalTime)
    ensures "total_tokens" in rec && rec["total_tokens"] == VNum(r.totalTokens as real)
    ensures "throughput_tok_s" in rec && rec["throughput_tok_s"] == VNum(r.throughput)
    ensures "avg_response_time" in rec && rec["avg_response_time"] == VNum(r.avgResponseTime)
    ensures "vram_initial_gb" in rec && rec["vram_initial_gb"] == VNum(r.vramInitialGb)
    ensures "vram_peak_gb" in rec && rec["vram_peak_gb"] == VNum(r.vramPeakGb)
    ensures "vram_increase_gb" in rec && rec["vram_increase_gb"] == VNum(r.vramIncreaseGb)
  {
    var common := BatchColumns(r);
    if script == Comprehensive then
      var rec := common["server" := VStr(r.server)];
      assert rec.Keys == common.Keys + {"server"};
      rec
    else common
  }

  // ---------------------------------------------------------------------------
  // The single-user baseline: test_single_user
  // ---------------------------------------------------------------------------

  datatype SingleUserReport = SingleUserReport(
    server: string,
    totalTime: real,
    tokens: int,
    speed: real,
    vramInitialGb: real,
    vramInferenceGb: real,
    vramIncreaseGb: real,
    gpuUtilization: int)

  /** `test_single_user` after the request: `None` when the request raised,
      the status is an HTTP error, the body is not JSON or its usage is
      malformed. The VRAM increase is not clamped and can be negative. */
  function TestSingleUser(serverName: string, ex: Exchange, totalTime: real,
                          initial: Option<GpuStats>, inference: Option<GpuStats>): (r: Option<SingleUserReport>)
    ensures r.Some? <==>
      && ex.Some? && !IsHttpError(ex.value.status) && ex.value.body.Some?
      && UsageCount(ex.value.body.value, "completion_tokens").Some?
    ensures r.Some? ==>
      && Some(r.value.tokens) == UsageCount(ex.value.body.value, "completion_tokens")
      && (totalTime > 0.0 ==> r.value.speed * totalTime == r.value.tokens as real)
      && (totalTime <= 0.0 ==> r.value.speed == 0.0)
      && r.value.server == serverName && r.value.totalTime == totalTime
      && r.value.vramInitialGb == UsedGb(initial)
      && r.value.vramInferenceGb == UsedGb(inference)
      && r.value.vramIncreaseGb == r.value.vramInferenceGb - r.value.vramInitialGb
      && r.value.gpuUtilization == (if inference.Some? then inference.value.gpuUtilization else 0)
  {
    if ex.None? || IsHttpError(ex.value.status) || ex.value.body.None? then None
    else
      match UsageCount(ex.value.body.value, "completion_tokens")
      case None => None
      case Some(tokens) =>
        var util := if inference.Some? then inference.value.gpuUtilization else 0;
        Some(SingleUserReport(serverName, totalTime, tokens, Rate(tokens, totalTime),
                              UsedGb(initial), UsedGb(inference), UsedGb(inference) - UsedGb(initial), util))
  }

  /** The keys every single-user dictionary has; `server` is added by
      comprehensive_benchmark.py only. */
  const SingleKeys: set<string> := {
    "test_type", "total_time", "tokens", "speed_tok_s", "vram_initial_gb",
    "vram_inference_gb", "vram_increase_gb", "gpu_utilization"}

  /** The dictionary `test_single_user` returns. */
  function SingleRecord(script: Script, r: SingleUserReport): (rec: Record)
    ensures rec.Keys == SingleKeys + (if script == Comprehensive then {"server"} else {})
    ensures script == Comprehensive ==> "server" in rec && rec["server"] == VStr(r.server)
    ensures "test_type" in rec && rec["test_type"] == VStr(SingleUserType)
    ensures "server" in rec <==> script == Comprehensive
    ensures "throughput_tok_s" !in rec && "vram_peak_gb" !in rec && "num_users" !in rec
    ensures "total_time" in rec && rec["total_time"] == VNum(r.totalTime)
    ensures "tokens" in rec && rec["tokens"] == VNum(r.tokens as real)
    ensures "speed_tok_s" in rec && rec["speed_tok_s"] == VNum(r.speed)
    ensures "vram_initial_gb" in rec && rec["vram_initial_gb"] == VNum(r.vramInitialGb)
    ensures "vram_inference_gb" in rec && rec["vram_inference_gb"] == VNum(r.vramInferenceGb)
    ensures "vram_increase_gb" in rec && rec["vram_increase_gb"] == VNum(r.vramIncreaseGb)
    ensures "gpu_utilization" in rec && rec["gpu_utilization"] == VNum(r.gpuUtilization as real)
  {
    var common := map[
      "test_type" := VStr(SingleUserType),
      "total_time" := VNum(r.totalTime),
      "tokens" := VNum(r.tokens as real),
      "speed_tok_s" := VNum(r.speed),
      "vram_initial_gb" := VNum(r.vramInitialGb),
      "vram_inference_gb" := VNum(r.vramInferenceGb),
      "vram_increase_gb" := VNum(r.vramIncreaseGb),
      "gpu_utilization" := VNum(r.gpuUtilization as real)
    ];
    if script == Comprehensive then common["server" := VStr(r.server)] else common
  }

  // ---------------------------------------------------------------------------
  // The results of one run
  // ---------------------------------------------------------------------------

  /** The reports of one run, in test order (single user, then 5, 10, 20 and
      50 users), keeping only the tests that returned a report. */
  method CollectResults(single: Option<Record>, batches: seq<Option<Record>>) returns (results: seq<Record>)
    requires |batches| == |ConcurrencyLevels|
    ensures results == Somes([single] + batches)
    ensures |results| <= 1 + |ConcurrencyLevels|
    ensures single.Some? ==> results[0] == single.value
  {
    results := [];
    if single.Some? {
      results := results + [single.value];
    }
    var i := 0;
    while i < |batches|
      invariant 0 <= i <= |batches|
      invariant results == Somes([single] + batches[..i])
    {
      SomesAppend([single] + batches[..i], [batches[i]]);
      assert [single] + batches[..i + 1] == [single] + batches[..i] + [batches[i]];
      if batches[i].Some? {
        results := results + [batches[i].value];
      }
      i := i + 1;
    }
    assert batches[..i] == batches;
  }

  // ---------------------------------------------------------------------------
  // Five uniform successes in one second
  // ---------------------------------------------------------------------------

  /** Five requests that all succeed with 50 completion tokens in a batch of
      one second: five successes, 250 tokens, 250 tokens per second. */
  lemma {:induction false} FiveUniformSuccesses(exchanges: seq<Exchange>, elapsed: seq<real>)
    requires |exchanges| == 5 && |elapsed| == 5
    requires forall i :: 0 <= i < 5 ==> exchanges[i] == Some(Response(200, Some(WithUsage("completion_tokens", 50))))
    ensures var rs := Gather(exchanges, elapsed);
      && |Successful(rs)| == 5 && |Unsuccessful(rs)| == 0
      && SumTokens(rs) == 250
      && Rate(SumTokens(rs), 1.0) == 250.0
  {
    var rs := Gather(exchanges, elapsed);
    forall i | 0 <= i < 5
      ensures rs[i].Succeeded? && rs[i].tokens == 50
    {
      UsageCountRoundTrip("completion_tokens", 50);
    }
    UniformSum(rs, 50);
    PartitionSizes(rs);
    SuccessfulAll(rs);
  }

  lemma {:induction false} UniformSum(rs: seq<Outcome>, t: int)
    requires forall i :: 0 <= i < |rs| ==> rs[i].Succeeded? && rs[i].tokens == t
    ensures SumTokens(rs) == |rs| * t
  {
    if rs != [] {
      UniformSum(rs[1..], t);
    }
  }

  lemma {:induction false} SuccessfulAll(rs: seq<Outcome>)
    requires forall i :: 0 <= i < |rs| ==> rs[i].Succeeded?
    ensures Successful(rs) == rs
  {
    if rs != [] {
      SuccessfulAll(rs[1..]);
    }
  }
}
