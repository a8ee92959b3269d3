/** What becomes of the reports: the CSV rows of `save_results`
    (comprehensive_benchmark.py) and of the `__main__` block of
    vllm_benchmark.py, and the rows of `print_comparison`. */
module Reports {
  import opened Wrappers
  import opened Records
  import opened Harness

  // ---------------------------------------------------------------------------
  // CSV rows
  // ---------------------------------------------------------------------------

  const ComprehensiveFields: seq<string> := [
    "server", "test_type", "num_users", "speed_tok_s", "throughput_tok_s",
    "vram_initial_gb", "vram_peak_gb", "vram_increase_gb",
    "total_time", "successful_requests", "failed_requests"]

  const VllmFields: seq<string> := [
    "test_type", "num_users", "speed_tok_s", "throughput_tok_s",
    "vram_initial_gb", "vram_peak_gb", "vram_increase_gb",
    "total_time", "successful_requests", "failed_requests"]

  /** The CSV columns each script writes. */
  function FieldNames(script: Script): (names: seq<string>)
    ensures |names| == if script == Comprehensive then 11 else 10
    ensures "num_users" in names && "speed_tok_s" in names
    ensures "throughput_tok_s" in names && "vram_peak_gb" in names
    ensures "server" in names <==> script == Comprehensive
  {
    if script == Comprehensive then ComprehensiveFields else VllmFields
  }

  const Blank: Value := VStr("")

  /** `result['test_type'] == 'single_user'` */
  predicate IsSingleUser(result: Record)
    requires "test_type" in result
  {
    result["test_type"] == VStr(SingleUserType)
  }

  /** The columns the per-test rule overwrites after the copy. */
  function Overwritten(script: Script, result: Record): set<string>
    requires "test_type" in result
  {
    if IsSingleUser(result) then
      {"throughput_tok_s", "num_users"} + (if script == VllmOnly then {"vram_peak_gb"} else {})
    else {"speed_tok_s"}
  }

  /** `{k: result.get(k, '') for k in names}` */
  function CopyColumns(result: Record, names: seq<string>): Record {
    if names == [] then map[]
    else CopyColumns(result, names[..|names| - 1])[names[|names| - 1] := GetOr(result, names[|names| - 1], Blank)]
  }

  /** The copy has exactly the named columns, each with the report's value or a blank. */
  lemma {:induction false} CopyColumnsSpec(result: Record, names: seq<string>)
    ensures CopyColumns(result, names).Keys == set k | k in names
    ensures forall k :: k in names ==> CopyColumns(result, names)[k] == GetOr(result, k, Blank)
  {
    if names != [] {
      var front := names[..|names| - 1];
      CopyColumnsSpec(result, front);
      assert names == front + [names[|names| - 1]];
    }
  }

  /** The row written for one report: `{k: result.get(k, '') for k in
      fieldnames}`, then for a single-user report a blank throughput, one
      user (and, in vllm_benchmark.py, the inference VRAM as the peak), and
      for any other report a blank speed. */
  function ShapeRow(script: Script, result: Record): Record
    requires "test_type" in result
  {
    var copied := CopyColumns(result, FieldNames(script));
    if IsSingleUser(result) then
      var row := copied["throughput_tok_s" := Blank]["num_users" := VNum(1.0)];
      if script == VllmOnly then row["vram_peak_gb" := GetOr(result, "vram_inference_gb", Blank)] else row
    else
      copied["speed_tok_s" := Blank]
  }

  /** A column of the script that no rule overwrites holds the report's
      value, or a blank when the report has none. */
  lemma ShapeRowCopies(script: Script, result: Record, k: string)
    requires "test_type" in result
    requires k in FieldNames(script) && k !in Overwritten(script, result)
    ensures k in ShapeRow(script, result) && ShapeRow(script, result)[k] == GetOr(result, k, Blank)
  {
    CopyColumnsSpec(result, FieldNames(script));
  }

  /** A single-user row has a blank throughput and one user (and in
      vllm_benchmark.py the inference VRAM as its peak); any other row has a
      blank speed. */
  lemma ShapeRowOverwrites(script: Script, result: Record)
    requires "test_type" in result
    ensures var row := ShapeRow(script, result);
      && (IsSingleUser(result) ==>
            && "throughput_tok_s" in row && row["throughput_tok_s"] == Blank
            && "num_users" in row && row["num_users"] == VNum(1.0))
      && (IsSingleUser(result) && script == VllmOnly ==>
            "vram_peak_gb" in row && row["vram_peak_gb"] == GetOr(result, "vram_inference_gb", Blank))
      && (!IsSingleUser(result) ==> "speed_tok_s" in row && row["speed_tok_s"] == Blank)
  {
  }

  /** A row has exactly the script's columns, and every column no rule
      overwrites holds the report's value or a blank. */
  lemma ShapeRowColumns(script: Script, result: Record)
    requires "test_type" in result
    ensures var row := ShapeRow(script, result);
      && row.Keys == set k | k in FieldNames(script)
      && forall k :: k in row && k !in Overwritten(script, result) ==> row[k] == GetOr(result, k, Blank)
  {
    CopyColumnsSpec(result, FieldNames(script));
  }

  /** The rows written to the CSV file, after its header of `FieldNames`;
      `None` when there is no report and no file is written. */
  method SaveResults(script: Script, results: seq<Record>) returns (file: Option<seq<Record>>)
    requires forall i :: 0 <= i < |results| ==> "test_type" in results[i]
    ensures file.None? <==> results == []
    ensures file.Some? ==> |file.value| == |results|
    ensures file.Some? ==> forall i :: 0 <= i < |results| ==> file.value[i] == ShapeRow(script, results[i])
  {
    if results == [] {
      return None;
    }
    var rows: seq<Record> := [];
    for i := 0 to |results|
      invariant |rows| == i
      invariant forall j :: 0 <= j < i ==> rows[j] == ShapeRow(script, results[j])
    {
      var row := BuildRow(script, results[i]);
      rows := rows + [row];
    }
    file := Some(rows);
  }

  /** The body of the loop of `save_results`: copy the columns, then apply
      the rule for the report's test type. The source builds the row by
      updating a dictionary step by step, so this method keeps those steps;
      `ShapeRow` is the same row as a value, which the lemmas above and the
      CSV properties use. */
  method BuildRow(script: Script, result: Record) returns (row: Record)
    requires "test_type" in result
    ensures row == ShapeRow(script, result)
  {
    row := CopyColumns(result, FieldNames(script));
    if result["test_type"] == VStr(SingleUserType) {
      row := row["throughput_tok_s" := Blank];
      row := row["num_users" := VNum(1.0)];
      if script == VllmOnly {
        row := row["vram_peak_gb" := GetOr(result, "vram_inference_gb", Blank)];
      }
    } else {
      row := row["speed_tok_s" := Blank];
    }
  }

  /** The columns no rule overwrites are copied from the report. */
  lemma CopiedColumns(script: Script, result: Record)
    requires "test_type" in result && !IsSingleUser(result)
    ensures var row := ShapeRow(script, result);
      && "throughput_tok_s" in row && row["throughput_tok_s"] == GetOr(result, "throughput_tok_s", Blank)
      && "num_users" in row && row["num_users"] == GetOr(result, "num_users", Blank)
      && "vram_peak_gb" in row && row["vram_peak_gb"] == GetOr(result, "vram_peak_gb", Blank)
  {
    ShapeRowCopies(script, result, "throughput_tok_s");
    ShapeRowCopies(script, result, "num_users");
    ShapeRowCopies(script, result, "vram_peak_gb");
  }

  /** A batch report's row shows its throughput and a blank speed. */
  lemma BatchRow(script: Script, r: BatchReport)
    ensures var row := ShapeRow(script, BatchRecord(script, r));
      && "speed_tok_s" in row && row["speed_tok_s"] == Blank
      && "throughput_tok_s" in row && row["throughput_tok_s"] == VNum(r.throughput)
      && "num_users" in row && row["num_users"] == VNum(r.numUsers as real)
      && "vram_peak_gb" in row && row["vram_peak_gb"] == VNum(r.vramPeakGb)
  {
    var rec := BatchRecord(script, r);
    BatchTypeIsNotSingle(r.numUsers);
    assert !IsSingleUser(rec);
    ShapeRowOverwrites(script, rec);
    CopiedColumns(script, rec);
  }

  /** A single-user report's row shows its speed, a blank throughput and one
      user. */
  lemma SingleRow(script: Script, r: SingleUserReport)
    ensures var row := ShapeRow(script, SingleRecord(script, r));
      && "speed_tok_s" in row && row["speed_tok_s"] == VNum(r.speed)
      && "throughput_tok_s" in row && row["throughput_tok_s"] == Blank
      && "num_users" in row && row["num_users"] == VNum(1.0)
  {
    var rec := SingleRecord(script, r);
    var row := ShapeRow(script, rec);
    assert "speed_tok_s" in row && row["speed_tok_s"] == VNum(r.speed) by {
      ShapeRowCopies(script, rec, "speed_tok_s");
    }
    assert "throughput_tok_s" in row && row["throughput_tok_s"] == Blank
      && "num_users" in row && row["num_users"] == VNum(1.0) by {
      ShapeRowOverwrites(script, rec);
    }
  }

  /** A single-user row's peak-VRAM column is blank in
      comprehensive_benchmark.py (the report has no `vram_peak_gb`) and the
      inference reading in vllm_benchmark.py. */
  lemma SingleRowPeak(script: Script, r: SingleUserReport)
    ensures var row := ShapeRow(script, SingleRecord(script, r));
      && "vram_peak_gb" in row
      && row["vram_peak_gb"] == (if script == Comprehensive then Blank else VNum(r.vramInferenceGb))
  {
    var rec := SingleRecord(script, r);
    if script == Comprehensive {
      ShapeRowCopies(script, rec, "vram_peak_gb");
    } else {
      ShapeRowOverwrites(script, rec);
    }
  }

  // ---------------------------------------------------------------------------
  // The comparison table: print_comparison
  // ---------------------------------------------------------------------------

  const ComparedTypes: seq<string> := [
    "single_user", "concurrent_5_users", "concurrent_10_users",
    "concurrent_20_users", "concurrent_50_users"]

  predicate Typed(rs: seq<Record>) {
    forall i :: 0 <= i < |rs| ==> "test_type" in rs[i]
  }

  predicate HasType(r: Record, testType: string)
    requires "test_type" in r
  {
    r["test_type"] == VStr(testType)
  }

  /** `next((r for r in results if r['test_type'] == test_type), None)`, as
      the index of the first report of that type. */
  function FirstOfType(rs: seq<Record>, testType: string): (k: Option<nat>)
    requires Typed(rs)
    ensures k.Some? ==> k.value < |rs| && HasType(rs[k.value], testType)
    ensures k.Some? ==> forall j :: 0 <= j < k.value ==> !HasType(rs[j], testType)
    ensures k.None? ==> forall j :: 0 <= j < |rs| ==> !HasType(rs[j], testType)
  {
    if rs == [] then None
    else if HasType(rs[0], testType) then Some(0)
    else
      match FirstOfType(rs[1..], testType)
      case None => None
      case Some(k) => Some(k + 1)
  }

  /** The reports compared hold numbers (or nothing) under the columns read. */
  predicate Comparable(r: Record) {
    && NumericAt(r, "speed_tok_s") && NumericAt(r, "throughput_tok_s")
    && NumericAt(r, "vram_peak_gb") && NumericAt(r, "vram_inference_gb")
  }

  /** The speed compared: the single-user speed or the batch throughput. */
  function SpeedOf(r: Record, testType: string): real
    requires Comparable(r)
  {
    if testType == SingleUserType then GetNum(r, "speed_tok_s", 0.0)
    else GetNum(r, "throughput_tok_s", 0.0)
  }

  /** `r.get('vram_peak_gb', r.get('vram_inference_gb', 0))` */
  function VramOf(r: Record): real
    requires Comparable(r)
  {
    if "vram_peak_gb" in r then GetNum(r, "vram_peak_gb", 0.0) else GetNum(r, "vram_inference_gb", 0.0)
  }

  /** vLLM wins only when strictly faster; a tie goes to SGLang. */
  function Winner(sglangSpeed: real, vllmSpeed: real): (w: string)
    ensures w == "vLLM" <==> vllmSpeed > sglangSpeed
    ensures w != "vLLM" ==> w == "SGLang"
  {
    if vllmSpeed > sglangSpeed then "vLLM" else "SGLang"
  }

  datatype ComparisonRow = ComparisonRow(
    testType: string, sglangSpeed: real, vllmSpeed: real,
    sglangVram: real, vllmVram: real, winner: string)

  predicate AllComparable(rs: seq<Record>) {
    Typed(rs) && forall i :: 0 <= i < |rs| ==> Comparable(rs[i])
  }

  /** A test type both runs have a report for. */
  predicate InBoth(sglang: seq<Record>, vllm: seq<Record>, testType: string)
    requires Typed(sglang) && Typed(vllm)
  {
    FirstOfType(sglang, testType).Some? && FirstOfType(vllm, testType).Some?
  }

  /** The row for one test type, from the first report of that type in each run. */
  function RowFor(sglang: seq<Record>, vllm: seq<Record>, testType: string): ComparisonRow
    requires AllComparable(sglang) && AllComparable(vllm) && InBoth(sglang, vllm, testType)
  {
    var sg := sglang[FirstOfType(sglang, testType).value];
    var vl := vllm[FirstOfType(vllm, testType).value];
    var sgSpeed := SpeedOf(sg, testType);
    var vlSpeed := SpeedOf(vl, testType);
    ComparisonRow(testType, sgSpeed, vlSpeed, VramOf(sg), VramOf(vl), Winner(sgSpeed, vlSpeed))
  }

  /** The rows printed for the given test types, in their order: one for each
      type both runs have a report for, and no other. */
  function ComparisonRows(sglang: seq<Record>, vllm: seq<Record>, types: seq<string>): (rows: seq<ComparisonRow>)
    requires AllComparable(sglang) && AllComparable(vllm)
    ensures |rows| <= |types|
    ensures forall k :: 0 <= k < |rows| ==>
      && rows[k].testType in types
      && InBoth(sglang, vllm, rows[k].testType)
      && rows[k] == RowFor(sglang, vllm, rows[k].testType)
    decreases |types|
  {
    if types == [] then []
    else
      var last := types[|types| - 1];
      var before := ComparisonRows(sglang, vllm, types[..|types| - 1]);
      if InBoth(sglang, vllm, last) then before + [RowFor(sglang, vllm, last)] else before
  }

  /** Every two rows appear in the order of their test types in `types`. */
  predicate FollowsTypes(rows: seq<ComparisonRow>, types: seq<string>) {
    forall j, k :: 0 <= j < k < |rows| ==>
      exists a, b :: 0 <= a < b < |types| && types[a] == rows[j].testType && types[b] == rows[k].testType
  }

  /** The rows come in the order of the test types; with distinct types, as
      the five compared ones are, each type has at most one row. */
  lemma {:induction false} ComparisonRowsOrdered(sglang: seq<Record>, vllm: seq<Record>, types: seq<string>)
    requires AllComparable(sglang) && AllComparable(vllm)
    ensures FollowsTypes(ComparisonRows(sglang, vllm, types), types)
    decreases |types|
  {
    if types != [] {
      var rows := ComparisonRows(sglang, vllm, types);
      var front := types[..|types| - 1];
      var last := types[|types| - 1];
      var before := ComparisonRows(sglang, vllm, front);
      ComparisonRowsOrdered(sglang, vllm, front);
      forall j, k | 0 <= j < k < |rows|
        ensures exists a, b :: 0 <= a < b < |types| && types[a] == rows[j].testType && types[b] == rows[k].testType
      {
        if k < |before| {
          var a, b :| 0 <= a < b < |front| && front[a] == before[j].testType && front[b] == before[k].testType;
          assert types[a] == rows[j].testType && types[b] == rows[k].testType;
        } else {
          assert rows[k].testType == last;
          var a :| 0 <= a < |front| && front[a] == before[j].testType;
          assert types[a] == rows[j].testType && types[|types| - 1] == rows[k].testType;
        }
      }
    }
  }

  /** No test type appears twice among the five compared. */
  lemma ComparedTypesDistinct()
    ensures forall a, b :: 0 <= a < b < |ComparedTypes| ==> ComparedTypes[a] != ComparedTypes[b]
  {
  }

  predicate HasRowAt(rows: seq<ComparisonRow>, k: int, testType: string) {
    0 <= k < |rows| && rows[k].testType == testType
  }

  /** Every test type both runs have a report for gets its row. */
  lemma {:induction false} ComparisonRowsComplete(sglang: seq<Record>, vllm: seq<Record>, types: seq<string>, testType: string)
    requires AllComparable(sglang) && AllComparable(vllm)
    requires testType in types && InBoth(sglang, vllm, testType)
    ensures exists k :: HasRowAt(ComparisonRows(sglang, vllm, types), k, testType)
    decreases |types|
  {
    var rows := ComparisonRows(sglang, vllm, types);
    var front := types[..|types| - 1];
    var before := ComparisonRows(sglang, vllm, front);
    if testType == types[|types| - 1] {
      assert rows == before + [RowFor(sglang, vllm, testType)];
      assert HasRowAt(rows, |before|, testType);
    } else {
      assert testType in front by {
        var t :| 0 <= t < |types| && types[t] == testType;
        assert front[t] == testType;
      }
      ComparisonRowsComplete(sglang, vllm, front, testType);
      var k :| HasRowAt(before, k, testType);
      assert HasRowAt(rows, k, testType);
    }
  }

  /** `print_comparison`: walks the five test types and keeps a row for
      each one present in both runs. */
  method PrintComparison(sglang: seq<Record>, vllm: seq<Record>) returns (rows: seq<ComparisonRow>)
    requires AllComparable(sglang) && AllComparable(vllm)
    ensures rows == ComparisonRows(sglang, vllm, ComparedTypes)
    ensures FollowsTypes(rows, ComparedTypes)
    ensures forall k :: 0 <= k < |rows| ==>
      (rows[k].winner == "vLLM" <==> rows[k].vllmSpeed > rows[k].sglangSpeed)
  {
    rows := [];
    for i := 0 to |ComparedTypes|
      invariant rows == ComparisonRows(sglang, vllm, ComparedTypes[..i])
    {
      assert ComparedTypes[..i + 1][..i] == ComparedTypes[..i];
      var row := CompareType(sglang, vllm, ComparedTypes[i]);
      if row.Some? {
        rows := rows + [row.value];
      }
    }
    assert ComparedTypes[..|ComparedTypes|] == ComparedTypes;
    ComparisonRowsOrdered(sglang, vllm, ComparedTypes);
  }

  /** The body of the loop of `print_comparison` for one test type: the
      first report of that type in each run, the speeds and VRAM readings
      compared, and the winner; nothing when either run lacks the type.
      The source searches each run with a loop and assigns as it goes, so
      this method keeps that form; `RowFor` is the same row as a value, used
      by `ComparisonRows` and its completeness lemma. */
  method CompareType(sglang: seq<Record>, vllm: seq<Record>, testType: string) returns (row: Option<ComparisonRow>)
    requires AllComparable(sglang) && AllComparable(vllm)
    ensures row.None? <==> !InBoth(sglang, vllm, testType)
    ensures row.Some? ==> row.value == RowFor(sglang, vllm, testType)
  {
    var sg := FirstOfType(sglang, testType);
    var vl := FirstOfType(vllm, testType);
    if sg.None? || vl.None? {
      return None;
    }
    var sgSpeed, vlSpeed;
    if testType == SingleUserType {
      sgSpeed := GetNum(sglang[sg.value], "speed_tok_s", 0.0);
      vlSpeed := GetNum(vllm[vl.value], "speed_tok_s", 0.0);
    } else {
      sgSpeed := GetNum(sglang[sg.value], "throughput_tok_s", 0.0);
      vlSpeed := GetNum(vllm[vl.value], "throughput_tok_s", 0.0);
    }
    var sgVram := VramOf(sglang[sg.value]);
    var vlVram := VramOf(vllm[vl.value]);
    var winner := if vlSpeed > sgSpeed then "vLLM" else "SGLang";
    row := Some(ComparisonRow(testType, sgSpeed, vlSpeed, sgVram, vlVram, winner));
  }
}
