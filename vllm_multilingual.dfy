/** vllm_multilingual_test.py: one long completion from vLLM with an explicit
    three-language prompt, and the final summary naming the languages that
    did not show up. */
module VllmMultilingual {
  import opened Wrappers
  import opened Text
  import opened Json
  import opened Metrics
  import opened Languages

  /** The dictionary `test_vllm_multilingual` returns. */
  datatype MultilingualResult = MultilingualResult(
    speed: real,
    time: real,
    tokens: int,
    flags: LanguageFlags)

  /** `test_vllm_multilingual` after the request. `saved` tells whether the
      full output could be written to its text file: the write happens
      inside the same `try`, so a failed write also gives `None`, as do a
      request that raised, an HTTP error status, a body that is not JSON,
      a body without generated text and a malformed usage count. */
  function TestVllmMultilingual(ex: Exchange, totalTime: real, saved: bool): (r: Option<MultilingualResult>)
    ensures r.Some? <==>
      && ex.Some? && !IsHttpError(ex.value.status) && ex.value.body.Some?
      && GeneratedText(ex.value.body.value).Some?
      && UsageCount(ex.value.body.value, "prompt_tokens").Some?
      && UsageCount(ex.value.body.value, "completion_tokens").Some?
      && UsageCount(ex.value.body.value, "total_tokens").Some?
      && saved
    ensures r.Some? ==>
      var body := ex.value.body.value;
      && Some(r.value.tokens) == UsageCount(body, "completion_tokens")
      && r.value.time == totalTime
      && (totalTime > 0.0 ==> r.value.speed * totalTime == r.value.tokens as real)
      && (totalTime <= 0.0 ==> r.value.speed == 0.0)
      && r.value.flags == Detect(GeneratedText(body).value)
  {
    if ex.None? || IsHttpError(ex.value.status) || ex.value.body.None? then None
    else
      var body := ex.value.body.value;
      match (GeneratedText(body), UsageCount(body, "prompt_tokens"),
             UsageCount(body, "completion_tokens"), UsageCount(body, "total_tokens"))
      case (Some(text), Some(_), Some(completion), Some(_)) =>
        if saved then Some(MultilingualResult(Rate(completion, totalTime), totalTime, completion, Detect(text)))
        else None
      case _ => None
  }

  /** A text in all three scripts is reported with all three flags set. */
  lemma ThreeScriptsDetected(text: string, i: nat, j: nat, k: nat)
    requires i < |text| && j < |text| && k < |text|
    requires IsChinese(text[i]) && IsKorean(text[j]) && IsAsciiLetter(text[k])
    ensures AllPresent(Detect(text))
  {
    LowerIsLetter(text[k]);
  }

  /** The sample printed after the metrics: the first 1000 characters, and
      for a longer text an ellipsis and the full length. */
  function OutputSample(text: string): (lines: seq<string>)
    ensures |lines| >= 1 && lines[0] == text[..Min(|text|, 1000)]
    ensures |lines| > 1 <==> |text| > 1000
    ensures |lines| > 1 ==>
      lines == [text[..1000], "...", LengthNote("Total generated: ", |text|)]
  {
    SampleLines(text, 1000, "Total generated: ")
  }

  const AllThreeLine := "\U{2705} All three languages generated!"
  const MissingPrefix := "\U{26A0}\U{FE0F} Missing: "

  /** The "Multilingual Success:" line of the final summary: the success
      line when all three flags are set, otherwise the missing languages,
      gathered by conditional appends and joined with ", ". */
  method MultilingualSuccess(f: LanguageFlags) returns (line: string)
    ensures line == AllThreeLine <==> AllPresent(f)
    ensures !AllPresent(f) ==> line == MissingPrefix + Join(Missing(f), ", ")
  {
    if f.chinese && f.korean && f.english {
      line := AllThreeLine;
    } else {
      var missing: seq<string> := [];
      if !f.chinese {
        missing := missing + ["Chinese"];
      }
      if !f.korean {
        missing := missing + ["Korean"];
      }
      if !f.english {
        missing := missing + ["English"];
      }
      assert missing == Missing(f);
      line := MissingPrefix + Join(missing, ", ");
      assert line[0] != AllThreeLine[0];
    }
  }

  /** The missing-language message splits back into the list it was joined from. */
  lemma {:induction false} MissingListReadsBack(f: LanguageFlags)
    requires !AllPresent(f)
    ensures Split(Join(Missing(f), ", "), ", ") == Missing(f)
  {
    var names := Missing(f);
    assert forall k :: 0 <= k < |names| ==> ',' !in names[k] by {
      forall k | 0 <= k < |names|
        ensures ',' !in names[k]
      {
        assert names[k] in LanguageNames;
      }
    }
    SplitJoin(names, ", ");
  }
}
