# Qwen3-8B serving benchmarks: a verified model of their decision logic

The repository compares two inference servers, vLLM and SGLang, serving
Qwen3-8B. Four scripts do the work:

- `comprehensive_benchmark.py` and `vllm_benchmark.py` run a single-user
  request and then batches of 5, 10, 20 and 50 concurrent users. They sample
  GPU memory with `nvidia-smi`, aggregate the outcomes into reports, write the
  reports as CSV rows and (in the first script) print a comparison table with
  a winner per test.
- `multilingual_poem_test.py` and `vllm_multilingual_test.py` ask for one long
  poem in Chinese, Korean and English. They measure speed, detect which of the
  three scripts appear in the answer, print a sample of it and report the
  languages that are missing (the first one also writes a CSV file).

Everything around that logic is I/O: HTTP, subprocesses, clocks, sleeps,
prints and file writes. The model keeps the decisions and makes what the
outside world supplied into parameters:

- an HTTP exchange is an `Option<Response>` whose body is decoded JSON or `None`;
- `nvidia-smi` is its exit status and standard output;
- durations are `real` numbers.

Both benchmark scripts are covered by one model. `Harness.Script`
distinguishes them where they differ:

- only `comprehensive_benchmark.py` names the server in its reports;
- it clamps the peak VRAM reading with `max`, while `vllm_benchmark.py` subtracts the raw readings;
- `vllm_benchmark.py` writes its own CSV row variant.

Modules, one per file:

- `Wrappers`: `Option`, `dict.get`, and the filter that keeps the reports that were returned.
- `Text`: Python's `str.strip`, `str.split`, `str.join`, `str(n)` and `int(s)`.
- `Json`: response bodies, `usage` counts and the generated text.
- `Records`: report dictionaries.
- `Metrics`: guarded rate, mean and max.
- `GpuProbe`: parsing the `nvidia-smi` line.
- `Harness`: tasks, the per-request outcome, aggregation into reports, and the run's list of reports.
- `Reports`: CSV rows and the comparison table.
- `Languages`: script detection, the printed sample and the missing-language list.
- `PoemTest`: multilingual_poem_test.py.
- `VllmMultilingual`: vllm_multilingual_test.py.

`concurrent_request` never looks at the HTTP status code. A 500 answer whose
body is JSON therefore counts as a success, with 0 tokens when it has no
`usage`. `Harness.StatusIsIgnored` states this.

## Model

| member | source | states |
|---|---|---|
| `Wrappers.SomesAppend` | comprehensive_benchmark.py:225-237 | Keeping the returned reports commutes with concatenation, so reports are kept in test order |
| `Wrappers.SomesMembership` | comprehensive_benchmark.py:225-237 | A report is kept exactly when some test returned it |
| `Wrappers.SomesAllPresent` | comprehensive_benchmark.py:225-237 | When every test returns a report, all are kept, in order |
| `Wrappers.GetOr` | comprehensive_benchmark.py:257 | `d.get(key, default)`: the stored value when the key is present, the default otherwise (also the `usage` lookups at comprehensive_benchmark.py:115) |
| `Text.TrimLeft` | comprehensive_benchmark.py:26 | `lstrip` removes exactly the longest all-whitespace prefix |
| `Text.TrimRight` | comprehensive_benchmark.py:26 | `rstrip` removes exactly the longest all-whitespace suffix |
| `Text.StripPadded` | comprehensive_benchmark.py:26 | A string with non-space ends, padded with whitespace (the trailing newline), strips back to itself |
| `Text.JoinSplit` | comprehensive_benchmark.py:26 | Joining the pieces of `split(sep)` with `sep` gives back the string |
| `Text.SplitJoin` | comprehensive_benchmark.py:26 | Splitting a join gives back the parts when no part contains the separator's first character |
| `Text.IntToDecimal` | multilingual_poem_test.py:208-210 | `str(n)` is non-empty and all digits after its first character, which is a digit iff `n >= 0` and `-` when `n < 0` |
| `Text.DigitsRoundTrip` | comprehensive_benchmark.py:28-31 | The value of the decimal digits of `n` is `n` |
| `Text.ParseIntRoundTrip` | comprehensive_benchmark.py:28-31 | `int(str(n)) == n` for every integer |
| `Text.ParseIntRejectsInnerJunk` | comprehensive_benchmark.py:28-31 | `int` raises on a stripped string with a non-digit strictly inside it |
| `Text.DecimalHasNoComma` | multilingual_poem_test.py:208-211 | `str(n)` contains neither a comma nor whitespace, so it cannot break a comma-separated line |
| `Json.UsageCount` | comprehensive_benchmark.py:115 | A count is read iff the body is an object and either it has no `usage`, or its `usage` is an object that lacks the key or holds an integer under it. A null or list `usage`, or a non-integer count, gives none, where Python raises or carries on. A missing `usage` or key gives 0, an integer under the key gives that integer, and a non-zero count is always the stored integer |
| `Json.UsageCountRoundTrip` | comprehensive_benchmark.py:115 | A count placed under `usage` is the count read back |
| `Json.GeneratedText` | multilingual_poem_test.py:70 | A text is found iff `choices` is a non-empty list whose first entry holds a string under `text`, and the text found is that string |
| `Json.GeneratedTextRoundTrip` | multilingual_poem_test.py:70 | A text placed in the first choice is the text read back |
| `Records.GetNum` | comprehensive_benchmark.py:287-294 | `r.get(key, default)` on a numeric column |
| `Metrics.Rate` | comprehensive_benchmark.py:186 | Rate times seconds is the count when seconds > 0; the rate is 0 otherwise and never negative for a non-negative count |
| `Metrics.Mean` | comprehensive_benchmark.py:185 | Mean times the count is the total |
| `Metrics.Max` | comprehensive_benchmark.py:174 | `max` is one of its arguments and at least both |
| `GpuProbe.ParseGpuStats` | comprehensive_benchmark.py:17-38 | A non-zero exit status gives no sample. With exit status 0, a sample is taken iff the stripped output has at least four `', '`-separated fields and `int` accepts each of the first four, and its values are those four numbers in order |
| `GpuProbe.ParsePrintedLine` | comprehensive_benchmark.py:25-31 | One GPU's printed line, newline included, parses to exactly the sample printed |
| `GpuProbe.LineSplits` | vllm_benchmark.py:25 | A printed line splits back into its four numbers |
| `GpuProbe.TwoGpusGiveNoSample` | vllm_benchmark.py:24-37 | With two GPUs the newline lands inside the fourth field, `int` raises, and no sample is taken |
| `Harness.RepeatPrompts` | comprehensive_benchmark.py:128-139 | `base * k` has `10k` entries, and entry `i` is base prompt `i mod 10` |
| `Harness.PoolCoversUsers` | comprehensive_benchmark.py:139 | The pool of `num_users // 10 + 1` copies has more prompts than there are users |
| `Harness.TaskPrompt` | comprehensive_benchmark.py:155 | `prompts[i % len(prompts)]` is base prompt `i mod 10` |
| `Harness.BuildTasks` | comprehensive_benchmark.py:151-160 | One task per user (none for `num_users <= 0`); task `i` carries base prompt `i mod 10` and the batch settings |
| `Harness.ConcurrentRequest` | comprehensive_benchmark.py:103-122 | The record carries its request id. It succeeds iff a response arrived with a JSON object body and a readable completion count, and then holds that count and the elapsed time |
| `Harness.StatusIsIgnored` | comprehensive_benchmark.py:107-116 | The outcome does not depend on the HTTP status code |
| `Harness.Gather` | comprehensive_benchmark.py:160-170 | Record `i` is the outcome of task `i`, with request id `i`, whatever order responses arrived in |
| `Harness.Successful` | comprehensive_benchmark.py:180 | Only successful records, and no more than there were |
| `Harness.Unsuccessful` | comprehensive_benchmark.py:181 | Only failed records, and no more than there were |
| `Harness.PartitionSizes` | comprehensive_benchmark.py:180-181 | Successful and failed counts add up to the number of records |
| `Harness.PartitionMultiset` | comprehensive_benchmark.py:180-181 | Together the two lists hold every record exactly as often as the batch |
| `Harness.PartitionMembership` | comprehensive_benchmark.py:180-181 | A record is in the successful list iff it is a successful record of the batch, and in the failed list iff it is a failed one |
| `Harness.PartitionKeepsOrder` | comprehensive_benchmark.py:180-181 | Both lists keep the records in request order |
| `Harness.FailuresAddNothing` | comprehensive_benchmark.py:184-185 | Token and time sums over the successful records equal those over the whole batch |
| `Harness.MeanResponseTimeBounds` | comprehensive_benchmark.py:185 | If every successful request took between `lo` and `hi`, so does the average response time |
| `Harness.Analyze` | comprehensive_benchmark.py:179-215 | No report iff nothing succeeded. Otherwise: success and failure counts summing to the batch size; tokens summed over successes; guarded throughput; mean response time over successes; the given VRAM readings and their difference |
| `Harness.TestMultipleUsers` | comprehensive_benchmark.py:124-215 | Task `i` is `TaskFor(i, max_tokens)`: base prompt `i mod 10`, the model name, `max_tokens`, temperature 0.7 and no streaming. A report's counts add up to `num_users`. The peak is `max(initial, post-batch)` in comprehensive_benchmark.py, so its increase is never negative, and the post-batch reading in vllm_benchmark.py:167-204 |
| `Harness.UnclampedIncreaseCanBeNegative` | vllm_benchmark.py:202-204 | Without the clamp, a reading that drops after the batch gives a negative increase |
| `Harness.BatchTypeIsNotSingle` | comprehensive_benchmark.py:201 | `concurrent_N_users` is never `single_user` |
| `Harness.BatchColumns` | comprehensive_benchmark.py:200-210 | The eleven columns both scripts return for a batch, each holding its report field, with no `server`, speed or inference-VRAM key |
| `Harness.BatchRecord` | comprehensive_benchmark.py:199-212 | The keys are exactly the eleven batch columns, plus `server` in comprehensive_benchmark.py only. Each key holds its report field: test type `concurrent_N_users`, users, successes, failures, time, tokens, throughput, mean response time, and initial, peak and increased VRAM |
| `Harness.TestSingleUser` | comprehensive_benchmark.py:40-101 | A report iff a response arrived with a non-error status and a JSON object body with a readable completion count. It carries the server name, the time, those tokens, the guarded speed, the initial and inference VRAM readings, their unclamped difference, and the utilization (0 without a sample) |
| `Harness.SingleRecord` | comprehensive_benchmark.py:87-97 | The keys are exactly the eight single-user columns, plus `server` in comprehensive_benchmark.py only. Each key holds its report field: test type `single_user`, time, tokens, speed, initial, inference and increased VRAM, and utilization. There is no throughput, user count or peak |
| `Harness.CollectResults` | vllm_benchmark.py:221-234 | The run's reports are those returned, single user first and then the batches in level order, and the single-user report leads when there is one |
| `Harness.FiveUniformSuccesses` | comprehensive_benchmark.py:180-186 | Five successes of 50 tokens in one second give five successes, no failures, 250 tokens and 250 tokens per second |
| `Reports.FieldNames` | comprehensive_benchmark.py:250-252 | 11 columns, with `server`, in comprehensive_benchmark.py; 10, without it, in vllm_benchmark.py:240-242; both hold the speed, throughput, user and peak columns |
| `Reports.CopyColumnsSpec` | comprehensive_benchmark.py:257 | `{k: result.get(k, '') for k in fieldnames}` has exactly the field names as keys, each with the report's value or a blank |
| `Reports.ShapeRowCopies` | comprehensive_benchmark.py:257-263 | A column no rule overwrites holds the report's value or a blank |
| `Reports.ShapeRowOverwrites` | comprehensive_benchmark.py:258-263 | A single-user row has a blank throughput and one user, and (vllm_benchmark.py:252) the inference VRAM as peak; any other row has a blank speed |
| `Reports.ShapeRowColumns` | comprehensive_benchmark.py:256-264 | Every row has exactly the script's columns, and every column not overwritten is copied |
| `Reports.SaveResults` | comprehensive_benchmark.py:242-264 | No file for an empty list; otherwise one row per report, in order, each shaped by the rules above |
| `Reports.BuildRow` | vllm_benchmark.py:246-255 | The loop body (copy, then overwrite by test type) computes the shaped row |
| `Reports.CopiedColumns` | comprehensive_benchmark.py:262-263 | A batch row copies the report's throughput, user count and peak |
| `Reports.BatchRow` | comprehensive_benchmark.py:199-212 | The row of a batch report shows its throughput, user count and peak, and a blank speed |
| `Reports.SingleRow` | comprehensive_benchmark.py:259-261 | The row of a single-user report shows its speed, a blank throughput and one user |
| `Reports.SingleRowPeak` | vllm_benchmark.py:249-252 | A single-user row's peak is blank in comprehensive_benchmark.py and the inference VRAM in vllm_benchmark.py |
| `Reports.FirstOfType` | comprehensive_benchmark.py:282-283 | `next(...)` finds the first report of the type, or none when no report has it |
| `Reports.Winner` | comprehensive_benchmark.py:296 | vLLM wins iff strictly faster; ties go to SGLang |
| `Reports.ComparisonRows` | comprehensive_benchmark.py:278-296 | Each row is for one of the given types that both runs have, built from the first report of that type in each run |
| `Reports.ComparisonRowsComplete` | comprehensive_benchmark.py:281-285 | Every given type that both runs have gets a row |
| `Reports.ComparisonRowsOrdered` | comprehensive_benchmark.py:278-281 | The rows come in the order of the given test types, so with distinct types no type has two rows |
| `Reports.ComparedTypesDistinct` | comprehensive_benchmark.py:278-281 | The five compared test types are pairwise distinct |
| `Reports.PrintComparison` | comprehensive_benchmark.py:268-299 | The loop over the five test types prints exactly the rows above, in the order of the types; each winner is vLLM iff its speed is strictly greater |
| `Reports.CompareType` | comprehensive_benchmark.py:282-296 | For one test type: no row iff either run lacks it; otherwise the row built from the first report of that type in each run, with single-user speed or batch throughput, peak (else inference) VRAM and the winner |
| `Languages.AsciiLower` | multilingual_poem_test.py:100 | `A`..`Z` map to `a`..`z` at the same offset; every other character is kept |
| `Languages.Any` | multilingual_poem_test.py:98-100 | `any(p(ch) for ch in text)` holds iff some character satisfies `p` |
| `Languages.Detect` | multilingual_poem_test.py:98-100 | Each flag is set iff some character lies in U+4E00..U+9FFF, in U+AC00..U+D7AF, or lowercases into `a`..`z`; empty text sets none |
| `Languages.EnglishIsAsciiLetter` | multilingual_poem_test.py:100 | English is detected iff the text holds an ASCII letter of either case |
| `Languages.RangesAreDisjoint` | multilingual_poem_test.py:98-100 | No character counts for two languages |
| `Languages.SampleLines` | multilingual_poem_test.py:89-95 | The sample is the first `min(len, limit)` characters; the ellipsis and the length note follow iff the text is longer than the limit (500 here, 1000 in vllm_multilingual_test.py:91-94) |
| `PoemTest.PoemSample` | multilingual_poem_test.py:89-95 | The poem sample is its first 500 characters; an ellipsis and a "Total generated text length" note follow iff the poem is longer |
| `VllmMultilingual.OutputSample` | vllm_multilingual_test.py:91-97 | The sample is the first 1000 characters; an ellipsis and a "Total generated" note follow iff the text is longer |
| `Languages.LengthNoteReadsBack` | multilingual_poem_test.py:94 | The number in the length note reads back as the text's length |
| `Languages.Missing` | vllm_multilingual_test.py:148-151 | Exactly the languages whose flag is false, in the order Chinese, Korean, English; empty iff all three are present |
| `PoemTest.TestPoemGeneration` | multilingual_poem_test.py:13-129 | A result iff the response arrived with a non-error status, a JSON body, a generated text and readable counts. It carries the three counts, the guarded speed, the text's length and its language flags |
| `PoemTest.ReportOfAnswer` | multilingual_poem_test.py:69-119 | A well-formed answer yields a result with the text's length, the total count and completion tokens per second |
| `PoemTest.SelectServers` | multilingual_poem_test.py:138-156 | A server is tested iff its health check answered 200; vLLM comes before SGLang |
| `PoemTest.CollectPoemResults` | multilingual_poem_test.py:163-167 | The results are the returned ones, in server order, each naming a tested server |
| `PoemTest.MultilingualVerdict` | multilingual_poem_test.py:180-184 | "All languages present" iff all three flags are set; otherwise "Some languages missing", exactly when some language is missing |
| `PoemTest.ComparisonVerdicts` | multilingual_poem_test.py:169-184 | No verdict is printed unless more than one server returned a report; otherwise one verdict per report, in order |
| `PoemTest.PyBool` | multilingual_poem_test.py:211 | `str(b)` is `True` iff `b` |
| `PoemTest.CsvLineSplits` | multilingual_poem_test.py:207-211 | A data line splits at its commas back into its fields when the server name and the rendered reals hold no comma |
| `PoemTest.HeaderColumns` | multilingual_poem_test.py:203-204 | The header has 11 columns |
| `PoemTest.CsvLineFields` | multilingual_poem_test.py:203-211 | A data line has as many fields as the header (11): the server first, and flags that read `True` iff set |
| `PoemTest.CsvNumberReadsBack` | multilingual_poem_test.py:208-210 | Port, the three token counts and the text length read back through `int` as the result's values |
| `PoemTest.CsvLines` | multilingual_poem_test.py:196-211 | No file without results; otherwise the header and then one line per result, in order |
| `VllmMultilingual.TestVllmMultilingual` | vllm_multilingual_test.py:63-131 | A result iff the response, body, text and counts are all present and the output file was written. It holds the completion tokens, the time, the guarded speed and the text's flags |
| `VllmMultilingual.ThreeScriptsDetected` | vllm_multilingual_test.py:98-100 | A text with a Chinese, a Korean and an ASCII letter character is reported with all three flags |
| `VllmMultilingual.MultilingualSuccess` | vllm_multilingual_test.py:144-152 | The summary is the all-three line iff every flag is set; otherwise `Missing: ` followed by the missing languages, built by conditional appends and joined with `, ` |
| `VllmMultilingual.MissingListReadsBack` | vllm_multilingual_test.py:152 | The joined message splits back at `, ` into the missing list |

## Left out

- HTTP (`requests`, `aiohttp`), the health-check requests and `asyncio` scheduling. Each exchange is an input. Completion order does not matter, because `gather` returns results in task order.
- `subprocess`: `nvidia-smi` is its exit status and standard output. The `docker` commands in the `__main__` blocks and exceptions raised by `subprocess.run` are not part of this model.
- Clocks, `time.sleep`, `datetime` timestamps, file names and file writes. Durations are inputs. The CSV writer's quoting and escaping are not modelled.
- Printed output: banners, tables, title-cased labels and emoji status lines. The exceptions are the lines modelled above: the sample, the verdicts (printed only when more than one server returned a report) and the missing-language summary.
- Floating point. Reals are exact. `Harness.UsedGb` converts megabytes to gigabytes without `round(x / 1024, 2)`, and `:.2f` rendering is the `fmt` parameter of the CSV line.
- The speed ratio at multilingual_poem_test.py:186-194, which divides by SGLang's speed, and the vLLM/SGLang lookup that precedes it. The division by zero it can raise is not modelled.
- vllm_benchmark.py:259-276: the summary table printed after the CSV.
- `Json.UsageCount`: `Json.Json` has no constructor for a JSON number with a fraction, so a body such as `"completion_tokens": 50.0` cannot be expressed; Python would use that value as a number. A count that is a string, a boolean, `null`, a list or an object is read as no count; what Python does with it depends on the caller, as the next lines say.
- `Harness.ConcurrentRequest`: such a count gives a failed record, and the batch goes on. In Python the record is a success holding that value. Then `sum(r.get('tokens', 0) ...)` (comprehensive_benchmark.py:184, vllm_benchmark.py:178) raises `TypeError` for `null`, a string, a list or an object. No `try` surrounds it, so the whole run stops. A boolean count is summed as 0 or 1.
- `Harness.TestSingleUser`: a non-integer completion count gives `None`. Python agrees when `total_time > 0` and the count is not a boolean, because `completion_tokens / total_time` (comprehensive_benchmark.py:78) raises inside the function's own `try`. Python differs for a boolean count, which it divides as 0 or 1, and when `total_time <= 0`, where it skips the division and returns the value.
- `PoemTest.TestPoemGeneration` / `VllmMultilingual.TestVllmMultilingual`: the same holds for the completion count (multilingual_poem_test.py:78, vllm_multilingual_test.py:79). A non-integer `prompt_tokens` or `total_tokens` also gives `None`, where Python only prints it (and, in the poem test, writes it to the CSV) and returns a result.
- `Json.GeneratedText`: a `text` that is not a JSON string counts as missing. Python goes on with whatever value it is, and may fail later.
- `Languages.AsciiLower`: `str.lower` is modelled on ASCII only. Python's Unicode case mapping also sends a few other characters into `a`..`z` (U+212A KELVIN SIGN lowercases to `k`), so `Languages.Detect` can miss English where the script finds it.
- `Text.IsSpace` / `Text.ParseSigned`: `int()` accepts an optional sign and ASCII digits, with Python's whitespace stripped. Underscores between digits and non-ASCII digits are not accepted.
- `Harness.Outcome`: a record always says whether it succeeded, so the `.get('success', False)` default is never needed.
- `Harness.RepeatPrompts` is Python's list repetition specialised to the ten base prompts.
- `VllmMultilingual.TestVllmMultilingual`: whether the output file could be written is the `saved` input, because the write sits inside the same `try`. The file's contents are not modelled.
