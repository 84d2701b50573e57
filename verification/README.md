# k6 login load test: probe classification, metric bookkeeping and the summary report

This project models the core of `k6_load_test.js`, a k6 load-test script. The
script sends login requests to two implementations of the same login service,
an Elixir one and a Python one, and compares them. It is modelled in Dafny,
and the properties below are proved about the model.

The model has these parts:

- **Fixtures** (`fixtures.dfy`): the five test identities, tagged existing,
  legacy or invalid. Also the way one identity is picked from a random roll in
  [0, 1).
- **Classification** (`classification.dfy`): the three named checks of one
  probe.
  - Valid users need status 200.
  - Invalid credentials need status 401.
  - Every answer must arrive in under 3000 ms.
  - A probe succeeds exactly when all three hold.
- **Aggregation** (`aggregation.dfy`): the script's metrics as one value, a
  `Tally`.
  - `Record` is the effect of one probe on the tally.
  - `Replay` is a left fold of `Record` over a run's probes.
  - Counters are totals. A k6 rate is a count of true observations out of all
    observations. Trends are multisets of latencies.
- **MetricSinks** (`metric_sink.dfy`): the same metrics as the fields of a
  `MetricSink` object, updated in place by the `Probe` method.
  - `Probe` models `testEndpoint` from the moment the response is in.
  - It is proved to change the object's `Snapshot()` exactly as
    `Aggregation.Record` does.
  - It keeps the invariant `Valid()`.
- **Summary** (`summary.dfy`): `calculateStats` and `handleSummary` as
  functions over k6's summary data. The data is a map from metric name to an
  optional `values` object.
- **RunReport** (`run_report.dfy`): a whole run end to end. A run's probes are
  replayed into a tally. The tally is turned into the summary data k6 would
  hand over. That data is fed to `handleSummary`.

## Main results

- **Counting.** Every request is counted once, as a success or an error of the
  backend it went to (`Aggregation.RecordKeepsConsistent`). In the report, each
  backend's requests, successes and failures are exactly its probes, its
  passing probes and its failing probes (`RunReport.RunCounts`). The two
  backends' totals add up to the number of probes (`RunReport.RunTotals`).
- **Order does not matter.** The final metrics and the report do not depend on
  the order in which the virtual users' probes were recorded
  (`Aggregation.ReplayOrderIndependent`, `RunReport.RunOrderIndependent`).
- **The error-rate threshold cannot measure a rate.** The error-rate metrics
  only ever receive the observation `true`, on failures. Successes add nothing
  to them.
  - So k6 reports such a rate as 1 once any probe has failed, and the report
    shows 100% (`RunReport.RunErrorRate`).
  - What happens with no failures depends on how k6 treats a rate with no
    observation. The run model takes this as the parameter `EmptyRate`.
  - If k6 leaves the empty rate out of the summary (`Omitted`), then
    `rate < 0.05` on the absent rate is false. `error_rate_under_5` is then
    FAIL for both backends in every run
    (`RunReport.ErrorRateThresholdAlwaysFails`).
  - If k6 keeps it with rate 0 (`ReportedAsZero`), as it may for a metric
    with a threshold, then `error_rate_under_5` is PASS exactly when the
    backend had no failure at all (`RunReport.ErrorRateThresholdIsNoFailures`).
    One failed probe in any number makes it FAIL.
- **Ties go to Python.** All three winner rules compare strictly, so a tie
  names Python (`Summary.TiesGoToPython`).
  - A backend with no requests has a NaN success rate, and NaN never compares
    greater than anything.
  - So whenever either backend had no requests, the success-rate winner is
    Python (`Summary.IdleBackendLosesSuccessRate`).
- **The p95 threshold sees the rounded value.** The threshold compares the
  `toFixed(2)` text, converted back to a number. So a p95 of 499.996 ms fails
  (`Summary.P95RoundingBoundary`).

Where the intended behaviour of the script differs from what its code does,
the model follows the code:

- **Slow answers are failures.** A response slower than 3000 ms fails the
  probe. It counts as an error and feeds the error rate; it is not merely
  informational.
- **A backend with no traffic** gets a success rate of `0 / 0`, which is NaN.
  This is `None` in the model, not 0%.
- **A missing trend** reads as p95 = 0, which passes the latency threshold.
  **A missing rate** compares false, which fails the error-rate threshold
  (`Summary.MissingMetricVerdicts`).
- **The avg and p95 winners compare strings.** The script compares the two
  `toFixed(2)` texts, not numbers (see Findings). `HandleSummary` uses the
  numeric comparison.

## Model

| member | source | states |
|---|---|---|
| Fixtures.PoolComposition | k6_load_test.js:54-64 | the pool has five identities: one existing user, three legacy users and one invalid identity |
| Fixtures.UserIndex | k6_load_test.js:124 | `Math.floor(roll * 5)` for a roll in [0, 1) is a valid pool index, and it is the index of the fifth of the interval that holds the roll |
| Fixtures.UserIndexBucket | k6_load_test.js:124 | entry i is drawn exactly by the rolls in [i/5, (i+1)/5), so each identity owns a fifth of the rolls |
| Fixtures.PickUser | k6_load_test.js:124 | the picked user is always a member of the pool |
| Classification.IsSuccess | k6_load_test.js:84-92 | a probe succeeds exactly when the status is the one expected for the user type (401 for invalid credentials, 200 otherwise) and the latency is under 3000 ms |
| Classification.OneFailedCheckFails | k6_load_test.js:84-92 | any single failing check makes the probe a failure |
| Classification.InvalidIdentityExamples | k6_load_test.js:84-92 | the invalid identity succeeds on a fast 401 and fails on a 200; a correct status that takes 3000 ms fails |
| Aggregation.Observe | k6_load_test.js:94-110 | one probe adds the latency to its backend's trend and moves exactly one of the two counters; the error rate gets one `true` only on failure |
| Aggregation.Record | k6_load_test.js:82-118 | one probe adds one to the request counter, changes only the chosen backend, and adds the latency to exactly the trend of its user type |
| Aggregation.RecordByParts | k6_load_test.js:82-118 | the sink after a probe is determined field by field by those effects |
| Aggregation.EmptyConsistent | k6_load_test.js:10-23 | the metrics as declared, all empty, satisfy the sink invariant |
| Aggregation.RecordKeepsConsistent | k6_load_test.js:82-118 | a probe preserves the invariant: the request counter is the sum of the four outcome counters, each error rate holds exactly one `true` per error, and the category trends hold exactly the backend trends' latencies |
| Aggregation.Replay | k6_load_test.js:82 | after a run, the request counter has grown by the number of probes |
| Aggregation.ReplayKeepsConsistent | k6_load_test.js:82-118 | the invariant holds after any run |
| Aggregation.ProbesSplit | k6_load_test.js:126-134 | every probe goes to exactly one backend |
| Aggregation.ProbesByOutcome | k6_load_test.js:96-109 | every probe of a backend is either a success or a failure |
| Aggregation.ReplayCounts | k6_load_test.js:96-109 | after a run, a backend's success and error counters have grown by its successful and failed probes |
| Aggregation.ObserveCommutes | k6_load_test.js:94-110 | two outcomes recorded against one backend give the same state in either order |
| Aggregation.RecordCommutes | k6_load_test.js:82-118 | two probes give the same metrics in either order |
| Aggregation.ReplayAppend | k6_load_test.js:82-118 | replaying two runs one after the other is replaying their concatenation |
| Aggregation.ReplaySnoc | k6_load_test.js:82-118 | one more probe on the sink a run left behind is that run extended by the probe |
| Aggregation.RecordThrough | k6_load_test.js:82-118 | a probe can be moved from the front of a run to its end without changing the result |
| Aggregation.ReplayOrderIndependent | k6_load_test.js:82-118 | any reordering of the same probes gives the same final metrics |
| MetricSinks.MetricSink.constructor | k6_load_test.js:10-23 | the sink starts with every metric empty and satisfies its invariant |
| MetricSinks.MetricSink.Probe | k6_load_test.js:66-121 | returns the success verdict, latency and status of the probe; updates the fields exactly as `Aggregation.Record` updates the tally; keeps the invariant |
| MetricSinks.MetricSink.ObserveBackend | k6_load_test.js:94-110 | on the chosen backend: one latency sample, and either the success counter or the error counter plus one `true` error-rate observation; everything else is unchanged |
| MetricSinks.MetricSink.AddCategorySample | k6_load_test.js:112-118 | the latency joins the existing, the legacy or (for every other type) the invalid trend; everything else is unchanged |
| Summary.CountOf | k6_load_test.js:157-160 | a missing counter reads as 0; a present one reads as its count |
| Summary.RateOf | k6_load_test.js:175-184 | a missing metric gives no rate (`undefined`); a present one gives exactly the rate in its `values` |
| Summary.ToFixed2 | k6_load_test.js:252-258 | `toFixed(2)` yields text whose sign matches the input and whose value is within 0.005 of it |
| Summary.Show | k6_load_test.js:252-258 | a statistic becomes the number 0 exactly when k6 did not supply it, and otherwise its `toFixed(2)` text |
| Summary.ToFixed2Exact | k6_load_test.js:252-258 | a value already in whole hundredths keeps its value through `toFixed(2)` |
| Summary.CalculateStats | k6_load_test.js:238-259 | every statistic is 0 when the trend or its `values` is missing; otherwise each field is the shown form of k6's figure of the same name, the median feeding p50; avg and p95 are within 0.005 of k6's figures, and p95 is 0 when k6 gave none |
| Summary.SuccessRatio | k6_load_test.js:212-213 | the success ratio is NaN exactly when the backend had no requests |
| Summary.SuccessPercent | k6_load_test.js:172-174 | the success-rate percentage is NaN exactly when the backend had no requests |
| Summary.SuccessShare | k6_load_test.js:172-174 | with some requests, the ratio lies in [0, 1] and the percentage in [0, 100], and each times the request total gives back the successes (out of 1 or 100) |
| Summary.ErrorRateShown | k6_load_test.js:175-177 | the error-rate text is "0%" exactly when the rate is missing or zero, and otherwise is the rate times 100 |
| Summary.P95Verdict | k6_load_test.js:180 | the p95 threshold passes exactly when the shown p95 is below 500 |
| Summary.ErrorRateVerdict | k6_load_test.js:181-184 | the error-rate threshold passes exactly when a rate is present and below 0.05 |
| Summary.BackendSummary | k6_load_test.js:168-186 | total = successes + failures, read from the counters; the success rate is the percentage of those counts; the error-rate text is the rate's percentage ("0%" when it is missing or zero); the p95 verdict reads the shown p95, and the error-rate verdict needs a rate below 0.05 |
| Summary.FasterAsWritten | k6_load_test.js:207-210 | the avg and p95 winners as the script decides them: a string comparison when both figures are text |
| Summary.Faster | k6_load_test.js:207-210 | Elixir is the winner only when its figure is strictly lower; otherwise Python's figure is lower or equal |
| Summary.HigherRatio | k6_load_test.js:211-215 | Elixir wins on success rate exactly when both ratios are numbers and Elixir's is strictly greater |
| Summary.HandleSummary | k6_load_test.js:150-222 | each backend's block is that backend's summary; each winner is Elixir exactly when its strict comparison favours Elixir, the success-rate winner stated on the reported percentages; the category blocks are the stats of the three category trends |
| Summary.PercentOrderMatchesRatioOrder | k6_load_test.js:211-215 | comparing the reported percentages orders the backends as comparing the ratios does |
| Summary.TiesGoToPython | k6_load_test.js:207-215 | equal figures never make Elixir the winner, in the numeric and the as-written comparison alike |
| Summary.IdleBackendLosesSuccessRate | k6_load_test.js:211-215 | when either backend had no requests, the success-rate winner is Python |
| Summary.MissingMetricVerdicts | k6_load_test.js:175-184 | a missing latency trend passes the p95 threshold; a missing error rate fails its threshold and shows "0%" |
| Summary.P95RoundingBoundary | k6_load_test.js:180 | a nonnegative p95 passes exactly when it is below 499.995, because the threshold sees the rounded text |
| Summary.TextComparisonPicksSlower | k6_load_test.js:207-210 | with averages of 10.00 ms and 9.00 ms, the string comparison names the slower backend, and the numeric comparison does not |
| RunReport.ReportedRate | k6_load_test.js:12-13 | k6 reports a rate with observations as the share that was true; an empty rate is missing or 0, as the `EmptyRate` parameter says |
| RunReport.SummaryOf | k6_load_test.js:150 | the summary data k6 hands to handleSummary after a run: its counters and rates come from the sink and can always be read |
| RunReport.AllTrueRate | k6_load_test.js:100 | a rate whose every observation is `true` is reported as 1, and an empty one as missing or 0 |
| RunReport.SummaryOfReads | k6_load_test.js:157-160 | the summary data of a run can be read by handleSummary, and gives back the sink's counters and its rate |
| RunReport.SinkBackendReport | k6_load_test.js:168-186 | for any sink that satisfies the invariant, a backend's block shows its counters; its error rate is "0%" without errors and 100% with errors; the error-rate threshold passes only without errors and with an empty rate reported as 0 |
| RunReport.Run | k6_load_test.js:150-222 | a definition, not a contract: handleSummary applied to the summary data of the sink after the probes, with the k6 assumptions listed under Left out |
| RunReport.RunIsSinkReport | k6_load_test.js:150-222 | a run's report is handleSummary's report on the sink that the run leaves behind |
| RunReport.RunCounts | k6_load_test.js:169-174 | a backend's request, success and failure totals are its probes, passing probes and failing probes, and its success rate is their percentage |
| RunReport.RunErrorRate | k6_load_test.js:175-184 | a backend's error-rate text is "0%" exactly when none of its probes failed, and otherwise 100%; its threshold passes exactly when none failed and k6 reports an empty rate as 0 |
| RunReport.ErrorRateThresholdAlwaysFails | k6_load_test.js:181-184 | when k6 leaves an empty rate out, `error_rate_under_5` is FAIL for both backends in every run |
| RunReport.ErrorRateThresholdIsNoFailures | k6_load_test.js:181-184 | when k6 reports an empty rate as 0, `error_rate_under_5` is PASS exactly when the backend had no failed probe |
| RunReport.RunTotals | k6_load_test.js:169-188 | the two backends' request totals add up to the number of probes |
| RunReport.RunOrderIndependent | k6_load_test.js:150-222 | the report does not depend on the order in which probes were recorded |

## Findings

| source | as written | input that shows it | evidently intended | confidence | as-written member | corrected member |
|---|---|---|---|---|---|---|
| k6_load_test.js:207-210 | `elixirStats.avg < pythonStats.avg`, and the same for p95, compares two `toFixed(2)` strings character by character whenever both trends are present | Elixir avg 10.00 ms, Python avg 9.00 ms: "10.00" < "9.00" holds, so Elixir is named faster | compare the latencies as numbers, so that the lower one wins | high; not executed | Summary.FasterAsWritten, Summary.TextComparisonPicksSlower | Summary.Faster |

## Left out

- **Outside the model:** the HTTP call, the URLs, the JSON payload, request headers and timeouts, and the clock (`Date.now`). The status and latency of a probe are parameters of `Probe`.
- **Random choices:** the random backend choice in `testLogin`, and the random `sleep` between iterations. The backend is a parameter; the user-pick roll is a parameter of `PickUser`.
- **Groups:** k6 group tags.
- **k6 runtime:** `setup` and `teardown` logging, scenario and threshold options, and k6's scheduling of virtual users. Concurrency is covered only through order independence.
- **Trend statistics:** how k6 computes a trend's avg, min, max, median and percentiles. These are inputs: `MetricValues`, and the `trends` parameter of `RunReport.Run`.
- **k6 summary assumptions:** k6's summary data is assumed to omit a counter that received no sample. For a rate with no observation, both behaviours are modelled (`RunReport.EmptyRate`): omitted, or kept with rate 0. The run model does not decide which one a given k6 release shows. Metrics that are present are assumed to always carry `values`; `HandleSummary` requires this for the counters and rates it reads (`Summary.Readable`), since otherwise the script throws.
- **Report extras:** `test_info` (timestamp, run duration, scenario names), the Markdown, HTML and text renderings, and the output file names.
- **Numbers:** IEEE doubles. All numbers are exact reals, so NaN appears only as `None` for a success rate with no requests.
- **`toFixed(2)` on the two rate texts:** the rounding of `success_rate` and `error_rate` is not modelled. Those two are kept as exact percentages, since no comparison reads them. The rounding of the latency statistics is modelled, because the thresholds and winners read it.
- Summary.HandleSummary: uses the numeric comparison for the avg and p95 winners. The script's string comparison is `Summary.FasterAsWritten` (see Findings).
- MetricSinks.MetricSink.Probe: the per-backend and per-category updates are written as two helper methods (`ObserveBackend`, `AddCategorySample`). Together they make up the same sequence of field updates as lines 94-118.
