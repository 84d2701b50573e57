/**
 * The end-of-run report (k6_load_test.js, handleSummary lines 150-222 and
 * calculateStats lines 238-259): what it reads from k6's summary data, and
 * the figures, threshold verdicts and winners it derives from them.
 */
module Summary {
  import opened Wrappers
  import opened Classification

  /**
   * The `values` object k6 hands over for one metric. A counter carries a
   * count, a rate carries a rate, a trend carries its statistics; anything
   * the metric kind does not produce is absent.
   */
  datatype MetricValues = MetricValues(
    count: Option<nat>,
    rate: Option<real>,
    avg: Option<real>,
    min: Option<real>,
    max: Option<real>,
    med: Option<real>,
    p90: Option<real>,
    p95: Option<real>,
    p99: Option<real>)

  /** One entry of `data.metrics`; its `values` object may be missing. */
  datatype Metric = Metric(values: Option<MetricValues>)

  /** `data.metrics`, keyed by metric name. */
  type SummaryData = map<string, Metric>

  function SuccessName(b: Backend): string
  {
    match b
    case Elixir => "elixir_success"
    case Python => "python_success"
  }

  function ErrorName(b: Backend): string
  {
    match b
    case Elixir => "elixir_error"
    case Python => "python_error"
  }

  function ErrorRateName(b: Backend): string
  {
    match b
    case Elixir => "elixir_error_rate"
    case Python => "python_error_rate"
  }

  function DurationName(b: Backend): string
  {
    match b
    case Elixir => "elixir_login_duration"
    case Python => "python_login_duration"
  }

  const ExistingDurationName: string := "existing_user_duration"
  const LegacyDurationName: string := "legacy_user_duration"
  const InvalidDurationName: string := "invalid_user_duration"

  /** `data.metrics[name]`, or nothing when k6 reported no such metric. */
  function Get(data: SummaryData, name: string): Option<Metric>
  {
    if name in data then Some(data[name]) else None
  }

  /**
   * `data.metrics.name?.values.count` and `.rate` only read `values` when the
   * metric exists; a metric that exists without `values` makes the script
   * throw, so the report is only defined when that does not happen.
   */
  predicate Readable(data: SummaryData, name: string)
  {
    name in data ==> data[name].values.Some?
  }

  /** `data.metrics.name?.values.count || 0`. */
  function CountOf(data: SummaryData, name: string): (c: nat)
    requires Readable(data, name)
    ensures name !in data ==> c == 0
    ensures name in data && data[name].values.value.count.Some? ==> c == data[name].values.value.count.value
  {
    if name !in data then 0
    else match data[name].values.value.count
      case None => 0
      case Some(n) => n
  }

  /** `data.metrics.name?.values.rate`, where undefined is None. */
  function RateOf(data: SummaryData, name: string): (r: Option<real>)
    requires Readable(data, name)
    ensures name !in data ==> r.None?
    ensures name in data ==> r == data[name].values.value.rate
  {
    if name in data then data[name].values.value.rate else None
  }

  /**
   * One statistic as calculateStats leaves it: either the number 0 (the
   * fallback of `|| 0`) or the text `x.toFixed(2)`, which is a sign and a
   * whole number of hundredths.
   */
  datatype Shown = ZeroNumber | FixedText(negative: bool, hundredths: nat)

  /** The number a Shown value stands for when JavaScript compares it with a number. */
  function NumberOf(s: Shown): real
  {
    match s
    case ZeroNumber => 0.0
    case FixedText(negative, h) => if negative then -(h as real) / 100.0 else h as real / 100.0
  }

  function Abs(x: real): real
  {
    if x < 0.0 then -x else x
  }

  /**
   * `x.toFixed(2)`: the magnitude rounded to the nearest hundredth, a tie
   * going to the larger one, with a minus sign when `x` is negative.
   */
  function ToFixed2(x: real): (s: Shown)
    ensures s.FixedText?
    ensures s.negative <==> x < 0.0
    ensures Abs(NumberOf(s) - x) <= 0.005
  {
    var y := Abs(x) * 100.0 + 0.5;
    assert y.Floor as real <= y < y.Floor as real + 1.0;
    FixedText(x < 0.0, y.Floor)
  }

  /** `v?.toFixed(2) || 0`: a present statistic becomes text, a missing one the number 0. */
  function Show(v: Option<real>): (s: Shown)
    ensures v.None? <==> s == ZeroNumber
    ensures v.Some? ==> s == ToFixed2(v.value)
  {
    match v
    case None => ZeroNumber
    case Some(x) => ToFixed2(x)
  }

  /** The object calculateStats builds. */
  datatype Stats = Stats(avg: Shown, min: Shown, max: Shown, p50: Shown, p90: Shown, p95: Shown, p99: Shown)

  const ZeroStats: Stats := Stats(ZeroNumber, ZeroNumber, ZeroNumber, ZeroNumber, ZeroNumber, ZeroNumber, ZeroNumber)

  /**
   * calculateStats: all zeros when the trend or its `values` is missing,
   * otherwise each statistic rounded to hundredths, the median feeding p50,
   * and any statistic k6 did not supply reading 0.
   */
  function CalculateStats(m: Option<Metric>): (s: Stats)
    ensures m.None? || m.value.values.None? ==> s == ZeroStats
    ensures m.Some? && m.value.values.Some? ==>
      var v := m.value.values.value;
      && s == Stats(Show(v.avg), Show(v.min), Show(v.max), Show(v.med), Show(v.p90), Show(v.p95), Show(v.p99))
      && (v.avg.Some? ==> Abs(NumberOf(s.avg) - v.avg.value) <= 0.005)
      && (v.p95.Some? ==> Abs(NumberOf(s.p95) - v.p95.value) <= 0.005)
      && (v.p95.None? ==> NumberOf(s.p95) == 0.0)
  {
    match m
    case None => ZeroStats
    case Some(metric) =>
      match metric.values
      case None => ZeroStats
      case Some(v) => Stats(Show(v.avg), Show(v.min), Show(v.max), Show(v.med), Show(v.p90), Show(v.p95), Show(v.p99))
  }

  /**
   * `s / (s + e)`. With no requests at all this is 0 / 0, which JavaScript
   * evaluates to NaN; None stands for that NaN.
   */
  function SuccessRatio(success: nat, error: nat): (q: Option<real>)
    ensures q.None? <==> success + error == 0
  {
    if success + error == 0 then None
    else Some(success as real / (success + error) as real)
  }

  /** The report's `success_rate`: the ratio as a percentage, NaN (None) with no requests. */
  function SuccessPercent(success: nat, error: nat): (q: Option<real>)
    ensures q.None? <==> success + error == 0
  {
    var ratio := SuccessRatio(success, error);
    if ratio.Some? then Some(ratio.value * 100.0) else None
  }

  /**
   * With some requests, the ratio is the share of successes: it lies between
   * 0 and 1 and, times the number of requests, gives back the successes; the
   * percentage is the same share out of 100.
   */
  lemma SuccessShare(success: nat, error: nat)
    requires success + error > 0
    ensures var q := SuccessRatio(success, error).value;
      0.0 <= q <= 1.0 && q * (success + error) as real == success as real
    ensures var p := SuccessPercent(success, error).value;
      0.0 <= p <= 100.0 && p * (success + error) as real == 100.0 * success as real
  {
  }

  /** A report's `error_rate` text: "0%", or the rate as a percentage. */
  datatype ErrorRateText = NoErrors | ErrorPercent(percent: real)

  datatype Verdict = Pass | Fail

  /** One backend's block of the report. */
  datatype BackendReport = BackendReport(
    totalRequests: nat,
    successfulRequests: nat,
    failedRequests: nat,
    successRate: Option<real>,
    errorRate: ErrorRateText,
    responseTimes: Stats,
    p95Under500ms: Verdict,
    errorRateUnder5: Verdict)

  datatype Comparison = Comparison(winnerAvgResponse: Backend, winnerP95Response: Backend, winnerSuccessRate: Backend)

  datatype UserTypeMetrics = UserTypeMetrics(existingUsers: Stats, legacyUsers: Stats, invalidUsers: Stats)

  /** The JSON report, without its timestamp, run duration and scenario names. */
  datatype Report = Report(elixir: BackendReport, python: BackendReport, comparison: Comparison, userTypeMetrics: UserTypeMetrics)

  function ReportOf(r: Report, b: Backend): BackendReport
  {
    match b
    case Elixir => r.elixir
    case Python => r.python
  }

  /**
   * The `error_rate` text: the rate shown as a percentage when k6 reported a
   * nonzero one, "0%" when the rate is missing or zero.
   */
  function ErrorRateShown(rate: Option<real>): (t: ErrorRateText)
    ensures t == NoErrors <==> rate.None? || rate.value == 0.0
    ensures t.ErrorPercent? ==> t.percent == rate.value * 100.0
  {
    match rate
    case None => NoErrors
    case Some(x) => if x != 0.0 then ErrorPercent(x * 100.0) else NoErrors
  }

  /** `stats.p95 < 500`, the text converted back to a number. */
  function P95Verdict(s: Stats): (v: Verdict)
    ensures v == Pass <==> NumberOf(s.p95) < 500.0
  {
    if NumberOf(s.p95) < 500.0 then Pass else Fail
  }

  /** `rate < 0.05`, where a missing rate compares false. */
  function ErrorRateVerdict(rate: Option<real>): (v: Verdict)
    ensures v == Pass <==> rate.Some? && rate.value < 0.05
  {
    match rate
    case None => Fail
    case Some(x) => if x < 0.05 then Pass else Fail
  }

  /** One backend's block: counters, derived rates, latency statistics and verdicts. */
  function BackendSummary(data: SummaryData, b: Backend): (r: BackendReport)
    requires Readable(data, SuccessName(b)) && Readable(data, ErrorName(b)) && Readable(data, ErrorRateName(b))
    ensures r.totalRequests == r.successfulRequests + r.failedRequests
    ensures r.successfulRequests == CountOf(data, SuccessName(b))
    ensures r.failedRequests == CountOf(data, ErrorName(b))
    ensures r.successRate == SuccessPercent(r.successfulRequests, r.failedRequests)
    ensures r.errorRate == ErrorRateShown(RateOf(data, ErrorRateName(b)))
    ensures r.errorRate == NoErrors <==> RateOf(data, ErrorRateName(b)).None? || RateOf(data, ErrorRateName(b)).value == 0.0
    ensures r.responseTimes == CalculateStats(Get(data, DurationName(b)))
    ensures r.p95Under500ms == Pass <==> NumberOf(r.responseTimes.p95) < 500.0
    ensures r.errorRateUnder5 == Pass <==> RateOf(data, ErrorRateName(b)).Some? && RateOf(data, ErrorRateName(b)).value < 0.05
  {
    var success := CountOf(data, SuccessName(b));
    var error := CountOf(data, ErrorName(b));
    var stats := CalculateStats(Get(data, DurationName(b)));
    var rate := RateOf(data, ErrorRateName(b));
    BackendReport(
      success + error,
      success,
      error,
      SuccessPercent(success, error),
      ErrorRateShown(rate),
      stats,
      P95Verdict(stats),
      ErrorRateVerdict(rate))
  }

  /**
   * The avg and p95 winners as the script decides them, with `<` on the two
   * Shown values: when both are text JavaScript compares the strings
   * character by character, otherwise it compares numbers.
   */
  function FasterAsWritten(elixir: Shown, python: Shown): (w: Backend)
    ensures !(elixir.FixedText? && python.FixedText?) ==> w == Faster(elixir, python)
  {
    var elixirFirst :=
      if elixir.FixedText? && python.FixedText? then TextLess(Render(elixir), Render(python))
      else NumberOf(elixir) < NumberOf(python);
    if elixirFirst then Elixir else Python
  }

  /** The avg and p95 winners compared as numbers: Elixir only when strictly faster. */
  function Faster(elixir: Shown, python: Shown): (w: Backend)
    ensures w == Elixir ==> NumberOf(elixir) < NumberOf(python)
    ensures w == Python ==> NumberOf(python) <= NumberOf(elixir)
  {
    if NumberOf(elixir) < NumberOf(python) then Elixir else Python
  }

  /**
   * The success-rate winner: Elixir only when both ratios are numbers and
   * Elixir's is strictly larger; a NaN on either side compares false.
   */
  function HigherRatio(elixir: Option<real>, python: Option<real>): (w: Backend)
    ensures w == Elixir <==> elixir.Some? && python.Some? && elixir.value > python.value
  {
    if elixir.Some? && python.Some? && elixir.value > python.value then Elixir else Python
  }

  /** handleSummary's JSON report for the summary data k6 passes in. */
  function HandleSummary(data: SummaryData): (r: Report)
    requires forall b: Backend :: Readable(data, SuccessName(b)) && Readable(data, ErrorName(b)) && Readable(data, ErrorRateName(b))
    ensures forall b: Backend :: ReportOf(r, b) == BackendSummary(data, b)
    ensures r.comparison.winnerAvgResponse == Elixir <==> NumberOf(r.elixir.responseTimes.avg) < NumberOf(r.python.responseTimes.avg)
    ensures r.comparison.winnerP95Response == Elixir <==> NumberOf(r.elixir.responseTimes.p95) < NumberOf(r.python.responseTimes.p95)
    ensures r.comparison.winnerSuccessRate == Elixir <==>
      r.elixir.successRate.Some? && r.python.successRate.Some? && r.elixir.successRate.value > r.python.successRate.value
    ensures r.userTypeMetrics.existingUsers == CalculateStats(Get(data, ExistingDurationName))
    ensures r.userTypeMetrics.legacyUsers == CalculateStats(Get(data, LegacyDurationName))
    ensures r.userTypeMetrics.invalidUsers == CalculateStats(Get(data, InvalidDurationName))
  {
    var elixir := BackendSummary(data, Elixir);
    var python := BackendSummary(data, Python);
    var elixirRatio := SuccessRatio(elixir.successfulRequests, elixir.failedRequests);
    var pythonRatio := SuccessRatio(python.successfulRequests, python.failedRequests);
    PercentOrderMatchesRatioOrder(elixirRatio, pythonRatio);
    Report(
      elixir,
      python,
      Comparison(
        Faster(elixir.responseTimes.avg, python.responseTimes.avg),
        Faster(elixir.responseTimes.p95, python.responseTimes.p95),
        HigherRatio(elixirRatio, pythonRatio)),
      UserTypeMetrics(
        CalculateStats(Get(data, ExistingDurationName)),
        CalculateStats(Get(data, LegacyDurationName)),
        CalculateStats(Get(data, InvalidDurationName))))
  }

  /** Scaling both ratios to percentages keeps their order. */
  lemma PercentOrderMatchesRatioOrder(e: Option<real>, p: Option<real>)
    ensures e.Some? && p.Some? ==> (e.value > p.value <==> e.value * 100.0 > p.value * 100.0)
  {
  }

  /** Equal figures never make Elixir the winner: every comparison is strict. */
  lemma TiesGoToPython(s: Shown, q: Option<real>)
    ensures Faster(s, s) == Python
    ensures FasterAsWritten(s, s) == Python
    ensures HigherRatio(q, q) == Python
  {
    if s.FixedText? {
      TextLessIrreflexive(Render(s));
    }
  }

  /** A backend that never ran reports NaN for its success rate, so it never wins on it, and the other does not either. */
  lemma IdleBackendLosesSuccessRate(data: SummaryData)
    requires forall b: Backend :: Readable(data, SuccessName(b)) && Readable(data, ErrorName(b)) && Readable(data, ErrorRateName(b))
    requires CountOf(data, SuccessName(Elixir)) + CountOf(data, ErrorName(Elixir)) == 0
      || CountOf(data, SuccessName(Python)) + CountOf(data, ErrorName(Python)) == 0
    ensures HandleSummary(data).comparison.winnerSuccessRate == Python
  {
  }

  /**
   * A trend k6 did not report reads as p95 0, which passes; a rate k6 did
   * not report compares false, which fails.
   */
  lemma MissingMetricVerdicts(data: SummaryData, b: Backend)
    requires Readable(data, SuccessName(b)) && Readable(data, ErrorName(b)) && Readable(data, ErrorRateName(b))
    ensures DurationName(b) !in data ==> BackendSummary(data, b).p95Under500ms == Pass
    ensures ErrorRateName(b) !in data ==> BackendSummary(data, b).errorRateUnder5 == Fail
    ensures ErrorRateName(b) !in data ==> BackendSummary(data, b).errorRate == NoErrors
  {
  }

  /**
   * The p95 threshold sees the rounded text: a nonnegative p95 passes exactly
   * when it is below 499.995, so 499.996 fails although it is under 500.
   */
  lemma P95RoundingBoundary(x: real)
    requires x >= 0.0
    ensures NumberOf(ToFixed2(x)) < 500.0 <==> x < 499.995
  {
  }

  /** A figure already in hundredths keeps its value through toFixed(2). */
  lemma ToFixed2Exact(h: nat)
    ensures ToFixed2(h as real / 100.0) == FixedText(false, h)
  {
  }

  // Rendering of toFixed(2) text and JavaScript's string ordering.

  function Digit(d: nat): char
    requires d < 10
  {
    (48 + d) as char
  }

  /** The decimal digits of `n`, without leading zeros. */
  function NatText(n: nat): (s: string)
    ensures |s| >= 1
    ensures forall i :: 0 <= i < |s| ==> '0' <= s[i] <= '9'
    decreases n
  {
    if n < 10 then [Digit(n)] else NatText(n / 10) + [Digit(n % 10)]
  }

  /** The characters of `x.toFixed(2)`. */
  function Render(s: Shown): (t: string)
    requires s.FixedText?
    ensures |t| >= 4
  {
    (if s.negative then "-" else "") + NatText(s.hundredths / 100) + "." + [Digit(s.hundredths % 100 / 10), Digit(s.hundredths % 10)]
  }

  /** JavaScript's `<` on strings: the first differing character decides, a proper prefix comes first. */
  predicate TextLess(a: string, b: string)
    decreases |a|
  {
    if a == [] then b != []
    else if b == [] then false
    else if a[0] == b[0] then TextLess(a[1..], b[1..])
    else a[0] < b[0]
  }

  lemma {:induction false} TextLessIrreflexive(a: string)
    ensures !TextLess(a, a)
    decreases |a|
  {
    if a != [] {
      TextLessIrreflexive(a[1..]);
    }
  }

  /**
   * The string comparison gets latencies of different magnitudes backwards:
   * an Elixir average of 10.00 ms against a Python average of 9.00 ms makes
   * Elixir the faster, because "1" sorts before "9".
   */
  lemma TextComparisonPicksSlower()
    ensures NumberOf(FixedText(false, 1000)) > NumberOf(FixedText(false, 900))
    ensures FasterAsWritten(FixedText(false, 1000), FixedText(false, 900)) == Elixir
    ensures Faster(FixedText(false, 1000), FixedText(false, 900)) == Python
  {
  }
}
