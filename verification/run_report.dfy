/**
 * A whole run end to end: the probes of the run, folded into the metric sink
 * (k6_load_test.js lines 82 and 94-118), handed to handleSummary as k6's
 * summary data (lines 150-222). k6 reports a counter by its total and a rate
 * by the fraction of its observations that were true, and leaves out a
 * counter that never received a sample. What it does with a rate that saw no
 * observation depends on the k6 release, so that is a parameter. The latency
 * statistics k6 computes for the trends are an input here.
 */
module RunReport {
  import opened Wrappers
  import opened Fixtures
  import opened Classification
  import opened Aggregation
  import opened Summary

  /**
   * How k6 reports a rate metric that saw no observation: left out of the
   * summary, or kept (as a metric with a threshold is) with rate 0.
   */
  datatype EmptyRate = Omitted | ReportedAsZero

  /** A counter as k6 reports it. */
  function CounterMetric(c: nat): Metric
  {
    Metric(Some(MetricValues(Some(c), None, None, None, None, None, None, None, None)))
  }

  /** A rate as k6 reports it: the fraction of true observations. */
  function RateMetric(rate: real): Metric
  {
    Metric(Some(MetricValues(None, Some(rate), None, None, None, None, None, None, None)))
  }

  /** A counter that never moved is absent from the summary. */
  function WithCounter(data: SummaryData, name: string, c: nat): SummaryData
  {
    if c > 0 then data[name := CounterMetric(c)] else data - {name}
  }

  /** A rate that never saw an observation is absent from the summary, or reported as 0. */
  function WithRate(data: SummaryData, name: string, r: Rate, empty: EmptyRate): SummaryData
  {
    match ReportedRate(r, empty)
    case Some(rate) => data[name := RateMetric(rate)]
    case None => data - {name}
  }

  function WithBackend(data: SummaryData, b: Backend, bt: BackendTally, empty: EmptyRate): SummaryData
  {
    WithRate(WithCounter(WithCounter(data, SuccessName(b), bt.success), ErrorName(b), bt.error), ErrorRateName(b), bt.errorRate, empty)
  }

  /**
   * k6's summary data at the end of a run whose sink ended as `t`: the
   * counters and rates come from `t`; `trends` holds what k6 computed for
   * the latency trends; `empty` says how k6 treats a rate with no observation.
   */
  function SummaryOf(t: Tally, trends: SummaryData, empty: EmptyRate): (data: SummaryData)
    ensures forall b: Backend :: Readable(data, SuccessName(b)) && Readable(data, ErrorName(b)) && Readable(data, ErrorRateName(b))
  {
    WithBackend(WithBackend(WithCounter(trends, "total_requests", t.total), Elixir, t.elixir, empty), Python, t.python, empty)
  }

  /**
   * The rate k6 reports for a rate metric's observations: the share that was
   * true, and with no observations either nothing or 0.
   */
  function ReportedRate(r: Rate, empty: EmptyRate): (q: Option<real>)
    ensures q.None? <==> r.total == 0 && empty == Omitted
    ensures r.total == 0 && empty == ReportedAsZero ==> q == Some(0.0)
    ensures r.total > 0 ==> q.value * r.total as real == r.trues as real
  {
    if r.total > 0 then Some(r.trues as real / r.total as real)
    else match empty
      case ReportedAsZero => Some(0.0)
      case Omitted => None
  }

  /** The summary carries exactly the sink's counters and rates, readable by handleSummary. */
  lemma SummaryOfReads(t: Tally, trends: SummaryData, empty: EmptyRate, b: Backend)
    ensures Readable(SummaryOf(t, trends, empty), SuccessName(b))
    ensures Readable(SummaryOf(t, trends, empty), ErrorName(b))
    ensures Readable(SummaryOf(t, trends, empty), ErrorRateName(b))
    ensures CountOf(SummaryOf(t, trends, empty), SuccessName(b)) == Of(t, b).success
    ensures CountOf(SummaryOf(t, trends, empty), ErrorName(b)) == Of(t, b).error
    ensures RateOf(SummaryOf(t, trends, empty), ErrorRateName(b)) == ReportedRate(Of(t, b).errorRate, empty)
  {
  }

  /** handleSummary's report after the probes `os`, in the order they were recorded. */
  function Run(os: seq<Observation>, trends: SummaryData, empty: EmptyRate): Report
  {
    var t := Replay(Empty, os);
    HandleSummary(SummaryOf(t, trends, empty))
  }

  /**
   * For any consistent sink, a backend's block shows its counters, and its
   * error rate is all or nothing: 100% once it has an error, "0%" otherwise.
   * The threshold passes only for a backend without errors whose empty rate
   * k6 reports as 0.
   */
  lemma SinkBackendReport(t: Tally, trends: SummaryData, empty: EmptyRate, b: Backend)
    requires Consistent(t)
    ensures Readable(SummaryOf(t, trends, empty), SuccessName(b)) && Readable(SummaryOf(t, trends, empty), ErrorName(b)) && Readable(SummaryOf(t, trends, empty), ErrorRateName(b))
    ensures var r := BackendSummary(SummaryOf(t, trends, empty), b);
      && r.successfulRequests == Of(t, b).success
      && r.failedRequests == Of(t, b).error
      && (r.errorRate == NoErrors <==> Of(t, b).error == 0)
      && (r.errorRate.ErrorPercent? ==> r.errorRate.percent == 100.0)
      && (r.errorRateUnder5 == Pass <==> empty == ReportedAsZero && Of(t, b).error == 0)
  {
    SummaryOfReads(t, trends, empty, b);
    assert BackendConsistent(Of(t, b));
    AllTrueRate(Of(t, b).error, empty);
  }

  /** A rate whose every observation was true is reported as 1, and an empty one as nothing or 0. */
  lemma AllTrueRate(n: nat, empty: EmptyRate)
    ensures ReportedRate(Rate(n, n), empty) == if n > 0 then Some(1.0) else if empty == ReportedAsZero then Some(0.0) else None
  {
    if n > 0 {
      var x := n as real;
      assert x / x == 1.0;
    }
  }

  /** The report of a run is handleSummary's block for the sink the run leaves behind, which is consistent. */
  lemma RunIsSinkReport(os: seq<Observation>, trends: SummaryData, empty: EmptyRate, b: Backend)
    ensures Consistent(Replay(Empty, os))
    ensures Readable(SummaryOf(Replay(Empty, os), trends, empty), SuccessName(b))
    ensures Readable(SummaryOf(Replay(Empty, os), trends, empty), ErrorName(b))
    ensures Readable(SummaryOf(Replay(Empty, os), trends, empty), ErrorRateName(b))
    ensures ReportOf(Run(os, trends, empty), b) == BackendSummary(SummaryOf(Replay(Empty, os), trends, empty), b)
  {
    EmptyConsistent();
    ReplayKeepsConsistent(Empty, os);
  }

  /**
   * A backend's request counts are those of its probes, and its success rate
   * is the share of them that passed every check.
   */
  lemma RunCounts(os: seq<Observation>, trends: SummaryData, empty: EmptyRate, b: Backend)
    ensures var r := ReportOf(Run(os, trends, empty), b);
      && r.totalRequests == Probes(os, b)
      && r.successfulRequests == Successes(os, b)
      && r.failedRequests == Failures(os, b)
      && r.successRate == SuccessPercent(Successes(os, b), Failures(os, b))
  {
    RunIsSinkReport(os, trends, empty, b);
    ReplayCounts(Empty, os, b);
    ProbesByOutcome(os, b);
    SinkBackendReport(Replay(Empty, os), trends, empty, b);
  }

  /**
   * A backend's error rate is all or nothing: "0%" when none of its probes
   * failed, 100% as soon as one did. Its threshold passes only when none
   * failed and k6 reports the empty rate as 0.
   */
  lemma RunErrorRate(os: seq<Observation>, trends: SummaryData, empty: EmptyRate, b: Backend)
    ensures var r := ReportOf(Run(os, trends, empty), b);
      && (r.errorRate == NoErrors <==> Failures(os, b) == 0)
      && (r.errorRate.ErrorPercent? ==> r.errorRate.percent == 100.0)
      && (r.errorRateUnder5 == Pass <==> empty == ReportedAsZero && Failures(os, b) == 0)
  {
    RunIsSinkReport(os, trends, empty, b);
    ReplayCounts(Empty, os, b);
    SinkBackendReport(Replay(Empty, os), trends, empty, b);
  }

  /**
   * When k6 leaves a rate without observations out of the summary, the
   * error-rate threshold fails in every run: the rate metric only ever
   * observes `true`, so it is 1 once any probe has failed, and missing (which
   * fails too) when none has.
   */
  lemma ErrorRateThresholdAlwaysFails(os: seq<Observation>, trends: SummaryData)
    ensures Run(os, trends, Omitted).elixir.errorRateUnder5 == Fail
    ensures Run(os, trends, Omitted).python.errorRateUnder5 == Fail
  {
    RunErrorRate(os, trends, Omitted, Elixir);
    RunErrorRate(os, trends, Omitted, Python);
  }

  /**
   * When k6 reports a rate without observations as 0, a backend's error-rate
   * threshold passes exactly when none of its probes failed: a single failure
   * makes the rate 1.
   */
  lemma ErrorRateThresholdIsNoFailures(os: seq<Observation>, trends: SummaryData, b: Backend)
    ensures ReportOf(Run(os, trends, ReportedAsZero), b).errorRateUnder5 == Pass <==> Failures(os, b) == 0
  {
    RunErrorRate(os, trends, ReportedAsZero, b);
  }

  /** The two backends' request totals add up to the number of probes. */
  lemma RunTotals(os: seq<Observation>, trends: SummaryData, empty: EmptyRate)
    ensures Run(os, trends, empty).elixir.totalRequests + Run(os, trends, empty).python.totalRequests == |os|
  {
    RunCounts(os, trends, empty, Elixir);
    RunCounts(os, trends, empty, Python);
    ProbesSplit(os);
  }

  /** The report does not depend on the order in which the virtual users' probes landed. */
  lemma RunOrderIndependent(a: seq<Observation>, b: seq<Observation>, trends: SummaryData, empty: EmptyRate)
    requires multiset(a) == multiset(b)
    ensures Run(a, trends, empty) == Run(b, trends, empty)
  {
    ReplayOrderIndependent(Empty, a, b);
  }
}
