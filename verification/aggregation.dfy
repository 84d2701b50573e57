/**
 * The state of the script's metric sink as values, and the effect of one probe
 * on it (k6_load_test.js, testEndpoint lines 82 and 94-118). k6 keeps counters
 * as totals and rates and trends as unordered collections of observations, so
 * the samples are multisets here.
 */
module Aggregation {
  import opened Fixtures
  import opened Classification

  /** The inputs of one probe's bookkeeping: target, user type, status and latency. */
  datatype Observation = Observation(backend: Backend, userType: UserType, status: int, duration: int)

  /** A k6 rate metric: how many of its observations were true, out of how many. */
  datatype Rate = Rate(trues: nat, total: nat)

  const NoObservations: Rate := Rate(0, 0)

  /** `rate.add(v)`: one more observation, counted as true when `v` is. */
  function Add(r: Rate, v: bool): Rate
  {
    Rate(r.trues + (if v then 1 else 0), r.total + 1)
  }

  /** One backend's accumulators: success and error counters, error-rate observations, latencies. */
  datatype BackendTally = BackendTally(success: nat, error: nat, errorRate: Rate, durations: multiset<int>)

  /** The whole sink: the request counter, both backends, and the three per-category trends. */
  datatype Tally = Tally(
    total: nat,
    elixir: BackendTally,
    python: BackendTally,
    existing: multiset<int>,
    legacy: multiset<int>,
    invalid: multiset<int>)

  const Untouched: BackendTally := BackendTally(0, 0, NoObservations, multiset{})

  /** The sink before the first probe. */
  const Empty: Tally := Tally(0, Untouched, Untouched, multiset{}, multiset{}, multiset{})

  function Succeeded(o: Observation): bool
  {
    IsSuccess(o.userType, o.status, o.duration)
  }

  function Of(t: Tally, b: Backend): BackendTally
  {
    match b
    case Elixir => t.elixir
    case Python => t.python
  }

  /** The per-category trend that a probe by a user of type `u` feeds. */
  function CategoryTrend(t: Tally, u: UserType): multiset<int>
  {
    match u
    case Existing => t.existing
    case Legacy => t.legacy
    case Invalid => t.invalid
  }

  /**
   * One probe against one backend: the latency always goes into its trend;
   * exactly one of its two counters moves; the error rate gets an observation
   * only on failure, and that observation is `true`.
   */
  function Observe(bt: BackendTally, ok: bool, duration: int): (r: BackendTally)
    ensures r.success + r.error == bt.success + bt.error + 1
    ensures r.success == bt.success + 1 <==> ok
    ensures r.error == bt.error + 1 <==> !ok
    ensures r.errorRate == if ok then bt.errorRate else Add(bt.errorRate, true)
    ensures r.durations == bt.durations + multiset{duration}
  {
    if ok then
      BackendTally(bt.success + 1, bt.error, bt.errorRate, bt.durations + multiset{duration})
    else
      BackendTally(bt.success, bt.error + 1, Add(bt.errorRate, true), bt.durations + multiset{duration})
  }

  /**
   * The bookkeeping of testEndpoint: the request counter grows by one, the
   * chosen backend observes the outcome, the other backend is untouched, and the
   * latency joins exactly one category trend (existing, legacy, or otherwise
   * the invalid-credentials trend).
   */
  function Record(t: Tally, o: Observation): (r: Tally)
    ensures r.total == t.total + 1
    ensures Of(r, o.backend) == Observe(Of(t, o.backend), Succeeded(o), o.duration)
    ensures forall b :: b != o.backend ==> Of(r, b) == Of(t, b)
    ensures forall u :: CategoryTrend(r, u) == CategoryTrend(t, u) + (if u == o.userType then multiset{o.duration} else multiset{})
  {
    var bt := Observe(Of(t, o.backend), Succeeded(o), o.duration);
    Tally(
      t.total + 1,
      if o.backend == Elixir then bt else t.elixir,
      if o.backend == Python then bt else t.python,
      AddSample(t.existing, o.userType == Existing, o.duration),
      AddSample(t.legacy, o.userType != Existing && o.userType == Legacy, o.duration),
      AddSample(t.invalid, o.userType != Existing && o.userType != Legacy, o.duration))
  }

  /** A trend that receives the latency when `hit` holds and is left alone otherwise. */
  function AddSample(m: multiset<int>, hit: bool, duration: int): multiset<int>
  {
    if hit then m + multiset{duration} else m
  }

  lemma AddSampleCommutes(m: multiset<int>, p: bool, d: int, q: bool, e: int)
    ensures AddSample(AddSample(m, p, d), q, e) == AddSample(AddSample(m, q, e), p, d)
  {
  }

  /** One backend's accumulators after a probe, stated field by field. */
  ghost predicate ObservedBy(r: BackendTally, bt: BackendTally, ok: bool, duration: int)
  {
    && r.success == bt.success + (if ok then 1 else 0)
    && r.error == bt.error + (if ok then 0 else 1)
    && r.errorRate == (if ok then bt.errorRate else Add(bt.errorRate, true))
    && r.durations == bt.durations + multiset{duration}
  }

  /** Record is determined by its effect on the counter, the two backends and the three trends. */
  lemma RecordByParts(t: Tally, o: Observation, r: Tally)
    requires r.total == t.total + 1
    requires o.backend == Elixir ==> ObservedBy(r.elixir, t.elixir, Succeeded(o), o.duration) && r.python == t.python
    requires o.backend == Python ==> ObservedBy(r.python, t.python, Succeeded(o), o.duration) && r.elixir == t.elixir
    requires o.userType == Existing ==> r.existing == t.existing + multiset{o.duration} && r.legacy == t.legacy && r.invalid == t.invalid
    requires o.userType == Legacy ==> r.existing == t.existing && r.legacy == t.legacy + multiset{o.duration} && r.invalid == t.invalid
    requires o.userType == Invalid ==> r.existing == t.existing && r.legacy == t.legacy && r.invalid == t.invalid + multiset{o.duration}
    ensures r == Record(t, o)
  {
  }

  /** A backend's accumulators agree: its error rate holds one `true` per error and nothing else. */
  ghost predicate BackendConsistent(bt: BackendTally)
  {
    bt.errorRate == Rate(bt.error, bt.error)
  }

  /**
   * The sink's invariant: every request is counted once as a success or an
   * error of one backend, and the category trends hold exactly the latencies
   * of the backend trends.
   */
  ghost predicate Consistent(t: Tally)
  {
    && BackendConsistent(t.elixir)
    && BackendConsistent(t.python)
    && t.total == t.elixir.success + t.elixir.error + t.python.success + t.python.error
    && t.existing + t.legacy + t.invalid == t.elixir.durations + t.python.durations
  }

  lemma EmptyConsistent()
    ensures Consistent(Empty)
  {
  }

  lemma RecordKeepsConsistent(t: Tally, o: Observation)
    requires Consistent(t)
    ensures Consistent(Record(t, o))
  {
    var r := Record(t, o);
    var d := multiset{o.duration};
    assert r.existing + r.legacy + r.invalid == t.existing + t.legacy + t.invalid + d;
    assert r.elixir.durations + r.python.durations == t.elixir.durations + t.python.durations + d;
  }

  /** The sink after a sequence of probes, applied in order. */
  function Replay(t: Tally, os: seq<Observation>): (r: Tally)
    ensures r.total == t.total + |os|
    decreases |os|
  {
    if os == [] then t else Replay(Record(t, os[0]), os[1..])
  }

  lemma {:induction false} ReplayKeepsConsistent(t: Tally, os: seq<Observation>)
    requires Consistent(t)
    ensures Consistent(Replay(t, os))
    decreases |os|
  {
    if os != [] {
      RecordKeepsConsistent(t, os[0]);
      ReplayKeepsConsistent(Record(t, os[0]), os[1..]);
    }
  }

  /** Number of probes against `b`. */
  function Probes(os: seq<Observation>, b: Backend): nat
  {
    if os == [] then 0 else (if os[0].backend == b then 1 else 0) + Probes(os[1..], b)
  }

  /** Number of successful probes against `b`. */
  function Successes(os: seq<Observation>, b: Backend): nat
  {
    if os == [] then 0
    else (if os[0].backend == b && Succeeded(os[0]) then 1 else 0) + Successes(os[1..], b)
  }

  /** Number of failed probes against `b`. */
  function Failures(os: seq<Observation>, b: Backend): nat
  {
    if os == [] then 0
    else (if os[0].backend == b && !Succeeded(os[0]) then 1 else 0) + Failures(os[1..], b)
  }

  /** Every probe goes to one of the two backends. */
  lemma {:induction false} ProbesSplit(os: seq<Observation>)
    ensures Probes(os, Elixir) + Probes(os, Python) == |os|
    decreases |os|
  {
    if os != [] {
      ProbesSplit(os[1..]);
    }
  }

  /** Every probe against a backend either succeeds or fails. */
  lemma {:induction false} ProbesByOutcome(os: seq<Observation>, b: Backend)
    ensures Probes(os, b) == Successes(os, b) + Failures(os, b)
    decreases |os|
  {
    if os != [] {
      ProbesByOutcome(os[1..], b);
    }
  }

  /** After a run, each backend's counters are exactly its successful and failed probes. */
  lemma {:induction false} ReplayCounts(t: Tally, os: seq<Observation>, b: Backend)
    ensures Of(Replay(t, os), b).success == Of(t, b).success + Successes(os, b)
    ensures Of(Replay(t, os), b).error == Of(t, b).error + Failures(os, b)
    decreases |os|
  {
    if os != [] {
      ReplayCounts(Record(t, os[0]), os[1..], b);
    }
  }

  lemma ObserveCommutes(bt: BackendTally, p: bool, d: int, q: bool, e: int)
    ensures Observe(Observe(bt, p, d), q, e) == Observe(Observe(bt, q, e), p, d)
  {
  }

  /** Two probes leave the sink in the same state whichever is recorded first. */
  lemma RecordCommutes(t: Tally, x: Observation, y: Observation)
    ensures Record(Record(t, x), y) == Record(Record(t, y), x)
  {
    var l, r := Record(Record(t, x), y), Record(Record(t, y), x);
    if x.backend == y.backend {
      ObserveCommutes(Of(t, x.backend), Succeeded(x), x.duration, Succeeded(y), y.duration);
    }
    assert l.elixir == r.elixir;
    assert l.python == r.python;
    AddSampleCommutes(t.existing, x.userType == Existing, x.duration, y.userType == Existing, y.duration);
    AddSampleCommutes(t.legacy, x.userType == Legacy, x.duration, y.userType == Legacy, y.duration);
    AddSampleCommutes(t.invalid, x.userType == Invalid, x.duration, y.userType == Invalid, y.duration);
  }

  lemma {:induction false} ReplayAppend(t: Tally, a: seq<Observation>, b: seq<Observation>)
    ensures Replay(t, a + b) == Replay(Replay(t, a), b)
    decreases |a|
  {
    if a == [] {
      assert a + b == b;
    } else {
      assert a + b != [];
      assert (a + b)[0] == a[0];
      assert (a + b)[1..] == a[1..] + b;
      ReplayAppend(Record(t, a[0]), a[1..], b);
    }
  }

  /** A probe recorded on the sink a run left behind extends that run by one probe. */
  lemma ReplaySnoc(t: Tally, os: seq<Observation>, o: Observation)
    ensures Replay(t, os + [o]) == Record(Replay(t, os), o)
  {
    ReplayAppend(t, os, [o]);
    assert Replay(Replay(t, os), [o]) == Replay(Record(Replay(t, os), o), []);
  }

  lemma {:induction false} RecordThrough(t: Tally, x: Observation, a: seq<Observation>)
    ensures Replay(Record(t, x), a) == Record(Replay(t, a), x)
    decreases |a|
  {
    if a != [] {
      RecordCommutes(t, x, a[0]);
      RecordThrough(Record(t, a[0]), x, a[1..]);
    }
  }

  /**
   * Aggregation is independent of interleaving: any reordering of the same
   * probes leaves the sink in the same state.
   */
  lemma {:induction false} ReplayOrderIndependent(t: Tally, a: seq<Observation>, b: seq<Observation>)
    requires multiset(a) == multiset(b)
    ensures Replay(t, a) == Replay(t, b)
    decreases |a|
  {
    if a == [] {
      assert |b| == |multiset(b)| == 0;
    } else {
      var x := a[0];
      assert a == [x] + a[1..];
      assert x in multiset(b);
      var i :| 0 <= i < |b| && b[i] == x;
      var front, back := b[..i], b[i + 1..];
      assert b == front + [x] + back;
      assert multiset(b) == multiset(front) + multiset{x} + multiset(back);
      assert multiset(a) == multiset{x} + multiset(a[1..]);
      assert multiset(front + back) == multiset(front) + multiset(back);
      forall y ensures multiset(a[1..])[y] == multiset(front + back)[y] {
        assert multiset(a)[y] == multiset(b)[y];
      }
      assert multiset(a[1..]) == multiset(front + back);
      ReplayOrderIndependent(Record(t, x), a[1..], front + back);
      calc {
        Replay(t, b);
        { ReplayAppend(t, front + [x], back); }
        Replay(Replay(t, front + [x]), back);
        { ReplayAppend(t, front, [x]); }
        Replay(Replay(Replay(t, front), [x]), back);
        { assert Replay(Replay(t, front), [x]) == Record(Replay(t, front), x); }
        Replay(Record(Replay(t, front), x), back);
        { RecordThrough(t, x, front); }
        Replay(Replay(Record(t, x), front), back);
        { ReplayAppend(Record(t, x), front, back); }
        Replay(Record(t, x), front + back);
        Replay(Record(t, x), a[1..]);
        Replay(t, a);
      }
    }
  }
}
