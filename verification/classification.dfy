/**
 * How one login probe is judged (k6_load_test.js, testEndpoint, the `checks`
 * object and `check(res, checks)`).
 */
module Classification {
  import opened Fixtures

  /** The two services under comparison. */
  datatype Backend = Elixir | Python

  /** A response slower than this many milliseconds fails the third check. */
  const SlowResponseMs: int := 3000

  /** The three named checks of one probe. */
  datatype ProbeChecks = ProbeChecks(validStatus200: bool, invalidStatus401: bool, reasonableTime: bool)

  /** What testEndpoint returns to its caller. */
  datatype ProbeResult = ProbeResult(success: bool, duration: int, status: int)

  /** The status a correct backend answers for this kind of user. */
  function ExpectedStatus(t: UserType): int
  {
    if t == Invalid then 401 else 200
  }

  /**
   * The check table: valid users need 200, invalid credentials need 401, and
   * every probe must answer in under three seconds. A check that does not
   * apply to the user's type is vacuously true.
   */
  function ChecksFor(t: UserType, status: int, duration: int): ProbeChecks
  {
    ProbeChecks(
      if t != Invalid then status == 200 else true,
      if t == Invalid then status == 401 else true,
      duration < SlowResponseMs)
  }

  /** k6's `check` reports true exactly when every check in the table holds. */
  predicate AllPass(c: ProbeChecks)
  {
    c.validStatus200 && c.invalidStatus401 && c.reasonableTime
  }

  /**
   * The single boolean that drives all of a probe's bookkeeping: the expected
   * status for the user's type, answered in under three seconds.
   */
  function IsSuccess(t: UserType, status: int, duration: int): (ok: bool)
    ensures ok <==> status == ExpectedStatus(t) && duration < SlowResponseMs
  {
    AllPass(ChecksFor(t, status, duration))
  }

  /** Any one failing check makes the probe a failure. */
  lemma OneFailedCheckFails(t: UserType, status: int, duration: int)
    ensures var c := ChecksFor(t, status, duration);
      !c.validStatus200 || !c.invalidStatus401 || !c.reasonableTime ==> !IsSuccess(t, status, duration)
  {
  }

  /**
   * The invalid identity succeeds on a fast 401 and fails on a 200; a slow
   * answer fails even with the right status.
   */
  lemma InvalidIdentityExamples()
    ensures IsSuccess(Invalid, 401, 120)
    ensures !IsSuccess(Invalid, 200, 120)
    ensures !IsSuccess(Legacy, 200, 3000)
  {
  }
}
