/**
 * The script's module-level metrics as one object, and testEndpoint's
 * bookkeeping as a method that updates them in place
 * (k6_load_test.js, lines 10-23 and 82-120).
 */
module MetricSinks {
  import opened Fixtures
  import opened Classification
  import opened Aggregation

  class MetricSink {
    /** total_requests */
    var totalRequests: nat
    /** elixir_success, elixir_error, python_success, python_error */
    var elixirSuccess: nat
    var elixirError: nat
    var pythonSuccess: nat
    var pythonError: nat
    /** elixir_error_rate, python_error_rate: the observations added */
    var elixirErrorRate: Rate
    var pythonErrorRate: Rate
    /** elixir_login_duration, python_login_duration */
    var elixirLoginDuration: multiset<int>
    var pythonLoginDuration: multiset<int>
    /** existing_user_duration, legacy_user_duration, invalid_user_duration */
    var existingUserDuration: multiset<int>
    var legacyUserDuration: multiset<int>
    var invalidUserDuration: multiset<int>

    /** The fields grouped as the accumulators of each backend and category. */
    function Snapshot(): Tally
      reads this
    {
      Tally(
        totalRequests,
        BackendTally(elixirSuccess, elixirError, elixirErrorRate, elixirLoginDuration),
        BackendTally(pythonSuccess, pythonError, pythonErrorRate, pythonLoginDuration),
        existingUserDuration,
        legacyUserDuration,
        invalidUserDuration)
    }

    ghost predicate Valid()
      reads this
    {
      Consistent(Snapshot())
    }

    /** Every metric starts empty. */
    constructor ()
      ensures Valid()
      ensures Snapshot() == Empty
      ensures elixirErrorRate == pythonErrorRate == NoObservations
      ensures elixirLoginDuration == pythonLoginDuration == multiset{}
      ensures existingUserDuration == legacyUserDuration == invalidUserDuration == multiset{}
    {
      totalRequests := 0;
      elixirSuccess, elixirError, pythonSuccess, pythonError := 0, 0, 0, 0;
      elixirErrorRate, pythonErrorRate := NoObservations, NoObservations;
      elixirLoginDuration, pythonLoginDuration := multiset{}, multiset{};
      existingUserDuration, legacyUserDuration, invalidUserDuration := multiset{}, multiset{}, multiset{};
      new;
      assert Snapshot() == Empty;
      EmptyConsistent();
    }

    /**
     * testEndpoint once the response is in: `status` and `duration` (in whole
     * milliseconds) are what the HTTP call and the clock produced. The request
     * counter grows by one; the chosen backend's latency trend gets the
     * duration and exactly one of its counters moves, its error rate seeing
     * `true` on failure and nothing on success; the other backend is left
     * alone; the duration joins exactly one category trend.
     */
    method Probe(backend: Backend, user: TestUser, status: int, duration: int) returns (result: ProbeResult)
      requires Valid()
      modifies this
      ensures Valid()
      ensures result == ProbeResult(IsSuccess(user.userType, status, duration), duration, status)
      ensures Snapshot() == Record(old(Snapshot()), Observation(backend, user.userType, status, duration))
    {
      ghost var o := Observation(backend, user.userType, status, duration);
      totalRequests := totalRequests + 1;

      var success := AllPass(ChecksFor(user.userType, status, duration));
      ObserveBackend(backend, success, duration);
      AddCategorySample(user.userType, duration);

      result := ProbeResult(success, duration, status);
      RecordByParts(old(Snapshot()), o, Snapshot());
      RecordKeepsConsistent(old(Snapshot()), o);
    }

    /** The per-backend half of testEndpoint: one latency sample and one outcome. */
    method ObserveBackend(backend: Backend, success: bool, duration: int)
      modifies this
      ensures totalRequests == old(totalRequests)
      ensures existingUserDuration == old(existingUserDuration)
      ensures legacyUserDuration == old(legacyUserDuration)
      ensures invalidUserDuration == old(invalidUserDuration)
      ensures backend == Elixir ==>
        && elixirLoginDuration == old(elixirLoginDuration) + multiset{duration}
        && elixirSuccess == old(elixirSuccess) + (if success then 1 else 0)
        && elixirError == old(elixirError) + (if success then 0 else 1)
        && elixirErrorRate == (if success then old(elixirErrorRate) else Add(old(elixirErrorRate), true))
        && pythonSuccess == old(pythonSuccess) && pythonError == old(pythonError)
        && pythonErrorRate == old(pythonErrorRate) && pythonLoginDuration == old(pythonLoginDuration)
      ensures backend == Python ==>
        && pythonLoginDuration == old(pythonLoginDuration) + multiset{duration}
        && pythonSuccess == old(pythonSuccess) + (if success then 1 else 0)
        && pythonError == old(pythonError) + (if success then 0 else 1)
        && pythonErrorRate == (if success then old(pythonErrorRate) else Add(old(pythonErrorRate), true))
        && elixirSuccess == old(elixirSuccess) && elixirError == old(elixirError)
        && elixirErrorRate == old(elixirErrorRate) && elixirLoginDuration == old(elixirLoginDuration)
    {
      if backend == Elixir {
        elixirLoginDuration := elixirLoginDuration + multiset{duration};
        if success {
          elixirSuccess := elixirSuccess + 1;
        } else {
          elixirError := elixirError + 1;
          elixirErrorRate := Add(elixirErrorRate, true);
        }
      } else {
        pythonLoginDuration := pythonLoginDuration + multiset{duration};
        if success {
          pythonSuccess := pythonSuccess + 1;
        } else {
          pythonError := pythonError + 1;
          pythonErrorRate := Add(pythonErrorRate, true);
        }
      }
    }

    /** The per-category half of testEndpoint: existing, legacy, and everything else. */
    method AddCategorySample(userType: UserType, duration: int)
      modifies this
      ensures totalRequests == old(totalRequests)
      ensures elixirSuccess == old(elixirSuccess) && elixirError == old(elixirError)
      ensures elixirErrorRate == old(elixirErrorRate) && elixirLoginDuration == old(elixirLoginDuration)
      ensures pythonSuccess == old(pythonSuccess) && pythonError == old(pythonError)
      ensures pythonErrorRate == old(pythonErrorRate) && pythonLoginDuration == old(pythonLoginDuration)
      ensures existingUserDuration == if userType == Existing then old(existingUserDuration) + multiset{duration} else old(existingUserDuration)
      ensures legacyUserDuration == if userType == Legacy then old(legacyUserDuration) + multiset{duration} else old(legacyUserDuration)
      ensures invalidUserDuration == if userType == Invalid then old(invalidUserDuration) + multiset{duration} else old(invalidUserDuration)
    {
      if userType == Existing {
        existingUserDuration := existingUserDuration + multiset{duration};
      } else if userType == Legacy {
        legacyUserDuration := legacyUserDuration + multiset{duration};
      } else {
        invalidUserDuration := invalidUserDuration + multiset{duration};
      }
    }
  }
}
