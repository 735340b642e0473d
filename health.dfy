/** The health checker's hysteresis state machine for one backend: a probe outcome is
    classified as success or failure, each outcome resets the opposite consecutive-outcome
    counter and bumps its own, and the status flips only when a counter reaches its
    threshold. */
module Health {
  import opened Backends

  /** Default thresholds of the shipped configuration: three failures to mark a backend
      down, one success to mark it up again. */
  const DefaultUnhealthyThreshold := 3
  const DefaultHealthyThreshold := 1

  /** How a health probe ended: a response with an HTTP status code, a request error, or
      the probe's timeout. */
  datatype ProbeOutcome = Response(statusCode: int) | RequestError(reason: string) | Timeout

  /** A probe succeeds when it gets a response whose status is in [200, 400). */
  predicate IsSuccess(o: ProbeOutcome)
  {
    o.Response? && 200 <= o.statusCode < 400
  }

  /** A successful probe: the failure run is broken, the success run grows by one, and an
      unhealthy backend becomes healthy once that run reaches `healthyThreshold`. Only
      `status`, `failCount` and `successCount` change. */
  function Succeeded(b: Backend, healthyThreshold: int): (r: Backend)
    ensures r.failCount == 0 && r.successCount == b.successCount + 1
    ensures r.status == Healthy <==> b.status == Healthy || b.successCount + 1 >= healthyThreshold
    ensures r == b.(status := r.status, failCount := 0, successCount := b.successCount + 1)
    ensures WellFormed(b) ==> WellFormed(r) && r.successCount > 0
  {
    var r := b.(failCount := 0, successCount := b.successCount + 1);
    assert r.status == b.status && (r.status == Healthy || r.status == Unhealthy);
    if r.status == Unhealthy && r.successCount >= healthyThreshold then r.(status := Healthy) else r
  }

  /** A failed probe: the success run is broken, the failure run grows by one, and a
      healthy backend becomes unhealthy once that run reaches `unhealthyThreshold`. Only
      `status`, `failCount` and `successCount` change. */
  function Failed(b: Backend, unhealthyThreshold: int): (r: Backend)
    ensures r.successCount == 0 && r.failCount == b.failCount + 1
    ensures r.status == Unhealthy <==> b.status == Unhealthy || b.failCount + 1 >= unhealthyThreshold
    ensures r == b.(status := r.status, failCount := b.failCount + 1, successCount := 0)
    ensures WellFormed(b) ==> WellFormed(r) && r.failCount > 0
  {
    var r := b.(successCount := 0, failCount := b.failCount + 1);
    assert r.status == b.status && (r.status == Healthy || r.status == Unhealthy);
    if r.failCount >= unhealthyThreshold && r.status == Healthy then r.(status := Unhealthy) else r
  }

  /** One probe of the backend that ended with `o` at time `now`: the probe time is recorded
      whatever the outcome, then the outcome is fed to the success or failure handler. On a
      well-formed backend, exactly one of the two run counters is non-zero afterwards, and
      which one tells how the probe was classified. */
  function Probed(b: Backend, o: ProbeOutcome, now: int, healthyThreshold: int, unhealthyThreshold: int): (r: Backend)
    ensures r.lastChecked == Some(now)
    ensures IsSuccess(o) ==> r == Succeeded(b, healthyThreshold).(lastChecked := Some(now))
    ensures !IsSuccess(o) ==> r == Failed(b, unhealthyThreshold).(lastChecked := Some(now))
    ensures WellFormed(b) ==> WellFormed(r) && (r.successCount > 0 <==> IsSuccess(o)) && (r.failCount > 0 <==> !IsSuccess(o))
  {
    var checked := b.(lastChecked := Some(now));
    if IsSuccess(o) then Succeeded(checked, healthyThreshold) else Failed(checked, unhealthyThreshold)
  }

  /** The backend after the outcome handlers ran for `outcomes` in order (true: success). */
  function Run(b: Backend, outcomes: seq<bool>, healthyThreshold: int, unhealthyThreshold: int): Backend
    decreases |outcomes|
  {
    if outcomes == [] then b
    else
      var next := if outcomes[0] then Succeeded(b, healthyThreshold) else Failed(b, unhealthyThreshold);
      Run(next, outcomes[1..], healthyThreshold, unhealthyThreshold)
  }

  /** `k` copies of one outcome. */
  function Repeat(success: bool, k: nat): (s: seq<bool>)
    ensures |s| == k && forall j :: 0 <= j < k ==> s[j] == success
  {
    seq(k, _ => success)
  }

  /** Any sequence of outcomes keeps a backend well formed, in particular at most one run
      counter is non-zero; and it changes nothing but the health fields. */
  lemma {:induction false} RunKeepsWellFormed(b: Backend, outcomes: seq<bool>, healthyThreshold: int, unhealthyThreshold: int)
    requires WellFormed(b)
    ensures var r := Run(b, outcomes, healthyThreshold, unhealthyThreshold);
      && WellFormed(r)
      && r == b.(status := r.status, failCount := r.failCount, successCount := r.successCount)
    decreases |outcomes|
  {
    if outcomes != [] {
      var next := if outcomes[0] then Succeeded(b, healthyThreshold) else Failed(b, unhealthyThreshold);
      RunKeepsWellFormed(next, outcomes[1..], healthyThreshold, unhealthyThreshold);
    }
  }

  /** After `k` consecutive failures the failure run has grown by `k`, and the backend is
      unhealthy exactly when it already was, or when some failure (at least one) brought
      the run to `unhealthyThreshold`. */
  lemma {:induction false} ConsecutiveFailures(b: Backend, k: nat, healthyThreshold: int, unhealthyThreshold: int)
    ensures var r := Run(b, Repeat(false, k), healthyThreshold, unhealthyThreshold);
      && r.failCount == b.failCount + k
      && (k > 0 ==> r.successCount == 0)
      && (r.status == Unhealthy <==> b.status == Unhealthy || (k > 0 && b.failCount + k >= unhealthyThreshold))
    decreases k
  {
    if k > 0 {
      var next := Failed(b, unhealthyThreshold);
      assert Repeat(false, k)[1..] == Repeat(false, k - 1);
      ConsecutiveFailures(next, k - 1, healthyThreshold, unhealthyThreshold);
    }
  }

  /** After `k` consecutive successes the success run has grown by `k`, and the backend is
      healthy exactly when it already was, or when some success (at least one) brought the
      run to `healthyThreshold`. */
  lemma {:induction false} ConsecutiveSuccesses(b: Backend, k: nat, healthyThreshold: int, unhealthyThreshold: int)
    ensures var r := Run(b, Repeat(true, k), healthyThreshold, unhealthyThreshold);
      && r.successCount == b.successCount + k
      && (k > 0 ==> r.failCount == 0)
      && (r.status == Healthy <==> b.status == Healthy || (k > 0 && b.successCount + k >= healthyThreshold))
    decreases k
  {
    if k > 0 {
      var next := Succeeded(b, healthyThreshold);
      assert Repeat(true, k)[1..] == Repeat(true, k - 1);
      ConsecutiveSuccesses(next, k - 1, healthyThreshold, unhealthyThreshold);
    }
  }

  /** A healthy backend with no failures in its current run is marked down on exactly the
      `unhealthyThreshold`-th consecutive failure (the first one, for a threshold below 1),
      not before. */
  lemma MarkedDownExactlyAtThreshold(b: Backend, k: nat, healthyThreshold: int, unhealthyThreshold: int)
    requires b.status == Healthy && b.failCount == 0
    ensures Run(b, Repeat(false, k), healthyThreshold, unhealthyThreshold).status == Unhealthy
      <==> k >= 1 && k >= unhealthyThreshold
  {
    ConsecutiveFailures(b, k, healthyThreshold, unhealthyThreshold);
  }

  /** An unhealthy backend with no successes in its current run is marked up on exactly the
      `healthyThreshold`-th consecutive success (the first one, for a threshold below 1),
      not before. */
  lemma MarkedUpExactlyAtThreshold(b: Backend, k: nat, healthyThreshold: int, unhealthyThreshold: int)
    requires b.status == Unhealthy && b.successCount == 0
    ensures Run(b, Repeat(true, k), healthyThreshold, unhealthyThreshold).status == Healthy
      <==> k >= 1 && k >= healthyThreshold
  {
    ConsecutiveSuccesses(b, k, healthyThreshold, unhealthyThreshold);
  }

  /** With the default thresholds, a freshly configured backend stays healthy through two
      failed probes, is marked down by the third, and is marked up again by the next
      successful probe. */
  lemma DefaultThresholdsScenario(c: BackendConfig)
    ensures var b := Initial(c);
      var H, U := DefaultHealthyThreshold, DefaultUnhealthyThreshold;
      && Run(b, [false], H, U).status == Healthy
      && Run(b, [false, false], H, U).status == Healthy
      && Run(b, [false, false, false], H, U).status == Unhealthy
      && Run(b, [false, false, false, true], H, U).status == Healthy
  {
    var b := Initial(c);
    var H, U := DefaultHealthyThreshold, DefaultUnhealthyThreshold;
    MarkedDownExactlyAtThreshold(b, 1, H, U);
    MarkedDownExactlyAtThreshold(b, 2, H, U);
    MarkedDownExactlyAtThreshold(b, 3, H, U);
    assert Repeat(false, 1) == [false];
    assert Repeat(false, 2) == [false, false];
    assert Repeat(false, 3) == [false, false, false];
    RunAppend(b, [false, false, false], [true], H, U);
  }

  /** Running two outcome sequences one after the other is running their concatenation. */
  lemma {:induction false} RunAppend(b: Backend, xs: seq<bool>, ys: seq<bool>, healthyThreshold: int, unhealthyThreshold: int)
    ensures Run(b, xs + ys, healthyThreshold, unhealthyThreshold)
      == Run(Run(b, xs, healthyThreshold, unhealthyThreshold), ys, healthyThreshold, unhealthyThreshold)
    decreases |xs|
  {
    if xs != [] {
      var next := if xs[0] then Succeeded(b, healthyThreshold) else Failed(b, unhealthyThreshold);
      assert (xs + ys)[1..] == xs[1..] + ys;
      RunAppend(next, xs[1..], ys, healthyThreshold, unhealthyThreshold);
    } else {
      assert xs + ys == ys;
    }
  }
}
