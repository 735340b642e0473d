/** The health checker object: it holds the two thresholds and applies each probe outcome
    to the probed backend's record inside the balancer's registry. */
module HealthCheck {
  import opened Backends
  import opened Health
  import opened Balancer

  class HealthChecker {
    const balancer: LoadBalancer
    const healthyThreshold: int
    const unhealthyThreshold: int

    constructor (balancer: LoadBalancer, healthyThreshold: int, unhealthyThreshold: int)
      ensures this.balancer == balancer
      ensures this.healthyThreshold == healthyThreshold && this.unhealthyThreshold == unhealthyThreshold
    {
      this.balancer := balancer;
      this.healthyThreshold := healthyThreshold;
      this.unhealthyThreshold := unhealthyThreshold;
    }

    /** A successful probe of backend `i`: its record becomes `Succeeded` of the old one;
        every other backend and every other field of the balancer is unchanged. */
    method OnSuccess(i: nat)
      requires balancer.Valid() && i < |balancer.backends|
      modifies balancer`backends
      ensures balancer.Valid()
      ensures balancer.backends == old(balancer.backends)[i := Succeeded(old(balancer.backends)[i], healthyThreshold)]
    {
      var b := balancer.backends[i];
      b := b.(failCount := 0);
      b := b.(successCount := b.successCount + 1);
      if b.status == Unhealthy && b.successCount >= healthyThreshold {
        b := b.(status := Healthy);
      }
      balancer.backends := balancer.backends[i := b];
    }

    /** A failed probe of backend `i`: its record becomes `Failed` of the old one; every
        other backend and every other field of the balancer is unchanged. */
    method OnFailure(i: nat)
      requires balancer.Valid() && i < |balancer.backends|
      modifies balancer`backends
      ensures balancer.Valid()
      ensures balancer.backends == old(balancer.backends)[i := Failed(old(balancer.backends)[i], unhealthyThreshold)]
    {
      var b := balancer.backends[i];
      b := b.(successCount := 0);
      b := b.(failCount := b.failCount + 1);
      if b.failCount >= unhealthyThreshold && b.status == Healthy {
        b := b.(status := Unhealthy);
      }
      balancer.backends := balancer.backends[i := b];
    }

    /** One settled probe of backend `i` at time `now`: the probe time is recorded, then a
        response with a status in [200, 400) is handled as a success and anything else
        (another status, a request error, a timeout) as a failure. */
    method CheckBackend(i: nat, outcome: ProbeOutcome, now: int)
      requires balancer.Valid() && i < |balancer.backends|
      modifies balancer`backends
      ensures balancer.Valid()
      ensures balancer.backends
        == old(balancer.backends)[i := Probed(old(balancer.backends)[i], outcome, now, healthyThreshold, unhealthyThreshold)]
    {
      balancer.backends := balancer.backends[i := balancer.backends[i].(lastChecked := Some(now))];
      match outcome
      case Response(statusCode) =>
        if 200 <= statusCode < 400 {
          OnSuccess(i);
        } else {
          OnFailure(i);
        }
      case RequestError(_) =>
        OnFailure(i);
      case Timeout =>
        OnFailure(i);
    }
  }
}
