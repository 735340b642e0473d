/** The backend record kept by the load balancer's registry, its initial form, and the
    well-formedness that every operation of the balancer and the health checker keeps. */
module Backends {

  datatype Option<+T> = None | Some(value: T)

  /** The two health states of a backend. */
  datatype Status = Healthy | Unhealthy

  /** One entry of the configured backend list: identifier, upstream address, weight. */
  datatype BackendConfig = BackendConfig(id: string, url: string, weight: int)

  /** The mutable record the balancer keeps per backend. `lastChecked` is the time of the
      most recent health probe, absent until the first one. */
  datatype Backend = Backend(
    id: string,
    url: string,
    weight: int,
    status: Status,
    enabled: bool,
    activeConnections: int,
    totalRequests: int,
    totalErrors: int,
    failCount: int,
    successCount: int,
    responseTimeMs: int,
    lastChecked: Option<int>)

  /** The record a configured backend starts with. */
  function Initial(c: BackendConfig): (b: Backend)
    ensures b.id == c.id && b.url == c.url && b.weight == c.weight
    ensures b.status == Healthy && b.enabled
    ensures b.activeConnections == b.totalRequests == b.totalErrors == 0
    ensures b.failCount == b.successCount == b.responseTimeMs == 0
    ensures b.lastChecked == None
    ensures WellFormed(b)
  {
    Backend(c.id, c.url, c.weight, Healthy, true, 0, 0, 0, 0, 0, 0, None)
  }

  /** The registry built from the configured list, in the same order. */
  function InitialRegistry(configs: seq<BackendConfig>): (bs: seq<Backend>)
    ensures |bs| == |configs|
    ensures forall i :: 0 <= i < |bs| ==> bs[i] == Initial(configs[i])
  {
    seq(|configs|, i requires 0 <= i < |configs| => Initial(configs[i]))
  }

  /** Counters are never negative, and at most one of the two consecutive-outcome counters
      is non-zero (each outcome resets the opposite one). */
  predicate WellFormed(b: Backend)
  {
    && b.activeConnections >= 0
    && b.totalRequests >= 0
    && b.totalErrors >= 0
    && b.failCount >= 0
    && b.successCount >= 0
    && (b.failCount == 0 || b.successCount == 0)
  }
}
