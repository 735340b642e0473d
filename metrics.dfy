/** Per-request metrics of one backend: the counter updates around a forwarded request
    (start, completion, proxy error) and the smoothed response time. */
module Metrics {
  import opened Backends

  /** JavaScript's Math.round: the nearest integer, halves rounded up. */
  function Round(x: real): int
  {
    (x + 0.5).Floor
  }

  /** The response-time moving average with weight 0.8 on the previous value and 0.2 on the
      new sample, in integer form. */
  function Ema(previous: int, sample: int): (r: int)
    ensures r == Round(0.8 * previous as real + 0.2 * sample as real)
    ensures previous <= sample ==> previous <= r <= sample
    ensures sample <= previous ==> sample <= r <= previous
  {
    var m := 4 * previous + sample + 2;
    var q := m / 5;
    assert m == 5 * q + m % 5;
    assert (0.8 * previous as real + 0.2 * sample as real + 0.5) == q as real + ((m % 5) as real + 0.5) / 5.0;
    q
  }

  /** Each sample moves the average by one fifth of its distance to the sample, rounded;
      a sample equal to the average leaves it unchanged. */
  lemma EmaStep(previous: int, sample: int)
    ensures Ema(previous, sample) - previous == (sample - previous + 2) / 5
    ensures Ema(sample, sample) == sample
  {
  }

  /** A running average of 100 followed by a sample of 200 gives 120. */
  lemma EmaExample()
    ensures Ema(100, 200) == 120
  {
  }

  /** A request has been forwarded to the backend: one more open connection and one more
      request in total; nothing else changes. */
  function Begin(b: Backend): (r: Backend)
    ensures r.activeConnections == b.activeConnections + 1
    ensures r.totalRequests == b.totalRequests + 1
    ensures r == b.(activeConnections := r.activeConnections, totalRequests := r.totalRequests)
    ensures WellFormed(b) ==> WellFormed(r)
  {
    b.(activeConnections := b.activeConnections + 1, totalRequests := b.totalRequests + 1)
  }

  /** A connection has closed: one fewer open connection, but never below zero; nothing
      else changes. */
  function Release(b: Backend): (r: Backend)
    ensures r.activeConnections >= 0
    ensures b.activeConnections >= 1 ==> r.activeConnections == b.activeConnections - 1
    ensures b.activeConnections <= 0 ==> r.activeConnections == 0
    ensures r == b.(activeConnections := r.activeConnections)
    ensures WellFormed(b) ==> WellFormed(r)
  {
    b.(activeConnections := if b.activeConnections - 1 > 0 then b.activeConnections - 1 else 0)
  }

  /** The proxy reported an error for a request to the backend: one more error, and the
      connection released as by `Release`; nothing else changes. */
  function RecordError(b: Backend): (r: Backend)
    ensures r.totalErrors == b.totalErrors + 1
    ensures r == Release(b).(totalErrors := r.totalErrors)
    ensures WellFormed(b) ==> WellFormed(r)
  {
    var released := Release(b);
    released.(totalErrors := released.totalErrors + 1)
  }

  /** The upstream's response headers arrived `elapsed` milliseconds after the request was
      forwarded. The sample replaces the average when the backend's request total is
      exactly 1, and is blended into it otherwise; nothing else changes. */
  function ObserveLatency(b: Backend, elapsed: int): (r: Backend)
    ensures b.totalRequests == 1 ==> r.responseTimeMs == elapsed
    ensures b.totalRequests != 1 ==>
      r.responseTimeMs == Round(0.8 * b.responseTimeMs as real + 0.2 * elapsed as real)
    ensures r == b.(responseTimeMs := r.responseTimeMs)
    ensures WellFormed(b) ==> WellFormed(r)
  {
    b.(responseTimeMs := if b.totalRequests == 1 then elapsed else Ema(b.responseTimeMs, elapsed))
  }

  /** The first-observation branch keys on the request total, not on the number of
      responses seen: when a second request to a fresh backend has started before the first
      response arrives, that first response is blended with the initial average of 0. */
  lemma FirstResponseAfterTwoStarts(c: BackendConfig)
    ensures ObserveLatency(Begin(Initial(c)), 100).responseTimeMs == 100
    ensures ObserveLatency(Begin(Begin(Initial(c))), 100).responseTimeMs == 20
  {
  }
}
