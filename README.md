# Load balancer core, modelled in Dafny

This project models the decision logic of a small HTTP load balancer written for Node.js.
The balancer keeps an ordered registry of upstream backends. For each incoming request it
picks a backend, by round-robin or by least connections, and counts the request's life on
that backend: connection opened, response received, error, connection closed. A health
checker probes every backend and moves it between healthy and unhealthy with hysteresis:
a number of consecutive failures marks a backend down, and a number of consecutive
successes marks it up again.

Layout, one module per component:

- `backend.dfy` (`Backends`): the backend record, its initial form and its well-formedness.
  Well-formed means the counters are non-negative and at most one of the two run counters
  is non-zero.
- `selection.dfy` (`Selection`): the availability filter, the least-connections reduction
  and the dispatch between the algorithms. `Select` is the pure specification of one
  selection: the chosen backend and the cursor left behind. It also holds the lemmas about
  consecutive round-robin selections.
- `metrics.dfy` (`Metrics`): the counter updates around a forwarded request and the
  response-time moving average. `Math.round(r*0.8 + e*0.2)` is computed as
  `(4r + e + 2) / 5`. `Ema` proves this equal to `floor(0.8r + 0.2e + 0.5)` over the reals,
  which is what `Math.round` computes.
- `health.dfy` (`Health`): the probe classification and the success and failure
  transitions as functions. It proves the exact threshold crossings for runs of equal
  outcomes and checks the shipped defaults (3 failures down, 1 success up).
- `balancer.dfy` (`Balancer`): the class `LoadBalancer`, holding the registry
  (`seq<Backend>`), the algorithm name and the round-robin cursor. Its methods update these
  in place. `Snapshot` is the state projection sent to listeners.
- `healthcheck.dfy` (`HealthCheck`): the class `HealthChecker`, holding the two thresholds.
  It applies probe outcomes to a backend's record in the balancer's registry.

A forwarded request refers to its backend by registry position, not by an object alias.
The class also keeps two ghost fields:

- `inFlight` counts, per backend, the requests begun and not yet finished.
  `LoadBalancer.Valid()` keeps `inFlight - totalErrors <= activeConnections <= inFlight <= totalRequests`
  on every backend. The connection count is therefore never negative, never above the
  real number of open requests, and exact while no proxy error has happened.
- `notifications` counts state pushes to listeners.

The model follows the code where it differs from a natural reading of its purpose:

- The latency average takes its "first observation" branch when the backend's request
  total is exactly 1, not on its first response. It runs for every upstream response,
  whatever the status code. `Metrics.FirstResponseAfterTwoStarts` shows the effect: when a
  second request starts before the first response, that response is blended with the
  initial 0.
- A proxy error releases the connection, and the completion callback of the same request
  releases it again. The clamp at 0 keeps the count non-negative, but it can fall below the
  number of open requests. `Balancer.ErrorThenFinishUndercounts` shows this.

## Model

| member | source | states |
|---|---|---|
| `Backends.Initial` | balancer.js:8-19 | a configured backend starts healthy, enabled, with every counter 0 and no probe time, keeping its id, url and weight; it is well formed |
| `Backends.InitialRegistry` | balancer.js:8-19 | the registry has one initial record per configured backend, in configuration order |
| `Selection.Available` | balancer.js:52-54 | the available list holds exactly the positions of backends that are healthy and enabled, each once, in increasing registry order |
| `Selection.AvailableIgnoresCounters` | balancer.js:52-54 | availability depends only on status and enabled: counter updates never change the available list |
| `Selection.AllAvailable` | balancer.js:52-54 | when every backend is healthy and enabled, the available list is the whole registry in order |
| `Selection.ReduceLeast` | balancer.js:63-65 | folding the rest of the list into a running minimum, replacing it only on a strictly smaller count, ends at the first entry with the minimal connection count |
| `Selection.LeastConnections` | balancer.js:61-66 | none exactly on an empty list; otherwise an entry whose connection count is minimal over the list, with every earlier entry strictly busier |
| `Selection.LeastIsUnique` | balancer.js:61-66 | the minimal-and-first property determines the least-connections choice uniquely |
| `Selection.LeastInRegistryOrder` | balancer.js:61-66 | on the available list the choice is minimal over all available backends, and every available backend registered earlier has strictly more connections |
| `Selection.Select` | balancer.js:67-78 | none exactly when no backend is available, with the cursor unchanged; a chosen backend is available; "least-connections" picks the minimal, earliest backend and keeps the cursor; every other name picks `available[cursor mod n]` and leaves the cursor at `(cursor+1) mod n`, below `n` |
| `Selection.RoundRobinSelections` | balancer.js:55-60 | the j-th of k consecutive round-robin selections from any cursor is `available[(cursor + j) mod n]` |
| `Selection.RoundRobinRotation` | balancer.js:55-60 | from a cursor below n, n consecutive selections take the available list from the cursor on, then the part before it |
| `Selection.RoundRobinInOrder` | balancer.js:55-60 | from cursor 0, n consecutive selections return the n available backends in registry order |
| `Selection.RoundRobinEachOnce` | balancer.js:55-60 | from any cursor below n, n consecutive selections return each available backend exactly once |
| `Metrics.Ema` | balancer.js:48 | the integer average equals `Math.round(0.8*previous + 0.2*sample)` and lies between the previous value and the sample |
| `Metrics.EmaStep` | balancer.js:48 | each sample moves the average by one fifth of the gap to the sample, rounded; a sample equal to the average is a fixed point |
| `Metrics.EmaExample` | balancer.js:48 | an average of 100 and a sample of 200 give 120 |
| `Metrics.Begin` | balancer.js:91-92 | a started request adds one open connection and one request, and changes nothing else; well-formedness is kept |
| `Metrics.Release` | balancer.js:94 | a closed connection lowers the count by one, or leaves it at 0 when it is not positive; the count is never negative afterwards and nothing else changes |
| `Metrics.RecordError` | balancer.js:29-30 | a proxy error adds one error and releases a connection exactly as completion does; nothing else changes |
| `Metrics.ObserveLatency` | balancer.js:45-48 | the response time becomes the sample when the request total is 1, and the rounded 0.8/0.2 blend otherwise; nothing else changes |
| `Metrics.FirstResponseAfterTwoStarts` | balancer.js:46-48 | after one start a 100 ms response sets the average to 100, but after two starts the same response sets it to 20 |
| `Health.Succeeded` | healthCheck.js:62-70 | a success zeroes the failure run and adds one to the success run; the result is healthy iff the backend was healthy or the run reached the threshold; nothing else changes |
| `Health.Failed` | healthCheck.js:71-81 | a failure zeroes the success run and adds one to the failure run; the result is unhealthy iff the backend was unhealthy or the run reached the threshold; nothing else changes |
| `Health.Probed` | healthCheck.js:35-59 | every outcome records the probe time; a response with status in [200, 400) is a success, any other status, an error or a timeout a failure; afterwards exactly the matching run counter is non-zero |
| `Health.RunKeepsWellFormed` | healthCheck.js:62-81 | any sequence of outcomes keeps counters non-negative and at most one run counter non-zero, and changes only status and the run counters |
| `Health.ConsecutiveFailures` | healthCheck.js:71-77 | after k failures the failure run grew by k, and the backend is unhealthy iff it was, or k >= 1 and the run reached the threshold |
| `Health.ConsecutiveSuccesses` | healthCheck.js:62-68 | after k successes the success run grew by k, and the backend is healthy iff it was, or k >= 1 and the run reached the threshold |
| `Health.MarkedDownExactlyAtThreshold` | healthCheck.js:75-77 | a healthy backend with an empty failure run becomes unhealthy after k failures iff k >= 1 and k >= the threshold: exactly at the threshold, not before |
| `Health.MarkedUpExactlyAtThreshold` | healthCheck.js:66-68 | an unhealthy backend with an empty success run becomes healthy after k successes iff k >= 1 and k >= the threshold |
| `Health.DefaultThresholdsScenario` | config.js:13-14 | with thresholds 3 and 1, a fresh backend stays healthy after 1 and 2 failures, is unhealthy after the 3rd, and is healthy again after one more success |
| `Balancer.Snapshot` | balancer.js:124-139 | the snapshot holds the algorithm and one view per backend, in registry order |
| `Balancer.SnapshotShowsExactlyVisible` | balancer.js:124-139 | two registries give equal snapshots iff they agree on id, url, status, enabled, the three counters, response time and probe time; run counters and weight are never exposed |
| `Balancer.ErrorThenFinishUndercounts` | balancer.js:28-30 | two starts on a fresh backend, then an error and completion of one request, leave 0 open connections with one request still open |
| `Balancer.FindById` | balancer.js:118 | the first backend with the given id, or none exactly when no backend has it |
| `Balancer.LoadBalancer.constructor` | balancer.js:4-19 | the balancer starts with the configured algorithm, cursor 0, the initial registry, no open requests and no notifications |
| `Balancer.LoadBalancer.RoundRobin` | balancer.js:55-60 | none on an empty list with the cursor unchanged; otherwise `available[cursor mod n]`, and the cursor becomes `(cursor+1) mod n < n` |
| `Balancer.LoadBalancer.SelectBackend` | balancer.js:67-78 | the chosen backend and the new cursor are those of `Select` on the current registry |
| `Balancer.LoadBalancer.HandleRequest` | balancer.js:79-97 | selection and counting are one step: the chosen backend, and only it, gains one open connection and one request, with one notification; with none available nothing changes; the ledger invariant is kept |
| `Balancer.LoadBalancer.Finish` | balancer.js:93-96 | completion releases one connection on that backend only, clamped at 0, closes the request in the ledger and notifies; the ledger invariant is kept |
| `Balancer.LoadBalancer.ProxyError` | balancer.js:26-33 | an error on an assigned request adds one error and releases a connection on that backend only, and notifies; without an assigned backend nothing changes |
| `Balancer.LoadBalancer.ProxyResponse` | balancer.js:42-50 | a response on an assigned request updates only that backend's response time as `ObserveLatency`; without an assigned backend nothing changes |
| `Balancer.LoadBalancer.SetAlgorithm` | balancer.js:108-116 | true iff the name is "round-robin" or "least-connections"; then the algorithm is set, the cursor reset to 0 and listeners notified; otherwise nothing changes |
| `Balancer.LoadBalancer.ToggleBackend` | balancer.js:117-123 | true iff some backend has the id; then only the first such backend's enabled field changes, with one notification; otherwise nothing changes |
| `HealthCheck.HealthChecker.constructor` | healthCheck.js:5-9 | the checker is bound to one balancer and holds the two thresholds |
| `HealthCheck.HealthChecker.OnSuccess` | healthCheck.js:62-70 | the probed backend's record becomes `Succeeded` of the old one; every other backend and balancer field is unchanged and the ledger invariant is kept |
| `HealthCheck.HealthChecker.OnFailure` | healthCheck.js:71-81 | the probed backend's record becomes `Failed` of the old one; every other backend and balancer field is unchanged and the ledger invariant is kept |
| `HealthCheck.HealthChecker.CheckBackend` | healthCheck.js:30-61 | a settled probe sets the backend's probe time and applies the classified outcome (`Probed`); nothing else changes |

## Left out

- HTTP forwarding (`proxy.web`) is foreign I/O and is not modelled. Only the counter updates around it are.
- `handleUpgrade` (WebSocket forwarding through `proxy.ws`) is foreign I/O. Its one effect on the state is a selection, as `LoadBalancer.SelectBackend`, with no counter change.
- The 502 and 503 responses are I/O. A 503 is the `None` result of `HandleRequest`.
- Pushing the state over socket.io is network I/O. Each push is counted in the ghost field `notifications`, and its payload is `Snapshot`.
- The health checker's timer (`start`, `stop`), its concurrent fan-out over all backends (`_runChecks`) and the notification once per round are concurrency and I/O. They are not modelled. One settled probe is an input to `CheckBackend`.
- The HTTP probe itself is I/O. Its result is the `ProbeOutcome` parameter.
- Node may raise `error` after `req.destroy()` on a timeout. That event ordering is not modelled: a timeout counts as exactly one failure.
- Console logging is not modelled. The `elapsed` and `reason` parameters of the outcome handlers feed only the logs, so they are dropped.
- The clock is not modelled. `now` (probe time) and `elapsed` (response delay) are parameters. `lastChecked` is an integer timestamp, not an ISO-8601 string.
- Metrics.Ema: the source computes in IEEE doubles. The model uses exact integer arithmetic. Both agree while the blend is not within rounding error of a half, which holds at ordinary magnitudes because the fraction is always a multiple of 0.2. Counters past 2^53 are not modelled.
- Values from untyped JSON are modelled with their intended types: `toggleBackend` takes a boolean, and `setAlgorithm` and the backend id take strings. A non-boolean `enabled` and JavaScript truthiness in the availability filter are not modelled.
- `Balancer.LoadBalancer.Finish` requires an open request on the backend (ghost `inFlight > 0`). The source registers the completion callback once per begun request.
- `weight` is carried in the record but read by no operation.
- The HTTP control-plane routes, the dashboard, the load-test client and the demo backends are not part of this model.
- The configuration constants are not modelled as a module. The backend list and the thresholds are constructor parameters, and the shipped thresholds are the constants `DefaultUnhealthyThreshold` and `DefaultHealthyThreshold`.
