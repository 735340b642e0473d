/** The load balancer object: the ordered backend registry, the selection algorithm's name
    and the round-robin cursor, with the operations the request path and the control plane
    call on it. A forwarded request names its backend by registry position. */
module Balancer {
  import opened Backends
  import opened Selection
  import opened Metrics

  /** The externally visible part of a backend record. */
  datatype BackendView = BackendView(
    id: string,
    url: string,
    status: Status,
    enabled: bool,
    activeConnections: int,
    totalRequests: int,
    totalErrors: int,
    responseTimeMs: int,
    lastChecked: Option<int>)

  /** The snapshot pushed to listeners and served to the dashboard. */
  datatype State = State(algorithm: string, backends: seq<BackendView>)

  function View(b: Backend): BackendView
  {
    BackendView(b.id, b.url, b.status, b.enabled, b.activeConnections, b.totalRequests,
                b.totalErrors, b.responseTimeMs, b.lastChecked)
  }

  /** Two records agree on every field the snapshot shows. */
  predicate SameVisible(b: Backend, c: Backend)
  {
    && b.id == c.id && b.url == c.url && b.status == c.status && b.enabled == c.enabled
    && b.activeConnections == c.activeConnections && b.totalRequests == c.totalRequests
    && b.totalErrors == c.totalErrors && b.responseTimeMs == c.responseTimeMs
    && b.lastChecked == c.lastChecked
  }

  /** The snapshot of the balancer: the algorithm name and one view per backend, in
      registry order. */
  function Snapshot(algorithm: string, bs: seq<Backend>): (s: State)
    ensures s.algorithm == algorithm && |s.backends| == |bs|
    ensures forall i :: 0 <= i < |bs| ==> s.backends[i] == View(bs[i])
  {
    State(algorithm, seq(|bs|, i requires 0 <= i < |bs| => View(bs[i])))
  }

  /** The snapshot shows exactly the visible fields: two registries give the same snapshot
      if and only if they agree backend by backend on those fields. The run counters of the
      health checker and the configured weight are never exposed. */
  lemma SnapshotShowsExactlyVisible(algorithm: string, bs: seq<Backend>, cs: seq<Backend>)
    ensures Snapshot(algorithm, bs) == Snapshot(algorithm, cs)
      <==> |bs| == |cs| && forall i :: 0 <= i < |bs| ==> SameVisible(bs[i], cs[i])
  {
    var s, t := Snapshot(algorithm, bs), Snapshot(algorithm, cs);
    if s == t {
      forall i | 0 <= i < |bs|
        ensures SameVisible(bs[i], cs[i])
      {
        assert s.backends[i] == t.backends[i];
      }
    }
    if |bs| == |cs| && forall i :: 0 <= i < |bs| ==> SameVisible(bs[i], cs[i]) {
      assert s.backends == t.backends;
    }
  }

  /** The request ledger of one backend: its record is well formed, and with `open`
      requests begun and not yet finished, the connection count never exceeds `open`, falls
      short of it by at most the number of proxy errors, and `open` never exceeds the
      request total. */
  ghost predicate Tracked(b: Backend, open: int)
  {
    && WellFormed(b)
    && open - b.totalErrors <= b.activeConnections <= open <= b.totalRequests
  }

  /** The error path releases a connection that the completion callback releases again;
      with two requests open on a fresh backend, an error on one of them followed by its
      completion leaves the count at 0 while the other request is still open. */
  lemma ErrorThenFinishUndercounts(c: BackendConfig)
    ensures var b := Release(RecordError(Begin(Begin(Initial(c)))));
      b.activeConnections == 0 && Tracked(b, 1)
  {
  }

  /** The first backend with identifier `id`, if any. */
  function FindById(bs: seq<Backend>, id: string): (r: Option<nat>)
    ensures r.None? <==> forall j :: 0 <= j < |bs| ==> bs[j].id != id
    ensures r.Some? ==>
      && r.value < |bs| && bs[r.value].id == id
      && forall j :: 0 <= j < r.value ==> bs[j].id != id
  {
    if |bs| == 0 then None
    else if bs[0].id == id then Some(0)
    else
      var rest := FindById(bs[1..], id);
      if rest.None? then None else Some(rest.value + 1)
  }

  class LoadBalancer {
    var algorithm: string
    var currentIndex: nat
    var backends: seq<Backend>
    /** Per backend, the requests begun and not yet finished. */
    ghost var inFlight: seq<int>
    /** How many state notifications have been pushed to listeners. */
    ghost var notifications: nat

    ghost predicate Valid()
      reads this
    {
      && |inFlight| == |backends|
      && forall i :: 0 <= i < |backends| ==> Tracked(backends[i], inFlight[i])
    }

    /** A balancer over the configured backends, in their configured order, all healthy,
        enabled and with zero counters. */
    constructor (configs: seq<BackendConfig>, algorithm: string)
      ensures Valid()
      ensures this.algorithm == algorithm && currentIndex == 0
      ensures backends == InitialRegistry(configs)
      ensures inFlight == seq(|configs|, _ => 0) && notifications == 0
    {
      this.algorithm := algorithm;
      currentIndex := 0;
      backends := InitialRegistry(configs);
      inFlight := seq(|configs|, _ => 0);
      notifications := 0;
    }

    /** Round-robin over `available`: none on an empty list, leaving the cursor alone;
        otherwise the entry at the cursor modulo the list's length, and the cursor moves to
        the next position modulo that length. */
    method RoundRobin(available: seq<nat>) returns (r: Option<nat>)
      modifies this`currentIndex
      ensures |available| == 0 ==> r == None && currentIndex == old(currentIndex)
      ensures |available| > 0 ==>
        && r == Some(available[old(currentIndex) % |available|])
        && currentIndex == (old(currentIndex) + 1) % |available|
        && currentIndex < |available|
    {
      if |available| == 0 {
        return None;
      }
      r := Some(available[currentIndex % |available|]);
      currentIndex := (currentIndex + 1) % |available|;
    }

    /** The backend the current algorithm picks, by registry position, and the cursor it
        leaves behind; see `Select`. */
    method SelectBackend() returns (r: Option<nat>)
      modifies this`currentIndex
      ensures (r, currentIndex) == Select(backends, algorithm, old(currentIndex))
    {
      var available := Available(backends);
      if |available| == 0 {
        return None;
      }
      if algorithm == LeastConnectionsName {
        r := LeastConnections(backends, available);
      } else {
        r := RoundRobin(available);
      }
    }

    /** An incoming request: select a backend and, in the same step, count one more open
        connection and one more request on it, then notify listeners. With no backend
        available, nothing changes (the request is refused with 503). */
    method HandleRequest() returns (r: Option<nat>)
      requires Valid()
      modifies this`currentIndex, this`backends, this`inFlight, this`notifications
      ensures Valid()
      ensures (r, currentIndex) == Select(old(backends), algorithm, old(currentIndex))
      ensures r.None? ==>
        backends == old(backends) && inFlight == old(inFlight) && notifications == old(notifications)
      ensures r.Some? ==>
        && r.value < |backends|
        && backends == old(backends)[r.value := Begin(old(backends)[r.value])]
        && inFlight == old(inFlight)[r.value := old(inFlight)[r.value] + 1]
        && notifications == old(notifications) + 1
    {
      r := SelectBackend();
      if r.None? {
        return;
      }
      var i := r.value;
      backends := backends[i := Begin(backends[i])];
      inFlight := inFlight[i := inFlight[i] + 1];
      notifications := notifications + 1;
    }

    /** The response to a request forwarded to backend `i` has finished: release its
        connection, never below zero, and notify listeners. */
    method Finish(i: nat)
      requires Valid()
      requires i < |backends| && inFlight[i] > 0
      modifies this`backends, this`inFlight, this`notifications
      ensures Valid()
      ensures backends == old(backends)[i := Release(old(backends)[i])]
      ensures inFlight == old(inFlight)[i := old(inFlight)[i] - 1]
      ensures notifications == old(notifications) + 1
    {
      backends := backends[i := Release(backends[i])];
      inFlight := inFlight[i := inFlight[i] - 1];
      notifications := notifications + 1;
    }

    /** The proxy reported an error for a request. When the request was assigned a backend,
        that backend counts one more error and releases a connection, and listeners are
        notified; otherwise nothing changes. */
    method ProxyError(target: Option<nat>)
      requires Valid()
      requires target.Some? ==> target.value < |backends|
      modifies this`backends, this`notifications
      ensures Valid()
      ensures target.None? ==> backends == old(backends) && notifications == old(notifications)
      ensures target.Some? ==>
        && backends == old(backends)[target.value := RecordError(old(backends)[target.value])]
        && notifications == old(notifications) + 1
    {
      if target.Some? {
        var i := target.value;
        backends := backends[i := RecordError(backends[i])];
        notifications := notifications + 1;
      }
    }

    /** Response headers came back from the upstream `elapsed` milliseconds after the
        request was forwarded. When the request was assigned a backend, that backend's
        average response time takes the sample in; otherwise nothing changes. */
    method ProxyResponse(target: Option<nat>, elapsed: int)
      requires Valid()
      requires target.Some? ==> target.value < |backends|
      modifies this`backends
      ensures Valid()
      ensures target.None? ==> backends == old(backends)
      ensures target.Some? ==>
        backends == old(backends)[target.value := ObserveLatency(old(backends)[target.value], elapsed)]
    {
      if target.Some? {
        var i := target.value;
        backends := backends[i := ObserveLatency(backends[i], elapsed)];
      }
    }

    /** Switch the selection algorithm. Only "round-robin" and "least-connections" are
        accepted; accepting one resets the cursor and notifies listeners. Any other name is
        refused and changes nothing. */
    method SetAlgorithm(name: string) returns (ok: bool)
      modifies this`algorithm, this`currentIndex, this`notifications
      ensures ok <==> name == RoundRobinName || name == LeastConnectionsName
      ensures ok ==> algorithm == name && currentIndex == 0 && notifications == old(notifications) + 1
      ensures !ok ==>
        && algorithm == old(algorithm) && currentIndex == old(currentIndex)
        && notifications == old(notifications)
    {
      if name == RoundRobinName || name == LeastConnectionsName {
        algorithm := name;
        currentIndex := 0;
        notifications := notifications + 1;
        return true;
      }
      return false;
    }

    /** Enable or disable the first backend with identifier `id` and notify listeners;
        nothing else of it changes. An unknown identifier is refused and changes nothing. */
    method ToggleBackend(id: string, enabled: bool) returns (ok: bool)
      requires Valid()
      modifies this`backends, this`notifications
      ensures Valid()
      ensures ok <==> exists j :: 0 <= j < |old(backends)| && old(backends)[j].id == id
      ensures ok ==>
        var i := FindById(old(backends), id).value;
        && backends == old(backends)[i := old(backends)[i].(enabled := enabled)]
        && notifications == old(notifications) + 1
      ensures !ok ==> backends == old(backends) && notifications == old(notifications)
    {
      var found := FindById(backends, id);
      if found.None? {
        return false;
      }
      var i := found.value;
      backends := backends[i := backends[i].(enabled := enabled)];
      notifications := notifications + 1;
      return true;
    }
  }

  /** Three configured backends under round-robin are served in turn, starting over after
      the last one; every request is counted on the backend that served it. */
  method RoundRobinScenario(a: BackendConfig, b: BackendConfig, c: BackendConfig)
  {
    var lb := new LoadBalancer([a, b, c], RoundRobinName);
    var r := ServeNext(lb);
    assert r == Some(0) && lb.currentIndex == 1;
    r := ServeNext(lb);
    assert r == Some(1) && lb.currentIndex == 2;
    r := ServeNext(lb);
    assert r == Some(2) && lb.currentIndex == 0;
    r := ServeNext(lb);
    assert r == Some(0);
    assert lb.backends[0].totalRequests == 2;
  }

  /** One request to a balancer of three healthy, enabled backends under round-robin. */
  method ServeNext(lb: LoadBalancer) returns (r: Option<nat>)
    requires lb.Valid() && |lb.backends| == 3 && lb.algorithm == RoundRobinName
    requires forall i :: 0 <= i < 3 ==> IsAvailable(lb.backends[i])
    modifies lb
    ensures lb.Valid() && |lb.backends| == 3 && lb.algorithm == RoundRobinName
    ensures forall i :: 0 <= i < 3 ==> IsAvailable(lb.backends[i])
    ensures r == Some(old(lb.currentIndex) % 3) && lb.currentIndex == (old(lb.currentIndex) + 1) % 3
    ensures lb.backends == old(lb.backends)[r.value := Begin(old(lb.backends)[r.value])]
  {
    AllAvailable(lb.backends);
    assert Available(lb.backends) == [0, 1, 2];
    r := lb.HandleRequest();
  }

  /** A disabled backend leaves the available list at once, with its counters untouched. */
  method ToggleScenario(a: BackendConfig, b: BackendConfig)
    requires a.id != b.id
  {
    var lb := new LoadBalancer([a, b], LeastConnectionsName);
    AllAvailable(lb.backends);
    assert IsAvailable(lb.backends[0]);
    var r := lb.HandleRequest();
    assert r == Some(0);
    assert lb.backends[1].id == b.id;
    var ok := lb.ToggleBackend(b.id, false);
    assert ok && lb.backends[1].activeConnections == 0;
    r := lb.HandleRequest();
    assert r == Some(0);
    assert lb.backends[0].activeConnections == 2;
  }
}
