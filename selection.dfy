/** Backend selection: the availability filter, round-robin over a modular cursor,
    least-connections as a left-to-right reduction with a strict `<`, and the dispatch
    between them. Backends are named by their position in the registry. */
module Selection {
  import opened Backends

  const RoundRobinName := "round-robin"
  const LeastConnectionsName := "least-connections"

  /** A backend may receive traffic when it is healthy and enabled. */
  predicate IsAvailable(b: Backend)
  {
    b.status == Healthy && b.enabled
  }

  /** Every element of `av` names a backend of the registry. */
  predicate InRegistry(bs: seq<Backend>, av: seq<nat>)
  {
    forall k :: 0 <= k < |av| ==> av[k] < |bs|
  }

  /** Registry positions of the available backends, in registry order. */
  function Available(bs: seq<Backend>): (av: seq<nat>)
    ensures InRegistry(bs, av)
    ensures forall k :: 0 <= k < |av| ==> IsAvailable(bs[av[k]])
    ensures forall i :: 0 <= i < |bs| ==> (i in av <==> IsAvailable(bs[i]))
    ensures forall k, l :: 0 <= k < l < |av| ==> av[k] < av[l]
  {
    if |bs| == 0 then []
    else
      var front := Available(bs[..|bs| - 1]);
      front + (if IsAvailable(bs[|bs| - 1]) then [|bs| - 1] else [])
  }

  /** Availability reads only `status` and `enabled`: registries that agree on those fields
      have the same available list, whatever their counters. */
  lemma {:induction false} AvailableIgnoresCounters(bs: seq<Backend>, cs: seq<Backend>)
    requires |bs| == |cs|
    requires forall i :: 0 <= i < |bs| ==> bs[i].status == cs[i].status && bs[i].enabled == cs[i].enabled
    ensures Available(bs) == Available(cs)
  {
    if |bs| > 0 {
      AvailableIgnoresCounters(bs[..|bs| - 1], cs[..|cs| - 1]);
    }
  }

  /** When every backend is healthy and enabled, the available list is the whole registry. */
  lemma {:induction false} AllAvailable(bs: seq<Backend>)
    requires forall i :: 0 <= i < |bs| ==> IsAvailable(bs[i])
    ensures |Available(bs)| == |bs|
    ensures forall k :: 0 <= k < |bs| ==> Available(bs)[k] == k
  {
    if |bs| > 0 {
      AllAvailable(bs[..|bs| - 1]);
    }
  }

  /** Positions `p` in `av` whose backend has the fewest active connections among the first
      `k` entries, with every earlier entry strictly busier (the first such entry). */
  predicate IsLeastAmong(bs: seq<Backend>, av: seq<nat>, p: nat, k: nat)
    requires InRegistry(bs, av)
    requires p < k <= |av|
  {
    && (forall q :: 0 <= q < k ==> bs[av[p]].activeConnections <= bs[av[q]].activeConnections)
    && (forall q :: 0 <= q < p ==> bs[av[q]].activeConnections > bs[av[p]].activeConnections)
  }

  /** The reduction of least-connections: `best` is the running minimum over `av[..k]`;
      the remaining entries are folded in from left to right, and an entry replaces the
      running minimum only when it has strictly fewer connections. */
  function ReduceLeast(bs: seq<Backend>, av: seq<nat>, best: nat, k: nat): (p: nat)
    requires InRegistry(bs, av)
    requires best < k <= |av|
    requires IsLeastAmong(bs, av, best, k)
    ensures p < |av| && IsLeastAmong(bs, av, p, |av|)
    decreases |av| - k
  {
    if k == |av| then best
    else
      var next := if bs[av[k]].activeConnections < bs[av[best]].activeConnections then k else best;
      ReduceLeast(bs, av, next, k + 1)
  }

  /** Least-connections: none on an empty list, otherwise the first available backend with
      the fewest active connections. */
  function LeastConnections(bs: seq<Backend>, av: seq<nat>): (r: Option<nat>)
    requires InRegistry(bs, av)
    ensures r.None? <==> |av| == 0
    ensures r.Some? ==> exists p :: 0 <= p < |av| && av[p] == r.value && IsLeastAmong(bs, av, p, |av|)
  {
    if |av| == 0 then None
    else
      var p := ReduceLeast(bs, av, 0, 1);
      Some(av[p])
  }

  /** The choice least-connections makes is the only one its contract allows. */
  lemma LeastIsUnique(bs: seq<Backend>, av: seq<nat>, p: nat, p': nat)
    requires InRegistry(bs, av)
    requires p < |av| && p' < |av|
    requires IsLeastAmong(bs, av, p, |av|) && IsLeastAmong(bs, av, p', |av|)
    ensures p == p'
  {
    assert bs[av[p]].activeConnections == bs[av[p']].activeConnections;
    if p < p' {
      assert false;
    } else if p' < p {
      assert false;
    }
  }

  /** Selection by `algorithm` from `cursor`: the chosen registry position (none when no
      backend is available) and the cursor afterwards. "least-connections" selects by
      load; every other name, known or not, selects round-robin. */
  function Select(bs: seq<Backend>, algorithm: string, cursor: nat): (r: (Option<nat>, nat))
    ensures var av := Available(bs);
      && (r.0.None? <==> |av| == 0)
      && (r.0.Some? ==> r.0.value < |bs| && IsAvailable(bs[r.0.value]))
      && (|av| == 0 ==> r.1 == cursor)
      && (algorithm == LeastConnectionsName ==> r.1 == cursor)
      && (algorithm == LeastConnectionsName && r.0.Some? ==>
            forall j :: 0 <= j < |bs| && IsAvailable(bs[j]) ==>
              && bs[r.0.value].activeConnections <= bs[j].activeConnections
              && (j < r.0.value ==> bs[j].activeConnections > bs[r.0.value].activeConnections))
      && (algorithm != LeastConnectionsName && |av| > 0 ==>
            r.0 == Some(av[cursor % |av|]) && r.1 == (cursor + 1) % |av| && r.1 < |av|)
  {
    var av := Available(bs);
    if |av| == 0 then (None, cursor)
    else if algorithm == LeastConnectionsName then
      var r := LeastConnections(bs, av);
      LeastInRegistryOrder(bs, av, r.value);
      (r, cursor)
    else
      (Some(av[cursor % |av|]), (cursor + 1) % |av|)
  }

  /** On the available list, which is in registry order, "first in the list" is "earliest
      registered": least-connections' choice is minimal over all available backends and
      strictly below every available backend registered before it. */
  lemma LeastInRegistryOrder(bs: seq<Backend>, av: seq<nat>, r: nat)
    requires av == Available(bs) && |av| > 0
    requires LeastConnections(bs, av) == Some(r)
    ensures forall j :: 0 <= j < |bs| && IsAvailable(bs[j]) ==>
      && bs[r].activeConnections <= bs[j].activeConnections
      && (j < r ==> bs[j].activeConnections > bs[r].activeConnections)
  {
    var p :| 0 <= p < |av| && av[p] == r && IsLeastAmong(bs, av, p, |av|);
    forall j | 0 <= j < |bs| && IsAvailable(bs[j])
      ensures bs[r].activeConnections <= bs[j].activeConnections
      ensures j < r ==> bs[j].activeConnections > bs[r].activeConnections
    {
      assert j in av;
      var q :| 0 <= q < |av| && av[q] == j;
      assert bs[av[p]].activeConnections <= bs[av[q]].activeConnections;
      if j < r {
        if q >= p {
          assert false;
        }
        assert bs[av[q]].activeConnections > bs[av[p]].activeConnections;
      }
    }
  }

  /** The backends chosen by `k` consecutive selections over an unchanging registry. */
  function Selections(bs: seq<Backend>, algorithm: string, cursor: nat, k: nat): (picks: seq<Option<nat>>)
    ensures |picks| == k
    decreases k
  {
    if k == 0 then []
    else
      var (r, next) := Select(bs, algorithm, cursor);
      [r] + Selections(bs, algorithm, next, k - 1)
  }

  /** Round-robin: the `j`-th of consecutive selections from `cursor` is the available
      backend at position `(cursor + j) mod n`. */
  lemma {:induction false} RoundRobinSelections(bs: seq<Backend>, algorithm: string, cursor: nat, k: nat)
    requires algorithm != LeastConnectionsName
    requires |Available(bs)| > 0
    ensures var av := Available(bs);
      forall j :: 0 <= j < k ==> Selections(bs, algorithm, cursor, k)[j] == Some(av[(cursor + j) % |av|])
    decreases k
  {
    var av := Available(bs);
    var n := |av|;
    if k > 0 {
      var next := (cursor + 1) % n;
      RoundRobinSelections(bs, algorithm, next, k - 1);
      var picks := Selections(bs, algorithm, cursor, k);
      assert picks == [Some(av[cursor % n])] + Selections(bs, algorithm, next, k - 1);
      forall j | 0 <= j < k
        ensures picks[j] == Some(av[(cursor + j) % n])
      {
        if j > 0 {
          ModShift(cursor, j - 1, n);
        }
      }
    }
  }

  lemma ModShift(c: nat, j: nat, n: nat)
    requires n > 0
    ensures ((c + 1) % n + j) % n == (c + j + 1) % n
  {
    var t, s := (c + 1) / n, (c + 1) % n;
    assert c + j + 1 == t * n + (s + j);
    ModAddMultiple(t, s + j, n);
  }

  /** Adding a multiple of `n` does not change the remainder modulo `n`. */
  lemma ModAddMultiple(t: int, y: int, n: int)
    requires n > 0
    ensures (t * n + y) % n == y % n
  {
    var u, v := y / n, y % n;
    assert t * n + y == (t + u) * n + v;
    ModUnique(t * n + y, t + u, v, n);
  }

  /** The remainder is the `r` of any decomposition `x == q * n + r` with `0 <= r < n`. */
  lemma ModUnique(x: int, q: int, r: int, n: int)
    requires n > 0 && 0 <= r < n && x == q * n + r
    ensures x % n == r
  {
    var q', r' := x / n, x % n;
    assert (q - q') * n == r' - r;
    if q > q' {
      MulAtLeast(q - q', n);
    } else if q < q' {
      MulAtLeast(q' - q, n);
    }
  }

  lemma MulAtLeast(a: int, n: int)
    requires a >= 1 && n > 0
    ensures a * n >= n
  {
  }

  /** From a cursor below `n`, `n` consecutive round-robin selections take the available
      backends in rotated order: the list from the cursor on, then the list before it. */
  lemma RoundRobinRotation(bs: seq<Backend>, algorithm: string, cursor: nat)
    requires algorithm != LeastConnectionsName
    requires |Available(bs)| > 0
    requires cursor < |Available(bs)|
    ensures var av := Available(bs); var n := |av|;
      forall j :: 0 <= j < n ==> Selections(bs, algorithm, cursor, n)[j] == Some(av[Rotate(cursor, j, n)])
  {
    var av := Available(bs);
    var n := |av|;
    RoundRobinSelections(bs, algorithm, cursor, n);
    forall j | 0 <= j < n
      ensures (cursor + j) % n == Rotate(cursor, j, n)
    {
      if cursor + j < n {
        ModUnique(cursor + j, 0, cursor + j, n);
      } else {
        ModUnique(cursor + j, 1, cursor + j - n, n);
      }
    }
  }

  /** From cursor 0, `n` consecutive round-robin selections over `n` available backends
      return them in registry order. */
  lemma RoundRobinInOrder(bs: seq<Backend>, algorithm: string)
    requires algorithm != LeastConnectionsName
    requires |Available(bs)| > 0
    ensures var av := Available(bs);
      Selections(bs, algorithm, 0, |av|) == seq(|av|, k requires 0 <= k < |av| => Some(av[k]))
  {
    RoundRobinRotation(bs, algorithm, 0);
  }

  /** From any cursor below `n`, `n` consecutive round-robin selections return each of the
      `n` available backends exactly once. */
  lemma RoundRobinEachOnce(bs: seq<Backend>, algorithm: string, cursor: nat, i: nat)
    requires algorithm != LeastConnectionsName
    requires |Available(bs)| > 0
    requires cursor < |Available(bs)|
    requires i in Available(bs)
    ensures multiset(Selections(bs, algorithm, cursor, |Available(bs)|))[Some(i)] == 1
  {
    var av := Available(bs);
    var n := |av|;
    var picks := Selections(bs, algorithm, cursor, n);
    RoundRobinRotation(bs, algorithm, cursor);
    var q :| 0 <= q < n && av[q] == i;
    var j := if q >= cursor then q - cursor else q + n - cursor;
    assert picks[j] == Some(i);
    forall k | 0 <= k < n && k != j
      ensures picks[k] != picks[j]
    {
      var q' := Rotate(cursor, k, n);
      assert q' != q;
      assert av[q'] != av[q] by {
        if q' < q {} else {}
      }
    }
    CountOnce(picks, j);
  }

  /** Position of the `j`-th round-robin pick from `cursor` among `n` entries, for `cursor`
      and `j` both below `n`. */
  function Rotate(cursor: nat, j: nat, n: nat): nat
  {
    if cursor + j < n then cursor + j else cursor + j - n
  }

  /** A value at one position of a sequence whose other positions all differ from it
      occurs there exactly once. */
  lemma {:induction false} CountOnce<T>(s: seq<T>, j: nat)
    requires j < |s|
    requires forall k :: 0 <= k < |s| && k != j ==> s[k] != s[j]
    ensures multiset(s)[s[j]] == 1
  {
    var x := s[j];
    if j == |s| - 1 {
      assert s == s[..j] + [x];
      assert x !in s[..j];
      assert x !in multiset(s[..j]);
    } else {
      var last := s[|s| - 1];
      assert s == s[..|s| - 1] + [last];
      CountOnce(s[..|s| - 1], j);
    }
  }
}
