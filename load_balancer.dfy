/**
 * The adaptive endpoint selector of the client load balancer.
 *
 * An `EndpointClient` keeps, for each of the endpoints 1, 2 and 3, a rolling
 * window of the last 20 call outcomes and latencies, lifetime success and
 * failure counters and a consecutive-failure counter. It scores every
 * endpoint from those statistics, trips a circuit breaker after three
 * consecutive failures, and routes each call to the best-scoring endpoint,
 * falling back to a random endpoint when every score is poor.
 */
module LoadBalancer {

  /** Capacity of both rolling windows (`deque(maxlen=20)`). */
  const Capacity: nat := 20
  /** Consecutive failures at which the score is forced to 0. */
  const TripThreshold: nat := 3
  /** Average latency at which the latency score reaches 0. */
  const LatencyCeiling: real := 300.0
  const SuccessWeight: real := 0.4
  const LatencyWeight: real := 0.6
  /** Below this best score the selector explores at random. */
  const ExplorationThreshold: real := 0.2

  /** The three endpoint ids the client is built over. */
  type EndpointId = i: int | 1 <= i <= 3 witness 1

  /** One endpoint's statistics, as held in `self.stats[eid]`. */
  datatype Stats = Stats(
    recentSuccess: seq<bool>,
    recentLatency: seq<real>,
    successes: nat,
    failures: nat,
    consecutiveFailures: nat)

  /** The statistics of an endpoint that has never been called. */
  const Fresh: Stats := Stats([], [], 0, 0, 0)

  /** What the backend reports for one call. */
  datatype Outcome = Outcome(success: bool, latency: real)

  // ---------------------------------------------------------------------
  // Rolling windows

  /** The last `Capacity` elements of `s` (all of `s` when it is shorter). */
  function Window<T>(s: seq<T>): seq<T>
  {
    if |s| <= Capacity then s else s[|s| - Capacity..]
  }

  /** `buf.append(x)` on a deque of maximum length `Capacity`. */
  function Push<T>(buf: seq<T>, x: T): (r: seq<T>)
    ensures r == Window(buf + [x])
  {
    if |buf| < Capacity then buf + [x]
    else
      assert (buf + [x])[|buf| + 1 - Capacity..] == buf[|buf| + 1 - Capacity..] + [x];
      buf[|buf| + 1 - Capacity..] + [x]
  }

  /** Windowing the window before appending changes nothing: the deque keeps
      the last `Capacity` values ever appended, in order. */
  lemma {:induction false} PushWindow<T>(s: seq<T>, x: T)
    ensures Push(Window(s), x) == Window(s + [x])
  {
    if |s| > Capacity {
      var w := Window(s);
      assert w + [x] == (s + [x])[|s| - Capacity..];
      assert (w + [x])[1..] == (s + [x])[|s| + 1 - Capacity..];
    }
  }

  // ---------------------------------------------------------------------
  // Counting over a history of outcomes

  /** How many entries of `h` equal `v`. */
  function Occurrences(h: seq<bool>, v: bool): (n: nat)
    ensures n <= |h|
  {
    if h == [] then 0
    else Occurrences(h[..|h| - 1], v) + (if h[|h| - 1] == v then 1 else 0)
  }

  /** Every entry is either a success or a failure. */
  lemma {:induction false} OccurrencesSplit(h: seq<bool>)
    ensures Occurrences(h, true) + Occurrences(h, false) == |h|
  {
    if h != [] {
      OccurrencesSplit(h[..|h| - 1]);
    }
  }

  /** The number of failures at the end of `h`, after its last success. */
  function TrailingFailures(h: seq<bool>): (n: nat)
    ensures n <= |h|
    ensures forall i :: |h| - n <= i < |h| ==> !h[i]
    ensures n < |h| ==> h[|h| - 1 - n]
  {
    if h == [] || h[|h| - 1] then 0 else TrailingFailures(h[..|h| - 1]) + 1
  }

  function Sum(l: seq<real>): real
  {
    if l == [] then 0.0 else Sum(l[..|l| - 1]) + l[|l| - 1]
  }

  function Mean(l: seq<real>): real
    requires l != []
  {
    Sum(l) / |l| as real
  }

  // ---------------------------------------------------------------------
  // Scoring

  function Clamp(x: real): (r: real)
    ensures 0.0 <= r <= 1.0
    ensures 0.0 <= x <= 1.0 ==> r == x
  {
    if x < 0.0 then 0.0 else if x > 1.0 then 1.0 else x
  }

  /** Fraction of successes in the window; 1.0 when the window is empty. */
  function SuccessRate(b: seq<bool>): (r: real)
    ensures 0.0 <= r <= 1.0
    ensures b == [] ==> r == 1.0
    ensures b != [] ==> r * |b| as real == Occurrences(b, true) as real
  {
    if b == [] then 1.0 else Occurrences(b, true) as real / |b| as real
  }

  /** `clamp((300 - avg) / 300, 0, 1)`; 1.0 when the window is empty. */
  function LatencyScore(l: seq<real>): (r: real)
    ensures 0.0 <= r <= 1.0
    ensures l == [] ==> r == 1.0
    ensures l != [] && Mean(l) <= 0.0 ==> r == 1.0
    ensures l != [] && Mean(l) >= LatencyCeiling ==> r == 0.0
  {
    if l == [] then 1.0 else Clamp((LatencyCeiling - Mean(l)) / LatencyCeiling)
  }

  /** `get_score` on one endpoint's statistics. */
  function Score(s: Stats): (r: real)
    ensures 0.0 <= r <= 1.0
    ensures s.consecutiveFailures >= TripThreshold ==> r == 0.0
    ensures s.consecutiveFailures < TripThreshold && s.recentSuccess == [] && s.recentLatency == []
            ==> r == 1.0
    ensures s.consecutiveFailures < TripThreshold ==> r >= SuccessWeight * SuccessRate(s.recentSuccess)
  {
    if s.consecutiveFailures >= TripThreshold then 0.0
    else SuccessWeight * SuccessRate(s.recentSuccess) + LatencyWeight * LatencyScore(s.recentLatency)
  }

  /** A higher success rate never lowers the score, all else fixed. */
  lemma ScoreMonotoneInSuccessRate(s: Stats, t: Stats)
    requires s.consecutiveFailures == t.consecutiveFailures && s.recentLatency == t.recentLatency
    requires SuccessRate(s.recentSuccess) <= SuccessRate(t.recentSuccess)
    ensures Score(s) <= Score(t)
  {
  }

  /** A lower average latency never lowers the score, all else fixed. */
  lemma ScoreMonotoneInLatency(s: Stats, t: Stats)
    requires s.consecutiveFailures == t.consecutiveFailures && s.recentSuccess == t.recentSuccess
    requires s.recentLatency != [] && t.recentLatency != []
    requires Mean(t.recentLatency) <= Mean(s.recentLatency)
    ensures Score(s) <= Score(t)
  {
  }

  // ---------------------------------------------------------------------
  // Selection

  /** The scores of endpoints 1, 2 and 3. */
  datatype Scores = Scores(s1: real, s2: real, s3: real) {
    function Of(e: EndpointId): real
    {
      if e == 1 then s1 else if e == 2 then s2 else s3
    }
  }

  /** `max(scores, key=scores.get)` over ids in order 1, 2, 3: the first id of
      maximal score. */
  function FirstMax(sc: Scores): (best: EndpointId)
    ensures forall e: EndpointId :: sc.Of(e) <= sc.Of(best)
    ensures forall e: EndpointId :: e < best ==> sc.Of(e) < sc.Of(best)
  {
    var b: EndpointId := if sc.s2 > sc.s1 then 2 else 1;
    if sc.s3 > sc.Of(b) then 3 else b
  }

  /** The selection rule of `pick_best_endpoint`; `fallback` stands for the
      value `random.choice([1, 2, 3])` would return. */
  function PickBest(sc: Scores, fallback: EndpointId): (r: EndpointId)
    ensures (exists e: EndpointId :: sc.Of(e) >= ExplorationThreshold) ==>
              (forall e: EndpointId :: sc.Of(e) <= sc.Of(r)) &&
              (forall e: EndpointId :: e < r ==> sc.Of(e) < sc.Of(r))
    ensures (forall e: EndpointId :: sc.Of(e) < ExplorationThreshold) ==> r == fallback
  {
    var best := FirstMax(sc);
    if sc.Of(best) < ExplorationThreshold then fallback else best
  }

  // ---------------------------------------------------------------------
  // The statistics table and its update

  type Table = map<EndpointId, Stats>

  /** `m` has an entry for each of the three endpoints. */
  ghost predicate Complete<V>(m: map<EndpointId, V>)
  {
    forall e: EndpointId :: e in m
  }

  function ScoresOf(m: Table): Scores
    requires Complete(m)
  {
    Scores(Score(m[1]), Score(m[2]), Score(m[3]))
  }

  /** `update_stats` on one endpoint's statistics. */
  function Record(s: Stats, success: bool, latency: real): (r: Stats)
    ensures r.recentSuccess == Push(s.recentSuccess, success)
    ensures r.recentLatency == Push(s.recentLatency, latency)
    ensures success ==> r.successes == s.successes + 1 && r.failures == s.failures &&
                        r.consecutiveFailures == 0
    ensures !success ==> r.successes == s.successes && r.failures == s.failures + 1 &&
                         r.consecutiveFailures == s.consecutiveFailures + 1
  {
    if success then
      Stats(Push(s.recentSuccess, true), Push(s.recentLatency, latency),
            s.successes + 1, s.failures, 0)
    else
      Stats(Push(s.recentSuccess, false), Push(s.recentLatency, latency),
            s.successes, s.failures + 1, s.consecutiveFailures + 1)
  }

  /** `s` is exactly what recording the outcomes `h` with latencies `l`, in
      order, produces: the windows hold the last entries of both histories,
      the counters count them and `consecutiveFailures` is the number of
      failures since the last success. */
  ghost predicate Tracks(s: Stats, h: seq<bool>, l: seq<real>)
  {
    |h| == |l| &&
    s.recentSuccess == Window(h) && s.recentLatency == Window(l) &&
    s.successes == Occurrences(h, true) && s.failures == Occurrences(h, false) &&
    s.consecutiveFailures == TrailingFailures(h)
  }

  lemma FreshTracksNothing()
    ensures Tracks(Fresh, [], [])
  {
  }

  /** Recording an outcome extends the tracked histories by that outcome. */
  lemma {:induction false} RecordTracks(s: Stats, h: seq<bool>, l: seq<real>, success: bool, latency: real)
    requires Tracks(s, h, l)
    ensures Tracks(Record(s, success, latency), h + [success], l + [latency])
  {
    PushWindow(h, success);
    PushWindow(l, latency);
    assert (h + [success])[..|h|] == h;
  }

  /** What tracking implies about one endpoint's statistics. */
  lemma {:induction false} TracksBounds(s: Stats, h: seq<bool>, l: seq<real>)
    requires Tracks(s, h, l)
    ensures |s.recentSuccess| == |s.recentLatency| <= Capacity
    ensures |s.recentSuccess| == (if |h| <= Capacity then |h| else Capacity)
    ensures s.recentSuccess == h[|h| - |s.recentSuccess|..]
    ensures s.recentLatency == l[|l| - |s.recentLatency|..]
    ensures s.successes + s.failures == |h|
    ensures s.consecutiveFailures <= |h|
  {
    OccurrencesSplit(h);
  }

  /** The number of outcomes recorded over all endpoints. */
  ghost function Recorded(o: map<EndpointId, seq<bool>>): nat
    requires Complete(o)
  {
    |o[1]| + |o[2]| + |o[3]|
  }

  lemma RecordedGrows(o: map<EndpointId, seq<bool>>, eid: EndpointId, success: bool)
    requires Complete(o)
    ensures Recorded(o[eid := o[eid] + [success]]) == Recorded(o) + 1
  {
  }

  /** Each endpoint's history in `o'` starts with its history in `o`. */
  ghost predicate HistoryExtends(o: map<EndpointId, seq<bool>>, o': map<EndpointId, seq<bool>>)
    requires Complete(o) && Complete(o')
  {
    o[1] <= o'[1] && o[2] <= o'[2] && o[3] <= o'[3]
  }

  lemma HistoryExtendsRecord(o0: map<EndpointId, seq<bool>>, o: map<EndpointId, seq<bool>>,
                             eid: EndpointId, success: bool)
    requires Complete(o0) && Complete(o) && HistoryExtends(o0, o)
    ensures HistoryExtends(o0, o[eid := o[eid] + [success]])
  {
  }

  /** The statistics of endpoint `e` are those its recorded history produces. */
  ghost predicate TracksAt(m: Table, o: map<EndpointId, seq<bool>>, l: map<EndpointId, seq<real>>, e: EndpointId)
  {
    e in m && e in o && e in l && Tracks(m[e], o[e], l[e])
  }

  ghost predicate TableTracks(m: Table, o: map<EndpointId, seq<bool>>, l: map<EndpointId, seq<real>>)
  {
    TracksAt(m, o, l, 1) && TracksAt(m, o, l, 2) && TracksAt(m, o, l, 3)
  }

  /** Recording an outcome for `eid` keeps the whole table in step with the
      histories, and touches no other endpoint. */
  lemma TableTracksRecord(m: Table, o: map<EndpointId, seq<bool>>, l: map<EndpointId, seq<real>>,
                          eid: EndpointId, success: bool, latency: real)
    requires TableTracks(m, o, l)
    ensures TableTracks(m[eid := Record(m[eid], success, latency)],
                        o[eid := o[eid] + [success]], l[eid := l[eid] + [latency]])
  {
    RecordTracks(m[eid], o[eid], l[eid], success, latency);
  }

  // ---------------------------------------------------------------------
  // The client

  class EndpointClient {
    /** `self.stats`, one record per endpoint id. */
    var stats: Table
    /** Every outcome recorded for each endpoint, oldest first. */
    ghost var outcomes: map<EndpointId, seq<bool>>
    /** Every latency recorded for each endpoint, oldest first. */
    ghost var latencies: map<EndpointId, seq<real>>

    /** Every endpoint's statistics are those its recorded history produces. */
    ghost predicate Valid()
      reads this
    {
      Complete(stats) && Complete(outcomes) && Complete(latencies) &&
      TableTracks(stats, outcomes, latencies)
    }


    /** `__init__`: every endpoint starts with empty windows and zero counters. */
    constructor ()
      ensures Valid()
      ensures forall e: EndpointId :: stats[e] == Fresh && outcomes[e] == [] && latencies[e] == []
    {
      stats := map[1 := Fresh, 2 := Fresh, 3 := Fresh];
      outcomes := map[1 := [], 2 := [], 3 := []];
      latencies := map[1 := [], 2 := [], 3 := []];
      FreshTracksNothing();
    }

    /** `get_score(eid)`. */
    function GetScore(eid: EndpointId): (r: real)
      reads this
      requires Valid()
      ensures 0.0 <= r <= 1.0
      ensures TrailingFailures(outcomes[eid]) >= TripThreshold ==> r == 0.0
      ensures outcomes[eid] == [] ==> r == 1.0
      ensures r == Score(stats[eid])
    {
      Score(stats[eid])
    }

    /** `pick_best_endpoint()`; `fallback` is the id the random choice returns. */
    function PickBestEndpoint(fallback: EndpointId): (r: EndpointId)
      reads this
      requires Valid()
      ensures (exists e: EndpointId :: GetScore(e) >= ExplorationThreshold) ==>
                (forall e: EndpointId :: GetScore(e) <= GetScore(r)) &&
                (forall e: EndpointId :: e < r ==> GetScore(e) < GetScore(r))
      ensures (forall e: EndpointId :: GetScore(e) < ExplorationThreshold) ==> r == fallback
      ensures r == PickBest(ScoresOf(stats), fallback)
    {
      var sc := Scores(GetScore(1), GetScore(2), GetScore(3));
      assert forall e: EndpointId :: GetScore(e) == sc.Of(e);
      PickBest(sc, fallback)
    }

    /** `update_stats(eid, success, latency)`. */
    method UpdateStats(eid: EndpointId, success: bool, latency: real)
      requires Valid()
      modifies this
      ensures Valid()
      ensures stats == old(stats)[eid := Record(old(stats)[eid], success, latency)]
      ensures outcomes == old(outcomes)[eid := old(outcomes)[eid] + [success]]
      ensures latencies == old(latencies)[eid := old(latencies)[eid] + [latency]]
      ensures Recorded(outcomes) == Recorded(old(outcomes)) + 1
    {
      var s := stats[eid];
      var recentSuccess := Push(s.recentSuccess, success);
      var recentLatency := Push(s.recentLatency, latency);
      var successes, failures, consecutive := s.successes, s.failures, s.consecutiveFailures;
      if success {
        successes := successes + 1;
        consecutive := 0;
      } else {
        consecutive := consecutive + 1;
        failures := failures + 1;
      }
      var updated := Stats(recentSuccess, recentLatency, successes, failures, consecutive);
      assert updated == Record(s, success, latency);
      TableTracksRecord(stats, outcomes, latencies, eid, success, latency);
      stats := stats[eid := updated];
      outcomes := outcomes[eid := outcomes[eid] + [success]];
      latencies := latencies[eid := latencies[eid] + [latency]];
      RecordedGrows(old(outcomes), eid, success);
    }

    /** `call(runs)`: each round picks an endpoint, asks the backend and
        records the outcome. `server(i, eid)` is the backend's answer in round
        `i`; `coin(i)` is the random choice that round would make. */
    method Call(runs: nat, server: (nat, EndpointId) -> Outcome, coin: nat -> EndpointId)
      requires Valid()
      modifies this
      ensures Valid()
      ensures stats == Simulate(old(stats), server, coin, runs)
      ensures Recorded(outcomes) == Recorded(old(outcomes)) + runs
      ensures HistoryExtends(old(outcomes), outcomes)
    {
      var i := 0;
      while i < runs
        invariant 0 <= i <= runs
        invariant Valid()
        invariant stats == Simulate(old(stats), server, coin, i)
        invariant Recorded(outcomes) == Recorded(old(outcomes)) + i
        invariant HistoryExtends(old(outcomes), outcomes)
      {
        var eid := PickBestEndpoint(coin(i));
        var o := server(i, eid);
        HistoryExtendsRecord(old(outcomes), outcomes, eid, o.success);
        UpdateStats(eid, o.success, o.latency);
        SimulateNext(old(stats), server, coin, i);
        assert stats == Simulate(old(stats), server, coin, i + 1);
        i := i + 1;
      }
    }
  }

  /** The number of calls a table has recorded over all endpoints. */
  function Calls(m: Table): nat
    requires Complete(m)
  {
    m[1].successes + m[1].failures + m[2].successes + m[2].failures +
    m[3].successes + m[3].failures
  }

  /** One round of the feedback loop on a statistics table: only the picked
      endpoint's statistics change, and one more call is recorded. */
  function Step(m: Table, server: (nat, EndpointId) -> Outcome, coin: nat -> EndpointId, i: nat): (m': Table)
    requires Complete(m)
    ensures Complete(m')
    ensures forall e: EndpointId :: e != PickBest(ScoresOf(m), coin(i)) ==> m'[e] == m[e]
    ensures Calls(m') == Calls(m) + 1
  {
    var eid := PickBest(ScoresOf(m), coin(i));
    var o := server(i, eid);
    m[eid := Record(m[eid], o.success, o.latency)]
  }

  /** The table after the first `n` rounds of the feedback loop. */
  function Simulate(m: Table, server: (nat, EndpointId) -> Outcome, coin: nat -> EndpointId, n: nat): (m': Table)
    requires Complete(m)
    ensures Complete(m')
    ensures Calls(m') == Calls(m) + n
  {
    if n == 0 then m else Step(Simulate(m, server, coin, n - 1), server, coin, n - 1)
  }

  /** Round `i` records the backend's answer for the endpoint the selection
      rule picks from the table left by the earlier rounds. */
  lemma SimulateNext(m: Table, server: (nat, EndpointId) -> Outcome, coin: nat -> EndpointId, i: nat)
    requires Complete(m)
    ensures var prev := Simulate(m, server, coin, i);
            var eid := PickBest(ScoresOf(prev), coin(i));
            Simulate(m, server, coin, i + 1) ==
            prev[eid := Record(prev[eid], server(i, eid).success, server(i, eid).latency)]
  {
  }

  // ---------------------------------------------------------------------
  // Properties of whole runs

  /** Recording a success closes a tripped breaker at once: the counter is
      reset and the very next score is positive, whatever the windows hold. */
  lemma {:induction false} SuccessClosesBreaker(s: Stats, latency: real)
    ensures Record(s, true, latency).consecutiveFailures == 0
    ensures Score(Record(s, true, latency)) > 0.0
  {
    var w := Record(s, true, latency).recentSuccess;
    var b := s.recentSuccess + [true];
    assert w == Window(b);
    assert w != [] && w[|w| - 1] == b[|b| - 1];
    OccurrencesLastTrue(w);
    SuccessRatePositive(w);
  }

  lemma {:induction false} OccurrencesLastTrue(w: seq<bool>)
    requires w != [] && w[|w| - 1]
    ensures Occurrences(w, true) >= 1
  {
  }

  /** A window with a success has a positive success rate. */
  lemma SuccessRatePositive(w: seq<bool>)
    requires Occurrences(w, true) >= 1
    ensures SuccessRate(w) > 0.0
  {
    assert SuccessRate(w) * |w| as real >= 1.0;
  }

  /** The worked example: a perfect endpoint at latency 100 (score 0.8) beats a
      half-failing endpoint at latency 50 (score 0.7) and a tripped one. */
  lemma ExampleSelection(fallback: EndpointId)
    ensures Score(Stats([true, false], [50.0, 50.0], 1, 1, 1)) == 0.7
    ensures Score(Stats([true], [100.0], 1, 0, 0)) == 0.8
    ensures Score(Stats([false, false, false], [10.0, 10.0, 10.0], 0, 3, 3)) == 0.0
    ensures PickBest(Scores(0.7, 0.8, 0.0), fallback) == 2
  {
    var half := [true, false];
    assert half[..1] == [true];
    assert Occurrences(half, true) == 1;
    assert Sum([50.0, 50.0]) == 100.0 by {
      assert [50.0, 50.0][..1] == [50.0];
    }
    assert Sum([100.0]) == 100.0 by {
      assert [100.0][..0] == [];
    }
    assert Occurrences([true], true) == 1 by {
      assert [true][..0] == [];
    }
  }

  /** A tripped endpoint is left alone while some other endpoint scores at
      least the exploration threshold: it is not picked, so its statistics,
      and with them its zero score, stay as they are. */
  lemma TrippedStaysTripped(m: Table, server: (nat, EndpointId) -> Outcome, coin: nat -> EndpointId,
                            i: nat, e: EndpointId, healthy: EndpointId)
    requires Complete(m)
    requires m[e].consecutiveFailures >= TripThreshold
    requires Score(m[healthy]) >= ExplorationThreshold
    ensures PickBest(ScoresOf(m), coin(i)) != e
    ensures Step(m, server, coin, i)[e] == m[e]
  {
    var sc := ScoresOf(m);
    assert sc.Of(e) == 0.0;
    assert sc.Of(healthy) >= ExplorationThreshold;
  }

  /** Some endpoint of `m` scores at least the exploration threshold. */
  ghost predicate SomeHealthy(m: Table)
    requires Complete(m)
  {
    exists h: EndpointId :: Score(m[h]) >= ExplorationThreshold
  }

  /** Each of the first `n` rounds starts from a table with a healthy endpoint. */
  ghost predicate HealthyRounds(m: Table, server: (nat, EndpointId) -> Outcome,
                                coin: nat -> EndpointId, n: nat)
    requires Complete(m)
  {
    n == 0 || (HealthyRounds(m, server, coin, n - 1) && SomeHealthy(Simulate(m, server, coin, n - 1)))
  }

  /** Over a whole run of `n` rounds, a tripped endpoint is never picked and
      keeps its statistics, and so its zero score, as long as some endpoint
      scores at least the exploration threshold at the start of every round. */
  lemma {:induction false} TrippedStaysTrippedRun(m: Table, server: (nat, EndpointId) -> Outcome,
                                                  coin: nat -> EndpointId, n: nat, e: EndpointId)
    requires Complete(m)
    requires m[e].consecutiveFailures >= TripThreshold
    requires HealthyRounds(m, server, coin, n)
    ensures Simulate(m, server, coin, n)[e] == m[e]
    ensures forall k :: 0 <= k < n ==> PickBest(ScoresOf(Simulate(m, server, coin, k)), coin(k)) != e
  {
    if n > 0 {
      var k: nat := n - 1;
      assert HealthyRounds(m, server, coin, k) && SomeHealthy(Simulate(m, server, coin, k)) by {
        assert HealthyRounds(m, server, coin, k + 1) ==>
               HealthyRounds(m, server, coin, k) && SomeHealthy(Simulate(m, server, coin, k));
      }
      TrippedStaysTrippedRun(m, server, coin, k, e);
      var prev := Simulate(m, server, coin, k);
      assert PickBest(ScoresOf(prev), coin(k)) != e && Step(prev, server, coin, k)[e] == prev[e] by {
        var h :| Score(prev[h]) >= ExplorationThreshold;
        TrippedStaysTripped(prev, server, coin, k, e, h);
      }
      assert Simulate(m, server, coin, k + 1) == Step(prev, server, coin, k);
      forall j | 0 <= j < n
        ensures PickBest(ScoresOf(Simulate(m, server, coin, j)), coin(j)) != e
      {
        if j == k {
          assert Simulate(m, server, coin, j) == prev;
        }
      }
    }
  }

  /** When every endpoint is tripped, every id can be returned: which one is
      up to the random choice. */
  lemma AllTrippedExplores(m: Table, fallback: EndpointId)
    requires Complete(m)
    requires forall e: EndpointId :: m[e].consecutiveFailures >= TripThreshold
    ensures PickBest(ScoresOf(m), fallback) == fallback
  {
    var sc := ScoresOf(m);
    assert sc.Of(1) == 0.0 && sc.Of(2) == 0.0 && sc.Of(3) == 0.0;
  }
}
