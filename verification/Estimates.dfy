/** The wait a submitter is told to expect: `recent_mean_runtime` of queue.py and `_compute_eta` of
    server.py, compared with a simulation of the serial queue.  Durations are real numbers of seconds. */
module Estimates {
  import opened Common
  import opened Jobs
  import opened Machine
  import opened Invariants
  import PriorityQueue

  function Seconds(d: int): real { d as real / 1000000.0 }

  // ---- the mean of the last runtimes ---------------------------------------------------------------

  predicate Sampled(t: Table, tag: string, id: JobId)
    requires id in t
  {
    t[id].state.Done? && t[id].started.Some? && t[id].finished.Some? && (tag != "" ==> t[id].work.tag == tag)
  }

  function Samples(t: Table, tag: string): set<JobId> { set k | k in t && Sampled(t, tag, k) }

  /** The same rows with the finishing time as the sort key: `ORDER BY finished_at DESC`. */
  function ByFinish(t: Table): Table
  {
    map k | k in t :: t[k].(priority := t[k].finished.GetOr(0))
  }

  /** The first `limit` rows of the query. */
  function Latest(t: Table, tag: string, limit: nat): (ids: seq<JobId>)
    ensures forall k :: k in ids ==> k in t && Sampled(t, tag, k)
  {
    var all := Order(ByFinish(t), Samples(t, tag));
    if |all| <= limit then all else
      assert forall k :: k in all[..limit] ==> k in all;
      all[..limit]
  }

  /** No sample that was left out finished after one that was kept; none is left out while there is room. */
  lemma LatestAreLatest(t: Table, tag: string, limit: nat, kept: JobId, left: JobId)
    requires kept in Latest(t, tag, limit)
    requires left in t && Sampled(t, tag, left) && left !in Latest(t, tag, limit)
    ensures t[left].finished.value <= t[kept].finished.value
    ensures |Latest(t, tag, limit)| == limit
  {
    var all := Order(ByFinish(t), Samples(t, tag));
    assert left in all;
    var i :| 0 <= i < |all| && all[i] == left;
    var j :| 0 <= j < |Latest(t, tag, limit)| && Latest(t, tag, limit)[j] == kept;
    assert i >= limit by {
      assert forall k :: 0 <= k < limit && k < |all| ==> Latest(t, tag, limit)[k] == all[k];
    }
    assert all[j] == kept && Before(ByFinish(t), all[j], all[i]);
  }

  function Runtime(r: Row): real
    requires r.started.Some? && r.finished.Some?
  {
    Seconds(r.finished.value - r.started.value)
  }

  ghost predicate HasRuntimes(t: Table, ids: seq<JobId>)
  {
    forall k :: k in ids ==> k in t && t[k].started.Some? && t[k].finished.Some?
  }

  function Runtimes(t: Table, ids: seq<JobId>): (ds: seq<real>)
    requires forall k :: k in ids ==> k in t && t[k].started.Some? && t[k].finished.Some?
    ensures |ds| == |ids|
  {
    if ids == [] then [] else [Runtime(t[ids[0]])] + Runtimes(t, ids[1..])
  }

  function Sum(ds: seq<real>): real { if ds == [] then 0.0 else ds[0] + Sum(ds[1..]) }

  lemma {:induction false} SumAppend(ds: seq<real>, d: real)
    ensures Sum(ds + [d]) == Sum(ds) + d
  {
    if ds == [] {
      assert ds + [d] == [d];
    } else {
      assert (ds + [d])[1..] == ds[1..] + [d];
      SumAppend(ds[1..], d);
    }
  }

  lemma {:induction false} RuntimeAt(t: Table, ids: seq<JobId>, i: nat)
    requires HasRuntimes(t, ids) && i < |ids|
    ensures ids[i] in ids && Runtimes(t, ids)[i] == Runtime(t[ids[i]])
  {
    assert ids[i] in ids;
    if i > 0 { RuntimeAt(t, ids[1..], i - 1); }
  }

  lemma RuntimeNext(t: Table, ids: seq<JobId>, i: nat)
    requires HasRuntimes(t, ids) && i < |ids|
    ensures ids[i] in ids && Runtimes(t, ids)[..i + 1] == Runtimes(t, ids)[..i] + [Runtime(t[ids[i]])]
  {
    RuntimeAt(t, ids, i);
  }

  function MeanOf(ds: seq<real>): Option<real>
  {
    if |ds| < 3 then None else Some(Sum(ds) / |ds| as real)
  }

  lemma {:induction false} SumIsBetween(ds: seq<real>, lo: real, hi: real)
    requires forall k :: 0 <= k < |ds| ==> lo <= ds[k] <= hi
    ensures lo * |ds| as real <= Sum(ds) <= hi * |ds| as real
  {
    if ds != [] {
      var n := |ds[1..]| as real;
      assert |ds| as real == n + 1.0;
      OneMoreTime(lo, n);
      OneMoreTime(hi, n);
      SumIsBetween(ds[1..], lo, hi);
    }
  }

  lemma OneMoreTime(a: real, n: real)
    ensures a * (n + 1.0) == a * n + a
  {
  }

  /** A mean lies between the smallest and the largest of its samples: between any bounds they have. */
  lemma MeanIsBetween(ds: seq<real>, lo: real, hi: real)
    requires |ds| >= 3
    requires forall k :: 0 <= k < |ds| ==> lo <= ds[k] <= hi
    ensures MeanOf(ds).Some? && lo <= MeanOf(ds).value <= hi
  {
    SumIsBetween(ds, lo, hi);
    Divided(lo, Sum(ds), |ds| as real);
    Divided(hi, Sum(ds), |ds| as real);
  }

  lemma Divided(a: real, sum: real, n: real)
    requires n > 0.0
    ensures a * n <= sum ==> a <= sum / n
    ensures sum <= a * n ==> sum / n <= a
  {
    var m := sum / n;
    assert m * n == sum;
    assert a * n - m * n == (a - m) * n;
    if a > m { Positive(a - m, n); }
    if a < m { Positive(m - a, n); assert (m - a) * n == m * n - a * n; }
  }

  lemma Positive(a: real, n: real)
    requires a > 0.0 && n > 0.0
    ensures a * n > 0.0
  {
  }

  /** Fewer than three samples give no mean. */
  method RecentMean(t: Table, tag: string, limit: nat) returns (mean: Option<real>)
    ensures mean == MeanOf(Runtimes(t, Latest(t, tag, limit)))
    ensures mean.Some? <==> |Latest(t, tag, limit)| >= 3
  {
    var rows := Latest(t, tag, limit);
    var durations: seq<real> := [];
    var sum := 0.0;
    for i := 0 to |rows|
      invariant |durations| == i && durations == Runtimes(t, rows)[..i]
      invariant sum == Sum(durations)
    {
      RuntimeNext(t, rows, i);
      SumAppend(durations, Runtime(t[rows[i]]));
      sum := sum + Runtime(t[rows[i]]);
      durations := durations + [Runtime(t[rows[i]])];
    }
    assert durations == Runtimes(t, rows);
    mean := if |durations| < 3 then None else Some(sum / |durations| as real);
  }

  // ---- the estimate --------------------------------------------------------------------------------

  const LIMIT := 10

  function Recent(t: Table, tag: string): seq<real> { Runtimes(t, Latest(t, tag, LIMIT)) }

  /** The samples of this tag, or those of all tags when this one has too few. */
  function SamplesFor(t: Table, tag: string): seq<real>
  {
    if |Recent(t, tag)| >= 3 then Recent(t, tag) else Recent(t, "")
  }

  function MeanFor(t: Table, tag: string): Option<real> { MeanOf(SamplesFor(t, tag)) }

  /** The mean of the ten latest samples, of all there are if they are fewer, and none below three. */
  ghost predicate MeanOfTen(t: Table, tag: string, mean: Option<real>)
  {
    var ids, n := Latest(t, tag, 10), |Samples(t, tag)|;
    && |ids| == (if n < 10 then n else 10)
    && (mean.Some? <==> n >= 3)
    && (mean.Some? ==> mean.value == Sum(Runtimes(t, ids)) / |ids| as real)
  }

  /** The samples are those of the tag, or, when these are fewer than three, those of all jobs. */
  lemma MeanForExactly(t: Table, tag: string)
    ensures MeanOfTen(t, if |Samples(t, tag)| >= 3 then tag else "", MeanFor(t, tag))
  {
    MeanOfLatest(t, tag);
    MeanOfLatest(t, "");
    LatestSize(t, tag, 10);
  }

  lemma MeanOfLatest(t: Table, tag: string)
    ensures MeanOfTen(t, tag, MeanOf(Recent(t, tag)))
  {
    LatestSize(t, tag, 10);
  }

  lemma LatestSize(t: Table, tag: string, limit: nat)
    ensures |Latest(t, tag, limit)| == if |Samples(t, tag)| < limit then |Samples(t, tag)| else limit
  {
    OrderHasAll(ByFinish(t), Samples(t, tag));
  }

  /** Which rows are samples, in any reachable state: the done ones with this tag, or all done ones. */
  lemma SampledExactly(s: State, tag: string, id: JobId)
    requires Sound(s)
    ensures id in Samples(s.rows, tag) <==>
            id in s.rows && s.rows[id].state == Done && (tag == "" || s.rows[id].work.tag == tag)
  {
    if id in s.rows { assert RowSound(s, id); }
  }

  function Max(a: real, b: real): real { if a >= b then a else b }

  datatype Eta = Eta(running: real, start: real)

  function Places(pos: Option<nat>): nat { if pos.Some? && pos.value > 0 then pos.value - 1 else 0 }

  /** One mean for each job ahead. */
  function Behind(running: real, pos: Option<nat>, mean: real): Eta
  {
    Eta(running, running + Places(pos) as real * mean)
  }

  /** The current job needs the mean less its age. */
  function Remaining(t: Table, current: Option<JobId>, mean: real, now: Stamp): real
  {
    if current.Some? && current.value in t && t[current.value].started.Some? then
      Max(mean - Seconds(now - t[current.value].started.value), 0.0)
    else 0.0
  }

  function EtaOf(t: Table, current: Option<JobId>, tag: string, pos: Option<nat>, now: Stamp): Option<Eta>
  {
    match MeanFor(t, tag)
    case None => None
    case Some(mean) => Some(Behind(Remaining(t, current, mean, now), pos, mean))
  }

  method MeanWithFallback(t: Table, tag: string) returns (mean: Option<real>)
    ensures mean == MeanFor(t, tag)
  {
    mean := RecentMean(t, tag, LIMIT);
    if mean.None? { mean := RecentMean(t, "", LIMIT); }
  }

  method ComputeEta(t: Table, current: Option<JobId>, tag: string, pos: Option<nat>, now: Stamp)
    returns (eta: Option<Eta>)
    ensures eta == EtaOf(t, current, tag, pos, now)
  {
    var mean := MeanWithFallback(t, tag);
    if mean.None? { return None; }
    var left := 0.0;
    if current.Some? {
      if current.value in t && t[current.value].started.Some? {
        var age := Seconds(now - t[current.value].started.value);
        left := Max(mean.value - age, 0.0);
      }
    }
    eta := Some(Behind(left, pos, mean.value));
  }

  lemma {:induction false} SumIsPositive(ds: seq<real>)
    requires ds != [] && forall k :: 0 <= k < |ds| ==> ds[k] > 0.0
    ensures Sum(ds) > 0.0
  {
    if |ds| > 1 { SumIsPositive(ds[1..]); }
  }

  lemma RuntimesArePositive(s: State, ids: seq<JobId>)
    requires Sound(s) && HasRuntimes(s.rows, ids)
    ensures forall i :: 0 <= i < |ids| ==> Runtimes(s.rows, ids)[i] > 0.0
  {
    forall i | 0 <= i < |ids| ensures Runtimes(s.rows, ids)[i] > 0.0 {
      RuntimeAt(s.rows, ids, i);
      assert RowSound(s, ids[i]);
    }
  }

  /** In every reachable state the mean is the mean of positive runtimes. */
  lemma MeanIsPositive(s: State, tag: string)
    requires Sound(s)
    ensures MeanFor(s.rows, tag).Some? ==> MeanFor(s.rows, tag).value > 0.0
  {
    RuntimesArePositive(s, Latest(s.rows, tag, LIMIT));
    RuntimesArePositive(s, Latest(s.rows, "", LIMIT));
    MeanOfPositive(SamplesFor(s.rows, tag));
  }

  lemma MeanOfPositive(ds: seq<real>)
    requires forall k :: 0 <= k < |ds| ==> ds[k] > 0.0
    ensures MeanOf(ds).Some? ==> MeanOf(ds).value > 0.0
  {
    if |ds| >= 3 { SumIsPositive(ds); }
  }

  lemma BehindIsOrdered(running: real, pos: nat, mean: real)
    requires running >= 0.0 && mean > 0.0
    ensures Behind(running, Some(pos), mean).start >= running
    ensures pos > 0 ==> Behind(running, Some(pos + 1), mean).start == Behind(running, Some(pos), mean).start + mean
    ensures Behind(running, Some(1), mean).start == running
  {
    var n := Places(Some(pos)) as real;
    assert n * mean >= 0.0;
    assert (n + 1.0) * mean == n * mean + mean;
  }

  /** Never negative, never before the current job is over: the first in line starts then, and each place
      back is one mean later. */
  lemma EtaIsOrdered(s: State, tag: string, pos: nat, mean: real, now: Stamp)
    requires Sound(s) && MeanFor(s.rows, tag) == Some(mean)
    ensures var e := EtaOf(s.rows, s.current, tag, Some(pos), now);
            var later := EtaOf(s.rows, s.current, tag, Some(pos + 1), now);
            && e.Some? && 0.0 <= e.value.running <= e.value.start
            && (pos > 0 ==> later == Some(Eta(e.value.running, e.value.start + mean)))
            && (pos == 1 ==> e.value.start == e.value.running)
  {
    MeanIsPositive(s, tag);
    var left := Remaining(s.rows, s.current, mean, now);
    BehindIsOrdered(left, pos, mean);
    assert EtaOf(s.rows, s.current, tag, Some(pos), now) == Some(Behind(left, Some(pos), mean));
    assert EtaOf(s.rows, s.current, tag, Some(pos + 1), now) == Some(Behind(left, Some(pos + 1), mean));
  }

  // ---- the serial queue, simulated -----------------------------------------------------------------

  /** When the job at index `i` of the queue is popped, if the scheduler next goes round at `free` and
      each job takes its own runtime. */
  function PopTime(q: seq<JobId>, runtime: JobId -> real, free: real, i: nat): real
    requires i < |q|
  {
    if i == 0 then free else PopTime(q[1..], runtime, free + runtime(q[0]), i - 1)
  }

  /** How long the scheduler is still busy with the job it has taken out of the queue and, if that job is
      running, started at `since`. */
  function BusyFor(s: State, runtime: JobId -> real, since: Stamp, now: Stamp): real
    requires Busy(s)
  {
    if s.pc.Executing? then Max(runtime(s.pc.job) - Seconds(now - since), 0.0) else runtime(s.pc.job)
  }

  /** When the scheduler can next take a job: it must be done with this one, and a lease must be over. */
  function FreeAt(s: State, runtime: JobId -> real, since: Stamp, hold: real, now: Stamp): real
  {
    Max(hold, if Busy(s) then BusyFor(s, runtime, since, now) else 0.0)
  }

  /** What the estimate gets right: no job is being evicted for, no lease outlasts the current job, and
      that job still has its row, or has had its time. */
  predicate Foreseen(s: State, mean: real, since: Stamp, hold: real, now: Stamp)
  {
    && !s.pc.Evicting?
    && hold <= Remaining(s.rows, s.current, mean, now)
    && (s.pc.Executing? ==> s.pc.job in s.rows || mean <= Seconds(now - since))
  }

  predicate StartedAt(s: State, since: Stamp)
  {
    s.pc.Executing? && s.pc.job in s.rows ==> s.rows[s.pc.job].started == Some(since)
  }

  lemma {:induction false} EqualRuntimes(q: seq<JobId>, runtime: JobId -> real, free: real, i: nat, mean: real)
    requires i < |q| && forall k :: 0 <= k < i ==> runtime(q[k]) == mean
    ensures PopTime(q, runtime, free, i) == Behind(free, Some(i + 1), mean).start
  {
    if i > 0 {
      forall k | 0 <= k < i - 1 ensures runtime(q[1..][k]) == mean { assert q[1..][k] == q[k + 1]; }
      assert runtime(q[0]) == mean;
      EqualRuntimes(q[1..], runtime, free + mean, i - 1, mean);
      assert i as real * mean == (i - 1) as real * mean + mean;
    }
  }

  /** The part of the estimate that is not about the queue. */
  lemma FreeWhenEstimated(s: State, mean: real, runtime: JobId -> real, since: Stamp, hold: real, now: Stamp)
    requires Sound(s) && hold >= 0.0 && mean > 0.0 && StartedAt(s, since)
    requires Busy(s) ==> runtime(s.pc.job) == mean
    ensures FreeAt(s, runtime, since, hold, now) == Remaining(s.rows, s.current, mean, now)
            <==> Foreseen(s, mean, since, hold, now)
  {
  }

  lemma EarlierIsAhead(t: Table, want: set<JobId>, q: seq<JobId>, i: nat, k: nat)
    requires want <= t.Keys && Sorted(t, want, q) && k < i < |q|
    ensures q[k] in want && q[i] in want && q[k] in Ahead(t, want, q[i])
  {
    assert q[k] in q && q[i] in q;
  }

  /** The simulated start of a job when all jobs ahead of it take exactly the mean. */
  lemma StartWhenEqual(t: Table, want: set<JobId>, id: JobId, mean: real, runtime: JobId -> real, free: real)
    requires want <= t.Keys && id in want
    requires forall k :: k in Ahead(t, want, id) ==> runtime(k) == mean
    ensures var i := |Ahead(t, want, id)|;
            && i < |Order(t, want)|
            && PopTime(Order(t, want), runtime, free, i) == Behind(free, Some(i + 1), mean).start
  {
    var q, i := Order(t, want), |Ahead(t, want, id)|;
    IndexIsRank(t, want, id);
    forall k: nat | k < i ensures runtime(q[k]) == mean { EarlierIsAhead(t, want, q, i, k); }
    EqualRuntimes(q, runtime, free, i, mean);
  }

  lemma BehindIsExact(a: real, b: real, pos: Option<nat>, mean: real)
    ensures Behind(a, pos, mean).start == Behind(b, pos, mean).start <==> a == b
  {
    var d := Places(pos) as real * mean;
    assert Behind(a, pos, mean).start == a + d && Behind(b, pos, mean).start == b + d;
  }

  /** When the job taken out of the queue and all jobs ahead take exactly the mean, the estimate is the
      simulated start, unless the scheduler is inside an eviction, a lease outlasts the current job, or
      that job's row was pruned.  A job whose eviction is going on is no longer queued and not yet current,
      so nobody counts it. */
  lemma EtaIsSimulation(s: State, tag: string, id: JobId, mean: real, runtime: JobId -> real, since: Stamp,
                        hold: real, now: Stamp)
    requires Sound(s) && id in QueuedIds(s.rows) && hold >= 0.0 && StartedAt(s, since)
    requires Busy(s) ==> runtime(s.pc.job) == mean
    requires forall k :: k in Ahead(s.rows, QueuedIds(s.rows), id) ==> runtime(k) == mean
    ensures MeanFor(s.rows, tag) == Some(mean) ==>
            var i := |Ahead(s.rows, QueuedIds(s.rows), id)|;
            var eta := EtaOf(s.rows, s.current, tag, PriorityQueue.PositionOf(s.rows, id), now);
            && i < |Order(s.rows, QueuedIds(s.rows))|
            && eta.Some?
            && (eta.value.start
                  == PopTime(Order(s.rows, QueuedIds(s.rows)), runtime, FreeAt(s, runtime, since, hold, now), i)
                <==> Foreseen(s, mean, since, hold, now))
  {
    if MeanFor(s.rows, tag) != Some(mean) { return; }
    MeanIsPositive(s, tag);
    var pos := PriorityQueue.PositionOf(s.rows, id);
    var left, free := Remaining(s.rows, s.current, mean, now), FreeAt(s, runtime, since, hold, now);
    StartWhenEqual(s.rows, QueuedIds(s.rows), id, mean, runtime, free);
    FreeWhenEstimated(s, mean, runtime, since, hold, now);
    BehindIsExact(left, free, pos, mean);
    assert EtaOf(s.rows, s.current, tag, pos, now) == Some(Behind(left, pos, mean));
  }
}
