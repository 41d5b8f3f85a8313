/** The bounded terminal sweep: two passes of TCP connects on a pool of workers, then the
    probes, all against one deadline. Times are in seconds; only connects and probes take
    any. */
module TerminalSweep {
  import opened Options

  const WORKERS: nat := 256
  const PROBE_CEILING := 9.0
  const PROBE_RESERVE := PROBE_CEILING
  const SLOW_PASS_MIN_MARGIN := 1.0

  // ----- the pool ---------------------------------------------------------------

  /** The worker that is free first. */
  function Earliest(free: seq<real>): (w: nat)
    requires free != []
    ensures w < |free|
  {
    if |free| == 1 then 0
    else
      var w := Earliest(free[..|free| - 1]);
      if free[|free| - 1] < free[w] then |free| - 1 else w
  }

  /** When each worker is done with the jobs, taken in their order by whoever is free. */
  function Assigned(free: seq<real>, costs: seq<real>): (done: seq<real>)
    requires free != []
    ensures |done| == |free|
    decreases |costs|
  {
    if costs == [] then free
    else
      var w := Earliest(free);
      Assigned(free[w := free[w] + costs[0]], costs[1..])
  }

  function Latest(free: seq<real>): (t: real)
    requires free != []
  {
    if |free| == 1 then free[0]
    else
      var t := Latest(free[..|free| - 1]);
      if free[|free| - 1] > t then free[|free| - 1] else t
  }

  lemma {:induction false} EarliestHolds(free: seq<real>)
    requires free != []
    ensures forall i :: 0 <= i < |free| ==> free[Earliest(free)] <= free[i]
  {
    if |free| > 1 {
      EarliestHolds(free[..|free| - 1]);
    }
  }

  lemma {:induction false} LatestHolds(free: seq<real>)
    requires free != []
    ensures Latest(free) in free && forall i :: 0 <= i < |free| ==> free[i] <= Latest(free)
  {
    if |free| > 1 {
      LatestHolds(free[..|free| - 1]);
    }
  }

  function PoolSize(jobs: nat, workers: nat): (size: nat)
    ensures size >= 1
  {
    var least := if workers < jobs then workers else jobs;
    if least < 1 then 1 else least
  }

  function AllFree(size: nat): (free: seq<real>)
    ensures |free| == size && forall i :: 0 <= i < size ==> free[i] == 0.0
  {
    seq(size, i => 0.0)
  }

  function Makespan(costs: seq<real>, workers: nat): real {
    Latest(Assigned(AllFree(PoolSize(|costs|, workers)), costs))
  }

  /** How many times a pool goes round to serve that many jobs. */
  function Batches(jobs: nat, workers: nat): nat
    requires workers > 0
    decreases jobs
  {
    if jobs == 0 then 0 else if jobs <= workers then 1 else 1 + Batches(jobs - workers, workers)
  }

  /** It is the source's `-(-jobs // workers)`. */
  lemma {:induction false} BatchesRoundsUp(jobs: nat)
    ensures Batches(jobs, WORKERS) == (jobs + WORKERS - 1) / WORKERS
    decreases jobs
  {
    if jobs > WORKERS {
      BatchesRoundsUp(jobs - WORKERS);
    }
  }

  /** What the rounds for that many jobs may take. */
  function Allowed(jobs: nat, workers: nat, patience: real): real
    requires workers > 0
    decreases jobs
  {
    if jobs == 0 then 0.0 else if jobs <= workers then patience else patience + Allowed(jobs - workers, workers, patience)
  }

  lemma {:induction false} AllowedIsBatches(jobs: nat, workers: nat, patience: real)
    requires workers > 0
    ensures Allowed(jobs, workers, patience) == Batches(jobs, workers) as real * patience
    decreases jobs
  {
    if jobs > workers {
      AllowedIsBatches(jobs - workers, workers, patience);
    }
  }

  /** How many workers are busy past a moment. */
  function Late(free: seq<real>, moment: real): nat {
    if free == [] then 0
    else Late(free[..|free| - 1], moment) + (if free[|free| - 1] > moment then 1 else 0)
  }

  lemma {:induction false} LateBounds(free: seq<real>, moment: real)
    ensures Late(free, moment) <= |free|
    ensures Late(free, moment) == |free| <==> forall i :: 0 <= i < |free| ==> free[i] > moment
    ensures Late(free, moment) == 0 <==> forall i :: 0 <= i < |free| ==> free[i] <= moment
  {
    if free != [] {
      LateBounds(free[..|free| - 1], moment);
    }
  }

  lemma {:induction false} LateUpdate(free: seq<real>, moment: real, w: nat, t: real)
    requires w < |free|
    ensures Late(free[w := t], moment) <= Late(free, moment) + 1
  {
    var last := |free| - 1;
    if w < last {
      LateUpdate(free[..last], moment, w, t);
      assert free[w := t][..last] == free[..last][w := t];
    } else {
      assert free[w := t][..last] == free[..last];
    }
  }

  /** After whole rounds up to `moment` and `started` jobs of the next one. */
  predicate InRound(free: seq<real>, moment: real, patience: real, started: nat) {
    started < |free| && Late(free, moment) <= started && Late(free, moment + patience) == 0
  }

  lemma SomebodyIsFree(free: seq<real>, moment: real, patience: real, started: nat)
    requires InRound(free, moment, patience, started)
    ensures free[Earliest(free)] <= moment
  {
    EarliestHolds(free);
    LateBounds(free, moment);
  }

  lemma NextJob(free: seq<real>, moment: real, patience: real, started: nat, w: nat, cost: real)
    requires InRound(free, moment, patience, started) && 0.0 <= cost <= patience
    requires w < |free| && free[w] <= moment
    ensures started + 1 < |free| ==> InRound(free[w := free[w] + cost], moment, patience, started + 1)
    ensures started + 1 == |free| ==> InRound(free[w := free[w] + cost], moment + patience, patience, 0)
  {
    var next := free[w := free[w] + cost];
    LateUpdate(free, moment, w, free[w] + cost);
    LateBounds(free, moment + patience);
    LateBounds(next, moment + patience + patience);
    assert forall i :: 0 <= i < |next| ==> next[i] <= moment + patience;
    LateBounds(next, moment + patience);
  }

  lemma LastRound(free: seq<real>, moment: real, patience: real, started: nat)
    requires free != [] && InRound(free, moment, patience, started)
    ensures Latest(free) <= moment + Allowed(started, |free|, patience)
  {
    LatestHolds(free);
    LateBounds(free, moment);
    LateBounds(free, moment + patience);
  }

  predicate Within(costs: seq<real>, patience: real) {
    forall i :: 0 <= i < |costs| ==> 0.0 <= costs[i] <= patience
  }

  /** The rounds take `jobs` jobs in all, those already started in this one included. */
  lemma {:induction false} RoundsLeft(
    free: seq<real>, moment: real, patience: real, started: nat, costs: seq<real>, size: nat, jobs: nat)
    requires size == |free| > 0 && InRound(free, moment, patience, started) && Within(costs, patience)
    requires jobs == |costs| + started
    ensures Latest(Assigned(free, costs)) <= moment + Allowed(jobs, size, patience)
    decreases |costs|
  {
    if costs == [] {
      LastRound(free, moment, patience, started);
    } else {
      var w := Earliest(free);
      SomebodyIsFree(free, moment, patience, started);
      NextJob(free, moment, patience, started, w, costs[0]);
      if started + 1 < size {
        RoundsLeft(free[w := free[w] + costs[0]], moment, patience, started + 1, costs[1..], size, jobs);
      } else {
        RoundsLeft(free[w := free[w] + costs[0]], moment + patience, patience, 0, costs[1..], size, jobs - size);
      }
    }
  }

  /** A pass over `n` addresses is over after a round of patience for every `workers` of
      them, whatever each of them does. */
  lemma PassIsBounded(costs: seq<real>, workers: nat, patience: real)
    requires workers > 0 && patience >= 0.0 && Within(costs, patience)
    ensures Makespan(costs, workers) <= Allowed(|costs|, workers, patience)
  {
    var free := AllFree(PoolSize(|costs|, workers));
    LateBounds(free, 0.0);
    LateBounds(free, patience);
    RoundsLeft(free, 0.0, patience, 0, costs, |free|, |costs|);
  }

  /** Time only goes forward. */
  lemma {:induction false} LateIsReached(free: seq<real>, costs: seq<real>)
    requires free != [] && forall i :: 0 <= i < |costs| ==> costs[i] >= 0.0
    ensures Latest(Assigned(free, costs)) >= Latest(free)
    decreases |costs|
  {
    if costs != [] {
      var w := Earliest(free);
      var next := free[w := free[w] + costs[0]];
      LatestHolds(free);
      LatestHolds(next);
      var i :| 0 <= i < |free| && free[i] == Latest(free);
      assert next[i] >= free[i];
      LateIsReached(next, costs[1..]);
    }
  }

  // ----- the passes ----------------------------------------------------------------

  type Pair = (string, int)

  /** When the address would accept a connection, if at all. */
  datatype Attempt = Attempt(delay: real, accepts: bool)

  /** A connect that gives up after `patience`. */
  function Cost(a: Attempt, patience: real): real {
    if a.delay < 0.0 then 0.0 else if a.delay < patience then a.delay else patience
  }

  predicate Answers(a: Attempt, patience: real) {
    a.accepts && a.delay <= patience
  }

  function CostsOf(pairs: seq<Pair>, net: Pair -> Attempt, patience: real): (costs: seq<real>)
    requires patience >= 0.0
    ensures |costs| == |pairs| && Within(costs, patience)
  {
    seq(|pairs|, i requires 0 <= i < |pairs| => Cost(net(pairs[i]), patience))
  }

  function Filter(pairs: seq<Pair>, net: Pair -> Attempt, patience: real, answering: bool): seq<Pair> {
    if pairs == [] then []
    else
      var rest := Filter(pairs[..|pairs| - 1], net, patience, answering);
      var last := pairs[|pairs| - 1];
      if Answers(net(last), patience) == answering then rest + [last] else rest
  }

  lemma {:induction false} FilterSplits(pairs: seq<Pair>, net: Pair -> Attempt, patience: real)
    ensures multiset(Filter(pairs, net, patience, true)) + multiset(Filter(pairs, net, patience, false)) == multiset(pairs)
  {
    if pairs != [] {
      var last := |pairs| - 1;
      FilterSplits(pairs[..last], net, patience);
      assert pairs == pairs[..last] + [pairs[last]];
    }
  }

  lemma {:induction false} FilterHolds(pairs: seq<Pair>, net: Pair -> Attempt, patience: real, answering: bool)
    ensures forall p :: p in Filter(pairs, net, patience, answering) <==> p in pairs && Answers(net(p), patience) == answering
  {
    if pairs != [] {
      var last := |pairs| - 1;
      FilterHolds(pairs[..last], net, patience, answering);
      assert pairs == pairs[..last] + [pairs[last]];
    }
  }

  /** The executor: each connect goes to the worker that is free first. */
  method RunPool(pairs: seq<Pair>, net: Pair -> Attempt, patience: real) returns (elapsed: real)
    requires pairs != [] && patience >= 0.0
    ensures elapsed == Makespan(CostsOf(pairs, net, patience), WORKERS)
  {
    var size := WORKERS;
    if |pairs| < size {
      size := |pairs|;
    }
    ghost var costs := CostsOf(pairs, net, patience);
    var free := AllFree(size);
    assert costs[0..] == costs;
    for i := 0 to |pairs|
      invariant |free| == size && Assigned(free, costs[i..]) == Assigned(AllFree(size), costs)
    {
      assert costs[i..] == [costs[i]] + costs[i + 1..];
      var w := Earliest(free);
      free := free[w := free[w] + Cost(net(pairs[i]), patience)];
    }
    elapsed := Latest(free);
  }

  method SortAnswers(completed: seq<Pair>, net: Pair -> Attempt, patience: real)
    returns (answered: seq<Pair>, silent: seq<Pair>)
    ensures answered == Filter(completed, net, patience, true) && silent == Filter(completed, net, patience, false)
  {
    answered, silent := [], [];
    for i := 0 to |completed|
      invariant answered == Filter(completed[..i], net, patience, true)
      invariant silent == Filter(completed[..i], net, patience, false)
    {
      assert completed[..i + 1][..i] == completed[..i];
      if Answers(net(completed[i]), patience) {
        answered := answered + [completed[i]];
      } else {
        silent := silent + [completed[i]];
      }
    }
    assert completed[..|completed|] == completed;
  }

  lemma MakespanIsPositive(costs: seq<real>, workers: nat)
    requires forall i :: 0 <= i < |costs| ==> costs[i] >= 0.0
    ensures Makespan(costs, workers) >= 0.0
  {
    LateIsReached(AllFree(PoolSize(|costs|, workers)), costs);
    LatestHolds(AllFree(PoolSize(|costs|, workers)));
  }

  /** `_sweep_open_pairs`; `completed` is the order in which the connects come back. */
  method SweepOpenPairs(pairs: seq<Pair>, net: Pair -> Attempt, patience: real, completed: seq<Pair>)
    returns (answered: seq<Pair>, silent: seq<Pair>, elapsed: real)
    requires multiset(completed) == multiset(pairs) && patience >= 0.0
    ensures answered == Filter(completed, net, patience, true) && silent == Filter(completed, net, patience, false)
    ensures multiset(answered) + multiset(silent) == multiset(pairs)
    ensures elapsed == if pairs == [] then 0.0 else Makespan(CostsOf(pairs, net, patience), WORKERS)
    ensures 0.0 <= elapsed <= Allowed(|pairs|, WORKERS, patience)
  {
    FilterSplits(completed, net, patience);
    answered, silent := SortAnswers(completed, net, patience);
    elapsed := 0.0;
    if pairs != [] {
      elapsed := RunPool(pairs, net, patience);
      PassIsBounded(CostsOf(pairs, net, patience), WORKERS, patience);
      MakespanIsPositive(CostsOf(pairs, net, patience), WORKERS);
    }
  }
}
