/** How a stage's concurrency level is divided over the worker processes, and how
    requests pinned to a worker are routed. */
module ConcurrencySplit {
  import opened Common

  /** The workers that can receive requests. `level` is absent or 0 when the stage has
      no concurrency level; `pinned` is absent when the generator pins nothing. */
  function ActiveWorkers(numWorkers: nat, level: Option<nat>, pinned: Option<nat>): (active: nat)
    ensures active >= 1
    ensures active <= numWorkers || active == 1
    ensures level.Some? && level.value > 0 ==> active <= level.value
  {
    var byLevel := if level.Some? && level.value > 0 then Min(numWorkers, level.value) else numWorkers;
    var byPins := if pinned.Some? && pinned.value > 0 then Min(byLevel, pinned.value) else byLevel;
    if byPins > 1 then byPins else 1
  }

  /** There are as many active workers as the pool, the level and the pins allow, and at least one. */
  lemma ActiveWorkersIsGreatest(numWorkers: nat, level: Option<nat>, pinned: Option<nat>, m: nat)
    ensures m <= ActiveWorkers(numWorkers, level, pinned) <==>
            || m <= 1
            || (&& m <= numWorkers
                && (level.Some? && level.value > 0 ==> m <= level.value)
                && (pinned.Some? && pinned.value > 0 ==> m <= pinned.value))
  {
  }

  function Min(a: nat, b: nat): nat {
    if a <= b then a else b
  }

  /** The share of `level` that worker `id` gets when `active` workers split it. */
  function Share(level: nat, active: nat, id: nat): nat
    requires active >= 1
  {
    if id >= active then 0
    else if id < level % active then level / active + 1
    else level / active
  }

  function Shares(level: nat, active: nat, n: nat): seq<nat>
    requires active >= 1
  {
    seq(n, id requires 0 <= id => Share(level, active, id))
  }

  /** The first n workers' shares, taken together. */
  function PrefixTotal(level: nat, active: nat, n: nat): nat
    requires active >= 1
  {
    var m := Min(n, active);
    m * (level / active) + Min(m, level % active)
  }

  lemma PrefixTotalGrows(level: nat, active: nat, n: nat)
    requires active >= 1 && n >= 1
    ensures PrefixTotal(level, active, n) == PrefixTotal(level, active, n - 1) + Share(level, active, n - 1)
  {
    var q := level / active;
    if n <= active {
      assert n * q == (n - 1) * q + q;
    }
  }

  lemma SharesGrow(level: nat, active: nat, n: nat)
    requires active >= 1 && n >= 1
    ensures Shares(level, active, n) == Shares(level, active, n - 1) + [Share(level, active, n - 1)]
  {
  }

  /** The first n workers hold n equal parts plus one extra unit each until the remainder is spent. */
  lemma {:induction false} SharesPrefix(level: nat, active: nat, n: nat)
    requires active >= 1
    ensures Sum(Shares(level, active, n), Itself) == PrefixTotal(level, active, n)
  {
    if n == 0 {
      assert Shares(level, active, 0) == [];
    } else {
      SharesPrefix(level, active, n - 1);
      SharesGrow(level, active, n);
      SumAppend(Shares(level, active, n - 1), Share(level, active, n - 1), Itself);
      PrefixTotalGrows(level, active, n);
    }
  }

  /** The shares of a stage add up to its level, on every pool that holds all active workers. */
  lemma SharesSumToLevel(level: nat, active: nat, n: nat)
    requires 1 <= active <= n
    ensures Sum(Shares(level, active, n), Itself) == level
  {
    SharesPrefix(level, active, n);
    assert level == active * (level / active) + level % active;
  }

  lemma SharesAreFair(level: nat, active: nat, i: nat, j: nat)
    requires 1 <= active && i < active && j < active
    ensures -1 <= Share(level, active, i) - Share(level, active, j) <= 1
    ensures level >= active ==> Share(level, active, i) >= 1
    ensures Share(level, active, active + i) == 0
  {
    if level >= active {
      assert level / active >= 1;
    }
  }

  /** The units left over go to the first workers. */
  lemma FirstWorkersGetMore(level: nat, active: nat, i: nat, j: nat)
    requires 1 <= active && i <= j
    ensures Share(level, active, i) >= Share(level, active, j)
  {
  }

  /** The worker a request pinned to `preferred` goes to. */
  function Route(preferred: nat, active: nat): nat
    requires active >= 1
  {
    preferred % active
  }

  /** Pins go round the active workers, starting with the first. */
  lemma PinsGoRound(preferred: nat, active: nat)
    requires active >= 1
    ensures preferred < active ==> Route(preferred, active) == preferred
    ensures Route(preferred + active, active) == Route(preferred, active)
  {
    var q, r := (preferred + active) / active, (preferred + active) % active;
    assert (q - 1) * active + r == preferred;
    SameRemainder(q - 1, r, preferred / active, preferred % active, active);
  }

  lemma SameRemainder(q: int, r: nat, q': int, r': nat, n: nat)
    requires r < n && r' < n && q * n + r == q' * n + r'
    ensures r == r'
  {
    assert (q - q') * n == r' - r;
    NoMultipleBetween(q - q', n);
  }

  lemma NoMultipleBetween(d: int, n: int)
    requires -n < d * n < n
    ensures d == 0
  {
    if d >= 1 {
      AtLeastOnce(d, n);
    } else if d <= -1 {
      AtLeastOnce(-d, n);
    }
  }

  lemma AtLeastOnce(d: int, n: int)
    requires d >= 1 && n >= 0
    ensures d * n >= n
  {
  }

  /** Routing and splitting agree: whatever worker a request is pinned to, the worker that
      receives it exists and holds a share of the level exactly when the level is positive. */
  lemma PinnedRequestsReachAShare(numWorkers: nat, level: nat, pinned: Option<nat>, preferred: nat)
    requires numWorkers >= 1
    ensures var active := ActiveWorkers(numWorkers, Some(level), pinned);
            var target := Route(preferred, active);
            && active <= numWorkers
            && target < numWorkers
            && (Share(level, active, target) >= 1 <==> level >= 1)
            && Sum(Shares(level, active, numWorkers), Itself) == level
  {
    var active := ActiveWorkers(numWorkers, Some(level), pinned);
    SharesSumToLevel(level, active, numWorkers);
    if level >= 1 {
      SharesAreFair(level, active, Route(preferred, active), 0);
    } else {
      assert level / active == 0 && level % active == 0;
    }
  }

  /** One worker's shared limit; absent when the load type does not adjust concurrency. */
  class WorkerSlot {
    const id: nat
    var sharedMax: Option<nat>

    constructor (id: nat, sharedMax: Option<nat>)
      ensures this.id == id && this.sharedMax == sharedMax
    {
      this.id := id;
      this.sharedMax := sharedMax;
    }
  }

  ghost predicate NumberedFromZero(workers: seq<WorkerSlot>) {
    forall k :: 0 <= k < |workers| ==> workers[k].id == k
  }

  lemma ShareAt(level: nat, active: nat, n: nat, id: nat)
    requires active >= 1 && id < n
    ensures Shares(level, active, n)[id] == Share(level, active, id)
  {
  }

  /** Publishes the new limits; each worker picks its own up at the top of its loop. */
  method SetWorkerConcurrency(workers: seq<WorkerSlot>, level: nat, pinned: Option<nat>)
    requires NumberedFromZero(workers)
    modifies workers
    ensures var active := ActiveWorkers(|workers|, Some(level), pinned);
            forall k :: 0 <= k < |workers| ==>
              workers[k].sharedMax == (if old(workers[k].sharedMax).Some? then Some(Shares(level, active, |workers|)[k]) else None)
  {
    var active := ActiveWorkers(|workers|, Some(level), pinned);
    var base := level / active;
    var remainder := level % active;
    for i := 0 to |workers|
      invariant forall k :: 0 <= k < i ==>
        workers[k].sharedMax == (if old(workers[k].sharedMax).Some? then Some(Share(level, active, k)) else None)
      invariant forall k :: i <= k < |workers| ==> workers[k].sharedMax == old(workers[k].sharedMax)
    {
      var worker := workers[i];
      var limit := 0;
      if worker.id < active {
        limit := if worker.id < remainder then base + 1 else base;
      }
      assert limit == Share(level, active, i);
      if worker.sharedMax.Some? {
        worker.sharedMax := Some(limit);
      }
    }
    forall k | 0 <= k < |workers| ensures Shares(level, active, |workers|)[k] == Share(level, active, k) {
      ShareAt(level, active, |workers|, k);
    }
  }
}
