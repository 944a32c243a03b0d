/** The two bounded waits that end a stage: the main process waiting for the rendezvous, and a
    worker winding down its tasks. Times are in milliseconds. */
module Teardown {

  const WIND_DOWN_REAP := 10_000

  const TEARDOWN_MARGIN := 15_000

  const FORCE_REAP := 20_000

  const POLL := 250

  /** A clock that never runs backwards. `lag` bounds how far one call overshoots. */
  class LaggingClock {
    var now: nat
    const lag: nat

    constructor (now: nat, lag: nat)
      ensures this.now == now && this.lag == lag
    {
      this.now := now;
      this.lag := lag;
    }

    method Read() returns (t: nat)
      modifies this
      ensures old(now) <= now <= old(now) + lag && t == now
    {
      var late :| 0 <= late <= lag;
      now := now + late;
      t := now;
    }

    method Sleep(d: nat)
      modifies this
      ensures old(now) + d <= now <= old(now) + d + lag
    {
      var late :| 0 <= late <= lag;
      now := now + d + late;
    }
  }

  /** The time one turn of a polling loop can take. */
  function LoopStep(lag: nat): nat {
    POLL + 2 * lag
  }

  /** What the main process sees of its workers. */
  class Pool {
    var alive: seq<bool>
    var done: seq<nat>
    const due: map<nat, nat>   // by when a worker acknowledges, unless it dies, where that is known

    ghost predicate Valid()
      reads this
    {
      |alive| == |done|
    }

    constructor (alive: seq<bool>, done: seq<nat>, due: map<nat, nat>)
      requires |alive| == |done|
      ensures Valid() && this.alive == alive && this.done == done && this.due == due
    {
      this.alive, this.done, this.due := alive, done, due;
    }

    /** Nobody who was due by now is behind. */
    ghost predicate OnTime(expected: nat, now: nat)
      reads this
    {
      Valid() && forall i :: 0 <= i < |alive| && i in due && due[i] <= now ==> i !in Pending(expected)
    }

    /** Alive, and not at the boundary yet. */
    function Pending(expected: nat): set<nat>
      reads this
      requires Valid()
    {
      set i | 0 <= i < |alive| && alive[i] && done[i] < expected
    }

    /** Time passes: workers may die and acknowledgements may grow, in any way that keeps who is due on time. */
    method Drift(expected: nat, now: nat)
      requires Valid()
      modifies this
      ensures OnTime(expected, now) && |alive| == |old(alive)|
      ensures forall i :: 0 <= i < |alive| ==> (alive[i] ==> old(alive)[i]) && done[i] >= old(done)[i]
    {
      var i := 0;
      while i < |alive|
        invariant Valid() && |alive| == |old(alive)| && 0 <= i <= |alive|
        invariant forall j :: 0 <= j < |alive| ==> (alive[j] ==> old(alive)[j]) && done[j] >= old(done)[j]
        invariant forall j :: 0 <= j < i && j in due && due[j] <= now ==> done[j] >= expected
      {
        if * {
          alive := alive[i := false];
        }
        var least := if i in due && due[i] <= now && done[i] < expected then expected else done[i];
        var grown :| grown >= least;
        done := done[i := grown];
        i := i + 1;
      }
    }

    method Terminate(stuck: set<nat>)
      requires Valid()
      modifies this`alive
      ensures Valid() && |alive| == |old(alive)|
      ensures forall i :: 0 <= i < |alive| ==> alive[i] == (old(alive)[i] && i !in stuck)
    {
      alive := seq(|alive|, i requires 0 <= i < |alive| reads this => alive[i] && i !in stuck);
    }
  }

  /** The wait for the rendezvous always returns, within the grace period, both margins and two turns of
      its loop. Nobody is terminated before the grace and both margins have passed; whoever is, was
      alive and behind the boundary, and not due by then; and afterwards no live worker is behind it. */
  method AwaitRendezvous(pool: Pool, clock: LaggingClock, expected: nat, grace: nat)
    returns (clean: bool, forced: set<nat>, forceSent: bool)
    requires pool.Valid()
    modifies pool, clock
    ensures pool.Valid() && pool.Pending(expected) == {}
    ensures clean <==> forced == {}
    ensures forced <= old(pool.Pending(expected))
    ensures clock.now <= old(clock.now) + clock.lag + grace + TEARDOWN_MARGIN + FORCE_REAP + 2 * LoopStep(clock.lag)
    ensures old(pool.Pending(expected)) == {} ==> !forceSent && clock.now <= old(clock.now) + clock.lag
    ensures forceSent ==> clock.now >= old(clock.now) + grace + TEARDOWN_MARGIN
    ensures forced != {} ==> forceSent && clock.now >= old(clock.now) + grace + TEARDOWN_MARGIN + FORCE_REAP
    ensures forall i :: i in forced && i in pool.due ==> pool.due[i] + clock.lag > old(clock.now) + grace + TEARDOWN_MARGIN + FORCE_REAP
  {
    clean, forced, forceSent := true, {}, false;
    var start := clock.Read();
    var graceDeadline := start + grace + TEARDOWN_MARGIN;
    var forceDeadline := 0;
    while true
      invariant pool.Valid() && clean && forced == {}
      invariant pool.Pending(expected) <= old(pool.Pending(expected))
      invariant start <= clock.now
      invariant old(pool.Pending(expected)) == {} ==> !forceSent && clock.now <= old(clock.now) + clock.lag
      invariant !forceSent ==> clock.now <= graceDeadline + LoopStep(clock.lag) - clock.lag
      invariant forceSent ==> graceDeadline + FORCE_REAP <= forceDeadline <= graceDeadline + FORCE_REAP + LoopStep(clock.lag)
      invariant forceSent ==> pool.OnTime(expected, clock.now)
      invariant forceSent ==> graceDeadline <= clock.now <= forceDeadline + LoopStep(clock.lag) - clock.lag
      decreases graceDeadline + FORCE_REAP + 3 * LoopStep(clock.lag) - clock.now
    {
      var pending := pool.Pending(expected);
      if pending == {} {
        return;
      }
      var now := clock.Read();
      if !forceSent && now >= graceDeadline {
        forceSent, forceDeadline := true, now + FORCE_REAP;
      } else if forceSent && now >= forceDeadline {
        pool.Terminate(pending);
        forced, clean := pending, false;
        return;
      }
      clock.Sleep(POLL);
      pool.Drift(expected, clock.now);
    }
  }

  /** A worker's tasks, of which some have ended. */
  class TaskGroup {
    var finished: seq<bool>
    var cancelled: set<nat>

    constructor (finished: seq<bool>)
      ensures this.finished == finished && cancelled == {}
    {
      this.finished := finished;
      cancelled := {};
    }

    function Pending(): set<nat>
      reads this
    {
      set i | 0 <= i < |finished| && !finished[i]
    }

    method Drift()
      modifies this`finished
      ensures |finished| == |old(finished)|
      ensures forall i :: 0 <= i < |finished| && old(finished)[i] ==> finished[i]
    {
      var i := 0;
      while i < |finished|
        invariant |finished| == |old(finished)| && 0 <= i <= |finished|
        invariant forall j :: 0 <= j < |finished| && old(finished)[j] ==> finished[j]
      {
        if * {
          finished := finished[i := true];
        }
        i := i + 1;
      }
    }

    /** Cancels and waits at most `bound`; a task that ignores its cancellation stays unfinished. */
    method CancelAndReap(pending: set<nat>, clock: LaggingClock, bound: nat)
      modifies this, clock
      ensures cancelled == old(cancelled) + pending
      ensures |finished| == |old(finished)| && forall i :: 0 <= i < |finished| && old(finished)[i] ==> finished[i]
      ensures old(clock.now) <= clock.now <= old(clock.now) + bound + clock.lag
      ensures Pending() == {} || clock.now >= old(clock.now) + bound
    {
      cancelled := cancelled + pending;
      Drift();
      if Pending() != {} {
        clock.Sleep(bound);
        Drift();
      }
    }
  }

  /** A worker's wind-down always returns, within its grace, the reap bound and one turn of its loop.
      It cancels only tasks that were still running, and, unless told to force the boundary, not
      before the grace has passed. */
  method WindDown(tasks: TaskGroup, clock: LaggingClock, grace: nat, forceAt: nat) returns (abandoned: set<nat>)
    requires tasks.cancelled == {}
    modifies tasks, clock
    ensures clock.now <= old(clock.now) + grace + WIND_DOWN_REAP + LoopStep(clock.lag) + 4 * clock.lag
    ensures clock.now <= (if old(clock.now) < forceAt then forceAt else old(clock.now)) + WIND_DOWN_REAP + LoopStep(clock.lag) + 4 * clock.lag
    ensures tasks.cancelled <= old(tasks.Pending())
    ensures tasks.cancelled != {} ==> clock.now >= old(clock.now) + grace || clock.now >= forceAt
    ensures abandoned == tasks.Pending()
    ensures abandoned != {} ==> abandoned <= tasks.cancelled && clock.now >= old(clock.now) + WIND_DOWN_REAP
  {
    var pending := tasks.Pending();
    if pending != {} {
      var start := clock.Read();
      var deadline := start + grace;
      var now := clock.Read();
      while pending != {} && now < deadline
        invariant pending == tasks.Pending() <= old(tasks.Pending()) && tasks.cancelled == {}
        invariant start <= now <= clock.now
        invariant now == clock.now && now <= deadline + LoopStep(clock.lag) + 2 * clock.lag
        invariant now <= (if old(clock.now) < forceAt then forceAt else old(clock.now)) + LoopStep(clock.lag) + 2 * clock.lag
        decreases deadline - now
      {
        if now >= forceAt {
          break;
        }
        clock.Sleep(POLL);
        tasks.Drift();
        pending := tasks.Pending();
        now := clock.Read();
      }
    }
    if pending != {} {
      tasks.CancelAndReap(pending, clock, WIND_DOWN_REAP);
    }
    abandoned := tasks.Pending();
  }

  /** The two waits together: a worker winds down on its own clock and then acknowledges, while the main process
      waits for all of them. A worker that starts winding down no later than the margin and the force
      reap allow, less its own reap bound and the turns of both loops, is never terminated, whatever
      its tasks do and whenever it is told to force the boundary. */
  method WindDownWithin(tasks: TaskGroup, workerClock: LaggingClock, forceAt: nat,
                        alive: seq<bool>, done: seq<nat>, worker: nat, clock: LaggingClock, expected: nat, grace: nat)
    returns (clean: bool, forced: set<nat>)
    requires tasks.cancelled == {} && workerClock != clock && workerClock.lag == clock.lag && |alive| == |done|
    modifies tasks, workerClock, clock
    ensures clean <==> forced == {}
    ensures old(workerClock.now) + WIND_DOWN_REAP + LoopStep(clock.lag) + 6 * clock.lag <= old(clock.now) + TEARDOWN_MARGIN + FORCE_REAP
            ==> worker !in forced
  {
    var abandoned := WindDown(tasks, workerClock, grace, forceAt);
    var acknowledged := workerClock.Read();
    var pool := new Pool(alive, done, map[worker := acknowledged]);
    var forceSent;
    clean, forced, forceSent := AwaitRendezvous(pool, clock, expected, grace);
  }
}
