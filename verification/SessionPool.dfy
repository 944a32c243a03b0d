/** The pool of replayed sessions of one stage: which session runs when, and what is recorded. */
module SessionPool {
  import opened Common

  function Range(from: nat, to: nat): seq<nat>
    requires from <= to
  {
    if from == to then [] else Range(from, to - 1) + [to - 1]
  }

  lemma {:induction false} RangeHas(from: nat, to: nat, x: nat)
    requires from <= to
    ensures CountIn(Range(from, to), x) == if from <= x < to then 1 else 0
  {
    if from < to {
      var front, all := Range(from, to - 1), Range(from, to);
      RangeHas(from, to - 1, x);
      RangeLast(from, to, front, all);
      CountPush(front, to - 1, x, all);
    } else {
      assert Range(from, to) == [];
    }
  }

  lemma RangeLast(from: nat, to: nat, front: seq<nat>, all: seq<nat>)
    requires from < to && front == Range(from, to - 1) && all == Range(from, to)
    ensures all == front + [to - 1]
  {
  }

  function CountIn(xs: seq<nat>, x: nat): nat {
    multiset(xs)[x]
  }

  lemma CountPush(xs: seq<nat>, y: nat, x: nat, more: seq<nat>)
    requires more == xs + [y]
    ensures CountIn(more, x) == CountIn(xs, x) + (if x == y then 1 else 0)
  {
    assert multiset(more) == multiset(xs) + multiset{y};
  }

  lemma {:induction false} RangeSize(from: nat, to: nat)
    requires from <= to
    ensures |Range(from, to)| == to - from
  {
    if from < to {
      RangeSize(from, to - 1);
    }
  }

  lemma {:induction false} RangeTail(from: nat, to: nat)
    requires from < to
    ensures Range(from, to) == [from] + Range(from + 1, to)
  {
    if from + 1 < to {
      RangeTail(from, to - 1);
    }
  }

  /** The offset of the k-th dispatch in a schedule that dispatches once per interval. */
  function Offset(k: nat, interval: real): real {
    if k == 0 then 0.0 else Offset(k - 1, interval) + interval
  }

  lemma {:induction false} OffsetIsProduct(k: nat, interval: real)
    ensures Offset(k, interval) == k as real * interval
  {
    if k > 0 {
      OffsetIsProduct(k - 1, interval);
    }
  }

  /** A stage's pool. `recorded`, `skipped` and `dispatched` keep their order; `startedAt` holds the
      recorded start of each dispatched session, `slots` every value next_dispatch_time has had, and
      `advancedAt` the time read when it was moved on. */
  datatype Pool = Pool(
    pending: seq<nat>, active: set<nat>, recorded: seq<nat>, skipped: seq<nat>,
    dispatched: seq<nat>, startedAt: seq<real>, advancedAt: seq<real>, slots: seq<real>)
  {
    function NextDispatch(): real
      requires slots != []
    {
      slots[|slots| - 1]
    }
  }

  /** Every session of the slice [first, first + count) is in exactly one place, none is dispatched twice,
      and what was dispatched is active or recorded. Sessions leave the pending list in order. */
  ghost predicate Partitioned(s: Pool, first: nat, count: nat) {
    && Split(multiset(s.pending), multiset(s.active), multiset(s.recorded), multiset(s.skipped), multiset(Range(first, first + count)))
    && multiset(s.dispatched) == multiset(s.active) + multiset(s.recorded)
    && |s.pending| <= count
    && s.pending == Range(first + (count - |s.pending|), first + count)
  }

  ghost predicate Split(a: multiset<nat>, b: multiset<nat>, c: multiset<nat>, d: multiset<nat>, all: multiset<nat>) {
    a + b + c + d == all
  }

  lemma SplitAt(a: multiset<nat>, b: multiset<nat>, c: multiset<nat>, d: multiset<nat>, all: multiset<nat>, x: nat)
    requires Split(a, b, c, d, all)
    ensures a[x] + b[x] + c[x] + d[x] == all[x]
  {
    assert (a + b + c + d)[x] == all[x];
  }

  /** Moving one session from place to place keeps the split. */
  lemma SplitMoves(a: multiset<nat>, b: multiset<nat>, c: multiset<nat>, d: multiset<nat>, all: multiset<nat>, x: nat)
    requires Split(a + multiset{x}, b, c, d, all)
    ensures Split(a, b + multiset{x}, c, d, all) && Split(a, b, c + multiset{x}, d, all) && Split(a, b, c, d + multiset{x}, all)
  {
  }

  lemma SplitSwap(a: multiset<nat>, b: multiset<nat>, c: multiset<nat>, d: multiset<nat>, all: multiset<nat>)
    ensures Split(a, b, c, d, all) <==> Split(b, a, c, d, all)
  {
    assert a + b + c + d == b + a + c + d;
  }

  /** Each session starts after its slot, and moves the next one on: by an interval, or to the present when that has
      passed already. */
  ghost predicate Paced(startedAt: seq<real>, advancedAt: seq<real>, slots: seq<real>, start: real, interval: real) {
    && |startedAt| == |advancedAt| == |slots| - 1
    && slots[0] == start
    && (forall k :: 0 <= k < |startedAt| ==> slots[k] <= startedAt[k] <= advancedAt[k])
    && (forall k :: 0 <= k < |advancedAt| ==> slots[k + 1] == Later(slots[k] + interval, advancedAt[k]))
  }

  lemma PacedStep(startedAt: seq<real>, advancedAt: seq<real>, slots: seq<real>, start: real, interval: real, at: real, now: real)
    requires Paced(startedAt, advancedAt, slots, start, interval) && slots[|slots| - 1] <= at <= now
    ensures Paced(startedAt + [at], advancedAt + [now], slots + [Later(slots[|slots| - 1] + interval, now)], start, interval)
  {
  }

  lemma {:induction false} SlotsSpread(startedAt: seq<real>, advancedAt: seq<real>, slots: seq<real>, start: real, interval: real, j: nat, m: nat)
    requires Paced(startedAt, advancedAt, slots, start, interval) && j + m < |slots|
    ensures slots[j + m] >= slots[j] + Offset(m, interval)
  {
    if m > 0 {
      SlotsSpread(startedAt, advancedAt, slots, start, interval, j, m - 1);
      var k := j + m - 1;
      assert slots[k + 1] == Later(slots[k] + interval, advancedAt[k]);
    }
  }

  // The three transitions of the pool.

  function Start(s: Pool, at: real, now: real, interval: Option<real>): Pool
    requires s.pending != []
  {
    s.(pending := s.pending[1..],
       active := s.active + {s.pending[0]},
       dispatched := s.dispatched + [s.pending[0]],
       startedAt := s.startedAt + [at],
       advancedAt := s.advancedAt + [now],
       slots := if interval.Some? && s.slots != [] then s.slots + [Later(s.NextDispatch() + interval.value, now)] else s.slots)
  }

  function Skip(s: Pool): Pool
    requires s.pending != []
  {
    s.(pending := s.pending[1..], skipped := s.skipped + [s.pending[0]])
  }

  function Record(s: Pool, session: nat): Pool {
    s.(active := s.active - {session}, recorded := s.recorded + [session])
  }

  lemma PendingShape(pending: seq<nat>, first: nat, count: nat)
    requires 0 < |pending| <= count && pending == Range(first + (count - |pending|), first + count)
    ensures multiset(pending) == multiset(pending[1..]) + multiset{pending[0]}
    ensures pending[1..] == Range(first + (count - |pending[1..]|), first + count)
  {
    HeadAndRest(pending, pending[0], pending[1..]);
    RestOfRange(pending, pending[1..], first + (count - |pending|), first + count);
  }

  lemma RestOfRange(xs: seq<nat>, rest: seq<nat>, from: nat, to: nat)
    requires from < to && xs == Range(from, to) && xs != [] && rest == xs[1..]
    ensures rest == Range(from + 1, to)
  {
    RangeTail(from, to);
  }

  lemma HeadAndRest(xs: seq<nat>, x: nat, rest: seq<nat>)
    requires xs != [] && x == xs[0] && rest == xs[1..]
    ensures xs == [x] + rest && multiset(xs) == multiset(rest) + multiset{x}
  {
    assert xs == [x] + rest;
  }

  /** A session is nowhere but where it is. */
  lemma OnlyThere(s: Pool, first: nat, count: nat, x: nat)
    requires Partitioned(s, first, count)
    ensures x in s.pending ==> x !in s.active && x !in s.recorded && x !in s.skipped
    ensures x in s.active ==> x !in s.recorded && x !in s.skipped
  {
    RangeHas(first, first + count, x);
    SplitAt(multiset(s.pending), multiset(s.active), multiset(s.recorded), multiset(s.skipped), multiset(Range(first, first + count)), x);
  }

  lemma StartKeeps(s: Pool, first: nat, count: nat, at: real, now: real, interval: Option<real>)
    requires Partitioned(s, first, count) && s.pending != []
    ensures Partitioned(Start(s, at, now, interval), first, count)
    ensures |Start(s, at, now, interval).active| == |s.active| + 1
  {
    var x := s.pending[0];
    PendingShape(s.pending, first, count);
    OnlyThere(s, first, count, x);
    SplitMoves(multiset(s.pending[1..]), multiset(s.active), multiset(s.recorded), multiset(s.skipped),
               multiset(Range(first, first + count)), x);
    assert multiset(s.active + {x}) == multiset(s.active) + multiset{x};
    assert multiset(s.dispatched + [x]) == multiset(s.dispatched) + multiset{x};
  }

  lemma SkipKeeps(s: Pool, first: nat, count: nat)
    requires Partitioned(s, first, count) && s.pending != []
    ensures Partitioned(Skip(s), first, count)
  {
    var x := s.pending[0];
    PendingShape(s.pending, first, count);
    SplitMoves(multiset(s.pending[1..]), multiset(s.active), multiset(s.recorded), multiset(s.skipped),
               multiset(Range(first, first + count)), x);
    assert multiset(s.skipped + [x]) == multiset(s.skipped) + multiset{x};
  }

  lemma RecordKeeps(s: Pool, first: nat, count: nat, x: nat)
    requires Partitioned(s, first, count) && x in s.active
    ensures Partitioned(Record(s, x), first, count)
  {
    var p, a, r, k, all := multiset(s.pending), multiset(s.active - {x}), multiset(s.recorded), multiset(s.skipped), multiset(Range(first, first + count));
    assert multiset(s.active) == a + multiset{x};
    SplitSwap(p, a + multiset{x}, r, k, all);
    SplitMoves(a, p, r, k, all, x);
    SplitSwap(a, p, r + multiset{x}, k, all);
    assert multiset(s.recorded + [x]) == r + multiset{x};
    assert multiset(s.dispatched) == a + multiset{x} + r == a + (r + multiset{x});
  }

  lemma RecordedAreNotActive(s: Pool, first: nat, count: nat)
    requires Partitioned(s, first, count)
    ensures forall x :: x in s.recorded ==> x !in s.active
  {
    forall x | x in s.recorded ensures x !in s.active {
      OnlyThere(s, first, count, x);
    }
  }

  /** As many sessions are completed as were recorded or skipped, so their number reaches the size of the
      stage exactly when nothing is pending or active. */
  lemma CompletedCount(s: Pool, first: nat, count: nat, completed: set<nat>)
    requires Partitioned(s, first, count) && multiset(completed) == multiset(s.recorded) + multiset(s.skipped)
    ensures |completed| == count - |s.pending| - |s.active|
    ensures |completed| >= count <==> s.pending == [] && s.active == {}
  {
    RangeSize(first, first + count);
    SplitSizes(multiset(s.pending), multiset(s.active), multiset(s.recorded), multiset(s.skipped), multiset(completed),
               multiset(Range(first, first + count)));
    assert |multiset(completed)| == |completed| && |multiset(s.active)| == |s.active|;
  }

  lemma SplitSizes(a: multiset<nat>, b: multiset<nat>, c: multiset<nat>, d: multiset<nat>, ended: multiset<nat>, all: multiset<nat>)
    requires Split(a, b, c, d, all) && ended == c + d
    ensures |a| + |b| + |ended| == |all|
  {
    assert |a + b + c + d| == |a| + |b| + |c| + |d|;
  }

  // ---- The driver ----

  datatype Status = Running | Completed | Interrupted | Failed | TimedOut

  /** What one turn of the driver loop finds. `ended` are the sessions that report completion. */
  datatype Turn = Turn(interrupted: bool, breakerOpen: bool, workerDead: bool, ended: set<nat>)

  datatype Plan = Plan(
    first: nat, count: nat,
    limit: nat,                  // concurrent_sessions; 0 is unlimited
    interval: Option<real>,      // 1 / session_rate, when there is a rate
    maxDuration: Option<real>,
    start: real)

  /** Sessions were dispatched in the order of the slice, none of those still pending before them. */
  ghost predicate InOrder(s: Pool, end: nat) {
    && (forall i, j :: 0 <= i < j < |s.dispatched| ==> s.dispatched[i] < s.dispatched[j])
    && (forall x :: x in s.dispatched ==> x < end - |s.pending|)
  }

  ghost predicate Kept(p: Plan, s: Pool, completed: set<nat>) {
    && Partitioned(s, p.first, p.count)
    && multiset(completed) == multiset(s.recorded) + multiset(s.skipped)
    && (p.limit > 0 ==> |s.active| <= p.limit)
    && |s.startedAt| == |s.dispatched| && s.slots != [] && InOrder(s, p.first + p.count)
    && (p.interval.Some? ==> Paced(s.startedAt, s.advancedAt, s.slots, p.start, p.interval.value))
  }

  /** What later turns may still change. */
  ghost predicate Extends(s: Pool, s': Pool) {
    s.dispatched <= s'.dispatched && s.recorded <= s'.recorded && s.skipped <= s'.skipped && s.startedAt <= s'.startedAt
  }

  lemma ExtendsTwice(s: Pool, s': Pool, s'': Pool)
    requires Extends(s, s') && Extends(s', s'')
    ensures Extends(s, s'')
  {
  }

  /** Every session of the slice is recorded or skipped, once. */
  ghost predicate AllOnce(s: Pool, first: nat, count: nat) {
    multiset(s.recorded) + multiset(s.skipped) == multiset(Range(first, first + count))
  }

  lemma CompletedIsAll(s: Pool, first: nat, count: nat)
    requires Partitioned(s, first, count) && s.pending == [] && s.active == {}
    ensures AllOnce(s, first, count)
  {
    var r, k := multiset(s.recorded), multiset(s.skipped);
    assert multiset(s.pending) + multiset(s.active) + r + k == r + k;
  }

  lemma StartExtends(s: Pool, at: real, now: real, interval: Option<real>)
    requires s.pending != []
    ensures Extends(s, Start(s, at, now, interval)) && |Start(s, at, now, interval).pending| == |s.pending| - 1
  {
  }

  lemma SkipExtends(s: Pool)
    requires s.pending != []
    ensures Extends(s, Skip(s)) && |Skip(s).pending| == |s.pending| - 1
  {
  }

  lemma NotYetCompleted(s: Pool, first: nat, count: nat, completed: set<nat>, session: nat)
    requires Partitioned(s, first, count) && multiset(completed) == multiset(s.recorded) + multiset(s.skipped)
    requires session in s.active
    ensures session !in completed
    ensures multiset(completed + {session}) == multiset(s.recorded + [session]) + multiset(s.skipped)
  {
    OnlyThere(s, first, count, session);
    assert multiset(completed)[session] == 0;
    assert multiset(completed + {session}) == multiset(completed) + multiset{session};
    assert multiset(s.recorded + [session]) == multiset(s.recorded) + multiset{session};
  }

  lemma SplitAtStart(all: multiset<nat>)
    ensures Split(all, multiset{}, multiset{}, multiset{}, all)
  {
  }

  lemma PartitionedAtStart(s: Pool, first: nat, count: nat)
    requires s.pending == Range(first, first + count) && |s.pending| == count
    requires s.active == {} && s.recorded == [] && s.skipped == [] && s.dispatched == []
    ensures Partitioned(s, first, count)
  {
    SplitAtStart(multiset(s.pending));
    var nothing: multiset<nat> := multiset{};
    assert multiset(s.active) == nothing;
  }

  lemma NothingCompleted(s: Pool)
    requires s.recorded == [] && s.skipped == []
    ensures multiset({}) == multiset(s.recorded) + multiset(s.skipped)
  {
    var nothing: multiset<nat> := multiset{};
    assert multiset(s.recorded) == nothing && multiset(s.skipped) == nothing;
  }

  lemma KeptFrom(p: Plan, s: Pool)
    requires Partitioned(s, p.first, p.count) && s.active == {} && s.recorded == [] && s.skipped == []
    requires s.dispatched == [] && s.startedAt == [] && s.advancedAt == [] && s.slots == [p.start]
    ensures Kept(p, s, {})
  {
    NothingCompleted(s);
  }

  lemma KeptAtStart(p: Plan, s: Pool)
    requires s == Pool(Range(p.first, p.first + p.count), {}, [], [], [], [], [], [p.start])
    ensures Kept(p, s, {})
  {
    RangeSize(p.first, p.first + p.count);
    PartitionedAtStart(s, p.first, p.count);
    KeptFrom(p, s);
  }

  /** Taking one session out of the active and the newly ended ones alike. */
  lemma TakeOneEnded(all: set<nat>, active: set<nat>, ended: set<nat>, newly: set<nat>, x: nat)
    requires newly == active * ended && active == (all - ended) + newly && x in newly
    ensures newly - {x} == (active - {x}) * ended && active - {x} == (all - ended) + (newly - {x})
  {
  }

  lemma HeadIsNext(s: Pool, first: nat, count: nat)
    requires Partitioned(s, first, count) && s.pending != []
    ensures s.pending[0] == first + count - |s.pending|
  {
    RangeTail(first + (count - |s.pending|), first + count);
  }

  lemma OrderGrows(xs: seq<nat>, x: nat)
    requires (forall i, j :: 0 <= i < j < |xs| ==> xs[i] < xs[j]) && forall y :: y in xs ==> y < x
    ensures forall i, j :: 0 <= i < j < |xs + [x]| ==> (xs + [x])[i] < (xs + [x])[j]
    ensures forall y :: y in xs + [x] ==> y <= x
  {
    assert forall i :: 0 <= i < |xs| ==> xs[i] in xs;
  }

  lemma StartKeepsOrder(s: Pool, first: nat, count: nat, s': Pool)
    requires Partitioned(s, first, count) && s.pending != [] && InOrder(s, first + count)
    requires s'.dispatched == s.dispatched + [s.pending[0]] && |s'.pending| == |s.pending| - 1
    ensures InOrder(s', first + count)
  {
    HeadIsNext(s, first, count);
    OrderGrows(s.dispatched, s.pending[0]);
  }

  lemma KeptAfterStart(p: Plan, s: Pool, completed: set<nat>, at: real, now: real)
    requires Kept(p, s, completed) && s.pending != [] && at <= now
    requires p.limit > 0 ==> |s.active| < p.limit
    requires p.interval.Some? ==> s.NextDispatch() <= at
    ensures Kept(p, Start(s, at, now, p.interval), completed)
  {
    StartKeeps(s, p.first, p.count, at, now, p.interval);
    StartKeepsOrder(s, p.first, p.count, Start(s, at, now, p.interval));
    if p.interval.Some? {
      PacedStep(s.startedAt, s.advancedAt, s.slots, p.start, p.interval.value, at, now);
    }
  }

  lemma KeptAfterSkip(p: Plan, s: Pool, completed: set<nat>)
    requires Kept(p, s, completed) && s.pending != []
    ensures Kept(p, Skip(s), completed + {s.pending[0]})
  {
    var x := s.pending[0];
    SkipKeeps(s, p.first, p.count);
    OnlyThere(s, p.first, p.count, x);
    assert multiset(completed)[x] == 0;
    assert multiset(completed + {x}) == multiset(completed) + multiset{x};
    assert multiset(s.skipped + [x]) == multiset(s.skipped) + multiset{x};
  }

  lemma KeptAfterRecord(p: Plan, s: Pool, completed: set<nat>, x: nat)
    requires Kept(p, s, completed) && x in s.active
    ensures Kept(p, Record(s, x), completed + {x})
  {
    RecordKeeps(s, p.first, p.count, x);
    NotYetCompleted(s, p.first, p.count, completed, x);
    assert |s.active - {x}| <= |s.active|;
  }

  /** A session was skipped because it could not be built, and only such are. */
  ghost predicate SkippedAreUnbuildable(s: Pool, buildable: nat -> bool) {
    (forall x :: x in s.skipped ==> !buildable(x)) && (forall x :: x in s.dispatched ==> buildable(x))
  }

  lemma StartIsBuildable(s: Pool, buildable: nat -> bool, at: real, now: real, interval: Option<real>)
    requires SkippedAreUnbuildable(s, buildable) && s.pending != [] && buildable(s.pending[0])
    ensures SkippedAreUnbuildable(Start(s, at, now, interval), buildable)
  {
  }

  lemma SkipIsUnbuildable(s: Pool, buildable: nat -> bool)
    requires SkippedAreUnbuildable(s, buildable) && s.pending != [] && !buildable(s.pending[0])
    ensures SkippedAreUnbuildable(Skip(s), buildable)
  {
  }

  lemma RecordedAreBuildable(s: Pool, buildable: nat -> bool, x: nat)
    requires SkippedAreUnbuildable(s, buildable) && multiset(s.dispatched) == multiset(s.active) + multiset(s.recorded) && x in s.recorded
    ensures buildable(x)
  {
    assert x in multiset(s.dispatched);
  }

  /** In the end a session of the slice is recorded when it could be built, and skipped otherwise. */
  lemma EachSessionEnds(s: Pool, first: nat, count: nat, buildable: nat -> bool)
    requires SkippedAreUnbuildable(s, buildable) && multiset(s.dispatched) == multiset(s.active) + multiset(s.recorded)
    requires AllOnce(s, first, count)
    ensures forall x :: x in s.recorded <==> first <= x < first + count && buildable(x)
    ensures forall x :: x in s.skipped <==> first <= x < first + count && !buildable(x)
  {
    forall x: nat
      ensures x in s.recorded <==> first <= x < first + count && buildable(x)
      ensures x in s.skipped <==> first <= x < first + count && !buildable(x)
    {
      RangeHas(first, first + count, x);
      assert multiset(s.recorded)[x] + multiset(s.skipped)[x] == multiset(Range(first, first + count))[x];
      if x in s.recorded {
        RecordedAreBuildable(s, buildable, x);
      }
    }
  }

  class StagePool {
    const plan: Plan
    const buildable: nat -> bool
    var pool: Pool
    var completed: set<nat>

    ghost predicate Valid()
      reads this
    {
      Kept(plan, pool, completed) && SkippedAreUnbuildable(pool, buildable)
    }

    constructor (plan: Plan, buildable: nat -> bool)
      ensures Valid() && this.plan == plan && this.buildable == buildable
      ensures pool == Pool(Range(plan.first, plan.first + plan.count), {}, [], [], [], [], [], [plan.start])
    {
      this.plan, this.buildable := plan, buildable;
      pool := Pool(Range(plan.first, plan.first + plan.count), {}, [], [], [], [], [], [plan.start]);
      completed := {};
      new;
      KeptAtStart(plan, pool);
    }

    ghost predicate MayStart(now: real)
      reads this
      requires pool.slots != []
    {
      pool.pending != [] && (plan.limit > 0 ==> |pool.active| < plan.limit) && (plan.interval.Some? ==> now >= pool.NextDispatch())
    }

    /** Whether the next session may start; with a rate, the clock decides last. */
    method ShouldStart(clock: Clock) returns (go: bool)
      requires pool.slots != []
      modifies clock
      ensures clock.now >= old(clock.now)
      ensures go <==> MayStart(clock.now)
    {
      if plan.limit > 0 && |pool.active| >= plan.limit {
        return false;
      }
      if pool.pending == [] {
        return false;
      }
      if plan.interval.Some? {
        var now := clock.Read();
        return now >= pool.NextDispatch();
      }
      go := true;
    }

    /** Starts the session at the head of the pending list, or skips it when it cannot be built. */
    method DispatchNext(clock: Clock)
      requires Valid() && MayStart(clock.now)
      modifies this, clock
      ensures Valid() && Extends(old(pool), pool) && clock.now >= old(clock.now)
      ensures if buildable(old(pool).pending[0])
              then exists at, now :: old(clock.now) <= at <= now && pool == Start(old(pool), at, now, plan.interval)
              else pool == Skip(old(pool))
      ensures |pool.pending| == |old(pool).pending| - 1
    {
      var session := pool.pending[0];
      if !buildable(session) {
        KeptAfterSkip(plan, pool, completed);
        SkipExtends(pool);
        SkipIsUnbuildable(pool, buildable);
        pool := Skip(pool);
        completed := completed + {session};
        return;
      }
      ghost var before := clock.now;
      var at := clock.Read();
      var now := clock.Read();
      KeptAfterStart(plan, pool, completed, at, now);
      StartExtends(pool, at, now, plan.interval);
      StartIsBuildable(pool, buildable, at, now, plan.interval);
      pool := Start(pool, at, now, plan.interval);
      assert before <= at <= now;
    }

    /** Takes one ended session out of the pool and records it. */
    method CollectOne(session: nat)
      requires Valid() && session in pool.active
      modifies this
      ensures Valid() && pool == Record(old(pool), session)
    {
      KeptAfterRecord(plan, pool, completed, session);
      completed := completed + {session};
      pool := Record(pool, session);
    }

    /** Moves every active session that has ended out of the pool and records it once. */
    method Collect(ended: set<nat>)
      requires Valid()
      modifies this
      ensures Valid() && old(pool).recorded <= pool.recorded
      ensures pool == old(pool).(active := old(pool).active - ended, recorded := pool.recorded)
      ensures forall x :: x in old(pool).active && x in ended ==> x in pool.recorded
    {
      ghost var before := pool;
      var newly := pool.active * ended;
      while newly != {}
        invariant Valid() && before.recorded <= pool.recorded
        invariant newly == pool.active * ended && pool.active == (before.active - ended) + newly
        invariant pool == before.(active := pool.active, recorded := pool.recorded)
        invariant forall x :: x in before.active && x !in pool.active ==> x in pool.recorded
        decreases newly
      {
        var session :| session in newly;
        TakeOneEnded(before.active, pool.active, ended, newly, session);
        newly := newly - {session};
        CollectOne(session);
      }
    }

    /** Fills the pool from the pending list as far as its limits allow. */
    method Fill(clock: Clock)
      requires Valid()
      modifies this, clock
      ensures Valid() && Extends(old(pool), pool)
      ensures !MayStart(clock.now) && clock.now >= old(clock.now)
      ensures old(pool).active <= pool.active && pool.recorded == old(pool).recorded
    {
      var go := ShouldStart(clock);
      while go
        invariant Valid() && Extends(old(pool), pool)
        invariant go <==> MayStart(clock.now)
        invariant clock.now >= old(clock.now)
        invariant old(pool).active <= pool.active && pool.recorded == old(pool).recorded
        decreases |pool.pending|
      {
        DispatchNext(clock);
        go := ShouldStart(clock);
        if !go { break; }
      }
    }

    /** What a turn does that finds no reason to stop: records what has ended, and refills the pool. */
    method Serve(ended: set<nat>, clock: Clock) returns (status: Status)
      requires Valid()
      modifies this, clock
      ensures Valid() && Extends(old(pool), pool) && clock.now >= old(clock.now)
      ensures pool.pending == [] || (plan.limit > 0 && |pool.active| == plan.limit) || (plan.interval.Some? && clock.now < pool.NextDispatch())
      ensures old(pool).active - ended <= pool.active
      ensures forall x :: x in old(pool).active && x in ended ==> x in pool.recorded && x !in pool.active
      ensures status == if pool.pending == [] && pool.active == {} then Completed else Running
    {
      Collect(ended);
      Fill(clock);
      CompletedCount(pool, plan.first, plan.count, completed);
      RecordedAreNotActive(pool, plan.first, plan.count);
      if |completed| >= plan.count {
        return Completed;
      }
      if pool.pending == [] && pool.active == {} {
        return Completed;
      }
      status := Running;
    }

    /** One turn of the driver loop. */
    method Drive(turn: Turn, clock: Clock) returns (status: Status)
      requires Valid()
      modifies this, clock
      ensures Valid() && Extends(old(pool), pool)
      ensures status == Interrupted <==> turn.interrupted
      ensures status == TimedOut ==> plan.maxDuration.Some? && clock.now - plan.start >= plan.maxDuration.value
      ensures !turn.interrupted && !turn.breakerOpen && plan.maxDuration.Some? && old(clock.now) - plan.start >= plan.maxDuration.value
              ==> status == TimedOut
      ensures status == Failed <==> !turn.interrupted && (turn.breakerOpen || (turn.workerDead && status != TimedOut))
      ensures status in {Interrupted, Failed, TimedOut} ==> pool == old(pool)
      ensures status in {Running, Completed} ==> old(pool).active - turn.ended <= pool.active
      ensures status in {Running, Completed} ==>
        pool.pending == [] || (plan.limit > 0 && |pool.active| == plan.limit) || (plan.interval.Some? && clock.now < pool.NextDispatch())
      ensures status in {Running, Completed} ==> forall x :: x in old(pool).active && x in turn.ended ==> x in pool.recorded && x !in pool.active
      ensures status in {Running, Completed} ==> (status == Completed <==> pool.pending == [] && pool.active == {})
    {
      if turn.interrupted {
        return Interrupted;
      }
      if turn.breakerOpen {
        return Failed;
      }
      if plan.maxDuration.Some? {
        var now := clock.Read();
        if now - plan.start >= plan.maxDuration.value {
          return TimedOut;
        }
      }
      if turn.workerDead {
        return Failed;
      }
      status := Serve(turn.ended, clock);
    }

    /** The driver loop, over the turns observed so far. */
    method DriveAll(turns: seq<Turn>, clock: Clock) returns (status: Status)
      requires Valid()
      modifies this, clock
      ensures Valid() && Extends(old(pool), pool)
      ensures status == Completed ==> pool.pending == [] && pool.active == {}
    {
      status := Running;
      ghost var before := pool;
      var i := 0;
      while i < |turns| && status == Running
        invariant Valid() && Extends(before, pool)
        invariant status == Completed ==> pool.pending == [] && pool.active == {}
      {
        ghost var middle := pool;
        status := Drive(turns[i], clock);
        ExtendsTwice(before, middle, pool);
        i := i + 1;
      }
    }

    /** A stage that completes has recorded or skipped every session of its slice exactly once. */
    method Run(turns: seq<Turn>, clock: Clock) returns (status: Status)
      requires Valid()
      modifies this, clock
      ensures Valid() && Extends(old(pool), pool)
      ensures status == Completed ==> pool.pending == [] && pool.active == {}
      ensures status == Completed ==> AllOnce(pool, plan.first, plan.count)
      ensures status == Completed ==>
        && (forall x :: x in pool.recorded <==> plan.first <= x < plan.first + plan.count && buildable(x))
        && (forall x :: x in pool.skipped <==> plan.first <= x < plan.first + plan.count && !buildable(x))
    {
      status := DriveAll(turns, clock);
      if status == Completed {
        CompletedIsAll(pool, plan.first, plan.count);
        EachSessionEnds(pool, plan.first, plan.count, buildable);
      }
    }
  }

  // ---- Consequences of the pool's invariant ----

  /** Every session of the stage is in exactly one of the four places, and none from outside is in any. */
  lemma EverySessionHasOnePlace(s: Pool, first: nat, count: nat, session: nat)
    requires Partitioned(s, first, count)
    ensures multiset(s.pending)[session] + multiset(s.active)[session] + multiset(s.recorded)[session] + multiset(s.skipped)[session]
            == if first <= session < first + count then 1 else 0
    ensures multiset(s.dispatched)[session] <= 1
  {
    RangeHas(first, first + count, session);
    SplitAt(multiset(s.pending), multiset(s.active), multiset(s.recorded), multiset(s.skipped),
            multiset(Range(first, first + count)), session);
  }

  lemma StartsAfterItsSlot(s: Pool, start: real, interval: real, j: nat)
    requires Paced(s.startedAt, s.advancedAt, s.slots, start, interval) && j < |s.startedAt|
    ensures s.startedAt[j] >= start + Offset(j, interval)
  {
    SlotsSpread(s.startedAt, s.advancedAt, s.slots, start, interval, 0, j);
  }

  lemma StartsSpread(s: Pool, start: real, interval: real, j: nat, m: nat)
    requires Paced(s.startedAt, s.advancedAt, s.slots, start, interval) && m >= 1 && j + m < |s.startedAt|
    ensures s.startedAt[j + m] - s.startedAt[j] >= Offset(m - 1, interval)
  {
    SlotsSpread(s.startedAt, s.advancedAt, s.slots, start, interval, j + 1, m - 1);
    assert s.slots[j + 1] == Later(s.slots[j] + interval, s.advancedAt[j]);
  }

  /** The k-th session starts no earlier than k intervals after the stage, and any m + 1 starts in a row
      span at least m - 1 intervals, however late the loop runs. */
  lemma SessionsAreRateLimited(s: Pool, start: real, interval: real, j: nat, m: nat)
    requires Paced(s.startedAt, s.advancedAt, s.slots, start, interval) && m >= 1 && j + m < |s.startedAt|
    ensures s.startedAt[j] >= start + j as real * interval
    ensures s.startedAt[j + m] - s.startedAt[j] >= (m - 1) as real * interval
  {
    StartsAfterItsSlot(s, start, interval, j);
    OffsetIsProduct(j, interval);
    StartsSpread(s, start, interval, j, m);
    OffsetIsProduct(m - 1, interval);
  }

  /** When the loop last caught up with its schedule at slot j: at the start of the stage, or when it moved slot j on. */
  function CaughtUp(advancedAt: seq<real>, start: real, j: nat): real
    requires j <= |advancedAt|
  {
    if j == 0 then start else advancedAt[j - 1]
  }

  /** A slot is the latest of the times that start from any catching up and go on by whole intervals. So time that was
      lost is never made up. */
  lemma {:induction false} SlotsInClosedForm(s: Pool, start: real, interval: real, n: nat) returns (j: nat)
    requires Paced(s.startedAt, s.advancedAt, s.slots, start, interval) && n < |s.slots|
    ensures j <= n && s.slots[n] == CaughtUp(s.advancedAt, start, j) + Offset(n - j, interval)
    ensures forall i :: 0 <= i <= n ==> s.slots[n] >= CaughtUp(s.advancedAt, start, i) + Offset(n - i, interval)
  {
    if n == 0 {
      j := 0;
    } else {
      j := SlotsInClosedForm(s, start, interval, n - 1);
      assert s.slots[n - 1 + 1] == Later(s.slots[n - 1] + interval, s.advancedAt[n - 1]);
      if s.slots[n] != s.slots[n - 1] + interval {
        j := n;
      }
    }
  }

  /** While the loop is never more than an interval late, the slots stay on their grid. */
  lemma OnTimeLoopKeepsTheGrid(s: Pool, start: real, interval: real, n: nat)
    requires Paced(s.startedAt, s.advancedAt, s.slots, start, interval) && n < |s.slots|
    requires forall k :: 0 <= k < n ==> s.advancedAt[k] <= start + (k + 1) as real * interval
    ensures s.slots[n] == start + n as real * interval
  {
    var j := SlotsInClosedForm(s, start, interval, n);
    OffsetIsProduct(n, interval);
    OffsetIsProduct(n - j, interval);
    assert s.slots[n] >= CaughtUp(s.advancedAt, start, 0) + Offset(n - 0, interval);
    if j > 0 {
      assert CaughtUp(s.advancedAt, start, j) <= start + j as real * interval;
      Distribute(j, n, interval);
    }
  }

  lemma Distribute(j: nat, n: nat, interval: real)
    requires j <= n
    ensures j as real * interval + (n - j) as real * interval == n as real * interval
  {
  }

  /** The span cannot be raised to m intervals: after a late first start, the second may follow at once. */
  lemma LateLoopDispatchesTwoAtOnce(interval: real, late: real)
    requires 0.0 < interval <= late
    ensures var s0 := Pool(Range(0, 2), {}, [], [], [], [], [], [0.0]);
            var s1 := Start(s0, late, late, Some(interval));
            var s2 := Start(s1, late, late, Some(interval));
            && late >= s0.NextDispatch() && late >= s1.NextDispatch()
            && s2.dispatched == [0, 1] && s2.startedAt == [late, late]
  {
    var s0 := Pool(Range(0, 2), {}, [], [], [], [], [], [0.0]);
    assert s0.pending == [0, 1] by {
      assert Range(0, 0) == [] && Range(0, 1) == [0];
    }
    var s1 := Start(s0, late, late, Some(interval));
    assert s1.pending == [1];
  }

  // ---- The cursor over the corpus ----

  /** The number of sessions a stage takes; none when the corpus is used up. */
  function SliceAt(cursor: nat, total: nat, wanted: Option<nat>): Option<nat> {
    if total <= cursor then None
    else Some(if wanted.Some? && wanted.value < total - cursor then wanted.value else total - cursor)
  }

  class Corpus {
    const total: nat
    var cursor: nat

    constructor (total: nat)
      ensures cursor == 0 && this.total == total
    {
      this.total := total;
      cursor := 0;
    }

    method TakeSlice(wanted: Option<nat>) returns (slice: Option<(nat, nat)>)
      modifies this
      ensures slice == (if SliceAt(old(cursor), total, wanted).None? then None else Some((old(cursor), cursor - old(cursor))))
      ensures slice.None? <==> old(cursor) >= total
      ensures slice.None? ==> cursor == old(cursor)
      ensures slice.Some? && wanted.Some? && wanted.value <= total - old(cursor) ==> cursor == old(cursor) + wanted.value
      ensures slice.Some? && (wanted.None? || wanted.value > total - old(cursor)) ==> cursor == total
    {
      var available := total - cursor;
      if available <= 0 {
        return None;
      }
      var n := if wanted.Some? && wanted.value < available then wanted.value else available;
      slice := Some((cursor, n));
      cursor := cursor + n;
    }
  }

  /** The slices of successive stages. */
  function Slices(cursor: nat, total: nat, wanted: seq<Option<nat>>): seq<(nat, nat)>
    decreases |wanted|
  {
    if wanted == [] then []
    else match SliceAt(cursor, total, wanted[0])
      case None => Slices(cursor, total, wanted[1..])
      case Some(n) => [(cursor, n)] + Slices(cursor + n, total, wanted[1..])
  }

  /** Successive stages take consecutive, disjoint slices of the corpus. */
  lemma {:induction false} SlicesAreConsecutive(cursor: nat, total: nat, wanted: seq<Option<nat>>)
    ensures var s := Slices(cursor, total, wanted);
            && (s != [] ==> s[0].0 == cursor)
            && (forall i :: 0 <= i < |s| - 1 ==> s[i + 1].0 == s[i].0 + s[i].1)
            && (forall i, j :: 0 <= i < j < |s| ==> s[i].0 + s[i].1 <= s[j].0)
            && (forall i :: 0 <= i < |s| ==> cursor <= s[i].0 && s[i].0 + s[i].1 <= total)
    decreases |wanted|
  {
    if wanted != [] {
      var n := SliceAt(cursor, total, wanted[0]);
      SlicesAreConsecutive(cursor + (if n.Some? then n.value else 0), total, wanted[1..]);
    }
  }

  /** As much as was asked for, unless the corpus ends first. */
  predicate Granted(slice: (nat, nat), wanted: Option<nat>, total: nat) {
    if wanted.Some? && slice.0 + wanted.value <= total then slice.1 == wanted.value else slice.0 + slice.1 == total
  }

  /** A stage gets the slice it asks for, or what is left, and none at all only when everything has been taken. */
  lemma {:induction false} SlicesAreGranted(cursor: nat, total: nat, wanted: seq<Option<nat>>)
    requires cursor <= total
    ensures var s := Slices(cursor, total, wanted);
            && |s| <= |wanted|
            && (forall i :: 0 <= i < |s| ==> Granted(s[i], wanted[i], total))
            && (|s| < |wanted| ==> (if s == [] then cursor else s[|s| - 1].0 + s[|s| - 1].1) == total)
    decreases |wanted|
  {
    if wanted != [] {
      var n := SliceAt(cursor, total, wanted[0]);
      var next := cursor + (if n.Some? then n.value else 0);
      SlicesAreGranted(next, total, wanted[1..]);
      if n.None? {
        NothingLeft(cursor, total, wanted);
      }
    }
  }

  lemma {:induction false} NothingLeft(cursor: nat, total: nat, wanted: seq<Option<nat>>)
    requires cursor >= total
    ensures Slices(cursor, total, wanted) == []
    decreases |wanted|
  {
    if wanted != [] {
      NothingLeft(cursor, total, wanted[1..]);
    }
  }
}
