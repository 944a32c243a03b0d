/** Concrete runs of one worker on one channel, each showing something the stage protocol does not promise. */
module StageExamples {
  import opened Common
  import opened StageProtocol
  import opened StageSafety
  import opened StageTheorems
  import opened StageRuns
  import opened StageRaces
  import opened StageCeiling

  /** A reachable state with one worker and one channel. */
  ghost predicate Lone(s: System, main: Main, signals: Signals, stage: nat, queue: seq<Item>, w: Worker) {
    Reachable(s) && s.main == main && s.signals == signals && s.stage == stage && s.queues == [queue] && s.workers == [w]
  }

  const UNTOUCHED := History({}, false, false, false)

  lemma LoneStart(session: bool, capacity: nat, share: Option<nat>) returns (s: System)
    requires session ==> share.None?
    ensures Lone(s, Idle, Signals(true, false, 0, session), 0, [], FreshWorker(0, capacity, share))
    ensures s.capacity == capacity && s.history == UNTOUCHED && s.counters == Counters(0, 0, 0) && s.book.leakedActive == 0
  {
    s := Start(session, capacity, share, 1, 1);
    assert ReachedBy(s, session, capacity, share, 1, 1, []);
    assert s.workers == [FreshWorker(0, capacity, share)] && s.queues == [[]];
  }

  /** The worker walks along a path of local steps. */
  lemma {:induction false} LoneWalk(a: System, main: Main, signals: Signals, stage: nat, queue: seq<Item>, ws: seq<Worker>) returns (s: System)
    requires ws != [] && Lone(a, main, signals, stage, queue, ws[0]) && Path(signals, Head(queue), ws)
    ensures Lone(s, main, signals, stage, queue, ws[|ws| - 1]) && s == a.(workers := s.workers)
    decreases |ws|
  {
    var n := |ws| - 1;
    if n == 0 {
      s := a;
    } else {
      var b := LoneWalk(a, main, signals, stage, queue, ws[..n]);
      s := b.(workers := [ws[n]]);
      assert b.workers[0 := ws[n]] == [ws[n]];
      ReachableNext(b, WorkerMoves(0, Advance), s);
    }
  }

  lemma LoneOpens(a: System, signals: Signals, stage: nat, queue: seq<Item>, w: Worker) returns (s: System)
    requires Lone(a, Idle, signals, stage, queue, w)
    ensures Lone(s, Serving, signals.(phase := true), stage + 1, queue, w)
    ensures s.teardown == a.teardown && s.history == a.history.(crossed := !Exact(a)) && s.capacity == a.capacity
    ensures s.counters.active == a.counters.active && s.book.leakedActive == a.book.leakedActive
    ensures signals.session ==> s.counters.skipped == a.counters.skipped
    ensures s.book.carriedSkips == s.counters.skipped - SkipsPending(w)
  {
    var b := Open(a);
    ReachableNext(a, MainMoves(OpenStage), b);
    s := Reset(b);
    ReachableNext(b, MainMoves(ResetCounters), s);
    assert Sum([w], SkipsPending) == SkipsPending(w) + Sum([], SkipsPending);
  }

  lemma LonePut(a: System, signals: Signals, stage: nat, w: Worker, id: nat) returns (s: System)
    requires Lone(a, Serving, signals, stage, [], w)
    ensures Lone(s, Serving, signals, stage, [Item(stage, id)], w)
    ensures s.counters == a.counters && s.history == a.history && s.book.leakedActive == a.book.leakedActive
  {
    s := Enqueue(a, Item(stage, id), None);
    assert |s.queues| == 1 && s.queues[0] == a.queues[0] + [Item(stage, id)] == [Item(stage, id)];
    ReachableNext(a, MainMoves(Put(id, None)), s);
  }

  /** The boundary is published over a worker outside its boundary block, and the cancel signal raised. */
  lemma LonePublish(a: System, signals: Signals, stage: nat, queue: seq<Item>, w: Worker) returns (s: System)
    requires Lone(a, Serving, signals, stage, queue, w) && !InBoundaryBlock(w)
    ensures Lone(s, Cancelled, signals.(boundary := signals.boundary + 1, cancel := true), stage, queue, w)
    ensures s.teardown == Teardown({}, {}, true, 0) && s.history == a.history.(occupied := {}, incomplete := false)
    ensures s.counters == a.counters && s.capacity == a.capacity
  {
    var b := PublishBoundary(a);
    ReachableNext(a, MainMoves(Publish), b);
    assert InBlocks(a) == {};
    s := b.(main := Cancelled, signals := b.signals.(cancel := true));
    ReachableNext(b, MainMoves(SetCancel), s);
  }

  lemma LoneClearPhase(a: System, signals: Signals, stage: nat, queue: seq<Item>, w: Worker) returns (s: System)
    requires Lone(a, Cancelled, signals, stage, queue, w)
    ensures Lone(s, Waiting, signals.(phase := false), stage, queue, w)
    ensures s == a.(main := s.main, signals := s.signals)
  {
    s := a.(main := Waiting, signals := a.signals.(phase := false));
    ReachableNext(a, MainMoves(ClearPhase), s);
  }

  /** The worker has acknowledged, or is dead. */
  lemma LoneRendezvous(a: System, signals: Signals, stage: nat, queue: seq<Item>, w: Worker) returns (s: System)
    requires Lone(a, Waiting, signals, stage, queue, w) && (w.alive ==> w.done == signals.boundary)
    ensures Lone(s, Draining(0), signals, stage, queue, w) && s == a.(main := s.main)
  {
    s := a.(main := Draining(0));
    assert forall v :: v in a.workers ==> v == w;
    ReachableNext(a, MainMoves(Rendezvous), s);
  }

  lemma LoneClearCancel(a: System, signals: Signals, stage: nat, queue: seq<Item>, w: Worker) returns (s: System)
    requires Lone(a, Clearing, signals, stage, queue, w)
    ensures Lone(s, Visiting(0), signals.(cancel := false), stage, queue, w)
    ensures s == a.(main := s.main, signals := s.signals)
  {
    s := a.(main := Visiting(0), signals := a.signals.(cancel := false));
    ReachableNext(a, MainMoves(ClearCancel), s);
  }

  lemma LoneDrained(a: System, signals: Signals, stage: nat, w: Worker) returns (s: System)
    requires Lone(a, Draining(0), signals, stage, [], w)
    ensures Lone(s, Visiting(0), signals.(cancel := false), stage, [], w)
    ensures s == a.(main := s.main, signals := s.signals)
  {
    var b := a.(main := Clearing);
    ReachableNext(a, MainMoves(DrainDone), b);
    s := LoneClearCancel(b, signals, stage, [], w);
  }

  lemma LoneTimeout(a: System, signals: Signals, stage: nat, queue: seq<Item>, w: Worker) returns (s: System)
    requires Lone(a, Draining(0), signals, stage, queue, w)
    ensures Lone(s, Visiting(0), signals.(cancel := false), stage, queue, w)
    ensures s.teardown == a.teardown.(removed := a.teardown.removed + |queue|)
    ensures s.history == a.history.(incomplete := true, timedOut := true)
  {
    var b := MainStep(a, DrainTimeout).value;
    ReachableNext(a, MainMoves(DrainTimeout), b);
    s := LoneClearCancel(b, signals, stage, queue, w);
  }

  /** The worker is kept. */
  lemma LoneReturn(a: System, signals: Signals, stage: nat, queue: seq<Item>, w: Worker) returns (s: System)
    requires Lone(a, Visiting(0), signals, stage, queue, w) && w.alive && w.done == signals.boundary && a.teardown.forced == {}
    ensures Lone(s, Idle, signals, stage, queue, w) && s == a.(main := s.main)
  {
    var b := a.(main := Visiting(1));
    assert !MustReplace(a, 0);
    assert MainStep(a, Visit) == Some(b);
    ReachableNext(a, MainMoves(Visit), b);
    s := LoneHome(b, signals, stage, queue, w);
  }

  /** The worker is dead and gets replaced. */
  lemma LoneReplaced(a: System, signals: Signals, stage: nat, queue: seq<Item>, w: Worker) returns (s: System)
    requires Lone(a, Visiting(0), signals, stage, queue, w) && !w.alive
    ensures Lone(s, Idle, signals, stage, queue, FreshWorker(signals.boundary, a.capacity, w.share))
    ensures s.history == a.history.(occupied := a.history.occupied - {0})
  {
    var b := VisitWorker(a);
    LoneVisit(a, w);
    assert MainStep(a, Visit) == Some(b);
    ReachableNext(a, MainMoves(Visit), b);
    s := LoneHome(b, signals, stage, queue, FreshWorker(signals.boundary, a.capacity, w.share));
  }

  lemma LoneHome(b: System, signals: Signals, stage: nat, queue: seq<Item>, w: Worker) returns (s: System)
    requires Lone(b, Visiting(1), signals, stage, queue, w)
    ensures Lone(s, Idle, signals, stage, queue, w) && s == b.(main := s.main)
  {
    s := b.(main := Idle);
    ReachableNext(b, MainMoves(Return), s);
  }

  lemma LoneVisit(a: System, w: Worker)
    requires a.main == Visiting(0) && a.workers == [w] && !w.alive && |a.queues| == 1
    ensures var b := VisitWorker(a);
            && b.queues == a.queues && b.workers == [FreshWorker(a.signals.boundary, a.capacity, w.share)]
            && b.main == Visiting(1) && b.signals == a.signals && b.stage == a.stage
            && b.history == a.history.(occupied := a.history.occupied - {0})
  {
    VisitShape(a);
  }

  lemma LoneCrash(a: System, signals: Signals, stage: nat, w: Worker) returns (s: System)
    requires Lone(a, Serving, signals, stage, [], w) && w.alive
    ensures Lone(s, Serving, signals, stage, [], Corpse(w))
    ensures s.history == a.history && s.capacity == a.capacity && s.book.leakedActive == a.book.leakedActive + InFlightOf(w)
  {
    s := WorkerStep(a, 0, Crash).value;
    ReachableNext(a, WorkerMoves(0, Crash), s);
  }

  /** The way of an idle worker from its inner guard through a boundary to its wait. */
  function BoundaryPath(w: Worker, phase: bool, boundary: nat): seq<Worker> {
    [w, if phase then w.(pc := GuardCancel) else w.(pc := EdgeCancel)]
    + (if phase then [w.(pc := EdgeCancel)] else [])
    + [w.(pc := WindDown), w.(pc := AckRead), w.(pc := AckWrite(boundary)), w.(pc := HoldPhase, done := boundary)]
  }

  lemma BoundaryPathIsPath(env: Signals, head: Option<Item>, w: Worker)
    requires env.cancel && w.alive && !w.skip && w.pc.GuardPhase? && w.tasks == []
    ensures Path(env, head, BoundaryPath(w, env.phase, env.boundary))
  {
    var ws := BoundaryPath(w, env.phase, env.boundary);
    var n := if env.phase then 1 else 0;
    assert AdvanceStep(env, head, ws[0]) == Went(ws[1], Local);
    assert env.phase ==> AdvanceStep(env, head, ws[1]) == Went(ws[2], Local);
    assert AdvanceStep(env, head, ws[n + 1]) == Went(ws[n + 2], Local);
    assert AdvanceStep(env, head, ws[n + 2]) == Went(ws[n + 3], Local);
    assert AdvanceStep(env, head, ws[n + 3]) == Went(ws[n + 4], Local);
    assert AdvanceStep(env, head, ws[n + 4]) == Went(ws[n + 5], Local);
  }

  /** A stage ends with its worker at the guard: the boundary, the signals, the acknowledgement. */
  lemma LoneStageEnds(a: System, signals: Signals, stage: nat, queue: seq<Item>, w: Worker) returns (s: System)
    requires Lone(a, Serving, signals, stage, queue, w) && w.alive && !w.skip && w.pc.GuardPhase? && w.tasks == []
    ensures var env := signals.(phase := false, cancel := true, boundary := signals.boundary + 1);
            Lone(s, Draining(0), env, stage, queue, w.(pc := HoldPhase, done := env.boundary))
    ensures s.teardown == Teardown({}, {}, true, 0) && s.history == a.history.(occupied := {}, incomplete := false)
    ensures s.counters == a.counters && s.capacity == a.capacity
  {
    var env := signals.(phase := false, cancel := true, boundary := signals.boundary + 1);
    var b := LonePublish(a, signals, stage, queue, w);
    var c := LoneClearPhase(b, b.signals, stage, queue, w);
    assert c.signals == env;
    BoundaryPathIsPath(env, Head(queue), w);
    var d := LoneWalk(c, Waiting, env, stage, queue, BoundaryPath(w, false, env.boundary));
    s := LoneRendezvous(d, env, stage, queue, w.(pc := HoldPhase, done := env.boundary));
  }

  // ---- A boundary block that is occupied ----

  /** Between stages a worker that starts goes right into its boundary block. */
  function StartUpPath(w: Worker): seq<Worker> {
    [w, w.(pc := GuardPhase), w.(pc := EdgeCancel), w.(pc := EdgePhase), w.(pc := WindDown)]
  }

  lemma StartUpPathIsPath(env: Signals, head: Option<Item>, w: Worker)
    requires !env.phase && !env.cancel && w.alive && w.share.None? && !w.skip && w.pc.Top?
    ensures Path(env, head, StartUpPath(w))
  {
    var ws := StartUpPath(w);
    assert AdvanceStep(env, head, ws[0]) == Went(ws[1], Local);
    assert AdvanceStep(env, head, ws[1]) == Went(ws[2], Local);
    assert AdvanceStep(env, head, ws[2]) == Went(ws[3], Local);
    assert AdvanceStep(env, head, ws[3]) == Went(ws[4], Local);
  }

  lemma SecondStageAfterACrash(capacity: nat) returns (s: System)
    ensures Lone(s, Idle, Signals(false, false, 1, false), 1, [], FreshWorker(1, capacity, None)) && s.history == UNTOUCHED
  {
    var w := FreshWorker(0, capacity, None);
    var a := LoneStart(false, capacity, None);
    var b := LoneOpens(a, a.signals, 0, [], w);
    var c := LoneCrash(b, b.signals, 1, w);
    var d := LonePublish(c, c.signals, 1, [], Corpse(w));
    var e := LoneClearPhase(d, d.signals, 1, [], Corpse(w));
    var f := LoneRendezvous(e, e.signals, 1, [], Corpse(w));
    var g := LoneDrained(f, f.signals, 1, Corpse(w));
    s := LoneReplaced(g, g.signals, 1, [], Corpse(w));
  }

  /** The unsafe situation arises in ordinary use: a worker crashes in the first stage, its
      replacement starts between the stages, and it is still in its boundary block when the second
      stage already has a request queued. */
  lemma BoundaryBlocksGetOccupied(capacity: nat) returns (s: System)
    requires capacity > 0
    ensures Reachable(s) && s.main.Serving? && s.stage == 2 && !s.signals.session && !s.history.crossed
    ensures |s.workers| == 1 && |s.queues| == 1 && Exposed(s, 0)
  {
    var w := FreshWorker(1, capacity, None);
    var a := SecondStageAfterACrash(capacity);
    StartUpPathIsPath(a.signals, None, w);
    var b := LoneWalk(a, Idle, Signals(false, false, 1, false), 1, [], StartUpPath(w));
    var c := LoneOpens(b, Signals(false, false, 1, false), 1, [], w.(pc := WindDown));
    s := LonePut(c, Signals(true, false, 1, false), 2, w.(pc := WindDown), 7);
  }

  // ---- A drain that gives up ----

  /** The first stage is open, and the worker at the guard. */
  lemma LoneReady(capacity: nat) returns (s: System)
    ensures Lone(s, Serving, Signals(true, false, 0, false), 1, [], FreshWorker(0, capacity, None).(pc := GuardPhase))
    ensures s.history == UNTOUCHED && s.book.leakedActive >= 0
  {
    var w := FreshWorker(0, capacity, None);
    var a := LoneStart(false, capacity, None);
    var b := LoneOpens(a, a.signals, 0, [], w);
    var ws := [w, w.(pc := GuardPhase)];
    assert AdvanceStep(b.signals, None, ws[0]) == Went(ws[1], Local);
    s := LoneWalk(b, Serving, Signals(true, false, 0, false), 1, [], ws);
  }

  lemma FirstStageLeavesARequest(capacity: nat) returns (s: System)
    ensures Lone(s, Draining(0), Signals(false, true, 1, false), 1, [Item(1, 5)], FreshWorker(1, capacity, None).(pc := HoldPhase))
    ensures s.teardown == Teardown({}, {}, true, 0) && s.history == UNTOUCHED
  {
    var w := FreshWorker(0, capacity, None).(pc := GuardPhase);
    var a := LoneReady(capacity);
    var b := LonePut(a, Signals(true, false, 0, false), 1, w, 5);
    s := LoneStageEnds(b, Signals(true, false, 0, false), 1, [Item(1, 5)], w);
  }

  lemma SecondStageFindsTheRequest(capacity: nat) returns (s: System, w: Worker)
    ensures w == FreshWorker(1, capacity, None).(pc := HoldPhase)
    ensures Lone(s, Serving, Signals(true, false, 1, false), 2, [Item(1, 5)], w)
    ensures s.teardown == Teardown({}, {}, true, 1) && s.history == History({}, true, true, true)
  {
    var e := FirstStageLeavesARequest(capacity);
    w := FreshWorker(1, capacity, None).(pc := HoldPhase);
    var f := LoneTimeout(e, Signals(false, true, 1, false), 1, [Item(1, 5)], w);
    var g := LoneReturn(f, Signals(false, false, 1, false), 1, [Item(1, 5)], w);
    s := LoneOpens(g, Signals(false, false, 1, false), 1, [Item(1, 5)], w);
  }

  /** From the wait to the pull of the next stage. */
  function ResumePath(w: Worker): seq<Worker> {
    [w, w.(pc := HoldCancel), w.(pc := Top), w.(pc := GuardPhase), w.(pc := GuardCancel), w.(pc := Acquire),
     w.(pc := Pull(true), free := if w.free > 0 then w.free - 1 else 0)]
  }

  lemma ResumePathIsPath(env: Signals, head: Option<Item>, w: Worker)
    requires env.phase && !env.cancel && !env.session && w.alive && w.share.None? && !w.skip && w.pc.HoldPhase? && w.free > 0
    ensures Path(env, head, ResumePath(w))
  {
    var ws := ResumePath(w);
    assert AdvanceStep(env, head, ws[0]) == Went(ws[1], Local);
    assert AdvanceStep(env, head, ws[1]) == Went(ws[2], Local);
    assert AdvanceStep(env, head, ws[2]) == Went(ws[3], Local);
    assert AdvanceStep(env, head, ws[3]) == Went(ws[4], Local);
    assert AdvanceStep(env, head, ws[4]) == Went(ws[5], Local);
    assert AdvanceStep(env, head, ws[5]) == Went(ws[6], Local);
  }

  /** When a drain times out, the requests it counted as removed stay in the channel, and the next stage
      pulls them: separation needs the drains to be complete, not only the boundaries to be safe. */
  lemma TimedOutDrainLeaksIntoTheNextStage(capacity: nat) returns (s: System)
    requires capacity > 0
    ensures Reachable(s) && s.history.occupied == {} && s.main.Serving? && s.stage == 2
    ensures s.teardown.clean && s.teardown.removed == 1
    ensures |s.workers| == 1 && s.queues == [[Item(1, 5)]] && Takes(s, 0, Advance)
  {
    var c, w := SecondStageFindsTheRequest(capacity);
    ResumePathIsPath(c.signals, Some(Item(1, 5)), w);
    s := LoneWalk(c, Serving, c.signals, 2, [Item(1, 5)], ResumePath(w));
  }

  // ---- A level that is exceeded ----

  /** The level is divided while the worker stands at the guard, with its old limit. */
  lemma DividedLate(a: System, signals: Signals, stage: nat, w: Worker, level: nat) returns (s: System)
    requires Lone(a, Idle, signals, stage, [], w) && !signals.session && 1 <= level < w.limit
    requires w.alive && w.pc.GuardPhase? && !w.skip && w.share.Some?
    ensures MainStep(a, SetShares(level, None)) == Some(s)
    ensures Reachable(s) && s.history == a.history && s.signals == signals && s.stage == stage
    ensures Ceilings(s) >= w.limit > level
    ensures exists t :: Follows(s, t) && Sum(t.workers, InFlightOf) > level
  {
    s := ShareOut(a, level, None);
    ReachableNext(a, MainMoves(SetShares(level, None)), s);
    var v := w.(share := s.workers[0].share);
    assert s.workers == [v];
    assert Sum([v], CeilingIn(signals.phase)) == Ceiling(signals.phase, v) + Sum([], CeilingIn(signals.phase));
    LevelHoldsExactlyBelowTheCeilings(a, level, None, s);
  }

  /** A worker has read its initial limit before anything is prepared. */
  lemma LoneGuard(capacity: nat) returns (s: System)
    requires capacity > 0
    ensures Lone(s, Idle, Signals(true, false, 0, false), 0, [], FreshWorker(0, capacity, Some(capacity)).(pc := GuardPhase))
    ensures s.history == UNTOUCHED
  {
    var w := FreshWorker(0, capacity, Some(capacity));
    var a := LoneStart(false, capacity, Some(capacity));
    var ws := [w, w.(pc := GuardPhase)];
    assert AdvanceStep(a.signals, None, ws[0]) == Went(ws[1], Local);
    s := LoneWalk(a, Idle, Signals(true, false, 0, false), 0, [], ws);
  }

  /** In the first stage the request phase is set before the workers start, so a worker may pass its
      share before the level is divided: for every level and every larger capacity, some run has more
      requests in flight than the level. */
  lemma FirstStageCanExceedTheLevel(level: nat, capacity: nat) returns (s0: System, s1: System)
    requires 1 <= level < capacity
    ensures Reachable(s0) && MainStep(s0, SetShares(level, None)) == Some(s1) && s1.stage == 0
    ensures exists t :: Follows(s1, t) && Sum(t.workers, InFlightOf) > level
  {
    s0 := LoneGuard(capacity);
    s1 := DividedLate(s0, Signals(true, false, 0, false), 0, s0.workers[0], level);
  }

  /** A worker that acknowledges while the phase is still set, and looks for the cancel signal once it
      has been cleared, leaves its wait before the next stage is prepared. */
  lemma WorkerLeavesItsWaitEarly(capacity: nat) returns (s: System, w: Worker)
    requires capacity > 0
    ensures w == FreshWorker(1, capacity, Some(capacity)).(pc := GuardPhase)
    ensures Lone(s, Idle, Signals(false, false, 1, false), 1, [], w)
    ensures s.teardown == Teardown({}, {}, true, 0) && s.history == UNTOUCHED
  {
    var v := FreshWorker(0, capacity, Some(capacity)).(pc := GuardPhase);
    var a := LoneGuard(capacity);
    var b := LoneOpens(a, Signals(true, false, 0, false), 0, [], v);
    var c := LonePublish(b, Signals(true, false, 0, false), 1, [], v);
    var f, u := EarlyAck(c, v);
    s, w := EarlyWorkerReturns(f, u, capacity);
  }

  lemma EarlyAck(c: System, v: Worker) returns (f: System, u: Worker)
    requires Lone(c, Cancelled, Signals(true, true, 1, false), 1, [], v)
    requires v.alive && !v.skip && v.pc.GuardPhase? && v.tasks == []
    ensures u == v.(pc := HoldCancel, done := 1) && Lone(f, Cancelled, Signals(true, true, 1, false), 1, [], u)
    ensures f.teardown == c.teardown && f.history == c.history
  {
    BoundaryPathIsPath(c.signals, None, v);
    var e := LoneWalk(c, Cancelled, Signals(true, true, 1, false), 1, [], BoundaryPath(v, true, 1));
    u := v.(pc := HoldCancel, done := 1);
    var ws := [v.(pc := HoldPhase, done := 1), u];
    assert AdvanceStep(c.signals, None, ws[0]) == Went(ws[1], Local);
    f := LoneWalk(e, Cancelled, Signals(true, true, 1, false), 1, [], ws);
  }

  /** The rest of a teardown with nothing to drain and nobody to replace. */
  lemma LoneSettles(f: System, boundary: nat, session: bool, stage: nat, u: Worker) returns (s: System)
    requires Lone(f, Draining(0), Signals(false, true, boundary, session), stage, [], u)
    requires u.alive && u.done == boundary && f.teardown.forced == {}
    ensures Lone(s, Idle, Signals(false, false, boundary, session), stage, [], u)
    ensures s.teardown == f.teardown && s.history == f.history && s.counters == f.counters
  {
    var k := LoneDrained(f, Signals(false, true, boundary, session), stage, u);
    s := LoneReturn(k, Signals(false, false, boundary, session), stage, [], u);
  }

  lemma EarlyWorkerReturns(f: System, u: Worker, capacity: nat) returns (s: System, w: Worker)
    requires u == FreshWorker(1, capacity, Some(capacity)).(pc := HoldCancel) && capacity > 0
    requires Lone(f, Cancelled, Signals(true, true, 1, false), 1, [], u)
    requires f.teardown == Teardown({}, {}, true, 0) && f.history == UNTOUCHED
    ensures w == u.(pc := GuardPhase) && Lone(s, Idle, Signals(false, false, 1, false), 1, [], w)
    ensures s.teardown == f.teardown && s.history == f.history
  {
    var g := LoneClearPhase(f, Signals(true, true, 1, false), 1, [], u);
    var h := LoneRendezvous(g, Signals(false, true, 1, false), 1, [], u);
    var m := LoneSettles(h, 1, false, 1, u);
    w := u.(pc := GuardPhase);
    var ws := [u, u.(pc := Top), w];
    assert AdvanceStep(m.signals, None, ws[0]) == Went(ws[1], Local);
    assert AdvanceStep(m.signals, None, ws[1]) == Went(ws[2], Local);
    s := LoneWalk(m, Idle, Signals(false, false, 1, false), 1, [], ws);
  }

  /** So the level can be exceeded in a later stage too, after an exact teardown that replaced nobody. */
  lemma LaterStageCanExceedTheLevel(level: nat, capacity: nat) returns (s0: System, s1: System)
    requires 1 <= level < capacity
    ensures Reachable(s0) && MainStep(s0, SetShares(level, None)) == Some(s1) && s1.stage == 1
    ensures Exact(s0) && !s0.history.crossed && !s0.history.timedOut && s0.teardown == Teardown({}, {}, true, 0)
    ensures exists t :: Follows(s1, t) && Sum(t.workers, InFlightOf) > level
  {
    var s, w := WorkerLeavesItsWaitEarly(capacity);
    s0 := s;
    s1 := DividedLate(s0, s0.signals, 1, w, level);
  }

  // ---- A counter that is carried over ----

  lemma LonePulls(a: System, signals: Signals, stage: nat, item: Item, w: Worker) returns (s: System)
    requires Lone(a, Serving, signals, stage, [item], w) && w.alive && w.pc.Pull?
    ensures Lone(s, Serving, signals, stage, [], w.(pc := Holding(item, w.pc.prepaid)))
    ensures s.counters == a.counters && s.history == a.history
  {
    s := WorkerStep(a, 0, Advance).value;
    assert a.queues[0][1..] == [];
    assert s.queues == [[]];
    ReachableNext(a, WorkerMoves(0, Advance), s);
  }

  /** A step of the worker that does not read the channel. */
  lemma LoneStep(a: System, signals: Signals, stage: nat, queue: seq<Item>, w: Worker, move: WorkerMove, w': Worker, e: Effect) returns (s: System)
    requires Lone(a, Serving, signals, stage, queue, w) && Step(signals, None, w, move) == Went(w', e)
    ensures Lone(s, Serving, signals, stage, queue, w') && s.counters == Tick(a.counters, e)
  {
    HeadIsNotRead(signals, Head(queue), w, move);
    s := WorkerStep(a, 0, move).value;
    assert a.workers[0 := w'] == [w'];
    ReachableNext(a, WorkerMoves(0, move), s);
  }

  lemma SkipSteps(signals: Signals, item: Item, w: Worker, v: Worker, u: Worker)
    requires w.alive && w.pc == Holding(item, false) && w.tasks == []
    requires v == w.(pc := GuardPhase, tasks := [Task(item, Counting(false), false)]) && u == v.(tasks := [Task(item, Releasing, false)])
    ensures Step(signals, None, w, BadRequest) == Went(v, Skipped)
    ensures Step(signals, None, v, Progress(0, Count)) == Went(u, Finished(item, false))
    ensures Step(signals, None, u, Progress(0, Release)) == Went(w.(pc := GuardPhase), Local)
  {
    assert w.tasks + v.tasks == v.tasks;
    assert v.tasks[0 := Task(item, Releasing, false)] == u.tasks;
  }

  /** The request cannot be built: it is counted as skipped, then as finished. */
  lemma LoneSkips(a: System, signals: Signals, stage: nat, item: Item, w: Worker) returns (s: System)
    requires Lone(a, Serving, signals, stage, [], w) && w.alive && w.pc == Holding(item, false) && w.tasks == []
    ensures Lone(s, Serving, signals, stage, [], w.(pc := GuardPhase))
    ensures s.counters.skipped == a.counters.skipped + 1
  {
    var v := w.(pc := GuardPhase, tasks := [Task(item, Counting(false), false)]);
    var u := v.(tasks := [Task(item, Releasing, false)]);
    SkipSteps(signals, item, w, v, u);
    var b := LoneStep(a, signals, stage, [], w, BadRequest, v, Skipped);
    var c := LoneStep(b, signals, stage, [], v, Progress(0, Count), u, Finished(item, false));
    s := LoneStep(c, signals, stage, [], u, Progress(0, Release), w.(pc := GuardPhase), Local);
  }

  lemma SessionStageWithASkip(capacity: nat) returns (s: System, w: Worker)
    ensures w == FreshWorker(0, capacity, None).(pc := GuardPhase)
    ensures Lone(s, Serving, Signals(true, false, 0, true), 1, [], w) && s.counters.skipped == 1
  {
    var v := FreshWorker(0, capacity, None);
    var a := LoneStart(true, capacity, None);
    var b := LoneOpens(a, a.signals, 0, [], v);
    var c := LonePut(b, b.signals, 1, v, 5);
    var ws := [v, v.(pc := GuardPhase), v.(pc := GuardCancel), v.(pc := Pull(false))];
    assert AdvanceStep(c.signals, Some(Item(1, 5)), ws[0]) == Went(ws[1], Local);
    assert AdvanceStep(c.signals, Some(Item(1, 5)), ws[1]) == Went(ws[2], Local);
    assert AdvanceStep(c.signals, Some(Item(1, 5)), ws[2]) == Went(ws[3], Local);
    var d := LoneWalk(c, Serving, c.signals, 1, [Item(1, 5)], ws);
    var e := LonePulls(d, d.signals, 1, Item(1, 5), ws[3]);
    s := LoneSkips(e, e.signals, 1, Item(1, 5), v.(pc := Holding(Item(1, 5), false)));
    w := v.(pc := GuardPhase);
  }

  /** A session stage restarts the finished counter but not the skipped one. After a first stage with one
      skipped request, the second opens with the counters already apart. */
  lemma SessionStagesCarrySkips(capacity: nat) returns (s: System)
    ensures Reachable(s) && s.signals.session && s.main.Serving? && s.stage == 2 && !s.history.crossed
    ensures s.counters.skipped == 1 == s.book.carriedSkips
    ensures s.counters.finished + Sum(s.workers, SkipsPending) + s.book.leakedSkips != s.book.answered + s.counters.skipped
  {
    var d, v := SessionStageEnds(capacity);
    s := LoneOpens(d, Signals(false, false, 1, true), 1, [], v);
    NothingIsPending(s, v);
  }

  lemma SessionStageEnds(capacity: nat) returns (s: System, v: Worker)
    ensures Lone(s, Idle, Signals(false, false, 1, true), 1, [], v) && v.tasks == []
    ensures s.counters.skipped == 1 && Exact(s)
  {
    var a, w := SessionStageWithASkip(capacity);
    var b := LoneStageEnds(a, Signals(true, false, 0, true), 1, [], w);
    v := w.(pc := HoldPhase, done := 1);
    s := LoneSettles(b, 1, true, 1, v);
  }

  lemma NothingIsPending(s: System, w: Worker)
    requires Reachable(s) && s.main.Serving? && s.workers == [w] && w.tasks == [] && s.book.carriedSkips != 0
    ensures s.counters.finished + Sum(s.workers, SkipsPending) + s.book.leakedSkips != s.book.answered + s.counters.skipped
  {
    WorkIsConserved(s);
  }

  // ---- A counter that stays up ----

  /** Once a worker has died with a request in flight, the active counter is above the number of requests
      in flight for the rest of the run. */
  lemma DeadWorkerLeavesTheCounterUp(capacity: nat) returns (s: System)
    requires capacity > 0
    ensures Reachable(s) && |s.workers| == 1 && !s.workers[0].alive && s.counters.active >= 1
    ensures forall moves, t :: Run(s, moves) == Some(t) ==> t.counters.active > Sum(t.workers, InFlightOf)
  {
    s := CrashInFlight(capacity);
    forall moves, t | Run(s, moves) == Some(t) ensures t.counters.active > Sum(t.workers, InFlightOf) {
      LeaksStayInRuns(s, moves, t);
      ReachableRun(s, moves, t);
      WorkIsConserved(t);
    }
    DeadWorkerCounts(s);
  }

  lemma DeadWorkerCounts(s: System)
    requires Reachable(s) && |s.workers| == 1 && !s.workers[0].alive
    ensures s.counters.active == s.book.leakedActive
  {
    ReachableWorker(s, 0);
    WorkIsConserved(s);
    assert s.workers == [s.workers[0]];
    assert Sum(s.workers[1..], InFlightOf) == 0;
  }

  lemma CrashInFlight(capacity: nat) returns (s: System)
    requires capacity > 0
    ensures Reachable(s) && |s.workers| == 1 && !s.workers[0].alive && s.book.leakedActive >= 1
  {
    var c := OneInFlight(capacity);
    WorkIsConserved(c);
    s := WorkerStep(c, 0, Crash).value;
    ReachableNext(c, WorkerMoves(0, Crash), s);
  }

  lemma FollowsLeaks(s: System, t: System)
    requires Follows(s, t)
    ensures t.book.leakedActive >= s.book.leakedActive
  {
    var moves :| Run(s, moves) == Some(t) && forall m :: m in moves ==> KeepsStage(m);
    LeaksStayInRuns(s, moves, t);
  }

  lemma OneInFlight(capacity: nat) returns (s: System)
    requires capacity > 0
    ensures Reachable(s) && |s.workers| == 1 && s.workers[0].alive && InFlightOf(s.workers[0]) == 1
    ensures |s.queues| > 0 && s.book.leakedActive >= 0
  {
    var a := LoneReady(capacity);
    IsNow(a, 0);
    var t, item := TakeOne(a, 0, a.workers[0]);
    s := t;
    ReachableFollows(a, s);
    FollowsLeaks(a, s);
    OneTask(s.workers[0], item);
  }

  lemma OneTask(w: Worker, item: Item)
    requires w.tasks == [] + [Task(item, InFlight, true)]
    ensures InFlightOf(w) == 1
  {
    SumAppend([], Task(item, InFlight, true), TaskInFlight);
  }
}
