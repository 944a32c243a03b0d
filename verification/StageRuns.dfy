/** Building runs: what one worker can do on its own while everybody else stands still. */
module StageRuns {
  import opened Common
  import opened StageProtocol
  import opened StageInvariants
  import opened StageSafety

  predicate KeepsStage(move: Move) {
    move.MainMoves? ==> !move.m.Publish? && !move.m.SetShares?
  }

  /** t can follow s before another boundary is published and before the level is divided again. */
  ghost predicate Follows(s: System, t: System) {
    exists moves :: Run(s, moves) == Some(t) && forall m :: m in moves ==> KeepsStage(m)
  }

  lemma FollowsItself(s: System)
    ensures Follows(s, s)
  {
    assert Run(s, []) == Some(s);
  }

  lemma FollowsNext(s: System, t: System, move: Move, u: System)
    requires Follows(s, t) && Next(t, move) == Some(u) && KeepsStage(move)
    ensures Follows(s, u)
  {
    var moves :| Run(s, moves) == Some(t) && forall m :: m in moves ==> KeepsStage(m);
    assert (moves + [move])[..|moves|] == moves;
    assert Run(s, moves + [move]) == Some(u);
  }

  lemma {:induction false} FollowsRun(s: System, t: System, moves: seq<Move>, u: System)
    requires Follows(s, t) && Run(t, moves) == Some(u) && forall m :: m in moves ==> KeepsStage(m)
    ensures Follows(s, u)
  {
    if moves != [] {
      var before := Run(t, moves[..|moves| - 1]).value;
      FollowsRun(s, t, moves[..|moves| - 1], before);
      FollowsNext(s, before, moves[|moves| - 1], u);
    }
  }

  lemma FollowsTwice(s: System, t: System, u: System)
    requires Follows(s, t) && Follows(t, u)
    ensures Follows(s, u)
  {
    var moves :| Run(t, moves) == Some(u) && forall m :: m in moves ==> KeepsStage(m);
    FollowsRun(s, t, moves, u);
  }

  lemma ReachableNext(s: System, move: Move, t: System)
    requires Reachable(s) && Next(s, move) == Some(t)
    ensures Reachable(t)
  {
    var session, capacity, share, n, c, moves :| ReachedBy(s, session, capacity, share, n, c, moves);
    assert (moves + [move])[..|moves|] == moves;
    assert ReachedBy(t, session, capacity, share, n, c, moves + [move]);
  }

  lemma {:induction false} ReachableRun(s: System, moves: seq<Move>, t: System)
    requires Reachable(s) && Run(s, moves) == Some(t)
    ensures Reachable(t)
  {
    if moves != [] {
      var before := Run(s, moves[..|moves| - 1]).value;
      ReachableRun(s, moves[..|moves| - 1], before);
      ReachableNext(before, moves[|moves| - 1], t);
    }
  }

  lemma ReachableFollows(s: System, t: System)
    requires Reachable(s) && Follows(s, t)
    ensures Reachable(t)
  {
    var moves :| Run(s, moves) == Some(t) && forall m :: m in moves ==> KeepsStage(m);
    ReachableRun(s, moves, t);
  }

  // ---- A skip mark is only found at the guard ----

  predicate SkipsAtGuard(w: Worker) {
    w.skip ==> w.pc.GuardPhase? || w.pc.GuardCancel?
  }

  ghost predicate AllSkipAtGuard(s: System) {
    forall i :: 0 <= i < |s.workers| ==> SkipsAtGuard(s.workers[i])
  }

  lemma AdvanceSkipsAtGuard(env: Signals, head: Option<Item>, w: Worker)
    requires SkipsAtGuard(w) && AdvanceStep(env, head, w).Went?
    ensures SkipsAtGuard(AdvanceStep(env, head, w).worker)
  {
  }

  lemma StepSkipsAtGuard(env: Signals, head: Option<Item>, w: Worker, move: WorkerMove)
    requires SkipsAtGuard(w) && Step(env, head, w, move).Went?
    ensures SkipsAtGuard(Step(env, head, w, move).worker)
  {
    if move.Advance? {
      AdvanceSkipsAtGuard(env, head, w);
    }
  }

  lemma NextSkipsAtGuard(s: System, move: Move, s': System)
    requires AllSkipAtGuard(s) && Next(s, move) == Some(s')
    ensures AllSkipAtGuard(s')
  {
    match move
    case WorkerMoves(i, m) =>
      var c, out := WorkerStepShape(s, i, m, s');
      assert SkipsAtGuard(s.workers[i]);
      StepSkipsAtGuard(s.signals, Head(s.queues[c]), s.workers[i], m);
    case MainMoves(m) => MainStepSkipsAtGuard(s, m, s');
  }

  lemma MainStepSkipsAtGuard(s: System, move: MainMove, s': System)
    requires AllSkipAtGuard(s) && MainStep(s, move) == Some(s')
    ensures AllSkipAtGuard(s')
  {
    if OnlySignals(move) {
      SignalMoveShape(s, move, s');
    } else if move.Visit? {
      VisitShape(s);
    } else if move.Terminate? {
      TerminateShape(s, move.index);
    }
  }

  lemma {:induction false} RunSkipsAtGuard(s0: System, moves: seq<Move>, s: System)
    requires AllSkipAtGuard(s0) && Run(s0, moves) == Some(s)
    ensures AllSkipAtGuard(s)
  {
    if moves != [] {
      var before := Run(s0, moves[..|moves| - 1]).value;
      RunSkipsAtGuard(s0, moves[..|moves| - 1], before);
      NextSkipsAtGuard(before, moves[|moves| - 1], s);
    }
  }

  lemma ReachableWorker(s: System, i: nat)
    requires Reachable(s) && i < |s.workers|
    ensures |s.queues| > 0 && Signalled(s.main, s.signals.phase, s.signals.cancel)
    ensures WellFormed(s.signals.session, s.signals.boundary, s.workers[i]) && SkipsAtGuard(s.workers[i])
  {
    ReachableInv(s);
    assert WellFormed(s.signals.session, s.signals.boundary, s.workers[i]);
    var session, capacity, share, n, c, moves :| ReachedBy(s, session, capacity, share, n, c, moves);
    RunSkipsAtGuard(Start(session, capacity, share, n, c), moves, s);
    assert SkipsAtGuard(s.workers[i]);
  }

  // ---- One worker moves ----

  /** t follows s, and differs from it only in worker i and the accounts. */
  ghost predicate Moved(s: System, t: System, i: nat, w: Worker) {
    && Follows(s, t) && i < |s.workers| && t.workers == s.workers[i := w]
    && t.queues == s.queues && t.main == s.main && t.signals == s.signals && t.history == s.history && t.capacity == s.capacity
  }

  ghost predicate CanBe(s: System, i: nat, w: Worker) {
    exists t :: Moved(s, t, i, w)
  }

  lemma IsNow(s: System, i: nat)
    requires i < |s.workers|
    ensures CanBe(s, i, s.workers[i])
  {
    FollowsItself(s);
    assert s.workers[i := s.workers[i]] == s.workers;
    assert Moved(s, s, i, s.workers[i]);
  }

  lemma HeadIsNotRead(env: Signals, head: Option<Item>, w: Worker, move: WorkerMove)
    requires Step(env, None, w, move).Went?
    ensures Step(env, head, w, move) == Step(env, None, w, move)
    ensures !Step(env, None, w, move).effect.Took? && !Step(env, None, w, move).effect.TookBroken?
  {
  }

  /** A step that does not read the channel. */
  lemma Then(s: System, i: nat, w: Worker, move: WorkerMove, w': Worker)
    requires CanBe(s, i, w) && |s.queues| > 0 && Step(s.signals, None, w, move).Went? && Step(s.signals, None, w, move).worker == w'
    ensures CanBe(s, i, w')
  {
    var t :| Moved(s, t, i, w);
    HeadIsNotRead(s.signals, Head(t.queues[ChannelOf(t, i)]), w, move);
    var u := WorkerStep(t, i, move).value;
    FollowsNext(s, t, WorkerMoves(i, move), u);
    assert u.workers == s.workers[i := w'];
    assert Moved(s, u, i, w');
  }

  ghost predicate Path(env: Signals, head: Option<Item>, ws: seq<Worker>) {
    forall j :: 0 <= j < |ws| - 1 ==> ws[j].alive && AdvanceStep(env, head, ws[j]) == Went(ws[j + 1], Local)
  }

  lemma {:induction false} Walk(s: System, i: nat, ws: seq<Worker>)
    requires ws != [] && CanBe(s, i, ws[0]) && |s.queues| > 0 && Path(s.signals, None, ws)
    ensures CanBe(s, i, ws[|ws| - 1])
    decreases |ws|
  {
    var n := |ws| - 1;
    if n > 0 {
      Walk(s, i, ws[..n]);
      Then(s, i, ws[n - 1], Advance, ws[n]);
    }
  }

  lemma CanBeReachable(s: System, i: nat, w: Worker)
    requires Reachable(s) && CanBe(s, i, w)
    ensures WellFormed(s.signals.session, s.signals.boundary, w) && SkipsAtGuard(w) && |s.queues| > 0
  {
    var t :| Moved(s, t, i, w);
    ReachableFollows(s, t);
    ReachableWorker(t, i);
    assert t.workers[i] == w;
  }

  // ---- A worker's tasks can always be brought to an end ----

  lemma CountAndRelease(s: System, i: nat, w: Worker, rest: seq<Task>, t: Task) returns (free: nat)
    requires CanBe(s, i, w) && |s.queues| > 0 && w.alive && w.tasks == rest + [t]
    requires t.phase.Releasing? || t.phase.Counting?
    ensures CanBe(s, i, w.(tasks := rest, free := free))
  {
    var v := w.(tasks := rest + [t.(phase := Releasing)]);
    if t.phase.Counting? {
      assert w.tasks[|rest| := t.(phase := Releasing)] == v.tasks;
      Then(s, i, w, Progress(|rest|, Count), v);
    }
    free := v.free + (if t.permit then 1 else 0);
    assert v.tasks[..|rest|] + v.tasks[|rest| + 1..] == rest;
    Then(s, i, v, Progress(|rest|, Release), v.(tasks := rest, free := free));
    assert v.(tasks := rest, free := free) == w.(tasks := rest, free := free);
  }

  lemma EndTask(s: System, i: nat, w: Worker, rest: seq<Task>, t: Task) returns (free: nat)
    requires CanBe(s, i, w) && |s.queues| > 0 && w.alive && w.tasks == rest + [t]
    ensures CanBe(s, i, w.(tasks := rest, free := free))
  {
    var v, t' := w, t;
    if t.phase.Parked? || t.phase.InFlight? {
      t' := t.(phase := Counting(t.phase.InFlight?));
      v := w.(tasks := rest + [t']);
      assert w.tasks[|rest| := t'] == v.tasks;
      Then(s, i, w, Progress(|rest|, if t.phase.Parked? then Drop else Reply), v);
    }
    free := CountAndRelease(s, i, v, rest, t');
  }

  lemma {:induction false} EndTasks(s: System, i: nat, w: Worker) returns (free: nat)
    requires CanBe(s, i, w) && |s.queues| > 0 && w.alive
    ensures CanBe(s, i, w.(tasks := [], free := free))
    decreases |w.tasks|
  {
    if w.tasks == [] {
      free := w.free;
    } else {
      var n := |w.tasks| - 1;
      assert w.tasks == w.tasks[..n] + [w.tasks[n]];
      var f := EndTask(s, i, w, w.tasks[..n], w.tasks[n]);
      free := EndTasks(s, i, w.(tasks := w.tasks[..n], free := f));
    }
  }

  /** With no task running, a resize collects every permit. */
  lemma {:induction false} CollectPermits(s: System, i: nat, w: Worker, got: nat, target: nat)
    requires CanBe(s, i, w) && |s.queues| > 0 && w.alive && w.pc == Resizing(got, target) && got + w.free == w.limit
    ensures CanBe(s, i, w.(pc := GuardPhase, limit := target, free := target))
    decreases w.free
  {
    if got == w.limit {
      Then(s, i, w, Advance, w.(pc := GuardPhase, limit := target, free := target));
    } else {
      var v := w.(pc := Resizing(got + 1, target), free := w.free - 1);
      Then(s, i, w, Advance, v);
      CollectPermits(s, i, v, got + 1, target);
    }
  }

  /** The limit a worker takes on when it reads its share. */
  function Adopts(w: Worker): nat {
    if w.share.Some? then w.share.value else w.limit
  }

  /** From the top of its loop an idle worker adopts its share and meets the inner guard. */
  lemma AdoptShare(s: System, i: nat, w: Worker) returns (v: Worker)
    requires CanBe(s, i, w) && |s.queues| > 0 && w.alive && w.pc.Top? && w.tasks == [] && w.free == w.limit && !w.skip
    requires w.share.Some? ==> w.share.value > 0
    ensures CanBe(s, i, v) && v == w.(pc := GuardPhase, limit := Adopts(w), free := Adopts(w))
  {
    v := w.(pc := GuardPhase, limit := Adopts(w), free := Adopts(w));
    if w.share.None? || w.share.value == w.limit {
      Then(s, i, w, Advance, v);
    } else {
      var r := w.(pc := Resizing(0, w.share.value));
      Then(s, i, w, Advance, r);
      CollectPermits(s, i, r, 0, w.share.value);
    }
  }
}
