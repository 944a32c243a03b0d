/** Publishing a boundary while a worker is between deciding that an earlier stage has ended and
    reading the sequence: exactly when this lets a request be pulled after the acknowledgement. */
module StageRaces {
  import opened Common
  import opened StageProtocol
  import opened StageInvariants
  import opened StageSafety
  import opened StageTheorems
  import opened StageRuns

  ghost predicate NoPublish(moves: seq<Move>) {
    forall m :: m in moves && m.MainMoves? ==> !m.m.Publish?
  }

  /** t can follow s before another boundary is published. */
  ghost predicate Leads(s: System, t: System) {
    exists moves :: NoPublish(moves) && Run(s, moves) == Some(t)
  }

  lemma FollowsLeads(s: System, t: System)
    requires Follows(s, t)
    ensures Leads(s, t)
  {
    var moves :| Run(s, moves) == Some(t) && forall m :: m in moves ==> KeepsStage(m);
    assert NoPublish(moves);
  }

  /** An acknowledged worker takes an item, or sends a request, after the request phase has been cleared. */
  ghost predicate PullsAfterAck(t: System) {
    && |t.queues| > 0 && !t.signals.phase
    && exists i, move :: 0 <= i < |t.workers| && t.workers[i].alive && t.workers[i].done == t.signals.boundary && Takes(t, i, move)
  }

  /** The worker has, or will adopt, a limit that lets it pull. A session worker pulls without a permit. */
  predicate MayPull(session: bool, w: Worker) {
    session || Adopts(w) > 0
  }

  /** Worker i is about to acknowledge a boundary it has not seen, can pull, and has something to pull. */
  predicate Exposed(s: System, i: nat)
    requires i < |s.workers| && |s.queues| > 0
  {
    InBoundaryBlock(s.workers[i]) && MayPull(s.signals.session, s.workers[i]) && s.queues[ChannelOf(s, i)] != []
  }

  // ---- An exposed worker pulls ----

  /** From the window between the publication and the cancel signal: the worker acknowledges the new
      boundary, and finds the phase still set and no cancel signal. */
  lemma AcknowledgeInTheWindow(p: System, i: nat, w: Worker)
    requires p.signals.phase && !p.signals.cancel && |p.queues| > 0
    requires CanBe(p, i, w) && InBoundaryBlock(w) && w.tasks == []
    ensures CanBe(p, i, w.(pc := Top, done := p.signals.boundary))
  {
    if w.pc.WindDown? {
      Then(p, i, w, Advance, w.(pc := AckRead));
    }
    var acked := w.(done := p.signals.boundary);
    var ws := [w.(pc := AckRead), w.(pc := AckWrite(p.signals.boundary)), acked.(pc := HoldPhase), acked.(pc := HoldCancel), acked.(pc := Top)];
    assert AdvanceStep(p.signals, None, ws[0]) == Went(ws[1], Local);
    assert AdvanceStep(p.signals, None, ws[1]) == Went(ws[2], Local);
    assert AdvanceStep(p.signals, None, ws[2]) == Went(ws[3], Local);
    assert AdvanceStep(p.signals, None, ws[3]) == Went(ws[4], Local);
    Walk(p, i, ws);
  }

  lemma ReachPull(p: System, i: nat, v: Worker) returns (u: Worker)
    requires CanBe(p, i, v) && |p.queues| > 0 && v.alive && v.pc.GuardPhase? && !v.skip && (v.free > 0 || p.signals.session)
    requires p.signals.phase && !p.signals.cancel
    ensures CanBe(p, i, u) && u.alive && u.pc.Pull? && u.done == v.done
  {
    var c := v.(pc := GuardCancel);
    Then(p, i, v, Advance, c);
    if p.signals.session {
      u := c.(pc := Pull(false));
      Then(p, i, c, Advance, u);
    } else {
      var a := c.(pc := Acquire);
      Then(p, i, c, Advance, a);
      u := a.(pc := Pull(true), free := a.free - 1);
      Then(p, i, a, Advance, u);
    }
  }

  /** Then the main process raises its signals, and the worker takes an item nevertheless. */
  lemma PullAfterTheSignals(p: System, i: nat, u: Worker)
    requires p.main.Published? && |p.queues| > 0 && i < |p.workers| && p.queues[ChannelOf(p, i)] != []
    requires CanBe(p, i, u) && u.alive && u.pc.Pull? && u.done == p.signals.boundary
    ensures exists t :: Leads(p, t) && PullsAfterAck(t)
  {
    var q :| Moved(p, q, i, u);
    var r := q.(main := Cancelled, signals := q.signals.(cancel := true));
    FollowsNext(p, q, MainMoves(SetCancel), r);
    var t := r.(main := Waiting, signals := r.signals.(phase := false));
    FollowsNext(p, r, MainMoves(ClearPhase), t);
    FollowsLeads(p, t);
    assert t.workers[i] == u;
    assert Takes(t, i, Advance);
    assert PullsAfterAck(t);
  }

  lemma ExposedPulls(s: System, p: System, i: nat)
    requires Reachable(s) && MainStep(s, Publish) == Some(p) && i < |s.workers| && |s.queues| > 0 && Exposed(s, i)
    ensures exists t :: Leads(p, t) && PullsAfterAck(t)
  {
    ReachableNext(s, MainMoves(Publish), p);
    ReachableWorker(p, i);
    IsNow(p, i);
    var w := p.workers[i];
    var free := EndTasks(p, i, w);
    var idle := w.(tasks := [], free := free);
    CanBeReachable(p, i, idle);
    AcknowledgeInTheWindow(p, i, idle);
    var v := AdoptShare(p, i, idle.(pc := Top, done := p.signals.boundary));
    var u := ReachPull(p, i, v);
    PullAfterTheSignals(p, i, u);
  }

  // ---- Nobody else does ----

  /** Nothing lets this worker pull until the request phase is set again. */
  predicate NeverPulls(session: bool, phase: bool, w: Worker) {
    w.alive ==>
      if w.share.None? then !session && w.limit == 0
      else
        && !w.pc.Acquire? && !w.pc.Pull? && !w.pc.Holding? && (w.pc.GuardCancel? ==> w.skip)
        && (phase ==> w.share.value == 0 && !w.pc.Resizing? && (w.pc.GuardPhase? ==> w.skip))
  }

  lemma AdvanceNeverPulls(env: Signals, head: Option<Item>, w: Worker)
    requires NeverPulls(env.session, env.phase, w) && WellFormed(env.session, env.boundary, w) && AdvanceStep(env, head, w).Went?
    ensures NeverPulls(env.session, env.phase, AdvanceStep(env, head, w).worker)
  {
  }

  lemma StepNeverPulls(env: Signals, head: Option<Item>, w: Worker, move: WorkerMove)
    requires NeverPulls(env.session, env.phase, w) && WellFormed(env.session, env.boundary, w) && Step(env, head, w, move).Went?
    ensures NeverPulls(env.session, env.phase, Step(env, head, w, move).worker)
  {
    if move.Advance? {
      AdvanceNeverPulls(env, head, w);
    }
  }

  /** Worker i has stood outside its boundary block, cannot pull, or finds its channel empty. */
  ghost predicate Harmless(s: System, i: nat)
    requires i < |s.workers| && |s.queues| > 0
  {
    i !in s.history.occupied || NeverPulls(s.signals.session, s.signals.phase, s.workers[i]) || s.queues[ChannelOf(s, i)] == []
  }

  /** The next stage has been opened. */
  predicate Reopened(s: System) {
    s.signals.phase && !s.main.Published? && !s.main.Cancelled?
  }

  ghost predicate Guarded(s: System) {
    && |s.queues| > 0 && Signalled(s.main, s.signals.phase, s.signals.cancel)
    && (!Reopened(s) ==> forall i :: 0 <= i < |s.workers| ==> Harmless(s, i))
  }

  lemma WorkerStepGuarded(s: System, i: nat, move: WorkerMove, s': System)
    requires WorkerStep(s, i, move) == Some(s') && Guarded(s) && WorkersWellFormed(s)
    ensures Guarded(s')
  {
    var c, out := WorkerStepShape(s, i, move, s');
    PopHeadEmpties(s.queues, c);
    if !Reopened(s) {
      assert WellFormed(s.signals.session, s.signals.boundary, s.workers[i]);
      forall j | 0 <= j < |s.workers| ensures Harmless(s', j) {
        assert Harmless(s, j);
        if j == i && NeverPulls(s.signals.session, s.signals.phase, s.workers[i]) {
          StepNeverPulls(s.signals, Head(s.queues[c]), s.workers[i], move);
        }
      }
    }
  }

  lemma SignalMoveGuarded(s: System, move: MainMove, s': System)
    requires OnlySignals(move) && !move.Publish? && MainStep(s, move) == Some(s') && Guarded(s)
    ensures Guarded(s')
  {
    SignalMoveShape(s, move, s');
    SignalMoveHistory(s, move, s');
    SignalMoveSignalled(s, move, s');
    SignalMoveReopens(s, move, s');
    if !Reopened(s') {
      forall j | 0 <= j < |s.workers| ensures Harmless(s', j) {
        assert Harmless(s, j);
      }
    }
  }

  lemma SignalMoveReopens(s: System, move: MainMove, s': System)
    requires OnlySignals(move) && !move.Publish? && MainStep(s, move) == Some(s') && Signalled(s.main, s.signals.phase, s.signals.cancel)
    ensures Reopened(s) ==> Reopened(s')
    ensures !Reopened(s') ==> (s'.signals.phase ==> s.signals.phase)
  {
  }

  lemma VisitGuarded(s: System, s': System)
    requires MainStep(s, Visit) == Some(s') && Guarded(s)
    ensures Guarded(s')
  {
    VisitShape(s);
    forall j | 0 <= j < |s.workers| ensures Harmless(s', j) {
      assert Harmless(s, j);
    }
  }

  lemma TerminateGuarded(s: System, i: nat, s': System)
    requires MainStep(s, Terminate(i)) == Some(s') && Guarded(s)
    ensures Guarded(s')
  {
    TerminateShape(s, i);
    forall j | 0 <= j < |s.workers| ensures Harmless(s', j) {
      assert Harmless(s, j);
    }
  }

  lemma SharesGuarded(s: System, level: nat, pinned: Option<nat>, s': System)
    requires MainStep(s, SetShares(level, pinned)) == Some(s') && Guarded(s)
    ensures Guarded(s')
  {
    ShareOutShape(s, level, pinned, s');
    if !Reopened(s) {
      forall j | 0 <= j < |s.workers| ensures Harmless(s', j) {
        assert Harmless(s, j);
        assert s'.workers[j] == s.workers[j].(share := s'.workers[j].share);
      }
    }
  }

  lemma DrainItemGuarded(s: System, s': System)
    requires MainStep(s, DrainItem) == Some(s') && Guarded(s)
    ensures Guarded(s')
  {
    DrainItemShape(s, s');
    PopHeadEmpties(s.queues, s.main.channel);
    forall j | 0 <= j < |s.workers| ensures Harmless(s', j) {
      assert Harmless(s, j);
    }
  }

  lemma NextGuarded(s: System, move: Move, s': System)
    requires Next(s, move) == Some(s') && Guarded(s) && WorkersWellFormed(s)
    requires move.MainMoves? ==> !move.m.Publish?
    ensures Guarded(s')
  {
    match move
    case WorkerMoves(i, w) => WorkerStepGuarded(s, i, w, s');
    case MainMoves(m) =>
      match m {
        case SetShares(level, pinned) => SharesGuarded(s, level, pinned, s');
        case Put(id, channel) => PutShape(s, id, channel, s');
        case Terminate(i) => TerminateGuarded(s, i, s');
        case DrainItem => DrainItemGuarded(s, s');
        case Visit => VisitGuarded(s, s');
        case _ => SignalMoveGuarded(s, m, s');
      }
  }

  lemma {:induction false} RunGuarded(p: System, moves: seq<Move>, t: System)
    requires Inv(p) && Guarded(p) && Run(p, moves) == Some(t) && NoPublish(moves)
    ensures Inv(t) && Guarded(t)
  {
    if moves != [] {
      var rest, last := moves[..|moves| - 1], moves[|moves| - 1];
      var before := Run(p, rest).value;
      assert last in moves;
      RunGuarded(p, rest, before);
      NextInv(before, last, t);
      NextGuarded(before, last, t);
    }
  }

  lemma LimitZeroHoldsNoPermit(w: Worker, boundary: nat)
    requires WellFormed(false, boundary, w) && w.limit == 0
    ensures !w.pc.Pull?
  {
    PermitsNonNegative(w.tasks);
  }

  lemma {:induction false} PermitsNonNegative(ts: seq<Task>)
    ensures Sum(ts, TaskPermit) >= 0
  {
    if ts != [] {
      PermitsNonNegative(ts[1..]);
    }
  }

  lemma HarmlessTakesNothing(t: System, i: nat, move: WorkerMove)
    requires Reachable(t) && i < |t.workers| && |t.queues| > 0 && !t.signals.phase && Harmless(t, i)
    requires t.workers[i].alive && t.workers[i].done == t.signals.boundary
    ensures !Takes(t, i, move)
  {
    ReachableWorker(t, i);
    if i !in t.history.occupied {
      AcknowledgedWorkersStayQuiet(t, i, move);
    } else if t.workers[i].pc.Pull? && t.workers[i].limit == 0 && !t.signals.session {
      LimitZeroHoldsNoPermit(t.workers[i], t.signals.boundary);
    }
  }

  lemma GuardedIsSafe(p: System, t: System)
    requires Reachable(p) && Guarded(p) && Leads(p, t)
    ensures !PullsAfterAck(t)
  {
    var moves :| NoPublish(moves) && Run(p, moves) == Some(t);
    ReachableInv(p);
    ReachableRun(p, moves, t);
    RunGuarded(p, moves, t);
    if PullsAfterAck(t) {
      var i, move :| 0 <= i < |t.workers| && t.workers[i].alive && t.workers[i].done == t.signals.boundary && Takes(t, i, move);
      assert Harmless(t, i);
      HarmlessTakesNothing(t, i, move);
    }
  }

  /** A worker that stands in its boundary block, and cannot pull, never will before the phase returns. */
  lemma BlockedNeverPulls(session: bool, w: Worker)
    requires InBoundaryBlock(w) && !MayPull(session, w)
    ensures NeverPulls(session, true, w)
  {
  }

  lemma UnexposedIsGuarded(s: System, p: System)
    requires Reachable(s) && MainStep(s, Publish) == Some(p) && |s.queues| > 0
    requires forall i :: 0 <= i < |s.workers| ==> !Exposed(s, i)
    ensures Guarded(p)
  {
    ReachableNext(s, MainMoves(Publish), p);
    ReachableInv(p);
    forall i | 0 <= i < |p.workers| ensures Harmless(p, i) {
      assert !Exposed(s, i);
      if InBoundaryBlock(s.workers[i]) && !MayPull(s.signals.session, s.workers[i]) {
        BlockedNeverPulls(s.signals.session, s.workers[i]);
      }
    }
  }

  /** A stage publishes its boundary safely exactly when no live worker that can pull, and has something
      in its channel, is between deciding that an earlier stage has ended and reading the sequence:
      otherwise, and only then, some continuation lets an acknowledged worker pull after the phase
      was cleared. */
  lemma PublishIsSafeExactlyOutsideBoundaryBlocks(s: System, p: System)
    requires Reachable(s) && MainStep(s, Publish) == Some(p)
    ensures |s.queues| > 0
    ensures (exists t :: Leads(p, t) && PullsAfterAck(t)) <==> exists i :: 0 <= i < |s.workers| && Exposed(s, i)
  {
    ReachableInv(s);
    ReachableNext(s, MainMoves(Publish), p);
    if i :| 0 <= i < |s.workers| && Exposed(s, i) {
      ExposedPulls(s, p, i);
    } else {
      UnexposedIsGuarded(s, p);
      forall t | Leads(p, t) ensures !PullsAfterAck(t) {
        GuardedIsSafe(p, t);
      }
    }
  }
}
