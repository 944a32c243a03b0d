/** A worker that keeps stepping acknowledges the end of a stage: while the main process waits, nothing stops it. */
module StageAcknowledgement {
  import opened Common
  import opened StageProtocol
  import opened StageInvariants
  import opened StageSafety

  // ---- How far a worker is from the acknowledgement ----

  /** The steps a task has left at most, when nothing may be sent any more. */
  function TaskRank(t: Task): int {
    match t.phase
    case Parked => if t.permit then 4 else 5
    case InFlight => 3
    case Counting(_) => 2
    case Releasing => 1
  }

  /** The steps the loop has left at most, with what the task it is about to create would add. */
  function LoopRank(boundary: nat, limit: nat, pc: Pc): int {
    match pc
    case AckWrite(ack) => if ack == boundary then 1 else limit + 10
    case AckRead => 2
    case WindDown => 3
    case EdgeCancel => 4
    case EdgePhase => 4
    case GuardPhase => 5
    case GuardCancel => 5
    case Resizing(got, _) => 6 + limit - got
    case Top => 7 + limit
    case HoldSeq => 8 + limit
    case HoldPhase => 9 + limit
    case HoldCancel => 9 + limit
    case Holding(_, _) => 11
    case Pull(_) => 12
    case Acquire => 13
  }

  function WorkerRank(boundary: nat, w: Worker): int {
    LoopRank(boundary, w.limit, w.pc) + Sum(w.tasks, TaskRank)
  }

  lemma {:induction false} TasksRanked(ts: seq<Task>)
    ensures Sum(ts, TaskRank) >= |ts|
  {
    if ts != [] {
      TasksRanked(ts[1..]);
    }
  }

  lemma RankPositive(session: bool, boundary: nat, w: Worker)
    requires WellFormed(session, boundary, w)
    ensures WorkerRank(boundary, w) > 0
  {
    TasksRanked(w.tasks);
  }

  // ---- Every step of it brings the worker closer ----

  /** The stage is to end: nothing new may be sent, and the worker has not acknowledged yet. */
  predicate Recalled(env: Signals, w: Worker) {
    env.cancel && !env.phase && w.alive && w.done < env.boundary && WellFormed(env.session, env.boundary, w)
  }

  lemma TaskStepCloser(env: Signals, w: Worker, k: nat, m: TaskMove)
    requires Recalled(env, w) && k < |w.tasks| && TaskStep(env, w, k, m).Went?
    ensures var w' := TaskStep(env, w, k, m).worker;
            w'.alive && w'.done == w.done && WorkerRank(env.boundary, w') < WorkerRank(env.boundary, w)
  {
    var w' := TaskStep(env, w, k, m).worker;
    if m.Release? {
      SumRemove(w.tasks, k, TaskRank);
    } else {
      SumUpdate(w.tasks, k, w'.tasks[k], TaskRank);
    }
  }

  lemma NewTaskCloser(env: Signals, w: Worker, t: Task)
    requires Recalled(env, w) && w.pc.Holding?
    ensures WorkerRank(env.boundary, w.(pc := GuardPhase, tasks := w.tasks + [t])) < WorkerRank(env.boundary, w)
  {
    SumAppend(w.tasks, t, TaskRank);
  }

  lemma AdvanceCloser(env: Signals, head: Option<Item>, w: Worker)
    requires Recalled(env, w) && AdvanceStep(env, head, w).Went?
    ensures var w' := AdvanceStep(env, head, w).worker;
            w'.alive && (w'.done == env.boundary || WorkerRank(env.boundary, w') < WorkerRank(env.boundary, w))
  {
    if w.pc.Holding? {
      NewTaskCloser(env, w, Task(w.pc.item, Parked, w.pc.paid));
    }
  }

  /** Each step kills the worker, acknowledges the boundary, or leaves one step less. */
  lemma StepCloser(env: Signals, head: Option<Item>, w: Worker, move: WorkerMove)
    requires Recalled(env, w) && Step(env, head, w, move).Went?
    ensures var w' := Step(env, head, w, move).worker;
            !w'.alive || w'.done == env.boundary || WorkerRank(env.boundary, w') < WorkerRank(env.boundary, w)
  {
    match move
    case Crash =>
    case Progress(k, m) => TaskStepCloser(env, w, k, m);
    case Advance => AdvanceCloser(env, head, w);
    case GiveUp =>
    case LoseItem =>
    case BadRequest => NewTaskCloser(env, w, Task(w.pc.item, Counting(false), w.pc.paid));
  }

  // ---- And it always has one to take ----

  function TaskMoveOn(t: Task): TaskMove {
    match t.phase
    case Parked => Drop
    case InFlight => Reply
    case Counting(_) => Count
    case Releasing => Release
  }

  /** Whatever the channel holds and the semaphore has left, a recalled worker has a step that does not kill it. */
  lemma NeverStuck(env: Signals, head: Option<Item>, w: Worker) returns (move: WorkerMove)
    requires Recalled(env, w)
    ensures !move.Crash? && Step(env, head, w, move).Went?
  {
    if AdvanceStep(env, head, w).Went? {
      move := Advance;
    } else if w.pc.Acquire? || w.pc.Pull? {
      move := GiveUp;
    } else {
      assert w.tasks != [];
      move := Progress(0, TaskMoveOn(w.tasks[0]));
    }
  }

  // ---- Whole runs ----

  function StepsOf(moves: seq<Move>, i: nat): nat {
    if moves == [] then 0
    else
      var last := moves[|moves| - 1];
      StepsOf(moves[..|moves| - 1], i) + (if last.WorkerMoves? && last.i == i then 1 else 0)
  }

  lemma WaitingRecalls(s: System, i: nat)
    requires Inv(s) && s.main.Waiting? && i < |s.workers| && Pending(s, s.workers[i])
    ensures Recalled(s.signals, s.workers[i])
  {
  }

  /** The main process waits on, and every worker is where it was in the list. */
  ghost predicate StillWaiting(s0: System, s: System) {
    s.main.Waiting? && s.signals == s0.signals && |s.workers| == |s0.workers|
  }

  lemma {:induction false} WaitGoesOn(s0: System, moves: seq<Move>, s: System)
    requires s0.main.Waiting? && Run(s0, moves) == Some(s) && forall m :: m in moves ==> m.WorkerMoves?
    ensures StillWaiting(s0, s)
  {
    if moves != [] {
      var n := |moves| - 1;
      var before := Run(s0, moves[..n]).value;
      WaitGoesOn(s0, moves[..n], before);
      assert moves[n] in moves;
      var c, out := WorkerStepShape(before, moves[n].i, moves[n].w, s);
    }
  }

  lemma OneStepCloser(s: System, i: nat, j: nat, w: WorkerMove, s': System)
    requires WorkerStep(s, j, w) == Some(s') && i < |s.workers| && |s'.workers| == |s.workers|
    requires Recalled(s.signals, s.workers[i]) && Pending(s', s'.workers[i])
    ensures WorkerRank(s.signals.boundary, s'.workers[i]) + (if i == j then 1 else 0) <= WorkerRank(s.signals.boundary, s.workers[i])
  {
    var c, out := WorkerStepShape(s, j, w, s');
    if j == i {
      StepCloser(s.signals, Head(s.queues[ChannelOf(s, i)]), s.workers[i], w);
      StepAcks(s.signals, Head(s.queues[ChannelOf(s, i)]), s.workers[i], w);
    }
  }

  /** While the main process waits, a pending worker has a step less left with each it takes, in any interleaving
      with the others. */
  lemma {:induction false} PendingWorkersComeCloser(s0: System, moves: seq<Move>, s: System, i: nat)
    requires Inv(s0) && s0.main.Waiting? && i < |s0.workers|
    requires Run(s0, moves) == Some(s) && forall m :: m in moves ==> m.WorkerMoves?
    requires |s.workers| == |s0.workers| && Pending(s, s.workers[i])
    ensures StepsOf(moves, i) + WorkerRank(s0.signals.boundary, s.workers[i]) <= WorkerRank(s0.signals.boundary, s0.workers[i])
  {
    if moves != [] {
      var n := |moves| - 1;
      var before := Run(s0, moves[..n]).value;
      WaitGoesOn(s0, moves[..n], before);
      RunInv(s0, moves[..n], before);
      assert moves[n] in moves;
      StaysPending(before, i, moves[n].i, moves[n].w, s);
      WaitingRecalls(before, i);
      PendingWorkersComeCloser(s0, moves[..n], before, i);
      OneStepCloser(before, i, moves[n].i, moves[n].w, s);
    }
  }

  /** Who is pending after a step was so before it. */
  lemma StaysPending(s: System, i: nat, j: nat, w: WorkerMove, s': System)
    requires WorkerStep(s, j, w) == Some(s') && i < |s.workers| && |s'.workers| == |s.workers| && Inv(s)
    requires Pending(s', s'.workers[i])
    ensures Pending(s, s.workers[i])
  {
    var c, out := WorkerStepShape(s, j, w, s');
    if j == i {
      assert WellFormed(s.signals.session, s.signals.boundary, s.workers[i]);
      StepAcks(s.signals, Head(s.queues[ChannelOf(s, i)]), s.workers[i], w);
    }
  }

  /** So a worker cannot take as many steps as its rank without acknowledging or dying, and while it is pending it has
      a step to take that does not kill it. */
  lemma PendingWorkersAcknowledge(s0: System, moves: seq<Move>, s: System, i: nat)
    requires Reachable(s0) && s0.main.Waiting? && i < |s0.workers|
    requires Run(s0, moves) == Some(s) && forall m :: m in moves ==> m.WorkerMoves?
    ensures |s.workers| == |s0.workers|
    ensures StepsOf(moves, i) >= WorkerRank(s0.signals.boundary, s0.workers[i]) ==> !Pending(s, s.workers[i])
    ensures Pending(s, s.workers[i]) ==> exists w: WorkerMove :: !w.Crash? && WorkerStep(s, i, w).Some?
  {
    ReachableInv(s0);
    WaitGoesOn(s0, moves, s);
    RunInv(s0, moves, s);
    if Pending(s, s.workers[i]) {
      PendingWorkersComeCloser(s0, moves, s, i);
      WaitingRecalls(s, i);
      RankPositive(s.signals.session, s.signals.boundary, s.workers[i]);
      var w := NeverStuck(s.signals, Head(s.queues[ChannelOf(s, i)]), s.workers[i]);
      assert WorkerStep(s, i, w).Some?;
    }
  }

  /** When every worker has taken that many steps, the main process may leave the wait without terminating anybody. */
  lemma RendezvousIsReached(s0: System, moves: seq<Move>, s: System)
    requires Reachable(s0) && s0.main.Waiting?
    requires Run(s0, moves) == Some(s) && forall m :: m in moves ==> m.WorkerMoves?
    requires forall i :: 0 <= i < |s0.workers| ==> StepsOf(moves, i) >= WorkerRank(s0.signals.boundary, s0.workers[i])
    ensures MainStep(s, Rendezvous).Some?
  {
    WaitGoesOn(s0, moves, s);
    forall w | w in s.workers ensures !Pending(s, w) {
      var i :| 0 <= i < |s.workers| && s.workers[i] == w;
      PendingWorkersAcknowledge(s0, moves, s, i);
    }
  }
}
