/** How many requests a stage can have in flight: exactly the sum of what each worker can still reach
    before it reads its shared limit again. */
module StageCeiling {
  import opened Common
  import opened ConcurrencySplit
  import opened StageProtocol
  import opened StageInvariants
  import opened StageSafety
  import opened StageTheorems
  import opened StageRuns

  /** A task that is in flight, or parked and not stopped by a wind-down. */
  function TaskSendable(winding: bool): Task -> int {
    (t: Task) => if t.phase.InFlight? || (t.phase.Parked? && !winding) then 1 else 0
  }

  /** What the worker can have in flight without taking another request. */
  function Sendable(w: Worker): int {
    Sum(w.tasks, TaskSendable(w.pc.WindDown?))
  }

  /** The worker reads its shared limit before it pulls again, even with the request phase set. */
  predicate Reads(w: Worker) {
    match w.pc
    case GuardPhase => w.skip
    case GuardCancel => w.skip
    case Resizing(_, _) => false
    case Acquire => false
    case Pull(_) => false
    case Holding(_, _) => false
    case _ => true
  }

  /** The limit the worker works with, or is about to. */
  function Present(w: Worker): nat {
    if w.pc.Resizing? then w.pc.target else w.limit
  }

  function Max(a: int, b: int): int {
    if a >= b then a else b
  }

  /** The most requests the worker can have in flight before a boundary is published or the level is
      divided again. Between stages it still can leave its loop and read its shared limit. */
  function Ceiling(phase: bool, w: Worker): int {
    if !w.alive then 0
    else Max(Sendable(w), if Reads(w) then Adopts(w) else if phase then Present(w) else Max(Present(w), Adopts(w)))
  }

  function CeilingIn(phase: bool): Worker -> int {
    (w: Worker) => Ceiling(phase, w)
  }

  function Ceilings(s: System): int {
    Sum(s.workers, CeilingIn(s.signals.phase))
  }

  // ---- No step raises a ceiling ----

  lemma {:induction false} SendableBounds(ts: seq<Task>, winding: bool)
    ensures Sum(ts, TaskInFlight) <= Sum(ts, TaskSendable(winding)) <= |ts|
    ensures 0 <= Sum(ts, TaskInFlight) && Sum(ts, TaskSendable(true)) <= Sum(ts, TaskSendable(winding))
    ensures (forall t :: t in ts ==> t.permit) ==> Sum(ts, TaskPermit) == |ts|
  {
    if ts != [] {
      SendableBounds(ts[1..], winding);
    }
  }

  /** Outside session replay every task holds a permit, so the present limit covers them all. */
  lemma SendableWithinLimit(boundary: nat, w: Worker)
    requires WellFormed(false, boundary, w)
    ensures InFlightOf(w) <= Sendable(w) <= w.limit - LoopPermits(w.pc)
  {
    SendableBounds(w.tasks, w.pc.WindDown?);
  }

  lemma TaskStepSendable(env: Signals, w: Worker, k: nat, m: TaskMove, w': Worker)
    requires k < |w.tasks| && TaskStep(env, w, k, m).Went? && TaskStep(env, w, k, m).worker == w'
    ensures w' == w.(tasks := w'.tasks, free := w'.free) && Sendable(w') <= Sendable(w)
  {
    if m.Release? {
      SumRemove(w.tasks, k, TaskSendable(w.pc.WindDown?));
    } else {
      SumUpdate(w.tasks, k, w'.tasks[k], TaskSendable(w.pc.WindDown?));
    }
  }

  lemma AddTaskSendable(w: Worker, t: Task, w': Worker)
    requires w.pc.Holding? && w'.tasks == w.tasks + [t] && !w'.pc.WindDown?
    ensures Sendable(w') == Sendable(w) + (if t.phase.InFlight? || t.phase.Parked? then 1 else 0)
  {
    SumAppend(w.tasks, t, TaskSendable(false));
  }

  /** A move of the loop that leaves the tasks alone. */
  lemma LoopSendable(w: Worker, w': Worker)
    requires w'.tasks == w.tasks && (w.pc.WindDown? ==> w'.pc.WindDown? || w.tasks == [])
    ensures Sendable(w') <= Sendable(w)
  {
    SendableBounds(w.tasks, w.pc.WindDown?);
  }

  lemma AdvanceLoopCeiling(env: Signals, head: Option<Item>, w: Worker, w': Worker)
    requires WellFormed(false, env.boundary, w) && SkipsAtGuard(w) && w.alive && !env.cancel && !env.session
    requires !w.pc.Holding? && !(w.pc.Resizing? && w.pc.got == w.limit)
    requires AdvanceStep(env, head, w).Went? && AdvanceStep(env, head, w).worker == w'
    ensures w'.tasks == w.tasks && (w.pc.WindDown? ==> w.tasks == []) && w'.share == w.share && w'.alive
    ensures Reads(w') ==> Adopts(w') <= if Reads(w) then Adopts(w) else if env.phase then Present(w) else Max(Present(w), Adopts(w))
    ensures !Reads(w') ==> Present(w') <= if Reads(w) then Adopts(w) else Present(w)
    ensures !Reads(w') ==> Adopts(w') == Adopts(w)
  {
  }

  lemma AdvanceCeiling(env: Signals, head: Option<Item>, w: Worker, w': Worker)
    requires WellFormed(false, env.boundary, w) && SkipsAtGuard(w) && w.alive && !env.cancel && !env.session
    requires WellFormed(false, env.boundary, w')
    requires AdvanceStep(env, head, w).Went? && AdvanceStep(env, head, w).worker == w'
    ensures Ceiling(env.phase, w') <= Ceiling(env.phase, w)
  {
    if w.pc.Holding? {
      SendableWithinLimit(env.boundary, w');
    } else if w.pc.Resizing? && w.pc.got == w.limit {
      ResizeWellFormed(false, env.boundary, w);
    } else {
      AdvanceLoopCeiling(env, head, w, w');
      LoopSendable(w, w');
    }
  }

  lemma StepCeiling(env: Signals, head: Option<Item>, w: Worker, move: WorkerMove, w': Worker)
    requires WellFormed(false, env.boundary, w) && SkipsAtGuard(w) && !env.cancel && !env.session
    requires Step(env, head, w, move).Went? && Step(env, head, w, move).worker == w'
    ensures Ceiling(env.phase, w') <= Ceiling(env.phase, w)
  {
    StepWellFormed(env, head, w, move);
    SendableBounds(w.tasks, w.pc.WindDown?);
    match move
    case Progress(k, m) => TaskStepSendable(env, w, k, m, w');
    case Advance => AdvanceCeiling(env, head, w, w');
    case BadRequest => AddTaskSendable(w, Task(w.pc.item, Counting(false), w.pc.paid), w');
    case GiveUp => LoopSendable(w, w');
    case LoseItem => LoopSendable(w, w');
    case Crash =>
  }

  // ---- No run does ----

  /** From the division of the level to the end of the stage. */
  predicate Staging(s: System) {
    !s.signals.session && (s.main.Idle? || s.main.Opening? || s.main.Serving?)
  }

  lemma CeilingOpens(w: Worker)
    ensures Ceiling(true, w) <= Ceiling(false, w)
  {
  }

  lemma WorkerStepCeilings(s: System, i: nat, move: WorkerMove, s': System)
    requires Reachable(s) && Staging(s) && WorkerStep(s, i, move) == Some(s')
    ensures Staging(s') && |s'.workers| == |s.workers| && Ceilings(s') <= Ceilings(s)
  {
    var c, out := WorkerStepShape(s, i, move, s');
    ReachableWorker(s, i);
    StepCeiling(s.signals, Head(s.queues[c]), s.workers[i], move, out.worker);
    SumUpdate(s.workers, i, out.worker, CeilingIn(s.signals.phase));
  }

  lemma MainStepCeilings(s: System, move: MainMove, s': System)
    requires Reachable(s) && Staging(s) && MainStep(s, move) == Some(s') && KeepsStage(MainMoves(move))
    ensures Staging(s') && s'.workers == s.workers && Ceilings(s') <= Ceilings(s)
  {
    if !s.signals.phase && s'.signals.phase {
      forall w | w in s.workers ensures CeilingIn(true)(w) <= CeilingIn(false)(w) {
        CeilingOpens(w);
      }
      SumBounded(s.workers, CeilingIn(true), CeilingIn(false));
    }
  }

  lemma {:induction false} RunCeilings(s: System, moves: seq<Move>, t: System)
    requires Reachable(s) && Staging(s) && Run(s, moves) == Some(t) && forall m :: m in moves ==> KeepsStage(m)
    ensures Reachable(t) && Staging(t) && |t.workers| == |s.workers| && Ceilings(t) <= Ceilings(s)
  {
    if moves != [] {
      var rest, last := moves[..|moves| - 1], moves[|moves| - 1];
      var before := Run(s, rest).value;
      RunCeilings(s, rest, before);
      ReachableNext(before, last, t);
      match last
      case WorkerMoves(i, m) => WorkerStepCeilings(before, i, m, t);
      case MainMoves(m) => MainStepCeilings(before, m, t);
    }
  }

  lemma InFlightBelowCeiling(boundary: nat, phase: bool, w: Worker)
    requires WellFormed(false, boundary, w)
    ensures InFlightOf(w) <= Ceiling(phase, w)
  {
    SendableWithinLimit(boundary, w);
  }

  /** No run has more requests in flight than the ceilings add up to. */
  lemma InFlightBelowCeilings(s: System, t: System)
    requires Reachable(s) && Staging(s) && Follows(s, t)
    ensures Sum(t.workers, InFlightOf) <= Ceilings(s)
  {
    var moves :| Run(s, moves) == Some(t) && forall m :: m in moves ==> KeepsStage(m);
    RunCeilings(s, moves, t);
    forall w | w in t.workers ensures InFlightOf(w) <= CeilingIn(t.signals.phase)(w) {
      var i :| 0 <= i < |t.workers| && t.workers[i] == w;
      ReachableWorker(t, i);
      InFlightBelowCeiling(t.signals.boundary, t.signals.phase, w);
    }
    SumBounded(t.workers, InFlightOf, CeilingIn(t.signals.phase));
  }

  // ---- A worker can leave its loop and read its limit ----

  /** The same worker with nothing to do, and nothing in hand. */
  lemma Finish(s: System, i: nat, w: Worker) returns (v: Worker)
    requires Reachable(s) && CanBe(s, i, w) && w.alive
    ensures CanBe(s, i, v) && v.tasks == []
    ensures v == w.(pc := if w.pc.Holding? then GuardPhase else w.pc, tasks := [], free := v.free)
  {
    CanBeReachable(s, i, w);
    var h := w;
    if w.pc.Holding? {
      h := w.(pc := GuardPhase, tasks := w.tasks + [Task(w.pc.item, Parked, w.pc.paid)]);
      Then(s, i, w, Advance, h);
    }
    var free := EndTasks(s, i, h);
    v := h.(tasks := [], free := free);
  }

  lemma BackToGuard(s: System, i: nat, w: Worker)
    requires CanBe(s, i, w) && |s.queues| > 0 && w.alive && w.tasks == [] && w.free == w.limit && !w.skip
    requires w.pc.GuardPhase? || w.pc.GuardCancel? || w.pc.Acquire?
    requires !s.signals.session && !s.signals.cancel
    ensures CanBe(s, i, w.(pc := GuardPhase, limit := w.limit, free := w.limit))
  {
    var v := w;
    if w.pc.GuardCancel? {
      v := w.(pc := Acquire);
      Then(s, i, w, Advance, v);
    }
    if v.pc.Acquire? {
      Then(s, i, v, GiveUp, v.(pc := GuardPhase));
    }
  }

  /** A worker in its loop gets back to the guard, with the limit it works with. */
  lemma ToGuard(s: System, i: nat, w: Worker)
    requires Reachable(s) && CanBe(s, i, w) && w.alive && w.tasks == [] && !Reads(w) && !w.pc.Holding?
    requires !s.signals.session && !s.signals.cancel
    ensures CanBe(s, i, w.(pc := GuardPhase, limit := Present(w), free := Present(w)))
  {
    CanBeReachable(s, i, w);
    if w.pc.Resizing? {
      CollectPermits(s, i, w, w.pc.got, w.pc.target);
    } else if w.pc.Pull? {
      Then(s, i, w, GiveUp, w.(pc := GuardPhase, free := w.free + 1));
    } else {
      BackToGuard(s, i, w);
    }
  }

  /** A worker that does not read its limit stands at the guard without a skip mark. */
  lemma StayersDoNotSkip(w: Worker)
    requires !Reads(w) && SkipsAtGuard(w)
    ensures !w.skip
  {
  }

  lemma FinishAtGuard(s: System, i: nat, w: Worker) returns (v: Worker)
    requires Reachable(s) && CanBe(s, i, w) && w.alive && !Reads(w) && !s.signals.session && !s.signals.cancel
    ensures CanBe(s, i, v) && v == w.(pc := GuardPhase, tasks := [], limit := Present(w), free := Present(w)) && !v.skip
  {
    CanBeReachable(s, i, w);
    StayersDoNotSkip(w);
    var u := Finish(s, i, w);
    ToGuard(s, i, u);
    v := u.(pc := GuardPhase, limit := Present(u), free := Present(u));
  }

  lemma HoldToTop(s: System, i: nat, w: Worker)
    requires CanBe(s, i, w) && |s.queues| > 0 && w.alive && w.tasks == [] && s.signals.phase && !s.signals.cancel
    requires w.pc.HoldPhase? || w.pc.HoldCancel? || w.pc.HoldSeq?
    ensures CanBe(s, i, w.(pc := Top))
  {
    var v := w;
    if w.pc.HoldSeq? {
      v := w.(pc := if s.signals.boundary > w.done then Top else HoldPhase);
      Then(s, i, w, Advance, v);
    }
    if v.pc.HoldPhase? {
      Then(s, i, v, Advance, v.(pc := HoldCancel));
      v := v.(pc := HoldCancel);
    }
    if v.pc.HoldCancel? {
      Then(s, i, v, Advance, v.(pc := Top));
    }
  }

  lemma AckToTop(s: System, i: nat, w: Worker) returns (done: nat)
    requires CanBe(s, i, w) && |s.queues| > 0 && w.alive && w.tasks == [] && s.signals.phase && !s.signals.cancel
    requires w.pc.WindDown? || w.pc.AckRead? || w.pc.AckWrite?
    ensures CanBe(s, i, w.(pc := Top, done := done))
  {
    var v := w;
    if v.pc.WindDown? {
      Then(s, i, v, Advance, v.(pc := AckRead));
      v := v.(pc := AckRead);
    }
    if v.pc.AckRead? {
      Then(s, i, v, Advance, v.(pc := AckWrite(s.signals.boundary)));
      v := v.(pc := AckWrite(s.signals.boundary));
    }
    done := v.pc.ack;
    Then(s, i, v, Advance, v.(pc := HoldPhase, done := done));
    HoldToTop(s, i, v.(pc := HoldPhase, done := done));
  }

  lemma GuardToTop(s: System, i: nat, w: Worker)
    requires CanBe(s, i, w) && |s.queues| > 0 && w.alive && s.signals.phase && !s.signals.cancel
    requires ((w.pc.GuardPhase? || w.pc.GuardCancel?) && w.skip) || w.pc.EdgeCancel? || w.pc.EdgePhase?
    ensures CanBe(s, i, w.(pc := Top, skip := if w.pc.GuardPhase? || w.pc.GuardCancel? then false else w.skip))
  {
    var v := w;
    if v.pc.GuardPhase? {
      Then(s, i, v, Advance, v.(pc := GuardCancel));
      v := v.(pc := GuardCancel);
    }
    if v.pc.GuardCancel? {
      Then(s, i, v, Advance, v.(pc := EdgeCancel, skip := false));
      v := v.(pc := EdgeCancel, skip := false);
    }
    if v.pc.EdgeCancel? {
      Then(s, i, v, Advance, v.(pc := EdgePhase));
      v := v.(pc := EdgePhase);
    }
    Then(s, i, v, Advance, v.(pc := Top));
  }

  /** With the request phase set, a worker that reads its limit gets to the top of its loop. */
  lemma ToTop(s: System, i: nat, w: Worker) returns (done: nat)
    requires Reachable(s) && CanBe(s, i, w) && w.alive && w.tasks == [] && Reads(w) && s.signals.phase && !s.signals.cancel
    ensures CanBe(s, i, w.(pc := Top, skip := false, done := done))
  {
    CanBeReachable(s, i, w);
    done := w.done;
    if w.pc.HoldPhase? || w.pc.HoldCancel? || w.pc.HoldSeq? {
      HoldToTop(s, i, w);
    } else if w.pc.WindDown? || w.pc.AckRead? || w.pc.AckWrite? {
      done := AckToTop(s, i, w);
    } else if !w.pc.Top? {
      GuardToTop(s, i, w);
    }
  }

  /** With the request phase set, a worker gets to the guard with the limit it will work with. */
  lemma GetReady(s: System, i: nat, w: Worker) returns (v: Worker)
    requires Reachable(s) && CanBe(s, i, w) && w.alive && s.signals.phase && !s.signals.cancel && !s.signals.session
    requires Reads(w) ==> Adopts(w) > 0
    ensures CanBe(s, i, v) && v.alive && v.pc.GuardPhase? && !v.skip && v.tasks == []
    ensures v.limit == v.free == if Reads(w) then Adopts(w) else Present(w)
  {
    if Reads(w) {
      var u := Finish(s, i, w);
      var done := ToTop(s, i, u);
      var top := u.(pc := Top, skip := false, done := done);
      CanBeReachable(s, i, top);
      v := AdoptShare(s, i, top);
    } else {
      v := FinishAtGuard(s, i, w);
    }
  }

  // ---- And take as many requests as its limit allows ----

  /** t follows s, and only worker i and the channels have changed. */
  ghost predicate Served(s: System, t: System, i: nat) {
    && Follows(s, t) && i < |s.workers| && |t.workers| == |s.workers| && (forall j :: 0 <= j < |s.workers| && j != i ==> t.workers[j] == s.workers[j])
    && t.main == s.main && t.signals == s.signals && |t.queues| == |s.queues|
  }

  lemma MovedIsServed(s: System, t: System, i: nat, w: Worker)
    requires Moved(s, t, i, w)
    ensures Served(s, t, i) && t.workers[i] == w
  {
  }

  lemma ServedTwice(s: System, t: System, u: System, i: nat)
    requires Served(s, t, i) && Served(t, u, i)
    ensures Served(s, u, i)
  {
    FollowsTwice(s, t, u);
  }

  lemma EnqueuedOn(s: System, item: Item, i: nat)
    requires |s.queues| > 0
    ensures var t := Enqueue(s, item, Some(i));
            && |t.queues| == |s.queues| && t.queues[ChannelOf(s, i)] == s.queues[ChannelOf(s, i)] + [item]
            && t.workers == s.workers && t.main == s.main && t.signals == s.signals
  {
  }

  lemma Supply(s: System, i: nat) returns (t: System)
    requires s.main.Serving? && i < |s.workers| && |s.queues| > 0
    ensures Served(s, t, i) && t.workers == s.workers && t.queues[ChannelOf(t, i)] != []
  {
    FollowsItself(s);
    t := Enqueue(s, Item(s.stage, 0), Some(i));
    EnqueuedOn(s, Item(s.stage, 0), i);
    FollowsNext(s, s, MainMoves(Put(0, Some(i))), t);
  }

  lemma PullHead(s: System, i: nat) returns (t: System, item: Item)
    requires i < |s.workers| && |s.queues| > 0 && s.queues[ChannelOf(s, i)] != []
    requires s.workers[i].alive && s.workers[i].pc == Pull(true)
    ensures Served(s, t, i) && t.workers[i] == s.workers[i].(pc := Holding(item, true))
  {
    FollowsItself(s);
    item := s.queues[ChannelOf(s, i)][0];
    t := WorkerStep(s, i, Advance).value;
    FollowsNext(s, s, WorkerMoves(i, Advance), t);
  }

  lemma Pay(s: System, i: nat, w: Worker) returns (t: System)
    requires CanBe(s, i, w) && |s.queues| > 0 && w.alive && w.pc.GuardPhase? && !w.skip && w.free > 0
    requires s.signals.phase && !s.signals.cancel && !s.signals.session
    ensures Served(s, t, i) && t.workers[i] == w.(pc := Pull(true), free := w.free - 1)
  {
    var ws := [w, w.(pc := GuardCancel), w.(pc := Acquire), w.(pc := Pull(true), free := w.free - 1)];
    assert AdvanceStep(s.signals, None, ws[0]) == Went(ws[1], Local);
    assert AdvanceStep(s.signals, None, ws[1]) == Went(ws[2], Local);
    assert AdvanceStep(s.signals, None, ws[2]) == Went(ws[3], Local);
    Walk(s, i, ws);
    t :| Moved(s, t, i, ws[3]);
    MovedIsServed(s, t, i, ws[3]);
  }

  lemma Launch(s: System, i: nat, w: Worker, item: Item) returns (t: System)
    requires i < |s.workers| && s.workers[i] == w && |s.queues| > 0 && w.alive && w.pc == Holding(item, true)
    requires s.signals.phase && !s.signals.cancel
    ensures Served(s, t, i) && t.workers[i] == w.(pc := GuardPhase, tasks := w.tasks + [Task(item, InFlight, true)])
  {
    IsNow(s, i);
    var v := w.(pc := GuardPhase, tasks := w.tasks + [Task(item, Parked, true)]);
    Then(s, i, w, Advance, v);
    var u := w.(pc := GuardPhase, tasks := w.tasks + [Task(item, InFlight, true)]);
    assert v.tasks[|w.tasks| := Task(item, InFlight, true)] == u.tasks;
    Then(s, i, v, Progress(|w.tasks|, Send), u);
    t :| Moved(s, t, i, u);
    MovedIsServed(s, t, i, u);
  }

  /** One more request gets in flight. */
  lemma TakeOne(s: System, i: nat, w: Worker) returns (t: System, item: Item)
    requires CanBe(s, i, w) && |s.queues| > 0 && w.alive && w.pc.GuardPhase? && !w.skip && w.free > 0
    requires s.main.Serving? && s.signals.phase && !s.signals.cancel && !s.signals.session
    ensures Served(s, t, i) && t.workers[i] == w.(free := w.free - 1, tasks := w.tasks + [Task(item, InFlight, true)])
  {
    var a := Pay(s, i, w);
    var b := Supply(a, i);
    ServedTwice(s, a, b, i);
    var c, x := PullHead(b, i);
    ServedTwice(s, b, c, i);
    item := x;
    t := Launch(c, i, c.workers[i], item);
    ServedTwice(s, c, t, i);
  }

  lemma {:induction false} AllInFlight(ts: seq<Task>)
    requires forall t :: t in ts ==> t.phase.InFlight? && t.permit
    ensures Sum(ts, TaskInFlight) == Sum(ts, TaskPermit) == |ts|
  {
    if ts != [] {
      AllInFlight(ts[1..]);
    }
  }

  lemma {:induction false} FillUp(s: System, i: nat, w: Worker, limit: nat, free: nat) returns (t: System)
    requires Reachable(s) && CanBe(s, i, w) && w.alive && w.pc.GuardPhase? && !w.skip && w.free == free && w.limit == limit
    requires forall t :: t in w.tasks ==> t.phase.InFlight? && t.permit
    requires s.main.Serving? && s.signals.phase && !s.signals.cancel && !s.signals.session
    ensures Served(s, t, i) && InFlightOf(t.workers[i]) == limit
    decreases free
  {
    CanBeReachable(s, i, w);
    if free == 0 {
      AllInFlight(w.tasks);
      t :| Moved(s, t, i, w);
      MovedIsServed(s, t, i, w);
    } else {
      var u, item := TakeOne(s, i, w);
      ReachableFollows(s, u);
      IsNow(u, i);
      t := FillUp(u, i, u.workers[i], limit, free - 1);
      ServedTwice(s, u, t, i);
    }
  }

  lemma {:induction false} NothingParked(ts: seq<Task>, winding: bool)
    requires winding || forall t :: t in ts ==> !t.phase.Parked?
    ensures Sum(ts, TaskInFlight) == Sum(ts, TaskSendable(winding))
  {
    if ts != [] {
      NothingParked(ts[1..], winding);
    }
  }

  lemma {:induction false} SendFrom(s: System, i: nat, w: Worker, k: nat) returns (v: Worker)
    requires CanBe(s, i, w) && |s.queues| > 0 && w.alive && s.signals.phase && !s.signals.cancel
    requires k <= |w.tasks| && forall j :: 0 <= j < k ==> !w.tasks[j].phase.Parked?
    requires !w.pc.WindDown? && forall t :: t in w.tasks ==> t.permit
    ensures CanBe(s, i, v) && InFlightOf(v) == Sendable(w)
    decreases |w.tasks| - k
  {
    if k == |w.tasks| {
      v := w;
      NothingParked(w.tasks, false);
    } else if w.tasks[k].phase.Parked? {
      var u := w.(tasks := w.tasks[k := w.tasks[k].(phase := InFlight)]);
      Then(s, i, w, Progress(k, Send), u);
      SumUpdate(w.tasks, k, w.tasks[k].(phase := InFlight), TaskSendable(false));
      v := SendFrom(s, i, u, k + 1);
    } else {
      v := SendFrom(s, i, w, k + 1);
    }
  }

  /** Everything that can be sent is in flight. */
  lemma SendAll(s: System, i: nat) returns (t: System)
    requires Reachable(s) && i < |s.workers| && s.workers[i].alive && s.signals.phase && !s.signals.cancel && !s.signals.session
    ensures Served(s, t, i) && InFlightOf(t.workers[i]) == Sendable(s.workers[i])
  {
    var w := s.workers[i];
    ReachableWorker(s, i);
    IsNow(s, i);
    var v := w;
    if w.pc.WindDown? {
      NothingParked(w.tasks, true);
    } else {
      v := SendFrom(s, i, w, 0);
    }
    t :| Moved(s, t, i, v);
    MovedIsServed(s, t, i, v);
  }

  /** Each worker can reach its ceiling while the others stand still. */
  lemma Attain(s: System, i: nat) returns (t: System)
    requires Reachable(s) && i < |s.workers| && s.main.Serving? && !s.signals.session
    ensures Served(s, t, i) && InFlightOf(t.workers[i]) == Ceiling(true, s.workers[i])
  {
    var w := s.workers[i];
    ReachableWorker(s, i);
    SendableBounds(w.tasks, w.pc.WindDown?);
    IsNow(s, i);
    if !w.alive {
      t :| Moved(s, t, i, w);
      MovedIsServed(s, t, i, w);
    } else if Ceiling(true, w) == Sendable(w) {
      t := SendAll(s, i);
    } else {
      var v := GetReady(s, i, w);
      t := FillUp(s, i, v, v.limit, v.free);
    }
  }

  // ---- All of them together ----

  /** t follows s, with the main process where it was. */
  ghost predicate Alongside(s: System, t: System) {
    Follows(s, t) && |t.workers| == |s.workers| && t.main == s.main && t.signals == s.signals
  }

  lemma {:induction false} AttainAll(s: System, k: nat) returns (t: System)
    requires Reachable(s) && k <= |s.workers| && s.main.Serving? && !s.signals.session
    ensures Alongside(s, t) && Reachable(t)
    ensures forall j :: 0 <= j < k ==> InFlightOf(t.workers[j]) == Ceiling(true, s.workers[j])
    ensures forall j :: k <= j < |s.workers| ==> t.workers[j] == s.workers[j]
  {
    if k == 0 {
      t := s;
      FollowsItself(s);
    } else {
      var u := AttainAll(s, k - 1);
      t := Attain(u, k - 1);
      FollowsTwice(s, u, t);
      ReachableFollows(s, t);
    }
  }

  /** Between stages, a worker that would gain by reading its share leaves its loop. */
  lemma Retire(s: System, i: nat) returns (t: System)
    requires Reachable(s) && i < |s.workers| && s.main.Idle? && !s.signals.phase && !s.signals.session
    ensures Served(s, t, i) && Ceiling(true, t.workers[i]) == Ceiling(false, s.workers[i])
  {
    var w := s.workers[i];
    ReachableWorker(s, i);
    IsNow(s, i);
    var v := w;
    if w.alive && !Reads(w) && Adopts(w) > Max(Sendable(w), Present(w)) {
      var u := FinishAtGuard(s, i, w);
      v := u.(pc := EdgeCancel);
      Then(s, i, u, Advance, v);
      RetiredCeiling(s.signals.boundary, w, v);
    }
    t :| Moved(s, t, i, v);
    MovedIsServed(s, t, i, v);
  }

  lemma RetiredCeiling(boundary: nat, w: Worker, v: Worker)
    requires WellFormed(false, boundary, w) && w.alive && !Reads(w) && Adopts(w) > Max(Sendable(w), Present(w))
    requires v == w.(pc := EdgeCancel, tasks := [], limit := Present(w), free := Present(w))
    ensures Ceiling(true, v) == Ceiling(false, w)
  {
  }

  lemma {:induction false} RetireAll(s: System, k: nat) returns (t: System)
    requires Reachable(s) && k <= |s.workers| && s.main.Idle? && !s.signals.phase && !s.signals.session
    ensures Alongside(s, t) && Reachable(t)
    ensures forall j :: 0 <= j < k ==> Ceiling(true, t.workers[j]) == Ceiling(false, s.workers[j])
    ensures forall j :: k <= j < |s.workers| ==> t.workers[j] == s.workers[j]
  {
    if k == 0 {
      t := s;
      FollowsItself(s);
    } else {
      var u := RetireAll(s, k - 1);
      t := Retire(u, k - 1);
      FollowsTwice(s, u, t);
      ReachableFollows(s, t);
    }
  }

  lemma BeginServing(s: System) returns (t: System)
    requires Reachable(s) && Staging(s)
    ensures Follows(s, t) && Reachable(t) && t.main.Serving? && t.workers == s.workers && !t.signals.session
  {
    FollowsItself(s);
    t := s;
    if t.main.Idle? {
      t := Open(s);
      FollowsNext(s, s, MainMoves(OpenStage), t);
    }
    if t.main.Opening? {
      var u := Reset(t);
      FollowsNext(s, t, MainMoves(ResetCounters), u);
      t := u;
    }
    ReachableFollows(s, t);
  }

  /** The stage can be opened with every ceiling as high as before. */
  lemma OpenWithCeilings(s: System) returns (t: System)
    requires Reachable(s) && Staging(s)
    ensures Follows(s, t) && Reachable(t) && t.main.Serving? && !t.signals.session
    ensures Sum(t.workers, CeilingIn(true)) == Ceilings(s)
  {
    ReachableInv(s);
    var u := s;
    FollowsItself(s);
    if s.main.Idle? && !s.signals.phase {
      u := RetireAll(s, |s.workers|);
      SumPointwise(u.workers, CeilingIn(true), s.workers, CeilingIn(false));
    }
    t := BeginServing(u);
    FollowsTwice(s, u, t);
  }

  /** The ceilings are reached, all at once. */
  lemma CeilingsAreReached(s: System) returns (t: System)
    requires Reachable(s) && Staging(s)
    ensures Follows(s, t) && Sum(t.workers, InFlightOf) == Ceilings(s)
  {
    var u := OpenWithCeilings(s);
    t := AttainAll(u, |u.workers|);
    FollowsTwice(s, u, t);
    SumPointwise(t.workers, InFlightOf, u.workers, CeilingIn(true));
  }

  // ---- The level of a stage ----

  lemma DivisionIsStaging(s0: System, level: nat, pinned: Option<nat>, s1: System)
    requires Reachable(s0) && MainStep(s0, SetShares(level, pinned)) == Some(s1)
    ensures Reachable(s1) && Staging(s1)
  {
    ReachableNext(s0, MainMoves(SetShares(level, pinned)), s1);
  }

  /** The level holds until the next boundary or division exactly when the ceilings that the workers
      have right after the division add up to no more than the level. */
  lemma LevelHoldsExactlyBelowTheCeilings(s0: System, level: nat, pinned: Option<nat>, s1: System)
    requires Reachable(s0) && MainStep(s0, SetShares(level, pinned)) == Some(s1)
    ensures (exists t :: Follows(s1, t) && Sum(t.workers, InFlightOf) > level) <==> Ceilings(s1) > level
    ensures (exists t :: Follows(s1, t) && Sum(t.workers, InFlightOf) == Ceilings(s1))
  {
    DivisionIsStaging(s0, level, pinned, s1);
    var most := CeilingsAreReached(s1);
    forall t | Follows(s1, t) ensures Sum(t.workers, InFlightOf) <= Ceilings(s1) {
      InFlightBelowCeilings(s1, t);
    }
  }

  lemma SharedCeiling(level: nat, active: nat, n: nat, ws: seq<Worker>, phase: bool)
    requires 1 <= active <= n == |ws|
    requires forall i :: 0 <= i < n ==> Ceiling(phase, ws[i]) <= Shares(level, active, n)[i]
    ensures Sum(ws, CeilingIn(phase)) <= level
  {
    SharesSumToLevel(level, active, n);
    forall i | 0 <= i < n ensures CeilingIn(phase)(ws[i]) <= Itself(Shares(level, active, n)[i]) {
      assert Ceiling(phase, ws[i]) <= Shares(level, active, n)[i];
    }
    SumBelow(ws, CeilingIn(phase), Shares(level, active, n), Itself);
  }

  /** In particular it holds when every live worker will read its share first and has no more than that
      many requests left to send, as workers have that wait for the next stage. */
  lemma ReadersKeepTheLevel(s0: System, level: nat, pinned: Option<nat>, s1: System, t: System)
    requires Reachable(s0) && MainStep(s0, SetShares(level, pinned)) == Some(s1) && Follows(s1, t)
    requires forall i :: 0 <= i < |s1.workers| && s1.workers[i].alive ==>
               s1.workers[i].share.Some? && Reads(s1.workers[i]) && Sendable(s1.workers[i]) <= s1.workers[i].share.value
    ensures Sum(t.workers, InFlightOf) <= level
    ensures t.counters.active <= level + t.book.leakedActive
  {
    DivisionIsStaging(s0, level, pinned, s1);
    var n := |s0.workers|;
    var active := ActiveWorkers(n, Some(level), pinned);
    SharedCeiling(level, active, n, s1.workers, s1.signals.phase);
    InFlightBelowCeilings(s1, t);
    ReachableFollows(s1, t);
    WorkIsConserved(t);
  }
}
