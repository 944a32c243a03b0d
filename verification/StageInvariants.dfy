/** What every reachable state of the stage protocol keeps. */
module StageInvariants {
  import opened Common
  import opened StageProtocol

  // ---- One worker ----

  /** Nothing in hand and no task. */
  predicate Bare(w: Worker) {
    w.tasks == [] && !w.pc.Holding?
  }

  predicate InHold(w: Worker) {
    w.tasks == [] && (w.pc.HoldPhase? || w.pc.HoldCancel? || w.pc.HoldSeq?)
  }

  /** Must read the request phase again before it can pull. */
  predicate Quiet(w: Worker) {
    w.tasks == [] && !w.pc.GuardCancel? && !w.pc.Acquire? && !w.pc.Pull? && !w.pc.Holding?
  }

  /** Facts that do not depend on the order of boundary and signals. */
  predicate WellFormed(session: bool, boundary: nat, w: Worker) {
    && WellPlaced(session, boundary, w)
    && w.free + HeldPermits(w) == w.limit
    && (session ==> w.share.None?)
    && (forall t :: t in w.tasks ==> (!session || t.phase.InFlight? ==> t.permit))
    && (!w.alive ==> w.tasks == [] && w.pc.Top?)
  }

  predicate WellPlaced(session: bool, boundary: nat, w: Worker) {
    && w.done <= boundary
    && (w.pc.AckWrite? ==> w.done <= w.pc.ack <= boundary)
    && (w.pc.AckRead? || w.pc.AckWrite? || w.pc.HoldPhase? || w.pc.HoldCancel? || w.pc.HoldSeq? ==> w.tasks == [])
    && (w.pc.Resizing? ==> w.pc.got <= w.limit && w.share.Some?)
    && (!session ==> (w.pc.Pull? ==> w.pc.prepaid) && (w.pc.Holding? ==> w.pc.paid))
  }

  /** Where a worker that has acknowledged the current boundary may stand. */
  predicate Settled(main: Main, phase: bool, boundary: nat, w: Worker) {
    w.alive ==>
      && (main.Published? ==> w.done < boundary && !InBoundaryBlock(w) && (w.pc.AckWrite? ==> w.pc.ack < boundary))
      && (main.Cancelled? || main.Waiting? || main.Terminating? || main.Draining? || main.Clearing? ==> (w.done == boundary ==> InHold(w)))
      && (main.Visiting? || (main.Idle? && !phase) ==> (w.done == boundary ==> Quiet(w)))
      && (main.Opening? || main.Serving? || (main.Idle? && phase) ==>
            (w.done == boundary && w.pc.WindDown? ==> w.tasks == []))
  }

  /** The signals that go with each position of the main process. */
  predicate Signalled(main: Main, phase: bool, cancel: bool) {
    && (main.Opening? || main.Serving? || main.Published? ==> phase && !cancel)
    && (main.Cancelled? ==> phase && cancel)
    && (main.Waiting? || main.Terminating? || main.Draining? || main.Clearing? ==> !phase && cancel)
    && (main.Visiting? ==> !phase && !cancel)
    && (main.Idle? ==> !cancel)
  }

  lemma TaskStepWellFormed(env: Signals, w: Worker, k: nat, m: TaskMove)
    requires w.alive && k < |w.tasks| && WellFormed(env.session, env.boundary, w) && TaskStep(env, w, k, m).Went?
    ensures WellFormed(env.session, env.boundary, TaskStep(env, w, k, m).worker)
  {
    var w' := TaskStep(env, w, k, m).worker;
    if m.Release? {
      SumRemove(w.tasks, k, TaskPermit);
    } else {
      SumUpdate(w.tasks, k, w'.tasks[k], TaskPermit);
    }
  }

  /** A new task carries the permit the loop held. */
  lemma AddTaskWellFormed(session: bool, boundary: nat, w: Worker, t: Task)
    requires WellFormed(session, boundary, w) && w.alive && w.pc.Holding? && t.permit == w.pc.paid && !t.phase.InFlight?
    ensures WellFormed(session, boundary, w.(pc := GuardPhase, tasks := w.tasks + [t]))
  {
    SumAppend(w.tasks, t, TaskPermit);
  }

  /** A resize ends with every permit of the old semaphore collected, so no task holds one. */
  lemma ResizeWellFormed(session: bool, boundary: nat, w: Worker)
    requires WellFormed(session, boundary, w) && w.pc.Resizing? && w.pc.got == w.limit
    ensures w.tasks == []
    ensures WellFormed(session, boundary, w.(pc := GuardPhase, limit := w.pc.target, free := w.pc.target))
  {
    NoPermitNoTask(w.tasks);
  }

  /** A move of the loop that leaves tasks and semaphore size alone. */
  lemma RepositionWellFormed(session: bool, boundary: nat, w: Worker, w': Worker)
    requires WellFormed(session, boundary, w) && w.alive
    requires w' == w.(pc := w'.pc, free := w'.free, done := w'.done, skip := w'.skip)
    requires w'.free + LoopPermits(w'.pc) == w.free + LoopPermits(w.pc)
    requires WellPlaced(session, boundary, w')
    ensures WellFormed(session, boundary, w')
  {
  }

  /** Every other step of the loop keeps the permits that the semaphore and the loop share. */
  lemma AdvanceRepositions(env: Signals, head: Option<Item>, w: Worker)
    requires w.alive && (w.pc.Resizing? ==> w.pc.got != w.limit) && !w.pc.Holding? && AdvanceStep(env, head, w).Went?
    ensures var w' := AdvanceStep(env, head, w).worker;
            && w' == w.(pc := w'.pc, free := w'.free, done := w'.done, skip := w'.skip)
            && w'.free + LoopPermits(w'.pc) == w.free + LoopPermits(w.pc)
  {
  }

  predicate Winding(pc: Pc) {
    pc.WindDown? || pc.AckRead? || pc.AckWrite? || pc.HoldPhase? || pc.HoldCancel? || pc.HoldSeq?
  }

  /** Outside the boundary the loop neither acknowledges nor waits for a stage. */
  lemma AdvanceInLoop(env: Signals, head: Option<Item>, w: Worker)
    requires !Winding(w.pc) && AdvanceStep(env, head, w).Went?
    ensures var w' := AdvanceStep(env, head, w).worker; w'.done == w.done && (Winding(w'.pc) ==> w'.pc.WindDown?)
  {
  }

  lemma AdvanceAcknowledges(env: Signals, head: Option<Item>, w: Worker)
    requires Winding(w.pc) && w.done <= env.boundary && (w.pc.AckWrite? ==> w.done <= w.pc.ack <= env.boundary)
    requires (Winding(w.pc) && !w.pc.WindDown? ==> w.tasks == []) && AdvanceStep(env, head, w).Went?
    ensures var w' := AdvanceStep(env, head, w).worker;
            && w'.done <= env.boundary && (w'.pc.AckWrite? ==> w'.done <= w'.pc.ack <= env.boundary)
            && (w'.pc.Top? || Winding(w'.pc)) && w'.tasks == []
  {
  }

  lemma AdvanceWellPlaced(env: Signals, head: Option<Item>, w: Worker)
    requires w.alive && WellPlaced(env.session, env.boundary, w) && (env.session ==> w.share.None?)
    requires (w.pc.Resizing? ==> w.pc.got != w.limit) && AdvanceStep(env, head, w).Went?
    ensures WellPlaced(env.session, env.boundary, AdvanceStep(env, head, w).worker)
  {
    if Winding(w.pc) {
      AdvanceAcknowledges(env, head, w);
    } else {
      AdvanceInLoop(env, head, w);
    }
  }

  lemma AdvanceWellFormed(env: Signals, head: Option<Item>, w: Worker)
    requires w.alive && WellFormed(env.session, env.boundary, w) && AdvanceStep(env, head, w).Went?
    ensures WellFormed(env.session, env.boundary, AdvanceStep(env, head, w).worker)
  {
    if w.pc.Holding? {
      AddTaskWellFormed(env.session, env.boundary, w, Task(w.pc.item, Parked, w.pc.paid));
    } else if w.pc.Resizing? && w.pc.got == w.limit {
      ResizeWellFormed(env.session, env.boundary, w);
    } else {
      AdvanceRepositions(env, head, w);
      AdvanceWellPlaced(env, head, w);
      RepositionWellFormed(env.session, env.boundary, w, AdvanceStep(env, head, w).worker);
    }
  }

  lemma StepWellFormed(env: Signals, head: Option<Item>, w: Worker, move: WorkerMove)
    requires WellFormed(env.session, env.boundary, w) && Step(env, head, w, move).Went?
    ensures WellFormed(env.session, env.boundary, Step(env, head, w, move).worker)
  {
    match move
    case Progress(k, m) => TaskStepWellFormed(env, w, k, m);
    case BadRequest => AddTaskWellFormed(env.session, env.boundary, w, Task(w.pc.item, Counting(false), w.pc.paid));
    case Advance => AdvanceWellFormed(env, head, w);
    case GiveUp =>
    case LoseItem =>
    case Crash =>
  }

  lemma {:induction false} NoPermitNoTask(ts: seq<Task>)
    requires forall t :: t in ts ==> t.permit
    ensures Sum(ts, TaskPermit) == |ts|
  {
    if ts != [] { NoPermitNoTask(ts[1..]); }
  }

  lemma StepSettled(main: Main, env: Signals, head: Option<Item>, w: Worker, move: WorkerMove)
    requires Signalled(main, env.phase, env.cancel)
    requires WellFormed(env.session, env.boundary, w) && Settled(main, env.phase, env.boundary, w)
    requires Step(env, head, w, move).Went?
    ensures Settled(main, env.phase, env.boundary, Step(env, head, w, move).worker)
  {
    if move.Advance? {
      AdvanceSettled(main, env, head, w);
    }
  }

  lemma AdvanceSettled(main: Main, env: Signals, head: Option<Item>, w: Worker)
    requires Signalled(main, env.phase, env.cancel)
    requires WellFormed(env.session, env.boundary, w) && Settled(main, env.phase, env.boundary, w)
    requires AdvanceStep(env, head, w).Went?
    ensures Settled(main, env.phase, env.boundary, AdvanceStep(env, head, w).worker)
  {
  }

  // ---- What one step does to a worker's holdings ----

  function ItemsIn(head: Option<Item>, e: Effect): multiset<Item> {
    if e.Took? && head.Some? then multiset{head.value} else multiset{}
  }

  function ItemsOut(w: Worker, e: Effect): multiset<Item> {
    match e
    case Finished(item, _) => multiset{item}
    case Died => Items(w)
    case _ => multiset{}
  }

  function InFlightDelta(w: Worker, e: Effect): int {
    match e
    case Activated => 1
    case Replied => -1
    case Died => -InFlightOf(w)
    case _ => 0
  }

  function SkipsDelta(w: Worker, e: Effect): int {
    match e
    case Skipped => 1
    case Finished(_, sent) => if sent then 0 else -1
    case Died => -SkipsPending(w)
    case _ => 0
  }

  ghost predicate Balanced(head: Option<Item>, w: Worker, w': Worker, e: Effect) {
    && Items(w') + ItemsOut(w, e) == Items(w) + ItemsIn(head, e)
    && InFlightOf(w') == InFlightOf(w) + InFlightDelta(w, e)
    && SkipsPending(w') == SkipsPending(w) + SkipsDelta(w, e)
  }

  /** Replacing one part of a whole, where the old part is the new one and what went out. */
  lemma Exchange(before: multiset<Item>, after: multiset<Item>, old': multiset<Item>, new': multiset<Item>, out: multiset<Item>)
    requires after + old' == before + new' && new' + out == old'
    ensures after + out == before
  {
    assert after + out + new' == before + new';
    Cancel(after + out, before, new');
  }

  lemma WithHand(hand: multiset<Item>, after: multiset<Item>, out: multiset<Item>, before: multiset<Item>)
    requires after + out == before
    ensures hand + after + out == hand + before
  {
    assert hand + after + out == hand + (after + out);
  }

  lemma RetaskItems(head: Option<Item>, w: Worker, w': Worker, k: nat, t: Task, e: Effect)
    requires k < |w.tasks| && w'.tasks == w.tasks[k := t] && w'.pc == w.pc && !e.Took? && !e.Died?
    requires TaskItem(t) + ItemsOut(w, e) == TaskItem(w.tasks[k])
    ensures Items(w') + ItemsOut(w, e) == Items(w) + ItemsIn(head, e)
  {
    GatherUpdate(w.tasks, k, t, TaskItem);
    Exchange(Gather(w.tasks, TaskItem), Gather(w'.tasks, TaskItem), TaskItem(w.tasks[k]), TaskItem(t), ItemsOut(w, e));
    WithHand(HandItem(w), Gather(w'.tasks, TaskItem), ItemsOut(w, e), Gather(w.tasks, TaskItem));
  }

  lemma RetaskBalanced(head: Option<Item>, w: Worker, w': Worker, k: nat, t: Task, e: Effect)
    requires k < |w.tasks| && w'.tasks == w.tasks[k := t] && w'.pc == w.pc && !e.Took? && !e.Died?
    requires TaskItem(t) + ItemsOut(w, e) == TaskItem(w.tasks[k])
    requires TaskInFlight(t) == TaskInFlight(w.tasks[k]) + InFlightDelta(w, e)
    requires TaskSkipPending(t) == TaskSkipPending(w.tasks[k]) + SkipsDelta(w, e)
    ensures Balanced(head, w, w', e)
  {
    RetaskItems(head, w, w', k, t, e);
    SumUpdate(w.tasks, k, t, TaskInFlight);
    SumUpdate(w.tasks, k, t, TaskSkipPending);
  }

  lemma ReleaseBalanced(head: Option<Item>, w: Worker, w': Worker, k: nat)
    requires k < |w.tasks| && w'.tasks == w.tasks[..k] + w.tasks[k + 1..] && w'.pc == w.pc && w.tasks[k].phase.Releasing?
    ensures Balanced(head, w, w', Local)
  {
    GatherRemove(w.tasks, k, TaskItem);
    assert TaskItem(w.tasks[k]) == multiset{};
    assert Gather(w'.tasks, TaskItem) == Gather(w.tasks, TaskItem);
    SumRemove(w.tasks, k, TaskInFlight);
    SumRemove(w.tasks, k, TaskSkipPending);
  }

  /** What a task does before it ends. */
  ghost predicate TaskMoves(t: Task, m: TaskMove, t': Task, e: Effect) {
    match m
    case GetPermit => t.phase.Parked? && t' == t.(permit := true) && e == Local
    case Send => t.phase.Parked? && t' == t.(phase := InFlight) && e == Activated
    case Drop => t.phase.Parked? && t' == t.(phase := Counting(false)) && e == Skipped
    case Reply => t.phase.InFlight? && t' == t.(phase := Counting(true)) && e == Replied
    case Count => t.phase.Counting? && t' == t.(phase := Releasing) && e == Finished(t.item, t.phase.sent)
    case Release => false
  }

  lemma TaskStepMoves(env: Signals, w: Worker, k: nat, m: TaskMove, w': Worker, e: Effect)
    requires k < |w.tasks| && !m.Release? && TaskStep(env, w, k, m) == Went(w', e)
    ensures |w'.tasks| == |w.tasks| && w'.tasks == w.tasks[k := w'.tasks[k]] && w'.pc == w.pc
    ensures TaskMoves(w.tasks[k], m, w'.tasks[k], e)
  {
  }

  lemma TaskMovesBalanced(head: Option<Item>, w: Worker, w': Worker, k: nat, m: TaskMove, t': Task, e: Effect)
    requires k < |w.tasks| && w'.tasks == w.tasks[k := t'] && w'.pc == w.pc && TaskMoves(w.tasks[k], m, t', e)
    ensures Balanced(head, w, w', e)
  {
    RetaskBalanced(head, w, w', k, t', e);
  }

  lemma TaskStepBalanced(env: Signals, head: Option<Item>, w: Worker, k: nat, m: TaskMove)
    requires w.alive && k < |w.tasks| && TaskStep(env, w, k, m).Went?
    ensures Balanced(head, w, TaskStep(env, w, k, m).worker, TaskStep(env, w, k, m).effect)
  {
    var w', e := TaskStep(env, w, k, m).worker, TaskStep(env, w, k, m).effect;
    if m.Release? {
      ReleaseBalanced(head, w, w', k);
    } else {
      TaskStepMoves(env, w, k, m, w', e);
      TaskMovesBalanced(head, w, w', k, m, w'.tasks[k], e);
    }
  }

  lemma AddTaskBalanced(head: Option<Item>, w: Worker, t: Task, w': Worker, e: Effect)
    requires w.pc.Holding? && t.item == w.pc.item && !t.phase.InFlight? && !t.phase.Releasing?
    requires e == if t.phase == Counting(false) then Skipped else Local
    requires w'.tasks == w.tasks + [t] && w'.pc.GuardPhase?
    ensures Balanced(head, w, w', e)
  {
    GatherAppend(w.tasks, t, TaskItem);
    SumAppend(w.tasks, t, TaskInFlight);
    SumAppend(w.tasks, t, TaskSkipPending);
  }

  /** A step that leaves the tasks alone, and at most takes the head of the channel in hand. */
  ghost predicate HandOnly(head: Option<Item>, w: Worker, w': Worker, e: Effect) {
    w'.tasks == w.tasks && (e.Local? || e.Took? || e.TookBroken?) && HandItem(w') == HandItem(w) + ItemsIn(head, e)
  }

  lemma HandAdds(hand: multiset<Item>, more: multiset<Item>, rest: multiset<Item>)
    ensures hand + more + rest + multiset{} == hand + rest + more
  {
  }

  lemma HandOnlyBalanced(head: Option<Item>, w: Worker, w': Worker, e: Effect)
    requires HandOnly(head, w, w', e)
    ensures Balanced(head, w, w', e)
  {
    HandAdds(HandItem(w), ItemsIn(head, e), Gather(w.tasks, TaskItem));
  }

  lemma AdvanceShape(env: Signals, head: Option<Item>, w: Worker)
    requires !w.pc.Holding? && AdvanceStep(env, head, w).Went?
    ensures var w', e := AdvanceStep(env, head, w).worker, AdvanceStep(env, head, w).effect;
            && w'.tasks == w.tasks
            && (if w.pc.Pull? then e.Took? && head.Some? && w'.pc == Holding(head.value, w.pc.prepaid)
                else e.Local? && !w'.pc.Holding?)
  {
  }

  lemma AdvanceHandOnly(env: Signals, head: Option<Item>, w: Worker)
    requires !w.pc.Holding? && AdvanceStep(env, head, w).Went?
    ensures HandOnly(head, w, AdvanceStep(env, head, w).worker, AdvanceStep(env, head, w).effect)
  {
    AdvanceShape(env, head, w);
  }

  lemma CrashBalanced(head: Option<Item>, w: Worker)
    ensures Balanced(head, w, Corpse(w), Died)
  {
  }

  lemma AdvanceBalanced(env: Signals, head: Option<Item>, w: Worker, w': Worker, e: Effect)
    requires AdvanceStep(env, head, w) == Went(w', e)
    ensures Balanced(head, w, w', e)
  {
    if w.pc.Holding? {
      CreateTaskBalanced(env, head, w, w', e);
    } else {
      AdvanceHandOnly(env, head, w);
      HandOnlyBalanced(head, w, w', e);
    }
  }

  lemma CreateTaskBalanced(env: Signals, head: Option<Item>, w: Worker, w': Worker, e: Effect)
    requires w.pc.Holding? && AdvanceStep(env, head, w) == Went(w', e)
    ensures Balanced(head, w, w', e)
  {
    AddTaskBalanced(head, w, Task(w.pc.item, Parked, w.pc.paid), w', e);
  }

  /** Every step of a worker keeps its accounts: what it takes, finishes, activates and skips is
      what its holdings change by. */
  lemma StepBalanced(env: Signals, head: Option<Item>, w: Worker, move: WorkerMove)
    requires Step(env, head, w, move).Went?
    ensures Balanced(head, w, Step(env, head, w, move).worker, Step(env, head, w, move).effect)
  {
    match move
    case Progress(k, m) => TaskStepBalanced(env, head, w, k, m);
    case BadRequest => AddTaskBalanced(head, w, Task(w.pc.item, Counting(false), w.pc.paid), Step(env, head, w, move).worker, Skipped);
    case Advance => AdvanceBalanced(env, head, w, Step(env, head, w, move).worker, Step(env, head, w, move).effect);
    case GiveUp => HandOnlyBalanced(head, w, Step(env, head, w, move).worker, Local);
    case LoseItem => HandOnlyBalanced(head, w, Step(env, head, w, move).worker, TookBroken);
    case Crash => CrashBalanced(head, w);
  }
}
