/** The stage protocol between the main process and its workers, as a transition system.

    Every read or write of a shared event, counter or queue is one step, and the steps of
    the main process and of all workers interleave in any order. Workers may crash at any
    point and may be terminated. */
module StageProtocol {
  import opened Common
  import opened ConcurrencySplit

  /** A queued request, tagged with the number of the stage run that enqueued it. */
  datatype Item = Item(stage: nat, id: nat)

  /** Parked: waiting for its time, its predecessors or a permit. InFlight: sent to the model
      server and counted as active. Counting: retired, with the finished counter still to be
      raised. Releasing: counted, with its permit still to be returned. */
  datatype Phase = Parked | InFlight | Counting(sent: bool) | Releasing

  datatype Task = Task(item: Item, phase: Phase, permit: bool)

  /** Where a worker's loop stands; each constructor precedes one shared access. */
  datatype Pc =
    | Top                                // about to read its shared limit
    | Resizing(got: nat, target: nat)    // collecting every permit of the old semaphore
    | GuardPhase | GuardCancel           // the two reads of the inner loop's guard
    | Acquire                            // waiting for a permit before pulling
    | Pull(prepaid: bool)
    | Holding(item: Item, paid: bool)    // pulled, task not created yet
    | EdgeCancel | EdgePhase             // the two reads that detect a stage boundary
    | WindDown                           // draining: waiting for its tasks to end
    | AckRead | AckWrite(ack: nat)       // reading the boundary sequence, then storing it
    | HoldPhase | HoldCancel | HoldSeq   // the reads of the waiting loop after the boundary

  datatype Worker = Worker(
    alive: bool,
    pc: Pc,
    done: nat,             // its stage-done counter
    skip: bool,
    share: Option<nat>,    // its shared maximum concurrency
    limit: nat,            // the size of its current semaphore
    free: nat,             // permits left in it
    tasks: seq<Task>)

  datatype TaskMove = GetPermit | Send | Drop | Reply | Count | Release

  /** Advance is the step the worker's position determines. The others are the places where
      the environment chooses: a timeout or an empty queue, a queue read that loses its item,
      a request that cannot be built, a task's own progress, and death. */
  datatype WorkerMove = Advance | GiveUp | LoseItem | BadRequest | Progress(task: nat, move: TaskMove) | Crash

  /** What a worker step does to the state it shares. */
  datatype Effect = Local | Took | TookBroken | Activated | Skipped | Replied | Finished(item: Item, sent: bool) | Died

  datatype Outcome = Blocked | Went(worker: Worker, effect: Effect)

  /** What the main process tells the workers: the request_phase and cancel_signal events, the
      published boundary sequence, and whether this is a session replay, where the tasks take
      the permits instead of the loop. */
  datatype Signals = Signals(phase: bool, cancel: bool, boundary: nat, session: bool)

  function FreshWorker(done: nat, capacity: nat, share: Option<nat>): Worker {
    Worker(true, Top, done, false, share, capacity, capacity, [])
  }

  function Corpse(w: Worker): Worker {
    w.(alive := false, pc := Top, skip := false, limit := 0, free := 0, tasks := [])
  }

  function Step(env: Signals, head: Option<Item>, w: Worker, move: WorkerMove): Outcome {
    if !w.alive then Blocked else
    match move
    case Crash => Went(Corpse(w), Died)
    case Progress(k, m) => if k < |w.tasks| then TaskStep(env, w, k, m) else Blocked
    case Advance => AdvanceStep(env, head, w)
    case GiveUp =>
      (match w.pc
       case Acquire => Went(w.(pc := GuardPhase), Local)
       case Pull(prepaid) => Went(w.(pc := GuardPhase, free := w.free + (if prepaid then 1 else 0)), Local)
       case _ => Blocked)
    case LoseItem =>
      if w.pc.Pull? && head.Some?
      then Went(w.(pc := GuardPhase, free := w.free + (if w.pc.prepaid then 1 else 0)), TookBroken)
      else Blocked
    case BadRequest =>
      if w.pc.Holding?
      then Went(w.(pc := GuardPhase, tasks := w.tasks + [Task(w.pc.item, Counting(false), w.pc.paid)]), Skipped)
      else Blocked
  }

  function AdvanceStep(env: Signals, head: Option<Item>, w: Worker): Outcome {
    match w.pc
    case Top =>
      if w.share.None? || w.share.value == w.limit then Went(w.(pc := GuardPhase, skip := w.share == Some(0)), Local)
      else if w.share.value == 0 then Went(w.(pc := GuardPhase, skip := true), Local)
      else Went(w.(pc := Resizing(0, w.share.value)), Local)
    case Resizing(got, target) =>
      if got == w.limit then Went(w.(pc := GuardPhase, limit := target, free := target), Local)
      else if w.free > 0 then Went(w.(pc := Resizing(got + 1, target), free := w.free - 1), Local)
      else Blocked
    case GuardPhase => Went(if env.phase then w.(pc := GuardCancel) else w.(pc := EdgeCancel, skip := false), Local)
    case GuardCancel =>
      if env.cancel || w.skip then Went(w.(pc := EdgeCancel, skip := false), Local)
      else Went(w.(pc := if env.session then Pull(false) else Acquire), Local)
    case Acquire => if w.free > 0 then Went(w.(pc := Pull(true), free := w.free - 1), Local) else Blocked
    case Pull(prepaid) => if head.Some? then Went(w.(pc := Holding(head.value, prepaid)), Took) else Blocked
    case Holding(item, paid) => Went(w.(pc := GuardPhase, tasks := w.tasks + [Task(item, Parked, paid)]), Local)
    case EdgeCancel => Went(w.(pc := if env.cancel then WindDown else EdgePhase), Local)
    case EdgePhase => Went(w.(pc := if env.phase then Top else WindDown), Local)
    case WindDown => if w.tasks == [] then Went(w.(pc := AckRead), Local) else Blocked
    case AckRead => Went(w.(pc := AckWrite(env.boundary)), Local)
    case AckWrite(ack) => Went(w.(pc := HoldPhase, done := ack), Local)
    case HoldPhase => Went(w.(pc := if env.phase then HoldCancel else HoldSeq), Local)
    case HoldCancel => Went(w.(pc := if env.cancel then HoldSeq else Top), Local)
    case HoldSeq => Went(w.(pc := if env.boundary > w.done then Top else HoldPhase), Local)
  }

  /** While the worker winds down nothing new is sent, but a task may still obtain a permit it
      was waiting for. */
  function TaskStep(env: Signals, w: Worker, k: nat, m: TaskMove): Outcome
    requires k < |w.tasks|
  {
    var t := w.tasks[k];
    match m
    case GetPermit =>
      if t.phase.Parked? && !t.permit && w.free > 0
      then Went(w.(tasks := w.tasks[k := t.(permit := true)], free := w.free - 1), Local) else Blocked
    case Send =>
      if t.phase.Parked? && t.permit && !w.pc.WindDown? && env.phase && !env.cancel
      then Went(w.(tasks := w.tasks[k := t.(phase := InFlight)]), Activated) else Blocked
    case Drop =>
      if t.phase.Parked? then Went(w.(tasks := w.tasks[k := t.(phase := Counting(false))]), Skipped) else Blocked
    case Reply =>
      if t.phase.InFlight? then Went(w.(tasks := w.tasks[k := t.(phase := Counting(true))]), Replied) else Blocked
    case Count =>
      if t.phase.Counting?
      then Went(w.(tasks := w.tasks[k := t.(phase := Releasing)]), Finished(t.item, t.phase.sent)) else Blocked
    case Release =>
      if t.phase.Releasing?
      then Went(w.(tasks := w.tasks[..k] + w.tasks[k + 1..], free := w.free + (if t.permit then 1 else 0)), Local)
      else Blocked
  }

  /** Where the main process stands. Terminating(stuck): about to terminate those workers.
      Draining(c): emptying channel c. Visiting(i): replacing workers, worker i next. */
  datatype Main =
    | Idle | Opening | Serving | Published | Cancelled | Waiting | Terminating(stuck: set<nat>)
    | Draining(channel: nat) | Clearing | Visiting(index: nat)

  datatype Counters = Counters(finished: nat, active: int, skipped: nat)

  datatype Teardown = Teardown(forced: set<nat>, replaced: set<nat>, clean: bool, removed: nat)

  /** Accounts that no process keeps. All but `leakedActive` cover the current stage.
      issued: enqueued copies, one per channel. dropped: removed by the drain. lost: gone with
      a dead worker, a failed queue read or a replaced channel. answered: finished requests
      that had been sent. leakedActive, leakedSkips: counter units of dead workers. carriedSkips:
      what the skipped counter stood at when the stage opened, less the skips then still to be finished. */
  datatype Book = Book(
    issued: multiset<Item>, finished: multiset<Item>, dropped: multiset<Item>, lost: multiset<Item>,
    answered: nat, leakedActive: int, leakedSkips: int, carriedSkips: int)

  /** occupied: the workers that stood in their boundary block when the boundary was last published
      and have not been replaced since. incomplete: some drain of the last teardown gave up or stopped
      early. crossed: the last stage was opened after a teardown with either. timedOut: some drain has
      ever given up on a channel. */
  datatype History = History(occupied: set<nat>, incomplete: bool, crossed: bool, timedOut: bool)

  /** `capacity` is the semaphore size of a new worker. */
  datatype System = System(
    capacity: nat, main: Main, signals: Signals, stage: nat,
    queues: seq<seq<Item>>, workers: seq<Worker>,
    counters: Counters, teardown: Teardown, book: Book, history: History)

  function ChannelOf(s: System, i: nat): nat
    requires |s.queues| > 0
  {
    i % |s.queues|
  }

  function Head(q: seq<Item>): Option<Item> {
    if q == [] then None else Some(q[0])
  }

  function HeadItem(q: seq<Item>): multiset<Item> {
    if q == [] then multiset{} else multiset{q[0]}
  }

  // What a worker holds.

  function HandItem(w: Worker): multiset<Item> {
    if w.pc.Holding? then multiset{w.pc.item} else multiset{}
  }

  function TaskItem(t: Task): multiset<Item> {
    if t.phase.Releasing? then multiset{} else multiset{t.item}
  }

  function TaskInFlight(t: Task): int { if t.phase.InFlight? then 1 else 0 }

  function TaskSkipPending(t: Task): int { if t.phase == Counting(false) then 1 else 0 }

  function TaskPermit(t: Task): int { if t.permit then 1 else 0 }

  /** The items a worker is responsible for. */
  function Items(w: Worker): multiset<Item> {
    HandItem(w) + Gather(w.tasks, TaskItem)
  }

  function InFlightOf(w: Worker): int { Sum(w.tasks, TaskInFlight) }

  /** Requests counted as skipped and not yet as finished. */
  function SkipsPending(w: Worker): int { Sum(w.tasks, TaskSkipPending) }

  /** Permits the loop itself has taken: for the item it pulls, or collected for a resize. */
  function LoopPermits(pc: Pc): int {
    match pc
    case Pull(prepaid) => if prepaid then 1 else 0
    case Holding(_, paid) => if paid then 1 else 0
    case Resizing(got, _) => got
    case _ => 0
  }

  function HeldPermits(w: Worker): int { Sum(w.tasks, TaskPermit) + LoopPermits(w.pc) }

  function QueueItems(q: seq<Item>): multiset<Item> { multiset(q) }

  function Queued(s: System): multiset<Item> { Gather(s.queues, QueueItems) }

  function Held(s: System): multiset<Item> { Gather(s.workers, Items) }

  // One step of worker i, with its effect on the shared state.

  function WorkerStep(s: System, i: nat, move: WorkerMove): Option<System> {
    if i >= |s.workers| || |s.queues| == 0 then None else
    var c := ChannelOf(s, i);
    match Step(s.signals, Head(s.queues[c]), s.workers[i], move)
    case Blocked => None
    case Went(w', effect) => Some(Apply(s, i, c, w', effect))
  }

  /** Worker i becomes w', having acted on channel c and the counters. */
  function Apply(s: System, i: nat, c: nat, w': Worker, e: Effect): System
    requires i < |s.workers| && c < |s.queues|
  {
    s.(workers := s.workers[i := w'],
       queues := if e.Took? || e.TookBroken? then PopHead(s.queues, c) else s.queues,
       counters := Tick(s.counters, e),
       book := Record(s.book, s.queues[c], s.workers[i], e))
  }

  function PopHead(queues: seq<seq<Item>>, c: nat): seq<seq<Item>>
    requires c < |queues|
  {
    if queues[c] == [] then queues else queues[c := queues[c][1..]]
  }

  function Tick(n: Counters, e: Effect): Counters {
    match e
    case Activated => n.(active := n.active + 1)
    case Replied => n.(active := n.active - 1)
    case Skipped => n.(skipped := n.skipped + 1)
    case Finished(_, _) => n.(finished := n.finished + 1)
    case _ => n
  }

  function Record(book: Book, q: seq<Item>, w: Worker, e: Effect): Book {
    match e
    case TookBroken => book.(lost := book.lost + HeadItem(q))
    case Finished(item, sent) =>
      book.(finished := book.finished + multiset{item}, answered := book.answered + (if sent then 1 else 0))
    case Died => Bury(book, w)
    case _ => book
  }

  /** A worker that dies takes its requests with it and never lowers its counters. */
  function Bury(book: Book, w: Worker): Book {
    book.(lost := book.lost + Items(w),
          leakedActive := book.leakedActive + InFlightOf(w),
          leakedSkips := book.leakedSkips + SkipsPending(w))
  }

  // Steps of the main process.

  datatype MainMove =
    | SetShares(level: nat, pinned: Option<nat>)
    | OpenStage | ResetCounters | SkipStage
    | Put(id: nat, channel: Option<nat>)
    | Publish | SetCancel | ClearPhase
    | Rendezvous | GiveUpOn(stuck: set<nat>) | Terminate(index: nat) | Terminated
    | DrainItem | DrainDone | DrainTimeout | DrainStop
    | ClearCancel | Visit | Return

  function MainStep(s: System, move: MainMove): Option<System> {
    match move
    case SetShares(level, pinned) =>
      if s.main.Idle? && !s.signals.session && |s.workers| > 0 then Some(ShareOut(s, level, pinned)) else None
    case OpenStage =>
      if s.main.Idle? then Some(Open(s)) else None
    case ResetCounters => if s.main.Opening? then Some(Reset(s)) else None
    // A session stage with nothing left to replay returns right away, without a teardown.
    case SkipStage =>
      if s.main.Opening? && s.signals.session then Some(Reset(s).(main := Idle, teardown := Teardown({}, {}, true, 0))) else None
    case Put(id, channel) => if s.main.Serving? then Some(Enqueue(s, Item(s.stage, id), channel)) else None
    case Publish => if s.main.Serving? then Some(PublishBoundary(s)) else None
    case SetCancel =>
      if s.main.Published? then Some(s.(main := Cancelled, signals := s.signals.(cancel := true))) else None
    case ClearPhase =>
      if s.main.Cancelled? then Some(s.(main := Waiting, signals := s.signals.(phase := false))) else None
    case Rendezvous =>
      if s.main.Waiting? && forall w :: w in s.workers ==> !Pending(s, w) then Some(s.(main := Draining(0))) else None
    // The stuck workers were pending when they were listed; by now some may not be.
    case GiveUpOn(stuck) =>
      if s.main.Waiting? && stuck != {} && (forall i :: i in stuck ==> i < |s.workers|)
         && (forall i :: 0 <= i < |s.workers| && Pending(s, s.workers[i]) ==> i in stuck)
      then Some(s.(main := Terminating(stuck), teardown := s.teardown.(clean := false))) else None
    case Terminate(i) =>
      if s.main.Terminating? && i in s.main.stuck && i < |s.workers| then Some(TerminateWorker(s, i)) else None
    case Terminated => if s.main == Terminating({}) then Some(s.(main := Draining(0))) else None
    case DrainItem =>
      if s.main.Draining? && s.main.channel < |s.queues| && s.queues[s.main.channel] != []
      then Some(DrainHead(s, s.main.channel)) else None
    case DrainDone =>
      if s.main.Draining? && s.main.channel < |s.queues| && s.queues[s.main.channel] == []
      then Some(s.(main := NextChannel(s))) else None
    // What is left is added to the count of removed items and stays in the channel.
    case DrainTimeout =>
      if s.main.Draining? && s.main.channel < |s.queues| then
        Some(s.(main := NextChannel(s),
                teardown := s.teardown.(removed := s.teardown.removed + |s.queues[s.main.channel]|),
                history := s.history.(incomplete := true, timedOut := true)))
      else None
    // A marker left by a drain that had timed out ends a later drain early, with the rest uncounted.
    case DrainStop =>
      if s.main.Draining? && s.main.channel < |s.queues| && s.history.timedOut
      then Some(s.(main := NextChannel(s), history := s.history.(incomplete := true))) else None
    case ClearCancel =>
      if s.main.Clearing? then Some(s.(main := Visiting(0), signals := s.signals.(cancel := false))) else None
    case Visit => if s.main.Visiting? && s.main.index < |s.workers| then Some(VisitWorker(s)) else None
    case Return => if s.main.Visiting? && s.main.index >= |s.workers| then Some(s.(main := Idle)) else None
  }

  function Open(s: System): System {
    s.(main := Opening, signals := s.signals.(phase := true), stage := s.stage + 1,
       history := s.history.(crossed := s.history.occupied != {} || s.history.incomplete))
  }

  /** The finished counter of a stage restarts. The skipped counter restarts with it, except in a
      session stage, which has no hold of it; the active counter is carried on. */
  function Reset(s: System): System {
    var skipped := if s.signals.session then s.counters.skipped else 0;
    s.(main := Serving,
       counters := s.counters.(finished := 0, skipped := skipped),
       book := Book(Queued(s) + Held(s), multiset{}, multiset{}, multiset{}, 0, s.book.leakedActive, 0,
                    skipped - Sum(s.workers, SkipsPending)))
  }

  /** The sequence is published before any signal is raised. */
  function PublishBoundary(s: System): System {
    s.(main := Published,
       signals := s.signals.(boundary := s.signals.boundary + 1),
       teardown := Teardown({}, {}, true, 0),
       history := s.history.(occupied := InBlocks(s), incomplete := false))
  }

  /** Between deciding that a stage has ended and reading the sequence to acknowledge. */
  predicate InBoundaryBlock(w: Worker) {
    w.alive && (w.pc.WindDown? || w.pc.AckRead?)
  }

  function InBlocks(s: System): set<nat> {
    set i | 0 <= i < |s.workers| && InBoundaryBlock(s.workers[i])
  }

  predicate Pending(s: System, w: Worker) {
    w.alive && w.done < s.signals.boundary
  }

  function NextChannel(s: System): Main
    requires s.main.Draining?
  {
    if s.main.channel + 1 < |s.queues| then Draining(s.main.channel + 1) else Clearing
  }

  function ShareOut(s: System, level: nat, pinned: Option<nat>): System {
    var active := ActiveWorkers(|s.workers|, Some(level), pinned);
    s.(workers := seq(|s.workers|, i requires 0 <= i < |s.workers| =>
                    if s.workers[i].share.Some? then s.workers[i].(share := Some(Share(level, active, i))) else s.workers[i]))
  }

  function Enqueue(s: System, item: Item, channel: Option<nat>): System {
    s.(queues := seq(|s.queues|, c requires 0 <= c < |s.queues| =>
                   if channel.None? || channel.value % |s.queues| == c then s.queues[c] + [item] else s.queues[c]),
       book := s.book.(issued := s.book.issued + Added(s, item, channel)))
  }

  /** One copy per channel the item goes to. */
  function Added(s: System, item: Item, channel: Option<nat>): multiset<Item> {
    if |s.queues| == 0 then multiset{} else multiset{}[item := if channel.None? then |s.queues| else 1]
  }

  /** Worker i is dead afterwards, with its requests. */
  function Kill(s: System, i: nat): System
    requires i < |s.workers|
  {
    var w := s.workers[i];
    if w.alive then s.(workers := s.workers[i := Corpse(w)], book := Bury(s.book, w)) else s
  }

  function TerminateWorker(s: System, i: nat): System
    requires s.main.Terminating? && i < |s.workers|
  {
    Kill(s, i).(main := Terminating(s.main.stuck - {i}), teardown := s.teardown.(forced := s.teardown.forced + {i}))
  }

  function DrainHead(s: System, c: nat): System
    requires c < |s.queues|
  {
    s.(queues := PopHead(s.queues, c),
       teardown := s.teardown.(removed := s.teardown.removed + 1),
       book := s.book.(dropped := s.book.dropped + HeadItem(s.queues[c])))
  }

  predicate MustReplace(s: System, i: nat)
    requires i < |s.workers|
  {
    i in s.teardown.forced || !s.workers[i].alive || s.workers[i].done < s.signals.boundary
  }

  /** A worker's own channel is replaced with it; a channel all workers share is kept. */
  function VisitWorker(s: System): System
    requires s.main.Visiting? && s.main.index < |s.workers|
  {
    var i := s.main.index;
    if MustReplace(s, i) then
      var s' := SwapChannel(Respawn(Kill(s, i), i), i);
      s'.(main := Visiting(i + 1),
          teardown := s.teardown.(clean := false, replaced := s.teardown.replaced + {i}),
          history := s.history.(occupied := s.history.occupied - {i}))
    else s.(main := Visiting(i + 1))
  }

  function Respawn(s: System, i: nat): System
    requires i < |s.workers|
  {
    s.(workers := s.workers[i := FreshWorker(s.signals.boundary, s.capacity, s.workers[i].share)])
  }

  function SwapChannel(s: System, i: nat): System {
    if |s.queues| > 1 then
      var c := i % |s.queues|;
      s.(queues := s.queues[c := []], book := s.book.(lost := s.book.lost + QueueItems(s.queues[c])))
    else s
  }

  // Runs.

  datatype Move = WorkerMoves(i: nat, w: WorkerMove) | MainMoves(m: MainMove)

  function Next(s: System, move: Move): Option<System> {
    match move
    case WorkerMoves(i, w) => WorkerStep(s, i, w)
    case MainMoves(m) => MainStep(s, m)
  }

  /** The state a run reaches, or None when one of its moves was not enabled. */
  function Run(s: System, moves: seq<Move>): Option<System> {
    if moves == [] then Some(s)
    else
      var before := Run(s, moves[..|moves| - 1]);
      if before.None? then None else Next(before.value, moves[|moves| - 1])
  }

  /** All workers started, the request phase already set, nothing queued. */
  function Start(session: bool, capacity: nat, share: Option<nat>, numWorkers: nat, numChannels: nat): System {
    System(capacity, Idle, Signals(true, false, 0, session), 0,
           seq(numChannels, _ => []),
           seq(numWorkers, _ => FreshWorker(0, capacity, share)),
           Counters(0, 0, 0), Teardown({}, {}, true, 0),
           Book(multiset{}, multiset{}, multiset{}, multiset{}, 0, 0, 0, 0), History({}, false, false, false))
  }

  /** Session replay never adjusts concurrency, so its workers have no shared limit. */
  ghost predicate ReachedBy(s: System, session: bool, capacity: nat, share: Option<nat>, n: nat, c: nat, moves: seq<Move>) {
    n >= 1 && c >= 1 && (session ==> share.None?) && Run(Start(session, capacity, share, n, c), moves) == Some(s)
  }

  ghost predicate Reachable(s: System) {
    exists session: bool, capacity: nat, share: Option<nat>, n: nat, c: nat, moves: seq<Move> ::
      ReachedBy(s, session, capacity, share, n, c, moves)
  }
}
