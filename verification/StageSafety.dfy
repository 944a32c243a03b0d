/** The invariants of the whole system, and the safety theorems of the stage protocol. */
module StageSafety {
  import opened Common
  import opened StageProtocol
  import opened StageInvariants
  import opened StageAccounts

  ghost predicate WorkersWellFormed(s: System) {
    && |s.queues| > 0
    && Signalled(s.main, s.signals.phase, s.signals.cancel)
    && forall i :: 0 <= i < |s.workers| ==> WellFormed(s.signals.session, s.signals.boundary, s.workers[i])
  }

  /** Every worker that was outside its boundary block when the boundary was published, or is fresh. */
  ghost predicate WorkersSettled(s: System) {
    forall i :: 0 <= i < |s.workers| && i !in s.history.occupied ==> Settled(s.main, s.signals.phase, s.signals.boundary, s.workers[i])
  }

  predicate AtBoundary(s: System, i: nat)
    requires i < |s.workers|
  {
    s.workers[i].done == s.signals.boundary
  }

  /** How far the rendezvous has got. */
  ghost predicate Rendezvoused(s: System) {
    match s.main
    case Idle => forall i :: 0 <= i < |s.workers| ==> AtBoundary(s, i)
    case Opening => forall i :: 0 <= i < |s.workers| ==> AtBoundary(s, i)
    case Serving => forall i :: 0 <= i < |s.workers| ==> AtBoundary(s, i)
    case Terminating(stuck) => forall i :: 0 <= i < |s.workers| && s.workers[i].alive && i !in stuck ==> AtBoundary(s, i)
    case Draining(_) => forall i :: 0 <= i < |s.workers| && s.workers[i].alive ==> AtBoundary(s, i)
    case Clearing => forall i :: 0 <= i < |s.workers| && s.workers[i].alive ==> AtBoundary(s, i)
    case Visiting(k) => forall i :: 0 <= i < |s.workers| && (i < k || s.workers[i].alive) ==> AtBoundary(s, i)
    case _ => true
  }

  /** What the teardown has recorded so far. */
  ghost predicate TeardownKept(s: System) {
    var t := s.teardown;
    match s.main
    case Published => t.clean && t.forced == {} && t.replaced == {}
    case Cancelled => t.clean && t.forced == {} && t.replaced == {}
    case Waiting => t.clean && t.forced == {} && t.replaced == {}
    case Terminating(stuck) => !t.clean && t.replaced == {} && stuck + t.forced != {} && ForcedAreDead(s, 0)
                               && forall i :: i in stuck ==> i < |s.workers|
    case Draining(_) => t.replaced == {} && (t.clean <==> t.forced == {}) && ForcedAreDead(s, 0)
    case Clearing => t.replaced == {} && (t.clean <==> t.forced == {}) && ForcedAreDead(s, 0)
    case Visiting(k) => (t.clean <==> t.forced == {} && t.replaced == {}) && ForcedAreDead(s, k)
                        && (forall i :: i in t.forced && i < k ==> i in t.replaced)
    case _ => t.clean <==> t.replaced == {}
  }

  ghost predicate ForcedAreDead(s: System, from: nat) {
    forall i :: i in s.teardown.forced ==> i < |s.workers| && (i >= from ==> !s.workers[i].alive)
  }

  predicate OfStage(items: multiset<Item>, stage: nat) {
    forall item :: item in items ==> item.stage == stage
  }

  /** Main positions from the start of the drain to the opening of the next stage. */
  predicate BetweenStages(main: Main) {
    main.Draining? || main.Clearing? || main.Visiting? || main.Idle? || main.Opening?
  }

  predicate Emptied(main: Main, c: nat) {
    match main
    case Draining(k) => c < k
    case _ => BetweenStages(main)
  }

  /** What a drain has passed is empty, unless it gave up somewhere. */
  ghost predicate Drained(s: System) {
    !s.history.incomplete ==> forall c :: 0 <= c < |s.queues| && Emptied(s.main, c) ==> s.queues[c] == []
  }

  /** The request phase is set, and nothing has been enqueued since. */
  predicate Opened(s: System) {
    s.main.Opening? || (s.main.Idle? && s.signals.phase)
  }

  ghost predicate HandsFree(s: System) {
    Opened(s) && !s.history.incomplete ==> forall i :: 0 <= i < |s.workers| && i !in s.history.occupied ==> Bare(s.workers[i])
  }

  /** Whatever is queued or held was enqueued by the stage that is running. */
  ghost predicate OwnStage(s: System) {
    && (forall c :: 0 <= c < |s.queues| ==> OfStage(QueueItems(s.queues[c]), s.stage))
    && (forall i :: 0 <= i < |s.workers| ==> OfStage(Items(s.workers[i]), s.stage))
  }

  /** So it is unless the stage was opened over something left behind. */
  ghost predicate Pure(s: System) {
    !s.history.crossed ==> OwnStage(s)
  }

  /** The last teardown left nothing behind. */
  predicate Exact(s: System) {
    s.history.occupied == {} && !s.history.incomplete
  }

  /** Outside session replay a stage that opens after an exact teardown carries no skips over. */
  predicate CarryExplained(s: System) {
    && (s.main.Opening? ==> (s.history.crossed <==> !Exact(s)))
    && (!s.main.Opening? && !s.history.crossed && !s.signals.session ==> s.book.carriedSkips == 0)
  }

  ghost predicate RemovedCounted(s: System) {
    if s.main.Serving? then s.book.dropped == multiset{} else
    if s.main.Published? || s.main.Cancelled? || s.main.Waiting? || s.main.Terminating?
    then s.book.dropped == multiset{} && s.teardown.removed == 0 && !s.history.incomplete
    else !s.history.incomplete && !s.main.Opening? ==> s.teardown.removed == |s.book.dropped|
  }

  /** What concerns the workers and how far the teardown has got. */
  ghost predicate Standing(s: System) {
    WorkersWellFormed(s) && WorkersSettled(s) && Rendezvoused(s) && TeardownKept(s)
  }

  /** What concerns the requests of one stage and those of the next. */
  ghost predicate Separated(s: System) {
    Drained(s) && HandsFree(s) && Pure(s)
  }

  ghost predicate Accounted(s: System) {
    ItemsConserved(s) && CountersAgree(s) && SkipsAgree(s) && CarryExplained(s) && RemovedCounted(s)
  }

  ghost predicate Inv(s: System) {
    Standing(s) && Separated(s) && Accounted(s)
  }

  // ---- Worker steps ----

  lemma StepAcks(env: Signals, head: Option<Item>, w: Worker, move: WorkerMove)
    requires WellFormed(env.session, env.boundary, w) && Step(env, head, w, move).Went?
    ensures var w' := Step(env, head, w, move).worker;
            w.done <= w'.done <= env.boundary && (w'.alive ==> w.alive)
  {
    if move.Advance? {
      AdvanceAcks(env, head, w);
    }
  }

  lemma AdvanceAcks(env: Signals, head: Option<Item>, w: Worker)
    requires WellPlaced(env.session, env.boundary, w) && AdvanceStep(env, head, w).Went?
    ensures var w' := AdvanceStep(env, head, w).worker;
            w.done <= w'.done <= env.boundary && w'.alive == w.alive
  {
  }

  /** What a worker step leaves alone. */
  ghost predicate OnlyWorker(s: System, i: nat, s': System, w': Worker) {
    && i < |s.workers| && s'.workers == s.workers[i := w'] && s'.main == s.main && s'.signals == s.signals
    && s'.stage == s.stage && s'.teardown == s.teardown && s'.history == s.history && s'.capacity == s.capacity
    && s'.book.dropped == s.book.dropped && s'.book.carriedSkips == s.book.carriedSkips
  }

  lemma WorkerStepShape(s: System, i: nat, move: WorkerMove, s': System) returns (c: nat, out: Outcome)
    requires WorkerStep(s, i, move) == Some(s')
    ensures i < |s.workers| && |s.queues| > 0 && c == ChannelOf(s, i) < |s.queues|
    ensures out == Step(s.signals, Head(s.queues[c]), s.workers[i], move) && out.Went?
    ensures OnlyWorker(s, i, s', out.worker)
    ensures s'.queues == if out.effect.Took? || out.effect.TookBroken? then PopHead(s.queues, c) else s.queues
  {
    c := ChannelOf(s, i);
    out := Step(s.signals, Head(s.queues[c]), s.workers[i], move);
  }

  lemma WorkerStepWorkers(s: System, i: nat, move: WorkerMove, s': System)
    requires WorkerStep(s, i, move) == Some(s') && WorkersWellFormed(s)
    ensures WorkersWellFormed(s')
  {
    var c, out := WorkerStepShape(s, i, move, s');
    StepWellFormed(s.signals, Head(s.queues[c]), s.workers[i], move);
  }

  lemma WorkerStepSettled(s: System, i: nat, move: WorkerMove, s': System)
    requires WorkerStep(s, i, move) == Some(s') && WorkersWellFormed(s) && WorkersSettled(s)
    ensures WorkersSettled(s')
  {
    var c, out := WorkerStepShape(s, i, move, s');
    if i !in s.history.occupied {
      StepSettled(s.main, s.signals, Head(s.queues[c]), s.workers[i], move);
    }
  }

  lemma WorkerStepRendezvous(s: System, i: nat, move: WorkerMove, s': System)
    requires WorkerStep(s, i, move) == Some(s') && WorkersWellFormed(s)
    requires Rendezvoused(s) && TeardownKept(s)
    ensures Rendezvoused(s') && TeardownKept(s')
  {
    var c, out := WorkerStepShape(s, i, move, s');
    StepAcks(s.signals, Head(s.queues[c]), s.workers[i], move);
    assert forall j :: 0 <= j < |s.workers| && AtBoundary(s, j) ==> AtBoundary(s', j);
    assert forall j :: 0 <= j < |s.workers| && s'.workers[j].alive ==> s.workers[j].alive;
  }

  lemma WorkerStepStanding(s: System, i: nat, move: WorkerMove, s': System)
    requires WorkerStep(s, i, move) == Some(s') && Standing(s)
    ensures Standing(s')
  {
    WorkerStepWorkers(s, i, move, s');
    WorkerStepSettled(s, i, move, s');
    WorkerStepRendezvous(s, i, move, s');
  }

  lemma PopHeadEmpties(queues: seq<seq<Item>>, c: nat)
    requires c < |queues|
    ensures |PopHead(queues, c)| == |queues|
    ensures forall d :: 0 <= d < |queues| && queues[d] == [] ==> PopHead(queues, c)[d] == []
  {
  }

  lemma PopHeadStage(queues: seq<seq<Item>>, c: nat, stage: nat)
    requires c < |queues| && forall d :: 0 <= d < |queues| ==> OfStage(QueueItems(queues[d]), stage)
    ensures forall d :: 0 <= d < |queues| ==> OfStage(QueueItems(PopHead(queues, c)[d]), stage)
  {
    if queues[c] != [] {
      forall item | item in QueueItems(queues[c][1..]) ensures item.stage == stage {
        assert item in queues[c][1..];
        assert item in QueueItems(queues[c]);
      }
    }
  }

  lemma WorkerStepDrained(s: System, i: nat, move: WorkerMove, s': System)
    requires WorkerStep(s, i, move) == Some(s') && Drained(s)
    ensures Drained(s')
  {
    var c, out := WorkerStepShape(s, i, move, s');
    PopHeadEmpties(s.queues, c);
  }

  lemma BareStep(env: Signals, head: Option<Item>, w: Worker, move: WorkerMove)
    requires Step(env, head, w, move).Went? && Bare(w) && head.None?
    ensures Bare(Step(env, head, w, move).worker)
  {
  }

  lemma WorkerStepHandsFree(s: System, i: nat, move: WorkerMove, s': System)
    requires WorkerStep(s, i, move) == Some(s') && Drained(s) && HandsFree(s)
    ensures HandsFree(s')
  {
    var c, out := WorkerStepShape(s, i, move, s');
    if Opened(s) && !s.history.incomplete && i !in s.history.occupied {
      assert Emptied(s.main, c);
      BareStep(s.signals, Head(s.queues[c]), s.workers[i], move);
    }
  }

  /** A step takes up nothing but what its worker holds and what it finds at the head of the channel. */
  lemma StepStage(env: Signals, head: Option<Item>, w: Worker, move: WorkerMove, stage: nat)
    requires Step(env, head, w, move).Went? && OfStage(Items(w), stage) && (head.Some? ==> head.value.stage == stage)
    ensures OfStage(Items(Step(env, head, w, move).worker), stage)
  {
    StepBalanced(env, head, w, move);
    var w', e := Step(env, head, w, move).worker, Step(env, head, w, move).effect;
    forall item | item in Items(w') ensures item.stage == stage {
      assert item in Items(w') + ItemsOut(w, e);
    }
  }

  lemma WorkerStepOwnStage(s: System, i: nat, move: WorkerMove, s': System)
    requires WorkerStep(s, i, move) == Some(s') && OwnStage(s)
    ensures OwnStage(s')
  {
    var c, out := WorkerStepShape(s, i, move, s');
    assert OfStage(QueueItems(s.queues[c]), s.stage);
    if s.queues[c] != [] {
      assert s.queues[c][0] in QueueItems(s.queues[c]);
    }
    StepStage(s.signals, Head(s.queues[c]), s.workers[i], move, s.stage);
    PopHeadStage(s.queues, c, s.stage);
  }

  lemma WorkerStepPure(s: System, i: nat, move: WorkerMove, s': System)
    requires WorkerStep(s, i, move) == Some(s') && Pure(s)
    ensures Pure(s')
  {
    var c, out := WorkerStepShape(s, i, move, s');
    if !s.history.crossed {
      WorkerStepOwnStage(s, i, move, s');
    }
  }

  lemma WorkerStepSeparated(s: System, i: nat, move: WorkerMove, s': System)
    requires WorkerStep(s, i, move) == Some(s') && Separated(s)
    ensures Separated(s')
  {
    WorkerStepDrained(s, i, move, s');
    WorkerStepHandsFree(s, i, move, s');
    WorkerStepPure(s, i, move, s');
  }

  lemma WorkerStepAccounted(s: System, i: nat, move: WorkerMove, s': System)
    requires WorkerStep(s, i, move) == Some(s') && Accounted(s)
    ensures Accounted(s')
  {
    WorkerStepAccounts(s, i, move, s');
    WorkerStepRemoved(s, i, move, s');
  }

  lemma WorkerStepRemoved(s: System, i: nat, move: WorkerMove, s': System)
    requires WorkerStep(s, i, move) == Some(s') && CarryExplained(s) && RemovedCounted(s)
    ensures CarryExplained(s') && RemovedCounted(s')
  {
    var c, out := WorkerStepShape(s, i, move, s');
  }

  lemma WorkerStepInv(s: System, i: nat, move: WorkerMove, s': System)
    requires WorkerStep(s, i, move) == Some(s') && Inv(s)
    ensures Inv(s')
  {
    WorkerStepStanding(s, i, move, s');
    WorkerStepSeparated(s, i, move, s');
    WorkerStepAccounted(s, i, move, s');
  }

  // ---- Steps of the main process that leave workers and channels alone ----

  predicate OnlySignals(move: MainMove) {
    !move.SetShares? && !move.Put? && !move.Terminate? && !move.DrainItem? && !move.Visit?
  }

  lemma SignalMoveShape(s: System, move: MainMove, s': System)
    requires OnlySignals(move) && MainStep(s, move) == Some(s')
    ensures s'.queues == s.queues && s'.workers == s.workers && s'.signals.session == s.signals.session && s'.capacity == s.capacity
    ensures s'.signals.boundary == s.signals.boundary + (if move.Publish? then 1 else 0)
    ensures move.Publish? <==> s'.main.Published?
  {
  }

  lemma SignalMoveHistory(s: System, move: MainMove, s': System)
    requires OnlySignals(move) && MainStep(s, move) == Some(s')
    ensures s'.history.occupied == if move.Publish? then InBlocks(s) else s.history.occupied
    ensures s'.history.incomplete == (if move.Publish? then false else s.history.incomplete || move.DrainTimeout? || move.DrainStop?)
    ensures s'.history.crossed == if move.OpenStage? then !Exact(s) else s.history.crossed
    ensures s'.stage == s.stage + (if move.OpenStage? then 1 else 0)
  {
  }

  lemma SignalMoveSignalled(s: System, move: MainMove, s': System)
    requires OnlySignals(move) && MainStep(s, move) == Some(s') && Signalled(s.main, s.signals.phase, s.signals.cancel)
    ensures Signalled(s'.main, s'.signals.phase, s'.signals.cancel)
  {
  }

  lemma LaterBoundaryWellFormed(session: bool, boundary: nat, later: nat, w: Worker)
    requires WellFormed(session, boundary, w) && boundary <= later
    ensures WellFormed(session, later, w)
  {
  }

  lemma SignalMoveWorkers(s: System, move: MainMove, s': System)
    requires OnlySignals(move) && MainStep(s, move) == Some(s') && WorkersWellFormed(s)
    ensures WorkersWellFormed(s')
  {
    SignalMoveShape(s, move, s');
    SignalMoveSignalled(s, move, s');
    forall i | 0 <= i < |s.workers| ensures WellFormed(s'.signals.session, s'.signals.boundary, s'.workers[i]) {
      LaterBoundaryWellFormed(s.signals.session, s.signals.boundary, s'.signals.boundary, s.workers[i]);
    }
  }

  /** The signals move so that a worker that stood safely keeps standing safely. */
  lemma SignalMoveSettled(s: System, move: MainMove, s': System, w: Worker)
    requires OnlySignals(move) && !move.Publish? && MainStep(s, move) == Some(s')
    requires Signalled(s.main, s.signals.phase, s.signals.cancel)
    requires WellFormed(s.signals.session, s.signals.boundary, w) && Settled(s.main, s.signals.phase, s.signals.boundary, w)
    ensures Settled(s'.main, s'.signals.phase, s'.signals.boundary, w)
  {
  }

  lemma PublishSettled(s: System, s': System)
    requires MainStep(s, Publish) == Some(s') && WorkersWellFormed(s)
    ensures WorkersSettled(s')
  {
    forall i | 0 <= i < |s.workers| && i !in s'.history.occupied
      ensures Settled(s'.main, s'.signals.phase, s'.signals.boundary, s'.workers[i])
    {
      assert WellFormed(s.signals.session, s.signals.boundary, s.workers[i]);
      assert !InBoundaryBlock(s.workers[i]);
    }
  }

  lemma SignalMovesSettled(s: System, move: MainMove, s': System)
    requires OnlySignals(move) && MainStep(s, move) == Some(s') && WorkersWellFormed(s) && WorkersSettled(s)
    ensures WorkersSettled(s')
  {
    if move.Publish? {
      PublishSettled(s, s');
    } else {
      SignalMoveShape(s, move, s');
      SignalMoveHistory(s, move, s');
      forall i | 0 <= i < |s.workers| && i !in s.history.occupied
        ensures Settled(s'.main, s'.signals.phase, s'.signals.boundary, s'.workers[i])
      {
        assert WellFormed(s.signals.session, s.signals.boundary, s.workers[i]);
        SignalMoveSettled(s, move, s', s.workers[i]);
      }
    }
  }

  lemma NobodyPending(s: System, i: nat)
    requires WorkersWellFormed(s) && i < |s.workers| && s.workers[i].alive && !Pending(s, s.workers[i])
    ensures AtBoundary(s, i)
  {
    assert WellFormed(s.signals.session, s.signals.boundary, s.workers[i]);
  }

  lemma EndOfWaitRendezvous(s: System, move: MainMove, s': System)
    requires (move.Rendezvous? || move.GiveUpOn?) && MainStep(s, move) == Some(s') && WorkersWellFormed(s)
    ensures Rendezvoused(s')
  {
    forall i | 0 <= i < |s.workers| && s.workers[i].alive && (move.GiveUpOn? ==> i !in move.stuck) ensures AtBoundary(s', i) {
      assert s.workers[i] in s.workers;
      NobodyPending(s, i);
    }
  }

  lemma SignalMoveRendezvous(s: System, move: MainMove, s': System)
    requires OnlySignals(move) && MainStep(s, move) == Some(s') && WorkersWellFormed(s) && Rendezvoused(s)
    ensures Rendezvoused(s')
  {
    if move.Rendezvous? || move.GiveUpOn? {
      EndOfWaitRendezvous(s, move, s');
    } else if !move.Publish? {
      SignalMoveShape(s, move, s');
      assert forall i :: 0 <= i < |s.workers| ==> AtBoundary(s', i) == AtBoundary(s, i);
    }
  }

  lemma SignalMoveTeardown(s: System, move: MainMove, s': System)
    requires OnlySignals(move) && MainStep(s, move) == Some(s') && TeardownKept(s)
    ensures TeardownKept(s')
  {
  }

  lemma SignalMoveStanding(s: System, move: MainMove, s': System)
    requires OnlySignals(move) && MainStep(s, move) == Some(s') && Standing(s)
    ensures Standing(s')
  {
    SignalMoveWorkers(s, move, s');
    SignalMovesSettled(s, move, s');
    SignalMoveRendezvous(s, move, s');
    SignalMoveTeardown(s, move, s');
  }

  lemma DrainDoneDrained(s: System, s': System)
    requires MainStep(s, DrainDone) == Some(s') && Drained(s)
    ensures Drained(s')
  {
    if !s.history.incomplete {
      forall c | 0 <= c < |s.queues| && Emptied(s'.main, c) ensures s.queues[c] == [] {
        assert c == s.main.channel || Emptied(s.main, c);
      }
    }
  }

  lemma SignalMoveDrained(s: System, move: MainMove, s': System)
    requires OnlySignals(move) && MainStep(s, move) == Some(s') && Drained(s)
    ensures Drained(s')
  {
    if move.DrainDone? {
      DrainDoneDrained(s, s');
    } else {
      SignalMoveShape(s, move, s');
      SignalMoveEmptied(s, move, s');
    }
  }

  lemma SignalMoveEmptied(s: System, move: MainMove, s': System)
    requires OnlySignals(move) && !move.DrainDone? && MainStep(s, move) == Some(s')
    ensures s'.history.incomplete || forall c: nat :: Emptied(s'.main, c) ==> Emptied(s.main, c) && !s.history.incomplete
  {
  }

  /** Between stages a worker outside the exceptions has nothing in hand. */
  lemma BareBetweenStages(s: System, i: nat)
    requires WorkersWellFormed(s) && WorkersSettled(s) && Rendezvoused(s)
    requires i < |s.workers| && i !in s.history.occupied
    requires s.main.Draining? || s.main.Clearing? || s.main.Visiting? || (s.main.Idle? && !s.signals.phase)
    ensures Bare(s.workers[i]) && !(s.workers[i].alive && s.workers[i].pc.Pull?)
  {
    assert WellFormed(s.signals.session, s.signals.boundary, s.workers[i]);
    if s.workers[i].alive {
      assert AtBoundary(s, i);
      assert Settled(s.main, s.signals.phase, s.signals.boundary, s.workers[i]);
    }
  }

  lemma OpenStageHandsFree(s: System, s': System)
    requires MainStep(s, OpenStage) == Some(s') && WorkersWellFormed(s) && WorkersSettled(s) && Rendezvoused(s) && HandsFree(s)
    ensures HandsFree(s')
  {
    if !s.history.incomplete && !s.signals.phase {
      forall i | 0 <= i < |s.workers| && i !in s.history.occupied ensures Bare(s.workers[i]) {
        BareBetweenStages(s, i);
      }
    }
  }

  lemma SignalMoveHandsFree(s: System, move: MainMove, s': System)
    requires OnlySignals(move) && MainStep(s, move) == Some(s') && Standing(s) && HandsFree(s)
    ensures HandsFree(s')
  {
    if move.OpenStage? {
      OpenStageHandsFree(s, s');
    } else if move.SkipStage? {
      assert Opened(s);
    } else {
      SignalMoveOpened(s, move, s');
    }
  }

  lemma SignalMoveOpened(s: System, move: MainMove, s': System)
    requires OnlySignals(move) && !move.OpenStage? && !move.SkipStage? && MainStep(s, move) == Some(s')
    requires Signalled(s.main, s.signals.phase, s.signals.cancel)
    ensures !Opened(s')
  {
  }

  /** The next stage opens on empty channels and idle workers, or is marked. */
  lemma OpenStagePure(s: System, s': System)
    requires MainStep(s, OpenStage) == Some(s') && Drained(s) && HandsFree(s')
    ensures Pure(s')
  {
    if Exact(s) {
      forall i | 0 <= i < |s.workers| ensures OfStage(Items(s'.workers[i]), s'.stage) {
        assert Bare(s'.workers[i]);
      }
      forall c | 0 <= c < |s.queues| ensures s.queues[c] == [] {
        assert Emptied(s.main, c);
      }
    }
  }

  lemma SignalMovePure(s: System, move: MainMove, s': System)
    requires OnlySignals(move) && !move.OpenStage? && MainStep(s, move) == Some(s') && Pure(s)
    ensures Pure(s')
  {
    SignalMoveShape(s, move, s');
    SignalMoveHistory(s, move, s');
  }

  lemma SignalMoveSeparated(s: System, move: MainMove, s': System)
    requires OnlySignals(move) && MainStep(s, move) == Some(s') && Standing(s) && Separated(s)
    ensures Separated(s')
  {
    SignalMoveDrained(s, move, s');
    SignalMoveHandsFree(s, move, s');
    if move.OpenStage? {
      OpenStagePure(s, s');
    } else {
      SignalMovePure(s, move, s');
    }
  }

  lemma SignalMoveRemoved(s: System, move: MainMove, s': System)
    requires OnlySignals(move) && MainStep(s, move) == Some(s') && RemovedCounted(s)
    ensures RemovedCounted(s')
  {
  }

  /** The counters restart only when no task is left to count. */
  lemma {:induction false} NoSkipsPending(ws: seq<Worker>)
    requires forall i :: 0 <= i < |ws| ==> ws[i].tasks == []
    ensures Sum(ws, SkipsPending) == 0
  {
    if ws != [] {
      NoSkipsPending(ws[1..]);
    }
  }

  lemma ResetCarries(s: System)
    requires s.main.Opening? && HandsFree(s) && CarryExplained(s)
    ensures !s.history.crossed && !s.signals.session ==> Reset(s).book.carriedSkips == 0
  {
    if !s.history.crossed {
      forall i | 0 <= i < |s.workers| ensures s.workers[i].tasks == [] {
        assert Bare(s.workers[i]);
      }
      NoSkipsPending(s.workers);
    }
  }

  lemma SignalMoveCarry(s: System, move: MainMove, s': System)
    requires OnlySignals(move) && MainStep(s, move) == Some(s') && HandsFree(s) && CarryExplained(s)
    ensures CarryExplained(s')
  {
    SignalMoveHistory(s, move, s');
    if move.ResetCounters? || move.SkipStage? {
      ResetCarries(s);
    }
  }

  lemma SignalMoveAccounted(s: System, move: MainMove, s': System)
    requires OnlySignals(move) && MainStep(s, move) == Some(s') && WorkersWellFormed(s) && HandsFree(s) && Accounted(s)
    ensures Accounted(s')
  {
    DeadAreEmpty(s);
    MainStepAccounts(s, move, s');
    SignalMoveRemoved(s, move, s');
    SignalMoveCarry(s, move, s');
  }

  lemma SignalMoveInv(s: System, move: MainMove, s': System)
    requires OnlySignals(move) && MainStep(s, move) == Some(s') && Inv(s)
    ensures Inv(s')
  {
    SignalMoveStanding(s, move, s');
    SignalMoveSeparated(s, move, s');
    SignalMoveAccounted(s, move, s');
  }

  lemma DeadAreEmpty(s: System)
    requires WorkersWellFormed(s)
    ensures forall w :: w in s.workers && !w.alive ==> w.tasks == [] && w.pc.Top?
  {
    forall w | w in s.workers && !w.alive ensures w.tasks == [] && w.pc.Top? {
      var i :| 0 <= i < |s.workers| && s.workers[i] == w;
      assert WellFormed(s.signals.session, s.signals.boundary, s.workers[i]);
    }
  }

  // ---- Dividing the level, enqueuing and draining ----

  /** Same positions of everybody, apart from the workers' shares. */
  ghost predicate SameStanding(s: System, s': System) {
    && s'.main == s.main && s'.signals == s.signals && s'.history == s.history && s'.stage == s.stage
    && |s'.queues| == |s.queues| && |s'.workers| == |s.workers|
    && s'.teardown == s.teardown.(removed := s'.teardown.removed)
    && forall i :: 0 <= i < |s.workers| ==> s'.workers[i] == s.workers[i].(share := s'.workers[i].share)
  }

  lemma SameStandingSettled(s: System, s': System)
    requires SameStanding(s, s') && WorkersSettled(s)
    ensures WorkersSettled(s')
  {
    forall i | 0 <= i < |s.workers| && i !in s.history.occupied
      ensures Settled(s'.main, s'.signals.phase, s'.signals.boundary, s'.workers[i])
    {
      assert s'.workers[i] == s.workers[i].(share := s'.workers[i].share);
      assert Settled(s.main, s.signals.phase, s.signals.boundary, s.workers[i]);
    }
  }

  lemma SameStandingRendezvous(s: System, s': System)
    requires SameStanding(s, s') && Rendezvoused(s) && TeardownKept(s)
    ensures Rendezvoused(s') && TeardownKept(s')
  {
    forall i | 0 <= i < |s.workers| ensures AtBoundary(s', i) == AtBoundary(s, i) && s'.workers[i].alive == s.workers[i].alive {
      assert s'.workers[i] == s.workers[i].(share := s'.workers[i].share);
    }
  }

  lemma SharesWellFormed(s: System, s': System)
    requires SameStanding(s, s') && WorkersWellFormed(s) && (s.signals.session ==> s'.workers == s.workers)
    requires forall i :: 0 <= i < |s.workers| ==> (s.workers[i].share.Some? <==> s'.workers[i].share.Some?)
    ensures WorkersWellFormed(s')
  {
    forall i | 0 <= i < |s.workers| ensures WellFormed(s'.signals.session, s'.signals.boundary, s'.workers[i]) {
      assert WellFormed(s.signals.session, s.signals.boundary, s.workers[i]);
      assert s'.workers[i] == s.workers[i].(share := s'.workers[i].share);
    }
  }

  lemma SameStandingStanding(s: System, s': System)
    requires SameStanding(s, s') && Standing(s) && (s.signals.session ==> s'.workers == s.workers)
    requires forall i :: 0 <= i < |s.workers| ==> (s.workers[i].share.Some? <==> s'.workers[i].share.Some?)
    ensures Standing(s')
  {
    SharesWellFormed(s, s');
    SameStandingSettled(s, s');
    SameStandingRendezvous(s, s');
  }

  lemma SharesSeparated(s: System, s': System)
    requires SameStanding(s, s') && s'.queues == s.queues && Separated(s)
    ensures Separated(s')
  {
    forall i | 0 <= i < |s.workers| ensures Items(s'.workers[i]) == Items(s.workers[i]) && Bare(s'.workers[i]) == Bare(s.workers[i]) {
      assert s'.workers[i] == s.workers[i].(share := s'.workers[i].share);
    }
  }

  lemma ShareOutShape(s: System, level: nat, pinned: Option<nat>, s': System)
    requires MainStep(s, SetShares(level, pinned)) == Some(s')
    ensures SameStanding(s, s') && s'.queues == s.queues && s'.book == s.book && s'.teardown == s.teardown
    ensures !s.signals.session && s.main.Idle?
    ensures forall i :: 0 <= i < |s.workers| ==> (s.workers[i].share.Some? <==> s'.workers[i].share.Some?)
  {
  }

  lemma ShareOutInv(s: System, level: nat, pinned: Option<nat>, s': System)
    requires MainStep(s, SetShares(level, pinned)) == Some(s') && Inv(s)
    ensures Inv(s')
  {
    ShareOutShape(s, level, pinned, s');
    ShareOutAccounts(s, level, pinned);
    SameStandingStanding(s, s');
    SharesSeparated(s, s');
  }

  lemma PutShape(s: System, id: nat, channel: Option<nat>, s': System)
    requires MainStep(s, Put(id, channel)) == Some(s')
    ensures SameStanding(s, s') && s'.workers == s.workers && s.main.Serving? && s'.teardown == s.teardown
    ensures s' == Enqueue(s, Item(s.stage, id), channel)
    ensures s'.book.dropped == s.book.dropped && s'.book.carriedSkips == s.book.carriedSkips
  {
  }

  lemma EnqueueOwnStage(s: System, item: Item, channel: Option<nat>, s': System)
    requires s' == Enqueue(s, item, channel) && item.stage == s.stage && OwnStage(s)
    ensures OwnStage(s')
  {
    forall c | 0 <= c < |s.queues| ensures OfStage(QueueItems(s'.queues[c]), s.stage) {
      assert OfStage(QueueItems(s.queues[c]), s.stage);
      forall other | other in QueueItems(s'.queues[c]) ensures other.stage == s.stage {
        assert other in s'.queues[c];
        assert other == item || other in QueueItems(s.queues[c]);
      }
    }
  }

  lemma PutInv(s: System, id: nat, channel: Option<nat>, s': System)
    requires MainStep(s, Put(id, channel)) == Some(s') && Inv(s)
    ensures Inv(s')
  {
    PutShape(s, id, channel, s');
    EnqueueAccounts(s, Item(s.stage, id), channel);
    SameStandingStanding(s, s');
    if !s.history.crossed {
      EnqueueOwnStage(s, Item(s.stage, id), channel, s');
    }
  }

  lemma DrainItemShape(s: System, s': System)
    requires MainStep(s, DrainItem) == Some(s')
    ensures SameStanding(s, s') && s'.workers == s.workers && s.main.Draining?
    ensures s.main.channel < |s.queues| && s.queues[s.main.channel] != [] && s' == DrainHead(s, s.main.channel)
  {
  }

  lemma DrainHeadSeparated(s: System, c: nat, s': System)
    requires c < |s.queues| && s' == DrainHead(s, c) && s.main.Draining? && Separated(s)
    ensures Separated(s')
  {
    PopHeadEmpties(s.queues, c);
    if !s.history.crossed {
      PopHeadStage(s.queues, c, s.stage);
    }
  }

  lemma DrainHeadRemoved(s: System, c: nat, s': System)
    requires c < |s.queues| && s.queues[c] != [] && s' == DrainHead(s, c) && s.main.Draining?
    requires CarryExplained(s) && RemovedCounted(s)
    ensures CarryExplained(s') && RemovedCounted(s')
  {
    assert |HeadItem(s.queues[c])| == 1;
  }

  lemma DrainItemInv(s: System, s': System)
    requires MainStep(s, DrainItem) == Some(s') && Inv(s)
    ensures Inv(s')
  {
    DrainItemShape(s, s');
    DrainItemAccounts(s, s.main.channel, s');
    SameStandingStanding(s, s');
    DrainHeadSeparated(s, s.main.channel, s');
    DrainHeadRemoved(s, s.main.channel, s');
  }

  // ---- Terminating a worker ----

  lemma TerminateShape(s: System, i: nat)
    requires s.main.Terminating? && i < |s.workers|
    ensures var s' := TerminateWorker(s, i);
            && s'.main == Terminating(s.main.stuck - {i})
            && s'.signals == s.signals && s'.history == s.history && s'.stage == s.stage && s'.queues == s.queues
            && s'.teardown == s.teardown.(forced := s.teardown.forced + {i})
            && s'.workers == (if s.workers[i].alive then s.workers[i := Corpse(s.workers[i])] else s.workers)
            && s'.book.dropped == s.book.dropped && s'.book.carriedSkips == s.book.carriedSkips && s'.capacity == s.capacity
  {
  }

  lemma TerminateWorkers(s: System, i: nat, s': System)
    requires s.main.Terminating? && i < |s.workers| && s' == TerminateWorker(s, i) && WorkersWellFormed(s) && WorkersSettled(s)
    ensures WorkersWellFormed(s') && WorkersSettled(s')
  {
    TerminateShape(s, i);
    assert WellFormed(s.signals.session, s.signals.boundary, s.workers[i]);
  }

  lemma TerminateRendezvous(s: System, i: nat, s': System)
    requires s.main.Terminating? && i < |s.workers| && s' == TerminateWorker(s, i)
    requires Rendezvoused(s) && TeardownKept(s)
    ensures Rendezvoused(s') && TeardownKept(s')
  {
    TerminateShape(s, i);
    assert forall j :: 0 <= j < |s.workers| ==> AtBoundary(s', j) == AtBoundary(s, j);
  }

  lemma TerminateSeparated(s: System, i: nat, s': System)
    requires s.main.Terminating? && i < |s.workers| && s' == TerminateWorker(s, i) && Separated(s)
    ensures Separated(s')
  {
    TerminateShape(s, i);
    CorpseHoldsNothing(s.workers[i]);
  }

  lemma CorpseHoldsNothing(w: Worker)
    ensures Items(Corpse(w)) == multiset{} && Bare(Corpse(w))
  {
  }

  lemma TerminateInv(s: System, i: nat, s': System)
    requires MainStep(s, Terminate(i)) == Some(s') && Inv(s)
    ensures Inv(s')
  {
    TerminateAccounts(s, i);
    TerminateShape(s, i);
    TerminateWorkers(s, i, s');
    TerminateRendezvous(s, i, s');
    TerminateSeparated(s, i, s');
  }

  // ---- Replacing a worker ----

  lemma VisitShape(s: System)
    requires s.main.Visiting? && s.main.index < |s.workers|
    ensures var i, s' := s.main.index, VisitWorker(s);
            && s'.main == Visiting(i + 1)
            && s'.signals == s.signals && s'.stage == s.stage && s'.capacity == s.capacity
            && |s'.queues| == |s.queues|
            && (forall c :: 0 <= c < |s.queues| ==> s'.queues[c] == s.queues[c] || s'.queues[c] == [])
            && s'.book.dropped == s.book.dropped && s'.book.carriedSkips == s.book.carriedSkips
    ensures var i, s' := s.main.index, VisitWorker(s);
            if MustReplace(s, i) then
              && s'.workers == s.workers[i := FreshWorker(s.signals.boundary, s.capacity, s.workers[i].share)]
              && s'.teardown == s.teardown.(clean := false, replaced := s.teardown.replaced + {i})
              && s'.history == s.history.(occupied := s.history.occupied - {i})
            else s'.workers == s.workers && s'.teardown == s.teardown && s'.history == s.history
  {
  }

  lemma FreshIsSettled(session: bool, boundary: nat, capacity: nat, share: Option<nat>, main: Main, phase: bool)
    requires session ==> share.None?
    requires main.Visiting?
    ensures WellFormed(session, boundary, FreshWorker(boundary, capacity, share))
    ensures Settled(main, phase, boundary, FreshWorker(boundary, capacity, share))
  {
  }

  lemma VisitedSettled(s: System, i: nat, w: Worker)
    requires s.main.Visiting? && Settled(s.main, s.signals.phase, s.signals.boundary, w)
    ensures Settled(Visiting(i), s.signals.phase, s.signals.boundary, w)
  {
  }

  lemma VisitWellFormed(s: System, s': System)
    requires MainStep(s, Visit) == Some(s') && WorkersWellFormed(s)
    ensures WorkersWellFormed(s')
  {
    VisitShape(s);
    var i := s.main.index;
    forall j | 0 <= j < |s.workers| ensures WellFormed(s'.signals.session, s'.signals.boundary, s'.workers[j]) {
      assert WellFormed(s.signals.session, s.signals.boundary, s.workers[j]);
      FreshIsSettled(s.signals.session, s.signals.boundary, s.capacity, s.workers[i].share, s'.main, s.signals.phase);
    }
  }

  /** A fresh worker is settled, whatever is recorded of the one it replaces. */
  lemma VisitSettled(s: System, s': System)
    requires MainStep(s, Visit) == Some(s') && WorkersWellFormed(s) && WorkersSettled(s)
    ensures WorkersSettled(s')
  {
    VisitShape(s);
    var i := s.main.index;
    forall j | 0 <= j < |s.workers| && j !in s'.history.occupied
      ensures Settled(s'.main, s'.signals.phase, s'.signals.boundary, s'.workers[j])
    {
      if j == i && MustReplace(s, i) {
        assert WellFormed(s.signals.session, s.signals.boundary, s.workers[i]);
        FreshIsSettled(s.signals.session, s.signals.boundary, s.capacity, s.workers[i].share, s'.main, s.signals.phase);
      } else {
        assert Settled(s.main, s.signals.phase, s.signals.boundary, s.workers[j]);
        VisitedSettled(s, i + 1, s.workers[j]);
      }
    }
  }

  lemma VisitRendezvous(s: System, s': System)
    requires MainStep(s, Visit) == Some(s') && WorkersWellFormed(s) && Rendezvoused(s) && TeardownKept(s)
    ensures Rendezvoused(s') && TeardownKept(s')
  {
    VisitShape(s);
    var i := s.main.index;
    forall j | 0 <= j < |s.workers| && (j < i + 1 || s'.workers[j].alive) ensures AtBoundary(s', j) {
      assert j != i && s'.workers[j] == s.workers[j] ==> AtBoundary(s, j);
      assert WellFormed(s.signals.session, s.signals.boundary, s.workers[j]);
    }
  }

  /** What replacing a worker does to channels and hands: both lose what they held, at most. */
  ghost predicate Emptier(s: System, s': System) {
    && |s'.queues| == |s.queues| && (forall c :: 0 <= c < |s.queues| ==> s'.queues[c] == s.queues[c] || s'.queues[c] == [])
    && |s'.workers| == |s.workers|
    && (forall j :: 0 <= j < |s.workers| ==> s'.workers[j] == s.workers[j] || Items(s'.workers[j]) == multiset{})
  }

  lemma VisitEmpties(s: System, s': System)
    requires MainStep(s, Visit) == Some(s')
    ensures Emptier(s, s') && s'.main.Visiting? && s'.stage == s.stage && s'.history.crossed == s.history.crossed
    ensures s'.history.incomplete == s.history.incomplete
  {
    VisitShape(s);
    assert Items(FreshWorker(s.signals.boundary, s.capacity, s.workers[s.main.index].share)) == multiset{};
  }

  lemma VisitSeparated(s: System, s': System)
    requires MainStep(s, Visit) == Some(s') && Drained(s) && Pure(s)
    ensures Separated(s')
  {
    VisitEmpties(s, s');
    EmptierSeparated(s, s');
  }

  lemma EmptierSeparated(s: System, s': System)
    requires Emptier(s, s') && s.main.Visiting? && s'.main.Visiting? && Drained(s) && Pure(s)
    requires s'.stage == s.stage && s'.history.crossed == s.history.crossed && s'.history.incomplete == s.history.incomplete
    ensures Separated(s')
  {
    assert forall c :: 0 <= c < |s.queues| ==> Emptied(s.main, c);
  }

  lemma VisitRemoved(s: System, s': System)
    requires MainStep(s, Visit) == Some(s') && CarryExplained(s) && RemovedCounted(s)
    ensures CarryExplained(s') && RemovedCounted(s')
  {
    VisitShape(s);
  }

  lemma VisitBook(s: System, s': System)
    requires MainStep(s, Visit) == Some(s') && WorkersWellFormed(s)
    requires ItemsConserved(s) && CountersAgree(s) && SkipsAgree(s)
    ensures ItemsConserved(s') && CountersAgree(s') && SkipsAgree(s')
  {
    DeadAreEmpty(s);
    MainStepAccounts(s, Visit, s');
  }

  lemma VisitAccounted(s: System, s': System)
    requires MainStep(s, Visit) == Some(s') && WorkersWellFormed(s) && Accounted(s)
    ensures Accounted(s')
  {
    VisitBook(s, s');
    VisitRemoved(s, s');
  }

  lemma VisitInv(s: System, s': System)
    requires MainStep(s, Visit) == Some(s') && Inv(s)
    ensures Inv(s')
  {
    VisitAccounted(s, s');
    VisitWellFormed(s, s');
    VisitSettled(s, s');
    VisitRendezvous(s, s');
    VisitSeparated(s, s');
  }

  lemma MainStepInv(s: System, move: MainMove, s': System)
    requires MainStep(s, move) == Some(s') && Inv(s)
    ensures Inv(s')
  {
    if OnlySignals(move) {
      SignalMoveInv(s, move, s');
    } else {
      match move
      case SetShares(level, pinned) => ShareOutInv(s, level, pinned, s');
      case Put(id, channel) => PutInv(s, id, channel, s');
      case Terminate(i) => TerminateInv(s, i, s');
      case DrainItem => DrainItemInv(s, s');
      case Visit => VisitInv(s, s');
    }
  }

  // ---- Every run ----

  lemma {:induction false} NothingHeld(ws: seq<Worker>)
    requires forall i :: 0 <= i < |ws| ==> ws[i].tasks == [] && ws[i].pc.Top?
    ensures Gather(ws, Items) == multiset{} && Sum(ws, InFlightOf) == 0 && Sum(ws, SkipsPending) == 0
  {
    if ws != [] {
      assert Items(ws[0]) == multiset{};
      NothingHeld(ws[1..]);
    }
  }

  lemma StartAccounted(session: bool, capacity: nat, share: Option<nat>, n: nat, c: nat)
    ensures Accounted(Start(session, capacity, share, n, c))
  {
    var s := Start(session, capacity, share, n, c);
    NothingHeld(s.workers);
    GatherEmpty(s.queues, QueueItems);
  }

  lemma StartStanding(session: bool, capacity: nat, share: Option<nat>, n: nat, c: nat)
    requires c >= 1 && (session ==> share.None?)
    ensures Standing(Start(session, capacity, share, n, c))
  {
    var w := FreshWorker(0, capacity, share);
    assert WellFormed(session, 0, w);
  }

  lemma StartSeparated(session: bool, capacity: nat, share: Option<nat>, n: nat, c: nat)
    ensures Separated(Start(session, capacity, share, n, c))
  {
    assert Items(FreshWorker(0, capacity, share)) == multiset{};
  }

  lemma StartInv(session: bool, capacity: nat, share: Option<nat>, n: nat, c: nat)
    requires c >= 1 && (session ==> share.None?)
    ensures Inv(Start(session, capacity, share, n, c))
  {
    StartAccounted(session, capacity, share, n, c);
    StartStanding(session, capacity, share, n, c);
    StartSeparated(session, capacity, share, n, c);
  }

  lemma NextInv(s: System, move: Move, s': System)
    requires Next(s, move) == Some(s') && Inv(s)
    ensures Inv(s')
  {
    match move
    case WorkerMoves(i, w) => WorkerStepInv(s, i, w, s');
    case MainMoves(m) => MainStepInv(s, m, s');
  }

  lemma {:induction false} RunInv(s0: System, moves: seq<Move>, s: System)
    requires Run(s0, moves) == Some(s) && Inv(s0)
    ensures Inv(s)
  {
    if moves != [] {
      var before := Run(s0, moves[..|moves| - 1]).value;
      RunInv(s0, moves[..|moves| - 1], before);
      NextInv(before, moves[|moves| - 1], s);
    }
  }

  lemma ReachableInv(s: System)
    requires Reachable(s)
    ensures Inv(s)
  {
    var session, capacity, share, n, c, moves :| ReachedBy(s, session, capacity, share, n, c, moves);
    StartInv(session, capacity, share, n, c);
    RunInv(Start(session, capacity, share, n, c), moves, s);
  }
}
