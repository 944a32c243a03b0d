/** What a worker does while a stage is served: with a share of the level it takes the next request of its channel,
    without one it looks again. */
module StageService {
  import opened Common
  import opened StageProtocol
  import opened StageInvariants
  import opened StageSafety

  /** The worker after n steps of its loop, when nothing around it changes. */
  function Advanced(env: Signals, head: Option<Item>, w: Worker, n: nat): Option<Worker>
    decreases n
  {
    if n == 0 then Some(w)
    else match AdvanceStep(env, head, w)
      case Blocked => None
      case Went(w', _) => Advanced(env, head, w', n - 1)
  }

  /** `later` is where the loop of w comes within n steps. */
  ghost predicate Comes(env: Signals, head: Option<Item>, w: Worker, n: nat, later: Worker) {
    exists k: nat :: k <= n && Advanced(env, head, w, k) == Some(later)
  }

  lemma ComesNow(env: Signals, head: Option<Item>, w: Worker)
    ensures Comes(env, head, w, 0, w)
  {
    assert Advanced(env, head, w, 0) == Some(w);
  }

  lemma ComesLater(env: Signals, head: Option<Item>, w: Worker, next: Worker, n: nat, later: Worker)
    requires AdvanceStep(env, head, w).Went? && AdvanceStep(env, head, w).worker == next && Comes(env, head, next, n, later)
    ensures Comes(env, head, w, n + 1, later)
  {
    var k: nat :| k <= n && Advanced(env, head, next, k) == Some(later);
    assert Advanced(env, head, w, k + 1) == Some(later);
  }

  /** The stage is open, and there is a request in the worker's channel. */
  predicate Offered(env: Signals, head: Option<Item>) {
    env.phase && !env.cancel && head.Some?
  }

  /** The head of the channel in hand, paid with a permit by the loop itself except in session replay. */
  function WithHead(env: Signals, head: Option<Item>, w: Worker): Worker
    requires head.Some? && (env.session || w.free > 0)
  {
    w.(pc := Holding(head.value, !env.session), free := if env.session then w.free else w.free - 1)
  }

  lemma FromGuardToHand(env: Signals, head: Option<Item>, w: Worker)
    requires Offered(env, head) && w.pc.GuardPhase? && !w.skip && (env.session || w.free > 0)
    ensures Comes(env, head, w, 4, WithHead(env, head, w))
  {
    var later := WithHead(env, head, w);
    var a := w.(pc := GuardCancel);
    ComesNow(env, head, later);
    if env.session {
      var b := w.(pc := Pull(false));
      ComesLater(env, head, b, later, 0, later);
      ComesLater(env, head, a, b, 1, later);
      ComesLater(env, head, w, a, 2, later);
      ComesWithin(env, head, w, 3, later, 4);
    } else {
      var b := w.(pc := Acquire);
      var c := w.(pc := Pull(true), free := w.free - 1);
      ComesLater(env, head, c, later, 0, later);
      ComesLater(env, head, b, c, 1, later);
      ComesLater(env, head, a, b, 2, later);
      ComesLater(env, head, w, a, 3, later);
    }
  }

  lemma ComesWithin(env: Signals, head: Option<Item>, w: Worker, n: nat, later: Worker, m: nat)
    requires Comes(env, head, w, n, later) && n <= m
    ensures Comes(env, head, w, m, later)
  {
  }

  /** With nothing in flight every permit of the old semaphore is to be had, and the resize takes them one by one. */
  lemma {:induction false} FromResizeToGuard(env: Signals, head: Option<Item>, w: Worker, later: Worker)
    requires w.pc.Resizing? && w.pc.got + w.free == w.limit
    requires later == w.(pc := GuardPhase, limit := w.pc.target, free := w.pc.target)
    ensures Comes(env, head, w, w.free + 1, later)
    decreases w.free
  {
    if w.free == 0 {
      ComesNow(env, head, later);
      ComesLater(env, head, w, later, 0, later);
    } else {
      var next := w.(pc := Resizing(w.pc.got + 1, w.pc.target), free := w.free - 1);
      FromResizeToGuard(env, head, next, later);
      ComesLater(env, head, w, next, w.free, later);
    }
  }

  lemma {:induction false} ComesOn(env: Signals, head: Option<Item>, w: Worker, n: nat, middle: Worker, m: nat, later: Worker)
    requires Comes(env, head, w, n, middle) && Comes(env, head, middle, m, later)
    ensures Comes(env, head, w, n + m, later)
  {
    var k: nat :| k <= n && Advanced(env, head, w, k) == Some(middle);
    var j: nat :| j <= m && Advanced(env, head, middle, j) == Some(later);
    AdvancedTwice(env, head, w, k, j);
  }

  lemma {:induction false} AdvancedTwice(env: Signals, head: Option<Item>, w: Worker, k: nat, j: nat)
    requires Advanced(env, head, w, k).Some?
    ensures Advanced(env, head, w, k + j) == Advanced(env, head, Advanced(env, head, w, k).value, j)
    decreases k
  {
    if k > 0 {
      AdvancedTwice(env, head, AdvanceStep(env, head, w).worker, k - 1, j);
    }
  }

  /** The permits the worker works with once it has taken up its share. */
  function Permits(w: Worker): nat {
    if w.share.Some? then w.share.value else w.limit
  }

  /** A worker with nothing in flight that is offered a request takes it, whatever its semaphore was before: within one
      step per old permit and a few more it holds the head of its channel and has a semaphore of the size of its share. */
  lemma TakesTheOffer(env: Signals, head: Option<Item>, w: Worker)
    requires WellFormed(env.session, env.boundary, w) && Offered(env, head)
    requires w.alive && w.pc.Top? && !w.skip && w.tasks == [] && (env.session || Permits(w) > 0)
    ensures Comes(env, head, w, w.limit + 6, WithHead(env, head, w.(limit := Permits(w), free := Permits(w))))
  {
    var ready := w.(pc := GuardPhase, limit := Permits(w), free := Permits(w));
    FromGuardToHand(env, head, ready);
    var later := WithHead(env, head, ready);
    if w.share.None? || w.share.value == w.limit {
      ComesLater(env, head, w, ready, 4, later);
      ComesWithin(env, head, w, 5, later, w.limit + 6);
    } else {
      var resizing := w.(pc := Resizing(0, w.share.value));
      FromResizeToGuard(env, head, resizing, ready);
      ComesOn(env, head, resizing, w.limit + 1, ready, 4, later);
      ComesLater(env, head, w, resizing, w.limit + 5, later);
    }
  }

  /** A worker without a share comes back to the top in five steps, as it was, and takes nothing on the way. */
  lemma WithoutShareLooksAgain(env: Signals, head: Option<Item>, w: Worker)
    requires env.phase && !env.cancel && w.pc.Top? && !w.skip && w.share == Some(0)
    ensures Advanced(env, head, w, 5) == Some(w)
  {
    var a := w.(pc := GuardPhase, skip := true);
    var b := a.(pc := GuardCancel);
    var c := w.(pc := EdgeCancel);
    var d := w.(pc := EdgePhase);
    assert AdvanceStep(env, head, w) == Went(a, Local) && AdvanceStep(env, head, a) == Went(b, Local);
    assert AdvanceStep(env, head, b) == Went(c, Local) && AdvanceStep(env, head, c) == Went(d, Local);
    assert AdvanceStep(env, head, d) == Went(w, Local);
    assert Advanced(env, head, d, 1) == Some(w);
    assert Advanced(env, head, c, 2) == Some(w);
    assert Advanced(env, head, b, 3) == Some(w);
    assert Advanced(env, head, a, 4) == Some(w);
  }

  /** A worker that waits for the next stage is back at the top two steps after it sees the phase set again. */
  lemma WaitingWorkerReturns(env: Signals, head: Option<Item>, w: Worker)
    requires env.phase && !env.cancel && w.pc.HoldPhase?
    ensures Advanced(env, head, w, 2) == Some(w.(pc := Top))
  {
    var a := w.(pc := HoldCancel);
    assert Advanced(env, head, a, 1) == Some(w.(pc := Top));
  }

  // ---- When a worker skips ----

  /** A worker skips only between reading its share and reaching the end of its inner loop. */
  predicate SkipsInLoop(w: Worker) {
    w.skip ==> w.pc.GuardPhase? || w.pc.GuardCancel?
  }

  ghost predicate NobodySkipsElsewhere(s: System) {
    forall i :: 0 <= i < |s.workers| ==> SkipsInLoop(s.workers[i])
  }

  lemma StepSkips(env: Signals, head: Option<Item>, w: Worker, move: WorkerMove)
    requires SkipsInLoop(w) && Step(env, head, w, move).Went?
    ensures SkipsInLoop(Step(env, head, w, move).worker)
  {
  }

  lemma NextSkips(s: System, move: Move, s': System)
    requires NobodySkipsElsewhere(s) && Next(s, move) == Some(s')
    ensures NobodySkipsElsewhere(s')
  {
    match move
    case WorkerMoves(i, w) =>
      var c, out := WorkerStepShape(s, i, w, s');
      StepSkips(s.signals, Head(s.queues[c]), s.workers[i], w);
    case MainMoves(m) => MainStepSkips(s, m, s');
  }

  lemma MainStepSkips(s: System, m: MainMove, s': System)
    requires NobodySkipsElsewhere(s) && MainStep(s, m) == Some(s')
    ensures NobodySkipsElsewhere(s')
  {
    if m.Visit? {
      VisitShape(s);
    } else if m.Terminate? {
      TerminateShape(s, m.index);
    }
  }

  lemma {:induction false} RunSkips(s0: System, moves: seq<Move>, s: System)
    requires NobodySkipsElsewhere(s0) && Run(s0, moves) == Some(s)
    ensures NobodySkipsElsewhere(s)
  {
    if moves != [] {
      var before := Run(s0, moves[..|moves| - 1]).value;
      RunSkips(s0, moves[..|moves| - 1], before);
      NextSkips(before, moves[|moves| - 1], s);
    }
  }

  /** So it is in every reachable state: a worker at the top that is offered a request, has a share and has nothing in
      flight takes the request. */
  lemma ServedStageReachesIdleWorkers(s: System, i: nat)
    requires Reachable(s) && s.main.Serving? && i < |s.workers|
    requires var w := s.workers[i]; w.alive && w.pc.Top? && w.tasks == [] && (s.signals.session || Permits(w) > 0)
    requires |s.queues| > 0 && s.queues[ChannelOf(s, i)] != []
    ensures var w, head := s.workers[i], Some(s.queues[ChannelOf(s, i)][0]);
            Comes(s.signals, head, w, w.limit + 6, WithHead(s.signals, head, w.(limit := Permits(w), free := Permits(w))))
  {
    ReachableInv(s);
    var session, capacity, share, n, c, moves :| ReachedBy(s, session, capacity, share, n, c, moves);
    RunSkips(Start(session, capacity, share, n, c), moves, s);
    TakesTheOffer(s.signals, Some(s.queues[ChannelOf(s, i)][0]), s.workers[i]);
  }
}
