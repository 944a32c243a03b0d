/** What the shared counters stand for, told from the steps of a run alone. */
module StageCounters {
  import opened Common
  import opened StageProtocol
  import opened StageInvariants
  import opened StageSafety

  /** The finished or the skipped counter restarts. */
  predicate Restarts(move: Move) {
    move.MainMoves? && (move.m.ResetCounters? || move.m.SkipStage?)
  }

  predicate Does(move: Move, m: TaskMove) {
    move.WorkerMoves? && move.w.Progress? && move.w.move == m
  }

  predicate Skips(move: Move) {
    Does(move, Drop) || (move.WorkerMoves? && move.w.BadRequest?)
  }

  /** How many of the moves are of a kind, a restart setting the number back to zero. */
  function Counted(moves: seq<Move>, counts: Move -> bool, restarts: Move -> bool): nat {
    if moves == [] then 0
    else
      var last := moves[|moves| - 1];
      if restarts(last) then 0 else Counted(moves[..|moves| - 1], counts, restarts) + (if counts(last) then 1 else 0)
  }

  /** A restart leaves what comes behind it, and without one all moves of the kind are counted. */
  lemma {:induction false} CountedIsSinceTheRestart(moves: seq<Move>, k: nat, counts: Move -> bool, restarts: Move -> bool)
    requires k <= |moves| && (k == 0 || restarts(moves[k - 1]))
    requires forall i :: k <= i < |moves| ==> !restarts(moves[i])
    ensures Counted(moves, counts, restarts) == Sum(moves[k..], (m: Move) => if counts(m) then 1 else 0)
    decreases |moves|
  {
    if |moves| > k {
      var n := |moves| - 1;
      CountedIsSinceTheRestart(moves[..n], k, counts, restarts);
      assert moves[k..] == moves[..n][k..] + [moves[n]];
      SumAppend(moves[..n][k..], moves[n], (m: Move) => if counts(m) then 1 else 0);
    } else {
      assert moves[k..] == [];
    }
  }

  // ---- One step ----

  lemma WorkerStepTicks(s: System, i: nat, w: WorkerMove, s': System)
    requires WorkerStep(s, i, w) == Some(s')
    ensures s'.signals.session == s.signals.session
    ensures s'.counters.finished == s.counters.finished + (if Does(WorkerMoves(i, w), Count) then 1 else 0)
    ensures s'.counters.skipped == s.counters.skipped + (if Skips(WorkerMoves(i, w)) then 1 else 0)
    ensures s'.counters.active == s.counters.active + (if Does(WorkerMoves(i, w), Send) then 1 else 0) - (if Does(WorkerMoves(i, w), Reply) then 1 else 0)
  {
    var head := Head(s.queues[ChannelOf(s, i)]);
    if w.Advance? {
      AdvanceTicksNothing(s.signals, head, s.workers[i]);
    }
  }

  lemma AdvanceTicksNothing(env: Signals, head: Option<Item>, w: Worker)
    requires AdvanceStep(env, head, w).Went?
    ensures AdvanceStep(env, head, w).effect.Local? || AdvanceStep(env, head, w).effect.Took?
  {
  }

  lemma MainStepTicks(s: System, m: MainMove, s': System)
    requires MainStep(s, m) == Some(s')
    ensures s'.signals.session == s.signals.session && s'.counters.active == s.counters.active
    ensures s'.counters.finished == if Restarts(MainMoves(m)) then 0 else s.counters.finished
    ensures s'.counters.skipped == if Restarts(MainMoves(m)) && !s.signals.session then 0 else s.counters.skipped
  {
    if m.Visit? {
      VisitTicksNothing(s);
    }
  }

  lemma VisitTicksNothing(s: System)
    requires s.main.Visiting? && s.main.index < |s.workers|
    ensures VisitWorker(s).counters == s.counters && VisitWorker(s).signals == s.signals
  {
  }

  // ---- Every run ----

  predicate Finishes(move: Move) {
    Does(move, Count)
  }

  function SkipRestarts(session: bool): Move -> bool {
    (move: Move) => !session && Restarts(move)
  }

  function ActiveChange(move: Move): int {
    if Does(move, Send) then 1 else if Does(move, Reply) then -1 else 0
  }

  /** What one move does to the counters. */
  ghost predicate Ticks(session: bool, n: Counters, move: Move, n': Counters) {
    && n'.finished == (if Restarts(move) then 0 else n.finished + (if Finishes(move) then 1 else 0))
    && n'.skipped == (if !session && Restarts(move) then 0 else n.skipped + (if Skips(move) then 1 else 0))
    && n'.active == n.active + ActiveChange(move)
  }

  lemma NextTicks(s: System, move: Move, s': System)
    requires Next(s, move) == Some(s')
    ensures Ticks(s.signals.session, s.counters, move, s'.counters) && s'.signals.session == s.signals.session
  {
    match move
    case WorkerMoves(i, w) => WorkerStepTicks(s, i, w, s');
    case MainMoves(m) => MainStepTicks(s, m, s');
  }

  ghost predicate Tallied(session: bool, n: Counters, moves: seq<Move>) {
    && n.finished == Counted(moves, Finishes, Restarts)
    && n.skipped == Counted(moves, Skips, SkipRestarts(session))
    && n.active == Sum(moves, ActiveChange)
  }

  lemma NextTallies(session: bool, n: Counters, rest: seq<Move>, last: Move, n': Counters, moves: seq<Move>)
    requires Tallied(session, n, rest) && Ticks(session, n, last, n') && moves == rest + [last]
    ensures Tallied(session, n', moves)
  {
    SumAppend(rest, last, ActiveChange);
    CountedPush(rest, last, moves, Finishes, Restarts);
    CountedPush(rest, last, moves, Skips, SkipRestarts(session));
  }

  lemma CountedPush(rest: seq<Move>, last: Move, moves: seq<Move>, counts: Move -> bool, restarts: Move -> bool)
    requires moves == rest + [last]
    ensures Counted(moves, counts, restarts) == if restarts(last) then 0 else Counted(rest, counts, restarts) + (if counts(last) then 1 else 0)
  {
    assert moves[..|moves| - 1] == rest;
  }

  /** After any run, deaths included: the finished counter is the number of tasks that were counted since a
      stage last restarted it, the skipped counter that of tasks dropped and requests that could not be
      built, restarted by all but session stages, and the active counter that of requests sent less
      those answered. */
  lemma {:induction false} CountersTallyTheRun(session: bool, capacity: nat, share: Option<nat>, n: nat, c: nat, moves: seq<Move>, s: System)
    requires Run(Start(session, capacity, share, n, c), moves) == Some(s)
    ensures s.signals.session == session
    ensures s.counters.finished == Counted(moves, Finishes, Restarts)
    ensures s.counters.skipped == Counted(moves, Skips, SkipRestarts(session))
    ensures s.counters.active == Sum(moves, ActiveChange)
  {
    RunTallies(Start(session, capacity, share, n, c), moves, s);
  }

  ghost predicate Told(s0: System, s: System, moves: seq<Move>) {
    s.signals.session == s0.signals.session && Tallied(s0.signals.session, s.counters, moves)
  }

  lemma NothingTold(s0: System, moves: seq<Move>, s: System)
    requires s0.counters == Counters(0, 0, 0) && moves == [] && s == s0
    ensures Told(s0, s, moves)
  {
  }

  lemma OneMoreTold(s0: System, before: System, last: Move, s: System, rest: seq<Move>, moves: seq<Move>)
    requires Next(before, last) == Some(s) && Told(s0, before, rest) && moves == rest + [last]
    ensures Told(s0, s, moves)
  {
    NextTicks(before, last, s);
    NextTallies(s0.signals.session, before.counters, rest, last, s.counters, moves);
  }

  lemma LastMove(s0: System, moves: seq<Move>, s: System, rest: seq<Move>, last: Move) returns (before: System)
    requires Run(s0, moves) == Some(s) && moves != [] && rest == moves[..|moves| - 1] && last == moves[|moves| - 1]
    ensures Run(s0, rest) == Some(before) && Next(before, last) == Some(s) && moves == rest + [last]
  {
    before := Run(s0, rest).value;
  }

  lemma {:induction false} RunTallies(s0: System, moves: seq<Move>, s: System)
    requires s0.counters == Counters(0, 0, 0) && Run(s0, moves) == Some(s)
    ensures Told(s0, s, moves)
  {
    if moves == [] {
      NothingTold(s0, moves, s);
    } else {
      var rest, last := moves[..|moves| - 1], moves[|moves| - 1];
      var before := LastMove(s0, moves, s, rest, last);
      RunTallies(s0, rest, before);
      OneMoreTold(s0, before, last, s, rest, moves);
    }
  }

  /** And the stage that is running has finished nothing but its own requests, unless it was opened over
      something left behind. */
  ghost predicate FinishedOwn(s: System) {
    !s.history.crossed && !s.main.Opening? ==> OfStage(s.book.finished, s.stage)
  }

  lemma WorkerStepFinishes(s: System, i: nat, w: WorkerMove, s': System)
    requires WorkerStep(s, i, w) == Some(s') && Pure(s) && FinishedOwn(s)
    ensures FinishedOwn(s')
  {
    var c, out := WorkerStepShape(s, i, w, s');
    BookFinishes(s, i, c, out.worker, out.effect);
    if !s.history.crossed && out.effect.Finished? {
      assert OfStage(Items(s.workers[i]), s.stage);
      StepFinishes(s.signals, Head(s.queues[c]), s.workers[i], w, s.stage);
    }
  }

  lemma StepFinishes(env: Signals, head: Option<Item>, w: Worker, move: WorkerMove, stage: nat)
    requires Step(env, head, w, move).Went? && Step(env, head, w, move).effect.Finished? && OfStage(Items(w), stage)
    ensures Step(env, head, w, move).effect.item.stage == stage
  {
    StepBalanced(env, head, w, move);
    FinishedItem(w, Step(env, head, w, move).worker, head, Step(env, head, w, move).effect, stage);
  }

  lemma FinishedItem(w: Worker, w': Worker, head: Option<Item>, e: Effect, stage: nat)
    requires Balanced(head, w, w', e) && OfStage(Items(w), stage) && e.Finished?
    ensures e.item.stage == stage
  {
    assert e.item in ItemsOut(w, e);
    assert e.item in Items(w') + ItemsOut(w, e);
  }

  lemma BookFinishes(s: System, i: nat, c: nat, w': Worker, e: Effect)
    requires i < |s.workers| && c < |s.queues|
    ensures Apply(s, i, c, w', e).book.finished == s.book.finished + (if e.Finished? then multiset{e.item} else multiset{})
  {
  }

  lemma MainStepFinishes(s: System, m: MainMove, s': System)
    requires MainStep(s, m) == Some(s') && FinishedOwn(s)
    ensures FinishedOwn(s')
  {
    if OnlySignals(m) {
      SignalMoveHistory(s, m, s');
      SignalMoveFinishes(s, m, s');
    } else if m.Visit? {
      VisitShape(s);
      VisitFinishes(s);
    } else if m.Terminate? {
      TerminateShape(s, m.index);
    }
  }

  lemma SignalMoveFinishes(s: System, m: MainMove, s': System)
    requires OnlySignals(m) && MainStep(s, m) == Some(s')
    ensures s'.book.finished == if m.ResetCounters? || m.SkipStage? then multiset{} else s.book.finished
    ensures m.OpenStage? <==> s'.main.Opening?
    ensures s.main.Opening? && !m.OpenStage? ==> m.ResetCounters? || m.SkipStage?
  {
  }

  lemma VisitFinishes(s: System)
    requires s.main.Visiting? && s.main.index < |s.workers|
    ensures VisitWorker(s).book.finished == s.book.finished
  {
  }

  lemma {:induction false} RunFinishes(s0: System, moves: seq<Move>, s: System)
    requires Run(s0, moves) == Some(s) && Inv(s0) && FinishedOwn(s0)
    ensures Inv(s) && FinishedOwn(s)
  {
    if moves != [] {
      var rest, last := moves[..|moves| - 1], moves[|moves| - 1];
      var before := Run(s0, rest).value;
      RunFinishes(s0, rest, before);
      NextInv(before, last, s);
      match last
      case WorkerMoves(i, w) => WorkerStepFinishes(before, i, w, s);
      case MainMoves(m) => MainStepFinishes(before, m, s);
    }
  }

  lemma FinishedAreOfTheStage(s: System)
    requires Reachable(s) && !s.history.crossed && !s.main.Opening?
    ensures forall item :: item in s.book.finished ==> item.stage == s.stage
  {
    var session, capacity, share, n, c, moves :| ReachedBy(s, session, capacity, share, n, c, moves);
    StartInv(session, capacity, share, n, c);
    RunFinishes(Start(session, capacity, share, n, c), moves, s);
  }
}
