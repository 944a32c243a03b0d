/** When a request crosses from one stage into the next: exactly when the next one opens over something
    queued or held. */
module StageSeparation {
  import opened Common
  import opened StageProtocol
  import opened StageAccounts
  import opened StageSafety
  import opened StageTheorems

  // ---- Nothing comes from a stage that has not been opened ----

  ghost predicate IssuedByNow(s: System) {
    forall item :: item in s.book.issued ==> item.stage <= s.stage
  }

  lemma ResetIssued(s: System)
    requires ItemsConserved(s) && IssuedByNow(s)
    ensures IssuedByNow(Reset(s))
  {
    forall item | item in Reset(s).book.issued ensures item.stage <= s.stage {
      assert item in s.book.issued;
    }
  }

  lemma WorkerStepIssued(s: System, i: nat, move: WorkerMove, s': System)
    requires WorkerStep(s, i, move) == Some(s')
    ensures s'.book.issued == s.book.issued && s'.stage == s.stage
  {
  }

  lemma KillIssued(s: System, i: nat)
    requires i < |s.workers|
    ensures Kill(s, i).book.issued == s.book.issued && Kill(s, i).stage == s.stage
  {
  }

  lemma VisitIssued(s: System, s': System)
    requires MainStep(s, Visit) == Some(s')
    ensures s'.book.issued == s.book.issued && s'.stage == s.stage
  {
    KillIssued(s, s.main.index);
  }

  lemma TerminateIssued(s: System, i: nat, s': System)
    requires MainStep(s, Terminate(i)) == Some(s')
    ensures s'.book.issued == s.book.issued && s'.stage == s.stage
  {
    KillIssued(s, i);
  }

  lemma MainStepIssued(s: System, move: MainMove, s': System)
    requires MainStep(s, move) == Some(s') && ItemsConserved(s) && IssuedByNow(s)
    ensures IssuedByNow(s')
  {
    if move.ResetCounters? || move.SkipStage? {
      ResetIssued(s);
    } else if move.Visit? {
      VisitIssued(s, s');
    } else if move.Terminate? {
      TerminateIssued(s, move.index, s');
    } else if move.Put? {
      PutIssued(s, Item(s.stage, move.id), move.channel);
    } else {
      OtherIssued(s, move, s');
    }
  }

  lemma PutIssued(s: System, item: Item, channel: Option<nat>)
    requires IssuedByNow(s) && item.stage == s.stage
    ensures IssuedByNow(Enqueue(s, item, channel))
  {
  }

  lemma OtherIssued(s: System, move: MainMove, s': System)
    requires MainStep(s, move) == Some(s')
    requires !move.ResetCounters? && !move.SkipStage? && !move.Visit? && !move.Terminate? && !move.Put?
    ensures s'.book.issued == s.book.issued && s'.stage >= s.stage
  {
  }

  lemma {:induction false} RunIssued(s0: System, moves: seq<Move>, s: System)
    requires Run(s0, moves) == Some(s) && Inv(s0) && IssuedByNow(s0)
    ensures Inv(s) && IssuedByNow(s)
  {
    if moves != [] {
      var rest, last := moves[..|moves| - 1], moves[|moves| - 1];
      var before := Run(s0, rest).value;
      RunIssued(s0, rest, before);
      NextInv(before, last, s);
      match last
      case WorkerMoves(i, w) => WorkerStepIssued(before, i, w, s);
      case MainMoves(m) => MainStepIssued(before, m, s);
    }
  }

  lemma ReachableIssued(s: System)
    requires Reachable(s)
    ensures Inv(s) && IssuedByNow(s)
  {
    var session, capacity, share, n, c, moves :| ReachedBy(s, session, capacity, share, n, c, moves);
    StartInv(session, capacity, share, n, c);
    RunIssued(Start(session, capacity, share, n, c), moves, s);
  }

  // ---- A stage that starts empty stays by itself ----

  lemma SharesOwnStage(s: System, s': System)
    requires SameStanding(s, s') && s'.queues == s.queues && OwnStage(s)
    ensures OwnStage(s')
  {
    forall i | 0 <= i < |s.workers| ensures Items(s'.workers[i]) == Items(s.workers[i]) {
      assert s'.workers[i] == s.workers[i].(share := s'.workers[i].share);
    }
  }

  lemma TerminateOwnStage(s: System, i: nat, s': System)
    requires MainStep(s, Terminate(i)) == Some(s') && OwnStage(s)
    ensures OwnStage(s')
  {
    TerminateShape(s, i);
    assert Items(Corpse(s.workers[i])) == multiset{};
  }

  lemma DrainOwnStage(s: System, s': System)
    requires MainStep(s, DrainItem) == Some(s') && OwnStage(s)
    ensures OwnStage(s')
  {
    DrainItemShape(s, s');
    PopHeadStage(s.queues, s.main.channel, s.stage);
  }

  lemma EmptierOwnStage(s: System, s': System)
    requires Emptier(s, s') && s'.stage == s.stage && OwnStage(s)
    ensures OwnStage(s')
  {
  }

  lemma VisitOwnStage(s: System, s': System)
    requires MainStep(s, Visit) == Some(s') && OwnStage(s)
    ensures OwnStage(s')
  {
    VisitEmpties(s, s');
    EmptierOwnStage(s, s');
  }

  lemma PutOwnStage(s: System, id: nat, channel: Option<nat>, s': System)
    requires MainStep(s, Put(id, channel)) == Some(s') && OwnStage(s)
    ensures OwnStage(s')
  {
    PutShape(s, id, channel, s');
    EnqueueOwnStage(s, Item(s.stage, id), channel, s');
  }

  lemma MainStepOwnStage(s: System, move: MainMove, s': System)
    requires MainStep(s, move) == Some(s') && !move.OpenStage? && OwnStage(s)
    ensures OwnStage(s')
  {
    if OnlySignals(move) {
      SignalMoveShape(s, move, s');
      SignalMoveHistory(s, move, s');
    } else {
      match move
      case SetShares(level, pinned) =>
        ShareOutShape(s, level, pinned, s');
        SharesOwnStage(s, s');
      case Put(id, channel) => PutOwnStage(s, id, channel, s');
      case Terminate(i) => TerminateOwnStage(s, i, s');
      case DrainItem => DrainOwnStage(s, s');
      case Visit => VisitOwnStage(s, s');
    }
  }

  predicate StaysInStage(move: Move) {
    move.MainMoves? ==> !move.m.OpenStage?
  }

  /** t can follow s before another stage is opened. */
  ghost predicate Within(s: System, t: System) {
    exists moves :: Run(s, moves) == Some(t) && forall m :: m in moves ==> StaysInStage(m)
  }

  lemma {:induction false} RunOwnStage(s: System, moves: seq<Move>, t: System)
    requires Run(s, moves) == Some(t) && OwnStage(s) && forall m :: m in moves ==> StaysInStage(m)
    ensures OwnStage(t)
  {
    if moves != [] {
      var rest, last := moves[..|moves| - 1], moves[|moves| - 1];
      var before := Run(s, rest).value;
      RunOwnStage(s, rest, before);
      assert StaysInStage(last);
      match last
      case WorkerMoves(i, w) => WorkerStepOwnStage(before, i, w, t);
      case MainMoves(m) => MainStepOwnStage(before, m, t);
    }
  }

  lemma OldItems(s: System, items: multiset<Item>)
    requires ItemsConserved(s) && IssuedByNow(s) && OfStage(items, s.stage + 1) && items <= Queued(s) + Held(s)
    ensures items == multiset{}
  {
    forall item ensures items[item] == 0 {
      assert item in items ==> item in s.book.issued;
    }
  }

  /** Nothing queued, and nothing held by a worker. */
  ghost predicate Vacant(s: System) {
    Queued(s) == multiset{} && Held(s) == multiset{}
  }

  lemma OwnChannelsAreEmpty(s: System)
    requires ItemsConserved(s) && IssuedByNow(s)
    requires forall c :: 0 <= c < |s.queues| ==> OfStage(QueueItems(s.queues[c]), s.stage + 1)
    ensures Queued(s) == multiset{}
  {
    forall c | 0 <= c < |s.queues| ensures QueueItems(s.queues[c]) == multiset{} {
      GatherMember(s.queues, c, QueueItems);
      OldItems(s, QueueItems(s.queues[c]));
    }
    GatherEmpty(s.queues, QueueItems);
  }

  lemma OwnWorkersAreIdle(s: System)
    requires ItemsConserved(s) && IssuedByNow(s)
    requires forall i :: 0 <= i < |s.workers| ==> OfStage(Items(s.workers[i]), s.stage + 1)
    ensures Held(s) == multiset{}
  {
    forall i | 0 <= i < |s.workers| ensures Items(s.workers[i]) == multiset{} {
      GatherMember(s.workers, i, Items);
      OldItems(s, Items(s.workers[i]));
    }
    GatherEmpty(s.workers, Items);
  }

  /** At its opening, what is queued or held comes from earlier stages, so all of it is of the new stage
      only when there is nothing. */
  lemma OwnIsVacant(s: System, s': System)
    requires ItemsConserved(s) && IssuedByNow(s) && OwnStage(s')
    requires s'.queues == s.queues && s'.workers == s.workers && s'.stage == s.stage + 1
    ensures Vacant(s)
  {
    OwnChannelsAreEmpty(s);
    OwnWorkersAreIdle(s);
  }

  lemma VacantIsOwn(s: System, s': System)
    requires Vacant(s) && s'.queues == s.queues && s'.workers == s.workers
    ensures OwnStage(s')
  {
    GatherEmpty(s.queues, QueueItems);
    GatherEmpty(s.workers, Items);
  }

  lemma ReachableItems(s: System)
    requires Reachable(s)
    ensures ItemsConserved(s) && IssuedByNow(s)
  {
    ReachableIssued(s);
  }

  lemma OwnAtOpening(s: System, s': System)
    requires Reachable(s) && MainStep(s, OpenStage) == Some(s')
    ensures OwnStage(s') <==> Vacant(s)
  {
    SignalMoveShape(s, OpenStage, s');
    SignalMoveHistory(s, OpenStage, s');
    ReachableItems(s);
    if OwnStage(s') {
      OwnIsVacant(s, s');
    } else if Vacant(s) {
      VacantIsOwn(s, s');
    }
  }

  /** Whatever is queued, pulled or sent up to the next opening was enqueued by the stage that is running
      exactly when this stage was opened with nothing queued and nothing held, as it is after every exact
      teardown. */
  lemma StageKeepsToItselfExactlyFromAnEmptyStart(s: System, s': System)
    requires Reachable(s) && MainStep(s, OpenStage) == Some(s')
    ensures (forall t :: Within(s', t) ==> OwnStage(t)) <==> Vacant(s)
    ensures Exact(s) ==> Vacant(s)
  {
    OwnAtOpening(s, s');
    assert Within(s', s') by {
      assert Run(s', []) == Some(s');
    }
    if OwnStage(s') {
      forall t | Within(s', t) ensures OwnStage(t) {
        var moves :| Run(s', moves) == Some(t) && forall m :: m in moves ==> StaysInStage(m);
        RunOwnStage(s', moves, t);
      }
    }
    if Exact(s) {
      TeardownSettlesTheStage(s);
    }
  }
}
