/** The promises of the stage protocol, over every reachable state and every step. */
module StageTheorems {
  import opened Common
  import opened StageProtocol
  import opened StageInvariants
  import opened StageSafety

  // ---- Rendezvous ----

  /** No worker is ever ahead of the published boundary. When a teardown has returned, every
      worker in the list stands exactly at it, and the teardown reports itself clean exactly
      when it replaced nobody. */
  lemma RendezvousSafety(s: System)
    requires Reachable(s)
    ensures forall i :: 0 <= i < |s.workers| ==> s.workers[i].done <= s.signals.boundary
    ensures s.main.Idle? ==> forall i :: 0 <= i < |s.workers| ==> s.workers[i].done == s.signals.boundary
    ensures s.main.Idle? ==> (s.teardown.clean <==> s.teardown.replaced == {})
    ensures s.main.Draining? || s.main.Clearing? || s.main.Visiting? ==>
            forall i :: 0 <= i < |s.workers| && s.workers[i].alive ==> s.workers[i].done == s.signals.boundary
  {
    ReachableInv(s);
    forall i | 0 <= i < |s.workers| && s.workers[i].alive && (s.main.Draining? || s.main.Clearing? || s.main.Visiting?)
      ensures s.workers[i].done == s.signals.boundary
    {
      assert AtBoundary(s, i);
    }
    forall i | 0 <= i < |s.workers|
      ensures s.workers[i].done <= s.signals.boundary
      ensures s.main.Idle? ==> s.workers[i].done == s.signals.boundary
    {
      assert WellFormed(s.signals.session, s.signals.boundary, s.workers[i]);
      assert s.main.Idle? ==> AtBoundary(s, i);
    }
  }

  /** A visit replaces the worker exactly when it is dead. The new one starts at the top with nothing in hand, every
      permit of a new semaphore, the old shared limit and the published boundary, and with an empty channel of
      its own; a channel that all workers share is kept, and so is everybody else. */
  lemma VisitReplacesTheDead(s: System, s': System)
    requires Reachable(s) && MainStep(s, Visit) == Some(s')
    ensures s.main.Visiting? && s.main.index < |s.workers| && |s.queues| > 0 && s'.main == Visiting(s.main.index + 1)
    ensures var i := s.main.index;
            var w, c := s.workers[i], i % |s.queues|;
            if w.alive then s'.workers == s.workers && s'.queues == s.queues && s'.teardown == s.teardown else
              && s'.workers == s.workers[i := Worker(true, Top, s.signals.boundary, false, w.share, s.capacity, s.capacity, [])]
              && s'.queues == (if |s.queues| > 1 then s.queues[c := []] else s.queues)
              && s'.teardown.replaced == s.teardown.replaced + {i} && !s'.teardown.clean
  {
    ReachableInv(s);
    if s.workers[s.main.index].alive {
      assert AtBoundary(s, s.main.index);
    }
  }

  /** Acknowledgements and the boundary only grow, across crashes and replacements too. */
  lemma AcksNeverDecrease(s: System, move: Move, s': System)
    requires Reachable(s) && Next(s, move) == Some(s')
    ensures |s'.workers| == |s.workers| && s.signals.boundary <= s'.signals.boundary
    ensures forall i :: 0 <= i < |s.workers| ==> s.workers[i].done <= s'.workers[i].done
  {
    ReachableInv(s);
    match move
    case WorkerMoves(i, w) => StepAcks(s.signals, Head(s.queues[ChannelOf(s, i)]), s.workers[i], w);
    case MainMoves(m) =>
      forall i | 0 <= i < |s.workers| ensures s.workers[i].done <= s.signals.boundary {
        assert WellFormed(s.signals.session, s.signals.boundary, s.workers[i]);
      }
      MainStepAcks(s, m, s');
  }

  lemma MainStepAcks(s: System, m: MainMove, s': System)
    requires MainStep(s, m) == Some(s')
    requires forall i :: 0 <= i < |s.workers| ==> s.workers[i].done <= s.signals.boundary
    ensures |s'.workers| == |s.workers| && s.signals.boundary <= s'.signals.boundary
    ensures forall i :: 0 <= i < |s.workers| ==> s.workers[i].done <= s'.workers[i].done
  {
    if OnlySignals(m) {
      SignalMoveShape(s, m, s');
    } else if m.Visit? {
      VisitShape(s);
    } else if m.Terminate? {
      TerminateShape(s, m.index);
    }
  }

  // ---- Stage separation ----

  /** Whether a step takes an item from a channel, or sends a request. */
  predicate Takes(s: System, i: nat, move: WorkerMove)
    requires i < |s.workers| && |s.queues| > 0
  {
    var out := Step(s.signals, Head(s.queues[ChannelOf(s, i)]), s.workers[i], move);
    out.Went? && (out.effect.Took? || out.effect.TookBroken? || out.effect.Activated?)
  }

  lemma QuietStep(env: Signals, head: Option<Item>, w: Worker, move: WorkerMove)
    requires Quiet(w) && Step(env, head, w, move).Went?
    ensures Step(env, head, w, move).effect.Local? || Step(env, head, w, move).effect.Died?
  {
  }

  lemma QuietTakesNothing(s: System, i: nat, move: WorkerMove)
    requires i < |s.workers| && |s.queues| > 0 && Quiet(s.workers[i])
    ensures !Takes(s, i, move)
  {
    var head := Head(s.queues[ChannelOf(s, i)]);
    if Step(s.signals, head, s.workers[i], move).Went? {
      QuietStep(s.signals, head, s.workers[i], move);
    }
  }

  lemma SettledIsQuiet(main: Main, env: Signals, w: Worker)
    requires Signalled(main, env.phase, env.cancel) && Settled(main, env.phase, env.boundary, w)
    requires w.alive && w.done == env.boundary && (env.cancel || !env.phase)
    ensures Quiet(w)
  {
  }

  /** Once a worker has acknowledged the boundary it has no task left, and it neither pulls nor sends
      anything until the request phase is set again. The workers excepted are those that stood in
      their boundary block when that boundary was published. */
  lemma AcknowledgedWorkersStayQuiet(s: System, i: nat, move: WorkerMove)
    requires Reachable(s) && i !in s.history.occupied
    requires i < |s.workers| && s.workers[i].alive && s.workers[i].done == s.signals.boundary
    requires s.signals.cancel || !s.signals.phase
    ensures |s.queues| > 0 && s.workers[i].tasks == [] && !Takes(s, i, move)
  {
    ReachableInv(s);
    assert Settled(s.main, s.signals.phase, s.signals.boundary, s.workers[i]);
    SettledIsQuiet(s.main, s.signals, s.workers[i]);
    QuietTakesNothing(s, i, move);
  }

  /** No request crosses a stage: whatever a worker pulls or sends was enqueued by the stage
      that is running, unless that stage was opened after a teardown that was not exact. */
  lemma NoRequestCrossesAStage(s: System, i: nat)
    requires Reachable(s) && !s.history.crossed && i < |s.workers|
    ensures forall c, item :: 0 <= c < |s.queues| && item in s.queues[c] ==> item.stage == s.stage
    ensures forall item :: item in Items(s.workers[i]) ==> item.stage == s.stage
  {
    ReachableInv(s);
    forall c, item | 0 <= c < |s.queues| && item in s.queues[c] ensures item.stage == s.stage {
      assert OfStage(QueueItems(s.queues[c]), s.stage);
      assert item in QueueItems(s.queues[c]);
    }
    assert OfStage(Items(s.workers[i]), s.stage);
  }

  lemma BareTakesNothing(s: System, i: nat, move: WorkerMove)
    requires i < |s.workers| && |s.queues| > 0 && Bare(s.workers[i])
    requires s.queues[ChannelOf(s, i)] == [] || !(s.workers[i].alive && s.workers[i].pc.Pull?)
    ensures !Takes(s, i, move)
  {
  }

  /** From the start of the drain until the next stage enqueues, nothing is pulled and nothing is sent,
      unless by a worker that stood in its boundary block or after a drain that gave up. */
  lemma NothingMovesBetweenStages(s: System, i: nat, move: WorkerMove)
    requires Reachable(s) && i < |s.workers| && i !in s.history.occupied && BetweenStages(s.main)
    requires Opened(s) ==> !s.history.incomplete
    ensures |s.queues| > 0 && Bare(s.workers[i]) && !Takes(s, i, move)
  {
    ReachableInv(s);
    if Opened(s) {
      assert Emptied(s.main, ChannelOf(s, i));
    } else {
      BareBetweenStages(s, i);
    }
    BareTakesNothing(s, i, move);
  }

  lemma EverythingBare(s: System)
    requires Inv(s) && Exact(s) && s.main.Idle?
    ensures forall i :: 0 <= i < |s.workers| ==> Bare(s.workers[i])
    ensures forall c :: 0 <= c < |s.queues| ==> s.queues[c] == []
  {
    forall c | 0 <= c < |s.queues| ensures s.queues[c] == [] {
      assert Emptied(s.main, c);
    }
    if !s.signals.phase {
      forall i | 0 <= i < |s.workers| ensures Bare(s.workers[i]) {
        BareBetweenStages(s, i);
      }
    }
  }

  /** When a teardown has returned and its drains were complete, the channels are empty and the reported count
      of dropped requests is exact, whoever stood in a boundary block. */
  lemma CompleteDrainIsExact(s: System)
    requires Reachable(s) && !s.history.incomplete && s.main.Idle?
    ensures Queued(s) == multiset{} && forall c :: 0 <= c < |s.queues| ==> s.queues[c] == []
    ensures s.teardown.removed == |s.book.dropped|
  {
    ReachableInv(s);
    forall c | 0 <= c < |s.queues| ensures s.queues[c] == [] {
      assert Emptied(s.main, c);
    }
    GatherEmpty(s.queues, QueueItems);
  }

  /** When the teardown of a stage has returned and was exact, the queues are empty, no worker holds
      anything, every enqueued copy was finished, dropped or lost with a dead worker or a failed
      queue read, and the reported count of dropped requests is exact. */
  lemma TeardownSettlesTheStage(s: System)
    requires Reachable(s) && Exact(s) && s.main.Idle?
    ensures Queued(s) == multiset{} && Held(s) == multiset{}
    ensures forall c :: 0 <= c < |s.queues| ==> s.queues[c] == []
    ensures s.book.issued == s.book.finished + s.book.dropped + s.book.lost
    ensures s.teardown.removed == |s.book.dropped|
    ensures s.counters.finished == |s.book.finished|
    ensures s.counters.finished + s.book.leakedSkips == s.book.answered + s.counters.skipped - s.book.carriedSkips
    ensures s.counters.active == s.book.leakedActive
  {
    ReachableInv(s);
    EverythingBare(s);
    NothingLeft(s);
  }

  lemma NothingLeft(s: System)
    requires forall i :: 0 <= i < |s.workers| ==> Bare(s.workers[i])
    requires forall c :: 0 <= c < |s.queues| ==> s.queues[c] == []
    ensures Queued(s) == multiset{} && Held(s) == multiset{}
    ensures Sum(s.workers, InFlightOf) == 0 && Sum(s.workers, SkipsPending) == 0
  {
    GatherEmpty(s.queues, QueueItems);
    BareHoldNothing(s.workers);
  }

  lemma {:induction false} BareHoldNothing(ws: seq<Worker>)
    requires forall i :: 0 <= i < |ws| ==> Bare(ws[i])
    ensures Gather(ws, Items) == multiset{} && Sum(ws, InFlightOf) == 0 && Sum(ws, SkipsPending) == 0
  {
    if ws != [] {
      assert Bare(ws[0]);
      assert Items(ws[0]) == multiset{};
      BareHoldNothing(ws[1..]);
    }
  }

  // ---- Conservation ----

  /** In every state, whatever died or timed out: each enqueued copy is in exactly one place, the
      active counter is the number of requests in flight plus what dead workers left behind, and what
      was finished was answered or skipped. The last law holds of the counters as they stand exactly
      when the stage carried no skips over, as every stage does outside session replay that was opened
      after an exact teardown. */
  lemma WorkIsConserved(s: System)
    requires Reachable(s)
    ensures s.book.issued == Queued(s) + Held(s) + (s.book.finished + s.book.dropped + s.book.lost)
    ensures s.counters.active == Sum(s.workers, InFlightOf) + s.book.leakedActive
    ensures s.counters.finished == |s.book.finished|
    ensures s.counters.finished + Sum(s.workers, SkipsPending) + s.book.leakedSkips
            == s.book.answered + s.counters.skipped - s.book.carriedSkips
    ensures s.counters.finished + Sum(s.workers, SkipsPending) + s.book.leakedSkips == s.book.answered + s.counters.skipped
            <==> s.book.carriedSkips == 0
    ensures !s.signals.session && !s.history.crossed && !s.main.Opening? ==> s.book.carriedSkips == 0
  {
    ReachableInv(s);
  }

  lemma {:induction false} InFlightNonNegative(ts: seq<Task>)
    ensures Sum(ts, TaskInFlight) >= 0
  {
    if ts != [] {
      InFlightNonNegative(ts[1..]);
    }
  }

  lemma KillLeaks(s: System, i: nat)
    requires i < |s.workers|
    ensures Kill(s, i).book.leakedActive >= s.book.leakedActive
  {
    InFlightNonNegative(s.workers[i].tasks);
  }

  /** What dead workers left on the active counter stays on it for the rest of the run. */
  lemma LeaksStay(s: System, move: Move, s': System)
    requires Next(s, move) == Some(s')
    ensures s'.book.leakedActive >= s.book.leakedActive
  {
    match move
    case WorkerMoves(i, w) => InFlightNonNegative(s.workers[i].tasks);
    case MainMoves(m) => MainStepLeaks(s, m, s');
  }

  lemma MainStepLeaks(s: System, m: MainMove, s': System)
    requires MainStep(s, m) == Some(s')
    ensures s'.book.leakedActive >= s.book.leakedActive
  {
    if m.Visit? {
      KillLeaks(s, s.main.index);
    } else if m.Terminate? {
      KillLeaks(s, m.index);
    }
  }

  lemma {:induction false} LeaksStayInRuns(s0: System, moves: seq<Move>, s: System)
    requires Run(s0, moves) == Some(s)
    ensures s.book.leakedActive >= s0.book.leakedActive
  {
    if moves != [] {
      var before := Run(s0, moves[..|moves| - 1]).value;
      LeaksStayInRuns(s0, moves[..|moves| - 1], before);
      LeaksStay(before, moves[|moves| - 1], s);
    }
  }

  // ---- Permits ----

  lemma {:induction false} InFlightArePermitted(ts: seq<Task>)
    requires forall t :: t in ts && t.phase.InFlight? ==> t.permit
    ensures 0 <= Sum(ts, TaskInFlight) <= Sum(ts, TaskPermit)
  {
    if ts != [] {
      assert ts[0] in ts;
      InFlightArePermitted(ts[1..]);
    }
  }

  /** Free and held permits always make up the worker's current limit, so it never has more
      requests in flight than that. */
  lemma PermitsAreConserved(s: System, i: nat)
    requires Reachable(s) && i < |s.workers|
    ensures s.workers[i].free + HeldPermits(s.workers[i]) == s.workers[i].limit
    ensures 0 <= InFlightOf(s.workers[i]) <= s.workers[i].limit
  {
    ReachableInv(s);
    assert WellFormed(s.signals.session, s.signals.boundary, s.workers[i]);
    InFlightArePermitted(s.workers[i].tasks);
    LoopPermitsNonNegative(s.workers[i].pc);
  }

  lemma LoopPermitsNonNegative(pc: Pc)
    ensures LoopPermits(pc) >= 0
  {
  }

  /** No permit holder survives a resize: the limit of a live worker changes only when it has no task. */
  lemma ResizeWaitsForHolders(s: System, i: nat, move: WorkerMove, s': System)
    requires Reachable(s) && i < |s.workers| && WorkerStep(s, i, move) == Some(s')
    requires s'.workers[i].alive && s'.workers[i].limit != s.workers[i].limit
    ensures s.workers[i].tasks == [] && s'.workers[i].tasks == []
    ensures s.workers[i].pc.Resizing? && s'.workers[i].free == s'.workers[i].limit == s.workers[i].pc.target
  {
    ReachableInv(s);
    assert WellFormed(s.signals.session, s.signals.boundary, s.workers[i]);
    var c, out := WorkerStepShape(s, i, move, s');
    LimitStep(s.signals, Head(s.queues[c]), s.workers[i], move, out.worker);
  }

  lemma LimitStep(env: Signals, head: Option<Item>, w: Worker, move: WorkerMove, w': Worker)
    requires WellFormed(env.session, env.boundary, w) && Step(env, head, w, move).Went? && Step(env, head, w, move).worker == w'
    requires w'.alive && w'.limit != w.limit
    ensures w.tasks == [] && w'.tasks == [] && w.pc.Resizing? && w'.free == w'.limit == w.pc.target
  {
    assert w.pc.Resizing? && w.pc.got == w.limit;
    ResizeWellFormed(env.session, env.boundary, w);
  }
}
