/** The teardown of a stage always comes to an end: whatever the workers do in between, the main process
    always has a step to take, and can take only so many. */
module StageProgress {
  import opened Common
  import opened StageProtocol

  predicate InTeardown(main: Main) {
    main.Published? || main.Cancelled? || main.Waiting? || main.Terminating? || main.Draining? || main.Clearing? || main.Visiting?
  }

  predicate TeardownMove(move: MainMove) {
    match move
    case SetShares(_, _) => false
    case OpenStage => false
    case ResetCounters => false
    case SkipStage => false
    case Put(_, _) => false
    case Publish => false
    case _ => true
  }

  /** What the positions of the main process refer to is there. */
  ghost predicate InRange(s: System) {
    && |s.queues| > 0
    && (s.main.Draining? ==> s.main.channel < |s.queues|)
    && (s.main.Terminating? ==> forall i :: i in s.main.stuck ==> i < |s.workers|)
    && (s.main.Visiting? ==> s.main.index <= |s.workers|)
  }

  function QueueLength(q: seq<Item>): int { |q| }

  /** How many steps the main process has left at most. */
  function Rank(s: System): int {
    var w, q, items := |s.workers|, |s.queues|, Sum(s.queues, QueueLength);
    match s.main
    case Visiting(i) => 1 + w - i
    case Clearing => 2 + w
    case Draining(c) => 2 + w + q - c + items
    case Terminating(stuck) => 3 + w + q + items + |stuck|
    case Waiting => 4 + 2 * w + q + items
    case Cancelled => 5 + 2 * w + q + items
    case Published => 6 + 2 * w + q + items
    case _ => 0
  }

  lemma {:induction false} LengthsNonNegative(queues: seq<seq<Item>>)
    ensures Sum(queues, QueueLength) >= 0
  {
    if queues != [] {
      LengthsNonNegative(queues[1..]);
    }
  }

  lemma RankBounds(s: System)
    requires InRange(s)
    ensures Rank(s) >= 0 && (InTeardown(s.main) ==> Rank(s) > 0)
  {
    LengthsNonNegative(s.queues);
  }

  lemma PopShortens(queues: seq<seq<Item>>, c: nat)
    requires c < |queues|
    ensures |PopHead(queues, c)| == |queues|
    ensures Sum(PopHead(queues, c), QueueLength) == Sum(queues, QueueLength) - (if queues[c] == [] then 0 else 1)
  {
    if queues[c] != [] {
      SumUpdate(queues, c, queues[c][1..], QueueLength);
    }
  }

  lemma {:induction false} BoundedSet(xs: set<nat>, n: nat)
    requires forall x :: x in xs ==> x < n
    ensures |xs| <= n
  {
    if n > 0 {
      var rest := xs - {n - 1};
      BoundedSet(rest, n - 1);
      assert |xs| <= |rest| + 1;
    } else if xs != {} {
      var x := PickGhost(xs);
    }
  }

  // ---- The main process always has a step to take ----

  lemma SomebodyPending(s: System) returns (stuck: set<nat>)
    requires s.main.Waiting? && exists w :: w in s.workers && Pending(s, w)
    ensures MainStep(s, GiveUpOn(stuck)).Some?
  {
    stuck := set i | 0 <= i < |s.workers| && Pending(s, s.workers[i]);
    var w :| w in s.workers && Pending(s, w);
    var i :| 0 <= i < |s.workers| && s.workers[i] == w;
    assert i in stuck;
  }

  /** Until the teardown has returned, some step of the main process is enabled, whatever state the
      workers and the channels are in. */
  lemma TeardownIsNeverStuck(s: System) returns (move: MainMove)
    requires InRange(s) && InTeardown(s.main)
    ensures TeardownMove(move) && MainStep(s, move).Some?
  {
    match s.main
    case Published => move := SetCancel;
    case Cancelled => move := ClearPhase;
    case Waiting =>
      if exists w :: w in s.workers && Pending(s, w) {
        var stuck := SomebodyPending(s);
        move := GiveUpOn(stuck);
      } else {
        move := Rendezvous;
      }
    case Terminating(stuck) =>
      if stuck == {} {
        move := Terminated;
      } else {
        var i := PickGhost(stuck);
        move := Terminate(i);
      }
    case Draining(c) => move := if s.queues[c] == [] then DrainDone else DrainItem;
    case Clearing => move := ClearCancel;
    case Visiting(i) => move := if i < |s.workers| then Visit else Return;
  }

  // ---- And only so many ----

  lemma WorkerStepRank(s: System, i: nat, move: WorkerMove, s': System)
    requires InRange(s) && WorkerStep(s, i, move) == Some(s')
    ensures InRange(s') && s'.main == s.main && Rank(s') <= Rank(s)
  {
    PopShortens(s.queues, ChannelOf(s, i));
  }

  lemma GiveUpRank(s: System, stuck: set<nat>, s': System)
    requires InRange(s) && MainStep(s, GiveUpOn(stuck)) == Some(s')
    ensures InRange(s') && Rank(s') < Rank(s)
  {
    BoundedSet(stuck, |s.workers|);
  }

  lemma TerminateRank(s: System, i: nat, s': System)
    requires InRange(s) && MainStep(s, Terminate(i)) == Some(s')
    ensures InRange(s') && Rank(s') < Rank(s)
  {
    assert |s.main.stuck - {i}| == |s.main.stuck| - 1;
  }

  lemma DrainRank(s: System, move: MainMove, s': System)
    requires InRange(s) && MainStep(s, move) == Some(s')
    requires move.DrainItem? || move.DrainDone? || move.DrainTimeout? || move.DrainStop?
    ensures InRange(s') && Rank(s') < Rank(s)
  {
    LengthsNonNegative(s.queues);
    if move.DrainItem? {
      PopShortens(s.queues, s.main.channel);
    }
  }

  lemma VisitRank(s: System, s': System)
    requires InRange(s) && MainStep(s, Visit) == Some(s')
    ensures InRange(s') && Rank(s') < Rank(s)
  {
    assert |s'.workers| == |s.workers|;
  }

  /** Every step of the main process in a teardown brings it closer to the end. */
  lemma MainStepRank(s: System, move: MainMove, s': System)
    requires InRange(s) && TeardownMove(move) && MainStep(s, move) == Some(s')
    ensures InRange(s') && Rank(s') < Rank(s)
  {
    LengthsNonNegative(s.queues);
    match move
    case GiveUpOn(stuck) => GiveUpRank(s, stuck, s');
    case Terminate(i) => TerminateRank(s, i, s');
    case DrainItem => DrainRank(s, move, s');
    case DrainDone => DrainRank(s, move, s');
    case DrainTimeout => DrainRank(s, move, s');
    case DrainStop => DrainRank(s, move, s');
    case Visit => VisitRank(s, s');
    case _ =>
  }

  function MainSteps(moves: seq<Move>): nat {
    if moves == [] then 0 else MainSteps(moves[..|moves| - 1]) + (if moves[|moves| - 1].MainMoves? then 1 else 0)
  }

  /** In every run of a teardown, interleaved with any steps of the workers, deaths included, the main
      process takes no more steps than its rank at the start; while it is not done, it has one to take. */
  lemma {:induction false} TeardownReturns(s0: System, moves: seq<Move>, s: System)
    requires InRange(s0) && Run(s0, moves) == Some(s)
    requires forall m :: m in moves && m.MainMoves? ==> TeardownMove(m.m)
    ensures InRange(s) && MainSteps(moves) + Rank(s) <= Rank(s0)
    ensures MainSteps(moves) <= Rank(s0)
    ensures InTeardown(s.main) ==> Rank(s) > 0 && exists move :: TeardownMove(move) && MainStep(s, move).Some?
  {
    RunRank(s0, moves, s);
    RankBounds(s);
    if InTeardown(s.main) {
      var move := TeardownIsNeverStuck(s);
    }
  }

  lemma {:induction false} RunRank(s0: System, moves: seq<Move>, s: System)
    requires InRange(s0) && Run(s0, moves) == Some(s)
    requires forall m :: m in moves && m.MainMoves? ==> TeardownMove(m.m)
    ensures InRange(s) && MainSteps(moves) + Rank(s) <= Rank(s0)
  {
    if moves != [] {
      var rest, last := moves[..|moves| - 1], moves[|moves| - 1];
      var before := Run(s0, rest).value;
      RunRank(s0, rest, before);
      assert last in moves;
      match last
      case WorkerMoves(i, w) => WorkerStepRank(before, i, w, s);
      case MainMoves(m) => MainStepRank(before, m, s);
    }
  }

  /** And every reachable state is in range. */
  lemma NextInRange(s: System, move: Move, s': System)
    requires InRange(s) && Next(s, move) == Some(s')
    ensures InRange(s')
  {
    match move
    case WorkerMoves(i, w) => WorkerStepRank(s, i, w, s');
    case MainMoves(m) =>
      if TeardownMove(m) {
        MainStepRank(s, m, s');
      }
  }

  lemma {:induction false} RunInRange(s0: System, moves: seq<Move>, s: System)
    requires InRange(s0) && Run(s0, moves) == Some(s)
    ensures InRange(s)
  {
    if moves != [] {
      var before := Run(s0, moves[..|moves| - 1]).value;
      RunInRange(s0, moves[..|moves| - 1], before);
      NextInRange(before, moves[|moves| - 1], s);
    }
  }

  lemma ReachableInRange(s: System)
    requires Reachable(s)
    ensures InRange(s)
  {
    var session, capacity, share, n, c, moves :| ReachedBy(s, session, capacity, share, n, c, moves);
    RunInRange(Start(session, capacity, share, n, c), moves, s);
  }
}
