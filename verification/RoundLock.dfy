/** How the rounds of one session take turns: a queue of waiting rounds in front of a lock. */
module RoundLock {
  import opened Common

  /** `waiting` rounds wait for their future, `woken` ones have had it set and not run yet, `lockQueue`
      is the lock's own queue. `inFlight` rounds have their context and have not updated it yet. The
      event loop runs woken rounds, and the lock serves its queue, first come first served. */
  datatype State = State(
    locked: bool, lockQueue: seq<nat>, waiting: seq<nat>, woken: seq<nat>,
    inFlight: seq<nat>, arrived: seq<nat>, served: seq<nat>)

  datatype Move = Arrive(round: nat) | Resume | Grant | Update(round: nat) | UpdateAgain(round: nat)

  const START := State(false, [], [], [], [], [], [])

  function Serve(s: State, round: nat): State {
    s.(locked := true, inFlight := s.inFlight + [round], served := s.served + [round])
  }

  /** Acquiring the lock: at once when it is free and nobody queues for it. */
  function Acquire(s: State, round: nat): State {
    if !s.locked && s.lockQueue == [] then Serve(s, round) else s.(lockQueue := s.lockQueue + [round])
  }

  /** The end of an update: one waiting round is woken, and the lock is released if it is locked. */
  function Release(s: State): State {
    var woke := if s.waiting == [] then s else s.(waiting := s.waiting[1..], woken := s.woken + [s.waiting[0]]);
    woke.(locked := false)
  }

  function Without(rounds: seq<nat>, round: nat): seq<nat> {
    if rounds == [] then [] else if rounds[0] == round then rounds[1..] else [rounds[0]] + Without(rounds[1..], round)
  }

  /** UpdateAgain is a failure path that updates after the success path already has. */
  function Step(s: State, move: Move): Option<State> {
    match move
    case Arrive(r) =>
      if r in s.arrived then None
      else
        var s' := s.(arrived := s.arrived + [r]);
        Some(if s.waiting != [] || s.locked then s'.(waiting := s.waiting + [r]) else Acquire(s', r))
    case Resume => if s.woken == [] then None else Some(Acquire(s.(woken := s.woken[1..]), s.woken[0]))
    case Grant =>
      if s.locked || s.lockQueue == [] then None else Some(Serve(s.(lockQueue := s.lockQueue[1..]), s.lockQueue[0]))
    case Update(r) => if r !in s.inFlight then None else Some(Release(s.(inFlight := Without(s.inFlight, r))))
    case UpdateAgain(r) => if r !in s.served || r in s.inFlight then None else Some(Release(s))
  }

  function Run(s: State, moves: seq<Move>): Option<State> {
    if moves == [] then Some(s)
    else
      var before := Run(s, moves[..|moves| - 1]);
      if before.None? then None else Step(before.value, moves[|moves| - 1])
  }

  // ---- One round at a time ----

  /** The lock is held exactly while a round is in flight, by that round alone. */
  predicate Exclusive(s: State) {
    s.locked == (s.inFlight != []) && |s.inFlight| <= 1
  }

  /** Whoever waits, someone ahead is still to come out. */
  predicate NobodyForgotten(s: State) {
    s.waiting != [] ==> s.inFlight != [] || s.woken != [] || s.lockQueue != []
  }

  lemma {:induction false} WithoutOnly(rounds: seq<nat>, round: nat)
    requires round in rounds
    ensures |Without(rounds, round)| == |rounds| - 1
  {
    if rounds[0] != round {
      WithoutOnly(rounds[1..], round);
    }
  }

  /** Every step keeps the rounds exclusive and nobody waiting in vain, but a second update: that keeps
      them exclusive exactly when nobody holds the lock. */
  lemma StepIsExclusive(s: State, move: Move, s': State)
    requires Exclusive(s) && NobodyForgotten(s) && Step(s, move) == Some(s')
    ensures NobodyForgotten(s')
    ensures Exclusive(s') <==> !move.UpdateAgain? || !s.locked
  {
    if move.Update? {
      WithoutOnly(s.inFlight, move.round);
    }
  }

  predicate UpdatesOnce(moves: seq<Move>) {
    forall move :: move in moves ==> !move.UpdateAgain?
  }

  /** In every run in which each round updates once, at most one round is in flight, and there is always
      a step to take while somebody waits. */
  lemma {:induction false} RoundsTakeTurns(moves: seq<Move>, s: State)
    requires Run(START, moves) == Some(s) && UpdatesOnce(moves)
    ensures Exclusive(s)
    ensures s.waiting != [] || s.woken != [] || s.lockQueue != [] ==>
              exists move: Move :: !move.Arrive? && !move.UpdateAgain? && Step(s, move).Some?
  {
    RunIsExclusive(moves, s);
    if s.woken != [] {
      assert Step(s, Resume).Some?;
    } else if s.inFlight != [] {
      assert Step(s, Update(s.inFlight[0])).Some?;
    } else if s.lockQueue != [] {
      assert Step(s, Grant).Some?;
    }
  }

  lemma {:induction false} RunIsExclusive(moves: seq<Move>, s: State)
    requires Run(START, moves) == Some(s) && UpdatesOnce(moves)
    ensures Exclusive(s) && NobodyForgotten(s)
  {
    if moves != [] {
      var rest, last := moves[..|moves| - 1], moves[|moves| - 1];
      RunIsExclusive(rest, Run(START, rest).value);
      assert last in moves;
      StepIsExclusive(Run(START, rest).value, last, s);
    }
  }

  lemma Go(moves: seq<Move>, s: State, move: Move, s': State) returns (longer: seq<Move>)
    requires Run(START, moves) == Some(s) && Step(s, move) == Some(s')
    ensures longer == moves + [move] && Run(START, longer) == Some(s')
  {
    longer := moves + [move];
    assert longer[..|moves|] == moves;
  }

  /** The lock free, nobody waiting, and the given rounds served so far. */
  predicate Free(s: State, rounds: seq<nat>) {
    !s.locked && s.lockQueue == [] && s.waiting == [] && s.woken == [] && s.arrived == rounds && s.served == rounds
  }

  lemma ArriveAtFree(s: State, rounds: seq<nat>, r: nat, s': State)
    requires Free(s, rounds) && r !in rounds && s' == Serve(s.(arrived := s.arrived + [r]), r)
    ensures Step(s, Arrive(r)) == Some(s')
  {
  }

  lemma UpdateLast(s: State, rounds: seq<nat>, r: nat, s': State)
    requires Free(s, rounds) && r !in rounds && s.inFlight == []
    requires s' == Serve(s.(arrived := s.arrived + [r]), r)
    ensures Step(s', Update(r)) == Some(s'.(inFlight := [], locked := false))
  {
    assert s'.inFlight == [r];
    assert Without([r], r) == [];
  }

  /** A second update while another round holds the lock lets a third one in beside it. This is a property
      of the defensive release: the caller would have to let a round in between the two updates, and
      the client that this was written for does not wait between them. */
  lemma SecondUpdateLetsTwoIn() returns (moves: seq<Move>, s: State)
    ensures Run(START, moves) == Some(s) && |s.inFlight| == 2
  {
    var s1 := Serve(START.(arrived := START.arrived + [0]), 0);
    ArriveAtFree(START, [], 0, s1);
    moves := Go([], START, Arrive(0), s1);
    var s2 := s1.(inFlight := [], locked := false);
    UpdateLast(START, [], 0, s1);
    moves := Go(moves, s1, Update(0), s2);
    assert s2.arrived == [0] && s2.served == [0];
    var s3 := Serve(s2.(arrived := s2.arrived + [1]), 1);
    ArriveAtFree(s2, [0], 1, s3);
    moves := Go(moves, s2, Arrive(1), s3);
    var s4 := s3.(locked := false);
    assert s3.inFlight == [1] && s3.served == [0, 1] && s3.arrived == [0, 1];
    moves := Go(moves, s3, UpdateAgain(0), s4);
    s := Serve(s4.(arrived := s4.arrived + [2]), 2);
    ArriveAtFree(s4, [0, 1], 2, s);
    moves := Go(moves, s4, Arrive(2), s);
  }

  // ---- In order of arrival ----

  /** The rounds stand, from the first served to the last waiting, in the order in which they arrived. */
  predicate InOrder(s: State) {
    s.arrived == s.served + s.lockQueue + s.woken + s.waiting
  }

  /** A newcomer that finds the lock free and nobody waiting, while a woken round has not run yet. */
  predicate Overtakes(s: State, move: Move) {
    move.Arrive? && !s.locked && s.waiting == [] && s.woken != []
  }

  lemma MoveOver(a: seq<nat>, b: seq<nat>)
    requires b != []
    ensures a + [b[0]] + b[1..] == a + b
  {
    assert b == [b[0]] + b[1..];
  }

  lemma ReleaseKeepsOrder(s: State)
    requires InOrder(s)
    ensures InOrder(Release(s))
  {
    if s.waiting != [] {
      var front := s.served + s.lockQueue;
      MoveOver(front + s.woken, s.waiting);
      assert front + (s.woken + [s.waiting[0]]) == front + s.woken + [s.waiting[0]];
    }
  }

  lemma ResumeKeepsOrder(s: State)
    requires InOrder(s) && s.woken != []
    ensures InOrder(Acquire(s.(woken := s.woken[1..]), s.woken[0]))
  {
    MoveOver(s.served + s.lockQueue, s.woken);
    if !s.locked && s.lockQueue == [] {
      assert s.served + [] == s.served && (s.served + [s.woken[0]]) + [] == s.served + [s.woken[0]];
    } else {
      assert s.served + (s.lockQueue + [s.woken[0]]) == s.served + s.lockQueue + [s.woken[0]];
    }
  }

  lemma GrantKeepsOrder(s: State)
    requires InOrder(s) && s.lockQueue != []
    ensures InOrder(Serve(s.(lockQueue := s.lockQueue[1..]), s.lockQueue[0]))
  {
    MoveOver(s.served, s.lockQueue);
  }

  lemma ArriveInOrder(s: State, r: nat, s': State)
    requires InOrder(s) && Step(s, Arrive(r)) == Some(s') && !Overtakes(s, Arrive(r))
    ensures InOrder(s')
  {
    if s.waiting != [] || s.locked {
      var front := s.served + s.lockQueue + s.woken;
      assert front + (s.waiting + [r]) == front + s.waiting + [r];
    } else {
      assert s.arrived == s.served + s.lockQueue;
      if s.lockQueue == [] {
        assert s'.served + [] + [] + [] == s.served + [r];
      } else {
        assert s.served + (s.lockQueue + [r]) + [] + [] == s.served + s.lockQueue + [r];
      }
    }
  }

  /** An overtaking round is ahead of a woken one that came before it. */
  lemma OvertakingBreaksOrder(s: State, r: nat, s': State)
    requires InOrder(s) && Step(s, Arrive(r)) == Some(s') && Overtakes(s, Arrive(r))
    ensures !InOrder(s')
  {
    var n := |s.arrived|;
    assert s'.arrived[n] == r;
    var last := s.woken[|s.woken| - 1];
    assert s.arrived[n - 1] == last;
    assert last in s.arrived && last != r;
    var line := s'.served + s'.lockQueue + s'.woken + s'.waiting;
    assert |line| == n + 1 && line[n] == last;
  }

  /** Every step keeps the rounds in the order of their arrival, but an overtaking arrival, which never does. */
  lemma OrderIsKeptExactlyWithoutOvertaking(s: State, move: Move, s': State)
    requires InOrder(s) && Step(s, move) == Some(s')
    ensures InOrder(s') <==> !Overtakes(s, move)
  {
    match move
    case Arrive(r) =>
      if Overtakes(s, move) {
        OvertakingBreaksOrder(s, r, s');
      } else {
        ArriveInOrder(s, r, s');
      }
    case Resume => ResumeKeepsOrder(s);
    case Grant => GrantKeepsOrder(s);
    case Update(r) => ReleaseKeepsOrder(s.(inFlight := Without(s.inFlight, r)));
    case UpdateAgain(r) => ReleaseKeepsOrder(s);
  }

  lemma OneWoken(r: nat, next: nat) returns (moves: seq<Move>, s: State)
    requires r != next
    ensures Run(START, moves) == Some(s) && UpdatesOnce(moves)
    ensures s == State(false, [], [], [next], [], [r, next], [r])
  {
    var s1 := State(true, [], [], [], [r], [r], [r]);
    FirstArrives(r, s1);
    moves := Go([], START, Arrive(r), s1);
    var s2 := State(true, [], [next], [], [r], [r, next], [r]);
    SecondWaits(r, next, s1, s2);
    moves := Go(moves, s1, Arrive(next), s2);
    s := State(false, [], [], [next], [], [r, next], [r]);
    SecondIsWoken(r, next, s2, s);
    moves := Go(moves, s2, Update(r), s);
  }

  lemma FirstArrives(r: nat, s: State)
    requires s == State(true, [], [], [], [r], [r], [r])
    ensures Step(START, Arrive(r)) == Some(s)
  {
    var none: seq<nat> := [];
    assert none + [r] == [r];
  }

  lemma SecondWaits(r: nat, next: nat, s: State, t: State)
    requires r != next && s == State(true, [], [], [], [r], [r], [r]) && t == State(true, [], [next], [], [r], [r, next], [r])
    ensures Step(s, Arrive(next)) == Some(t)
  {
    var none: seq<nat> := [];
    assert [r] + [next] == [r, next] && none + [next] == [next];
  }

  lemma SecondIsWoken(r: nat, next: nat, s: State, t: State)
    requires s == State(true, [], [next], [], [r], [r, next], [r]) && t == State(false, [], [], [next], [], [r, next], [r])
    ensures Step(s, Update(r)) == Some(t)
  {
    var none: seq<nat> := [];
    assert none + [next] == [next] && [next][1..] == none && [r][1..] == none;
    assert Without([r], r) == none;
  }

  /** And a round can be overtaken: between the update that wakes it and its own turn. */
  lemma ARoundCanBeOvertaken() returns (moves: seq<Move>, s: State)
    ensures Run(START, moves) == Some(s) && UpdatesOnce(moves) && s.arrived == [0, 1, 2] && s.served == [0, 2]
  {
    var woken;
    moves, woken := OneWoken(0, 1);
    s := Serve(woken.(arrived := woken.arrived + [2]), 2);
    moves := Go(moves, woken, Arrive(2), s);
  }
}
