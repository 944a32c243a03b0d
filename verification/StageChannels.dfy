/** What the channels hold, told from the puts of a run alone. */
module StageChannels {
  import opened Common
  import opened StageProtocol

  function StagesOpened(moves: seq<Move>): nat {
    if moves == [] then 0
    else StagesOpened(moves[..|moves| - 1]) + (if moves[|moves| - 1] == MainMoves(OpenStage) then 1 else 0)
  }

  /** The items put on channel c of n, in order: those pinned to it and those put on every channel. */
  function PutOn(moves: seq<Move>, c: nat, n: nat): seq<Item>
    requires c < n
  {
    if moves == [] then []
    else
      var before, last := moves[..|moves| - 1], moves[|moves| - 1];
      if last.MainMoves? && last.m.Put? && (last.m.channel.None? || last.m.channel.value % n == c)
      then PutOn(before, c, n) + [Item(StagesOpened(before), last.m.id)] else PutOn(before, c, n)
  }

  ghost predicate Suffix(rest: seq<Item>, all: seq<Item>) {
    exists k :: 0 <= k <= |all| && rest == all[k..]
  }

  lemma SuffixOfSuffix(a: seq<Item>, b: seq<Item>, c: seq<Item>)
    requires Suffix(a, b) && Suffix(b, c)
    ensures Suffix(a, c)
  {
    var j :| 0 <= j <= |b| && a == b[j..];
    var k :| 0 <= k <= |c| && b == c[k..];
    assert a == c[k + j..];
  }

  lemma SuffixGrows(a: seq<Item>, b: seq<Item>, more: seq<Item>)
    requires Suffix(a, b)
    ensures Suffix(a + more, b + more)
  {
    var k :| 0 <= k <= |b| && a == b[k..];
    assert a + more == (b + more)[k..];
  }

  lemma SuffixOfItself(a: seq<Item>)
    ensures Suffix(a, a) && Suffix([], a) && (a != [] ==> Suffix(a[1..], a))
  {
    assert a == a[0..] && [] == a[|a|..];
  }

  // ---- One step ----

  /** What a move puts on channel c. */
  function Arriving(s: System, move: Move, c: nat): seq<Item>
    requires c < |s.queues|
  {
    if move.MainMoves? && move.m.Put? && (move.m.channel.None? || move.m.channel.value % |s.queues| == c)
    then [Item(s.stage, move.m.id)] else []
  }

  ghost predicate OnlyFromTheFront(s: System, move: Move, s': System) {
    && |s'.queues| == |s.queues|
    && forall c :: 0 <= c < |s.queues| ==> Suffix(s'.queues[c], s.queues[c] + Arriving(s, move, c))
  }

  lemma SameChannels(s: System, move: Move, s': System)
    requires s'.queues == s.queues && forall c :: 0 <= c < |s.queues| ==> Arriving(s, move, c) == []
    ensures OnlyFromTheFront(s, move, s')
  {
    forall c | 0 <= c < |s.queues| ensures Suffix(s'.queues[c], s.queues[c] + Arriving(s, move, c)) {
      SuffixOfItself(s.queues[c]);
      assert s.queues[c] + Arriving(s, move, c) == s.queues[c];
    }
  }

  lemma Popped(s: System, move: Move, c: nat, s': System)
    requires c < |s.queues| && s'.queues == PopHead(s.queues, c)
    requires forall k :: 0 <= k < |s.queues| ==> Arriving(s, move, k) == []
    ensures OnlyFromTheFront(s, move, s')
  {
    PopKeepsSuffixes(s.queues, c, s'.queues);
    forall k | 0 <= k < |s.queues| ensures Suffix(s'.queues[k], s.queues[k] + Arriving(s, move, k)) {
      NothingArrives(s.queues[k], Arriving(s, move, k));
    }
  }

  lemma NothingArrives(q: seq<Item>, arriving: seq<Item>)
    requires arriving == []
    ensures q + arriving == q
  {
  }

  lemma PopKeepsSuffixes(queues: seq<seq<Item>>, c: nat, queues': seq<seq<Item>>)
    requires c < |queues| && queues' == PopHead(queues, c)
    ensures |queues'| == |queues| && forall k :: 0 <= k < |queues| ==> Suffix(queues'[k], queues[k])
  {
    forall k | 0 <= k < |queues| ensures Suffix(queues'[k], queues[k]) {
      SuffixOfItself(queues[k]);
    }
  }

  lemma PutArrives(s: System, id: nat, channel: Option<nat>, s': System)
    requires MainStep(s, Put(id, channel)) == Some(s')
    ensures OnlyFromTheFront(s, MainMoves(Put(id, channel)), s')
  {
    var move := MainMoves(Put(id, channel));
    forall c | 0 <= c < |s.queues| ensures Suffix(s'.queues[c], s.queues[c] + Arriving(s, move, c)) {
      assert s'.queues[c] == s.queues[c] + Arriving(s, move, c);
      SuffixOfItself(s'.queues[c]);
    }
  }

  lemma VisitEmptiesOne(s: System, s': System)
    requires MainStep(s, Visit) == Some(s')
    ensures OnlyFromTheFront(s, MainMoves(Visit), s')
  {
    assert |s'.queues| == |s.queues| && forall c :: 0 <= c < |s.queues| ==> s'.queues[c] == s.queues[c] || s'.queues[c] == [];
    forall c | 0 <= c < |s.queues| ensures Suffix(s'.queues[c], s.queues[c] + Arriving(s, MainMoves(Visit), c)) {
      SuffixOfItself(s.queues[c]);
      assert s.queues[c] + Arriving(s, MainMoves(Visit), c) == s.queues[c];
    }
  }

  /** A step takes items from the front of a channel only, and a put adds to the end of exactly the channels it names. */
  lemma ChannelsAreQueues(s: System, move: Move, s': System)
    requires Next(s, move) == Some(s')
    ensures OnlyFromTheFront(s, move, s')
    ensures s'.stage == s.stage + (if move == MainMoves(OpenStage) then 1 else 0)
  {
    match move
    case WorkerMoves(i, w) => WorkerTakes(s, i, w, s');
    case MainMoves(m) => MainTakes(s, m, s');
  }

  lemma WorkerTakes(s: System, i: nat, w: WorkerMove, s': System)
    requires WorkerStep(s, i, w) == Some(s')
    ensures OnlyFromTheFront(s, WorkerMoves(i, w), s') && s'.stage == s.stage
  {
    if s'.queues == s.queues {
      SameChannels(s, WorkerMoves(i, w), s');
    } else {
      Popped(s, WorkerMoves(i, w), ChannelOf(s, i), s');
    }
  }

  lemma MainTakes(s: System, m: MainMove, s': System)
    requires MainStep(s, m) == Some(s')
    ensures OnlyFromTheFront(s, MainMoves(m), s')
    ensures s'.stage == s.stage + (if m.OpenStage? then 1 else 0)
  {
    match m
    case Put(id, channel) => PutArrives(s, id, channel, s');
    case DrainItem => Popped(s, MainMoves(m), s.main.channel, s');
    case Visit => VisitEmptiesOne(s, s');
    case _ => SameChannels(s, MainMoves(m), s');
  }

  /** What a worker takes is the head of its own channel, and that is what it then has in hand. */
  lemma TakesTheHeadOfItsChannel(s: System, i: nat, w: WorkerMove, s': System)
    requires WorkerStep(s, i, w) == Some(s') && s'.queues != s.queues
    ensures var c := i % |s.queues|;
            && s.queues[c] != [] && s'.queues == s.queues[c := s.queues[c][1..]]
            && s.workers[i].pc.Pull?
            && (w.Advance? ==> s'.workers[i].pc == Holding(s.queues[c][0], s.workers[i].pc.prepaid))
            && (!w.Advance? ==> w.LoseItem? && s'.book.lost == s.book.lost + multiset{s.queues[c][0]})
  {
  }

  // ---- Whole runs ----

  /** In every state of every run a channel holds the items put on it, in the order they were put, from some
      point on: whatever left it, left before them. Each carries the number of the stage that put it. */
  lemma {:induction false} ChannelsKeepTheirOrder(s0: System, moves: seq<Move>, s: System)
    requires Run(s0, moves) == Some(s) && s0.stage == 0 && forall c :: 0 <= c < |s0.queues| ==> s0.queues[c] == []
    ensures |s.queues| == |s0.queues| && s.stage == StagesOpened(moves)
    ensures forall c :: 0 <= c < |s.queues| ==> Suffix(s.queues[c], PutOn(moves, c, |s.queues|))
  {
    if moves == [] {
      forall c | 0 <= c < |s.queues| ensures Suffix(s.queues[c], PutOn(moves, c, |s.queues|)) {
        SuffixOfItself([]);
      }
    } else {
      var n := |moves| - 1;
      var before := Run(s0, moves[..n]).value;
      ChannelsKeepTheirOrder(s0, moves[..n], before);
      ChannelsAreQueues(before, moves[n], s);
      forall c | 0 <= c < |s.queues| ensures Suffix(s.queues[c], PutOn(moves, c, |s.queues|)) {
        var arriving, put := Arriving(before, moves[n], c), PutOn(moves[..n], c, |s.queues|);
        assert Suffix(before.queues[c], put) && Suffix(s.queues[c], before.queues[c] + arriving);
        SuffixGrows(before.queues[c], put, arriving);
        SuffixOfSuffix(s.queues[c], before.queues[c] + arriving, put + arriving);
        assert PutOn(moves, c, |s.queues|) == put + arriving;
      }
    }
  }

  lemma ReachedChannels(s: System, session: bool, capacity: nat, share: Option<nat>, n: nat, c: nat, moves: seq<Move>)
    requires ReachedBy(s, session, capacity, share, n, c, moves)
    ensures |s.queues| == c && s.stage == StagesOpened(moves)
    ensures forall k :: 0 <= k < c ==> Suffix(s.queues[k], PutOn(moves, k, c))
  {
    ChannelsKeepTheirOrder(Start(session, capacity, share, n, c), moves, s);
  }
}
