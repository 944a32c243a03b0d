/** Conservation of work: every enqueued copy of a request is in exactly one place. */
module StageAccounts {
  import opened Common
  import opened StageProtocol
  import opened StageInvariants

  /** Every copy enqueued for the stage is queued, held by a worker, finished, dropped or lost. */
  ghost predicate ItemsConserved(s: System) {
    s.book.issued == Queued(s) + Held(s) + Rest(s.book)
  }

  /** Where a copy ends up. */
  function Rest(book: Book): multiset<Item> {
    book.finished + book.dropped + book.lost
  }

  /** The shared counters count what they stand for. */
  ghost predicate CountersAgree(s: System) {
    && s.counters.active == Sum(s.workers, InFlightOf) + s.book.leakedActive
    && s.counters.finished == |s.book.finished|
  }

  /** Finished requests were answered or skipped; a skip shows up a moment before the finish, and the
      counter may have been carried over from earlier stages. */
  ghost predicate SkipsAgree(s: System) {
    s.counters.finished + Sum(s.workers, SkipsPending) + s.book.leakedSkips == s.book.answered + s.counters.skipped - s.book.carriedSkips
  }

  lemma PopHeadQueued(s: System, c: nat)
    requires c < |s.queues| && s.queues[c] != []
    ensures Gather(PopHead(s.queues, c), QueueItems) + HeadItem(s.queues[c]) == Queued(s)
  {
    var q := s.queues[c];
    GatherUpdate(s.queues, c, q[1..], QueueItems);
    assert q == [q[0]] + q[1..];
    assert QueueItems(q) == multiset{q[0]} + QueueItems(q[1..]);
    Cancel(Gather(PopHead(s.queues, c), QueueItems) + multiset{q[0]}, Queued(s), QueueItems(q[1..]));
  }

  /** A total changes by what one part changes by. */
  lemma Rebalance(held: multiset<Item>, held': multiset<Item>, a: multiset<Item>, b: multiset<Item>,
                  gained: multiset<Item>, released: multiset<Item>)
    requires held' + a == held + b
    requires b + released == a + gained
    ensures held' + released == held + gained
  {
    assert (held' + released) + a == (held' + a) + released == held + (b + released) == (held + gained) + a;
    Cancel(held' + released, held + gained, a);
  }

  /** What leaves the queues and the workers enters the other accounts. */
  lemma Transfer(q: multiset<Item>, q': multiset<Item>, h: multiset<Item>, h': multiset<Item>, rest: multiset<Item>,
                 rest': multiset<Item>, taken: multiset<Item>, gained: multiset<Item>, released: multiset<Item>)
    requires q' + taken == q && h' + released == h + gained
    requires rest' + gained == rest + taken + released
    ensures q' + h' + rest' == q + h + rest
  {
    assert (q' + h' + rest') + (taken + released + gained) == (q + h + rest) + (taken + released + gained) by {
      calc {
        (q' + h' + rest') + (taken + released + gained);
        (q' + taken) + (h' + released) + (rest' + gained);
        q + (h + gained) + (rest + taken + released);
        (q + h + rest) + (taken + released + gained);
      }
    }
    Cancel(q' + h' + rest', q + h + rest, taken + released + gained);
  }

  function TakenBy(s: System, c: nat, e: Effect): multiset<Item>
    requires c < |s.queues|
  {
    if e.Took? || e.TookBroken? then HeadItem(s.queues[c]) else multiset{}
  }

  lemma ApplyQueued(s: System, i: nat, c: nat, w': Worker, e: Effect)
    requires i < |s.workers| && c < |s.queues|
    ensures Queued(Apply(s, i, c, w', e)) + TakenBy(s, c, e) == Queued(s)
  {
    var s' := Apply(s, i, c, w', e);
    if (e.Took? || e.TookBroken?) && s.queues[c] != [] {
      PopHeadQueued(s, c);
    } else {
    }
  }

  lemma ApplyHeld(s: System, i: nat, c: nat, w': Worker, e: Effect)
    requires i < |s.workers| && c < |s.queues| && Balanced(Head(s.queues[c]), s.workers[i], w', e)
    ensures Held(Apply(s, i, c, w', e)) + ItemsOut(s.workers[i], e) == Held(s) + ItemsIn(Head(s.queues[c]), e)
  {
    var w, s' := s.workers[i], Apply(s, i, c, w', e);
    assert s'.workers == s.workers[i := w'];
    GatherUpdate(s.workers, i, w', Items);
    Rebalance(Held(s), Held(s'), Items(w), Items(w'), ItemsIn(Head(s.queues[c]), e), ItemsOut(w, e));
  }

  lemma ApplyRest(s: System, i: nat, c: nat, w': Worker, e: Effect)
    requires i < |s.workers| && c < |s.queues|
    ensures var s' := Apply(s, i, c, w', e);
            && Rest(s'.book) + ItemsIn(Head(s.queues[c]), e) == Rest(s.book) + TakenBy(s, c, e) + ItemsOut(s.workers[i], e)
            && s'.book.issued == s.book.issued
  {
  }

  lemma ApplyItems(s: System, i: nat, c: nat, w': Worker, e: Effect)
    requires i < |s.workers| && c < |s.queues| && Balanced(Head(s.queues[c]), s.workers[i], w', e)
    requires ItemsConserved(s)
    ensures ItemsConserved(Apply(s, i, c, w', e))
  {
    var s' := Apply(s, i, c, w', e);
    ApplyQueued(s, i, c, w', e);
    ApplyHeld(s, i, c, w', e);
    ApplyRest(s, i, c, w', e);
    Transfer(Queued(s), Queued(s'), Held(s), Held(s'), Rest(s.book), Rest(s'.book),
             TakenBy(s, c, e), ItemsIn(Head(s.queues[c]), e), ItemsOut(s.workers[i], e));
  }

  lemma ApplyCounters(s: System, i: nat, c: nat, w': Worker, e: Effect)
    requires i < |s.workers| && c < |s.queues| && Balanced(Head(s.queues[c]), s.workers[i], w', e)
    requires CountersAgree(s)
    ensures CountersAgree(Apply(s, i, c, w', e))
    ensures SkipsAgree(s) ==> SkipsAgree(Apply(s, i, c, w', e))
  {
    SumUpdate(s.workers, i, w', InFlightOf);
    SumUpdate(s.workers, i, w', SkipsPending);
    ApplyTicks(s, i, c, w', e);
  }

  /** What an effect does to the counters and to the book. */
  lemma ApplyTicks(s: System, i: nat, c: nat, w': Worker, e: Effect)
    requires i < |s.workers| && c < |s.queues|
    ensures var s' := Apply(s, i, c, w', e);
            && s'.workers == s.workers[i := w']
            && s'.counters.active - s'.book.leakedActive == s.counters.active - s.book.leakedActive + InFlightDelta(s.workers[i], e)
            && s'.counters.finished - |s'.book.finished| == s.counters.finished - |s.book.finished|
            && s'.counters.finished + s'.book.leakedSkips - s'.book.answered - s'.counters.skipped + SkipsDelta(s.workers[i], e)
               == s.counters.finished + s.book.leakedSkips - s.book.answered - s.counters.skipped
            && s'.book.carriedSkips == s.book.carriedSkips
  {
  }

  lemma WorkerStepAccounts(s: System, i: nat, move: WorkerMove, s': System)
    requires WorkerStep(s, i, move) == Some(s') && ItemsConserved(s) && CountersAgree(s)
    ensures ItemsConserved(s') && CountersAgree(s')
    ensures SkipsAgree(s) ==> SkipsAgree(s')
  {
    var c := ChannelOf(s, i);
    var head := Head(s.queues[c]);
    var out := Step(s.signals, head, s.workers[i], move);
    StepBalanced(s.signals, head, s.workers[i], move);
    ApplyItems(s, i, c, out.worker, out.effect);
    ApplyCounters(s, i, c, out.worker, out.effect);
  }

  // ---- Main steps ----

  lemma KillAccounts(s: System, i: nat)
    requires i < |s.workers| && |s.queues| > 0 && ItemsConserved(s) && CountersAgree(s)
    ensures ItemsConserved(Kill(s, i)) && CountersAgree(Kill(s, i))
    ensures SkipsAgree(s) ==> SkipsAgree(Kill(s, i))
  {
    var w := s.workers[i];
    if w.alive {
      CrashBalanced(Head(s.queues[0]), w);
      ApplyItems(s, i, 0, Corpse(w), Died);
      ApplyCounters(s, i, 0, Corpse(w), Died);
      assert Kill(s, i) == Apply(s, i, 0, Corpse(w), Died);
    }
  }

  lemma {:induction false} EnqueueAll(queues: seq<seq<Item>>, item: Item, longer: seq<seq<Item>>)
    requires |longer| == |queues| && forall c :: 0 <= c < |queues| ==> longer[c] == queues[c] + [item]
    ensures Gather(longer, QueueItems) == Gather(queues, QueueItems) + multiset{}[item := |queues|]
  {
    if queues != [] {
      EnqueueAll(queues[1..], item, longer[1..]);
      assert QueueItems(longer[0]) == QueueItems(queues[0]) + multiset{item};
    }
  }

  lemma EnqueueQueued(s: System, item: Item, channel: Option<nat>)
    requires |s.queues| > 0
    ensures Queued(Enqueue(s, item, channel)) == Queued(s) + Added(s, item, channel)
  {
    var s' := Enqueue(s, item, channel);
    if channel.None? {
      EnqueueAll(s.queues, item, s'.queues);
    } else {
      var c := channel.value % |s.queues|;
      assert s'.queues == s.queues[c := s.queues[c] + [item]];
      GatherUpdate(s.queues, c, s.queues[c] + [item], QueueItems);
      assert QueueItems(s.queues[c] + [item]) == QueueItems(s.queues[c]) + multiset{item};
      Cancel(Queued(s'), Queued(s) + multiset{item}, QueueItems(s.queues[c]));
    }
  }

  lemma EnqueueAccounts(s: System, item: Item, channel: Option<nat>)
    requires |s.queues| > 0 && ItemsConserved(s) && CountersAgree(s)
    ensures ItemsConserved(Enqueue(s, item, channel)) && CountersAgree(Enqueue(s, item, channel))
    ensures SkipsAgree(s) ==> SkipsAgree(Enqueue(s, item, channel))
  {
    EnqueueQueued(s, item, channel);
  }

  lemma SwapChannelAccounts(s: System, i: nat)
    requires |s.queues| > 0 && ItemsConserved(s) && CountersAgree(s)
    ensures ItemsConserved(SwapChannel(s, i)) && CountersAgree(SwapChannel(s, i))
    ensures SkipsAgree(s) ==> SkipsAgree(SwapChannel(s, i))
  {
    if |s.queues| > 1 {
      var c := i % |s.queues|;
      GatherUpdate(s.queues, c, [], QueueItems);
      assert Queued(SwapChannel(s, i)) + QueueItems(s.queues[c]) == Queued(s);
    }
  }

  lemma RespawnAccounts(s: System, i: nat)
    requires i < |s.workers| && s.workers[i].tasks == [] && s.workers[i].pc.Top?
    requires ItemsConserved(s) && CountersAgree(s)
    ensures ItemsConserved(Respawn(s, i)) && CountersAgree(Respawn(s, i))
    ensures SkipsAgree(s) ==> SkipsAgree(Respawn(s, i))
  {
    var w' := Respawn(s, i).workers[i];
    GatherUpdate(s.workers, i, w', Items);
    SumUpdate(s.workers, i, w', InFlightOf);
    SumUpdate(s.workers, i, w', SkipsPending);
    assert Items(w') == multiset{} == Items(s.workers[i]);
    Cancel(Held(Respawn(s, i)), Held(s), multiset{});
    assert Queued(Respawn(s, i)) == Queued(s);
  }

  /** Steps that only move the main process or change signals. */
  lemma SameAccounts(s: System, s': System)
    requires s'.queues == s.queues && s'.workers == s.workers && s'.book == s.book
    requires s'.counters == s.counters
    requires ItemsConserved(s) && CountersAgree(s)
    ensures ItemsConserved(s') && CountersAgree(s')
    ensures SkipsAgree(s) ==> SkipsAgree(s')
  {
  }

  lemma ReplaceAccounts(s: System, i: nat, s': System)
    requires i < |s.workers| && |s.queues| > 0 && s' == SwapChannel(Respawn(Kill(s, i), i), i)
    requires forall w :: w in s.workers && !w.alive ==> w.tasks == [] && w.pc.Top?
    requires ItemsConserved(s) && CountersAgree(s)
    ensures ItemsConserved(s') && CountersAgree(s') && (SkipsAgree(s) ==> SkipsAgree(s'))
  {
    KillAccounts(s, i);
    var dead := Kill(s, i);
    RespawnAccounts(dead, i);
    SwapChannelAccounts(Respawn(dead, i), i);
  }

  lemma VisitAccounts(s: System)
    requires s.main.Visiting? && s.main.index < |s.workers| && |s.queues| > 0
    requires forall w :: w in s.workers && !w.alive ==> w.tasks == [] && w.pc.Top?
    requires ItemsConserved(s) && CountersAgree(s)
    ensures ItemsConserved(VisitWorker(s)) && CountersAgree(VisitWorker(s))
    ensures SkipsAgree(s) ==> SkipsAgree(VisitWorker(s))
  {
    var i := s.main.index;
    if MustReplace(s, i) {
      var s' := SwapChannel(Respawn(Kill(s, i), i), i);
      ReplaceAccounts(s, i, s');
      SameAccounts(s', VisitWorker(s));
    } else {
      SameAccounts(s, VisitWorker(s));
    }
  }

  lemma DrainItemAccounts(s: System, c: nat, s': System)
    requires c < |s.queues| && s.queues[c] != [] && ItemsConserved(s) && CountersAgree(s)
    requires s' == DrainHead(s, c)
    ensures ItemsConserved(s') && CountersAgree(s')
    ensures SkipsAgree(s) ==> SkipsAgree(s')
  {
    PopHeadQueued(s, c);
    Transfer(Queued(s), Queued(s'), Held(s), Held(s'), Rest(s.book), Rest(s'.book),
             HeadItem(s.queues[c]), multiset{}, multiset{});
  }

  lemma {:induction false} SameHoldings(ws: seq<Worker>, ws': seq<Worker>)
    requires |ws| == |ws'|
    requires forall i :: 0 <= i < |ws| ==> ws'[i] == ws[i].(share := ws'[i].share)
    ensures Gather(ws', Items) == Gather(ws, Items)
    ensures Sum(ws', InFlightOf) == Sum(ws, InFlightOf) && Sum(ws', SkipsPending) == Sum(ws, SkipsPending)
  {
    if ws != [] {
      assert ws'[0] == ws[0].(share := ws'[0].share);
      SameHoldings(ws[1..], ws'[1..]);
    }
  }

  lemma ShareOutAccounts(s: System, level: nat, pinned: Option<nat>)
    requires |s.workers| > 0 && ItemsConserved(s) && CountersAgree(s)
    ensures ItemsConserved(ShareOut(s, level, pinned)) && CountersAgree(ShareOut(s, level, pinned))
    ensures SkipsAgree(s) ==> SkipsAgree(ShareOut(s, level, pinned))
  {
    SameHoldings(s.workers, ShareOut(s, level, pinned).workers);
  }

  lemma ResetAccounts(s: System, s': System)
    requires CountersAgree(s) && s' == Reset(s).(main := s'.main, teardown := s'.teardown)
    ensures ItemsConserved(s') && CountersAgree(s') && SkipsAgree(s')
  {
    assert Queued(s') == Queued(s) && Held(s') == Held(s);
  }

  lemma TerminateAccounts(s: System, i: nat)
    requires s.main.Terminating? && i < |s.workers| && |s.queues| > 0 && ItemsConserved(s) && CountersAgree(s)
    ensures ItemsConserved(TerminateWorker(s, i)) && CountersAgree(TerminateWorker(s, i))
    ensures SkipsAgree(s) ==> SkipsAgree(TerminateWorker(s, i))
  {
    KillAccounts(s, i);
    SameAccounts(Kill(s, i), TerminateWorker(s, i));
  }

  predicate Relabels(move: MainMove) {
    !move.SetShares? && !move.Put? && !move.Terminate? && !move.DrainItem? && !move.Visit? && !move.ResetCounters? && !move.SkipStage?
  }

  lemma RelabelShape(s: System, move: MainMove, s': System)
    requires Relabels(move) && MainStep(s, move) == Some(s')
    ensures s'.queues == s.queues && s'.workers == s.workers && s'.book == s.book
    ensures s'.counters == s.counters
  {
  }

  lemma PutAccounts(s: System, id: nat, channel: Option<nat>, s': System)
    requires |s.queues| > 0 && MainStep(s, Put(id, channel)) == Some(s')
    requires ItemsConserved(s) && CountersAgree(s) && SkipsAgree(s)
    ensures ItemsConserved(s') && CountersAgree(s') && SkipsAgree(s')
  {
    EnqueueAccounts(s, Item(s.stage, id), channel);
  }

  lemma DrainMoveAccounts(s: System, s': System)
    requires MainStep(s, DrainItem) == Some(s')
    requires ItemsConserved(s) && CountersAgree(s) && SkipsAgree(s)
    ensures ItemsConserved(s') && CountersAgree(s') && SkipsAgree(s')
  {
    DrainItemAccounts(s, s.main.channel, s');
  }

  lemma MainStepAccounts(s: System, move: MainMove, s': System)
    requires |s.queues| > 0 && MainStep(s, move) == Some(s')
    requires forall w :: w in s.workers && !w.alive ==> w.tasks == [] && w.pc.Top?
    requires ItemsConserved(s) && CountersAgree(s) && SkipsAgree(s)
    ensures ItemsConserved(s') && CountersAgree(s') && SkipsAgree(s')
  {
    if Relabels(move) {
      RelabelShape(s, move, s');
      SameAccounts(s, s');
    } else if move.ResetCounters? || move.SkipStage? {
      ResetAccounts(s, s');
    } else {
      match move
      case SetShares(level, pinned) => ShareOutAccounts(s, level, pinned);
      case Put(id, channel) => PutAccounts(s, id, channel, s');
      case Terminate(i) => TerminateAccounts(s, i);
      case DrainItem => DrainMoveAccounts(s, s');
      case Visit => VisitAccounts(s);
    }
  }
}
