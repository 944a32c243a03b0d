/** Circuit breaker triggers, which latch, and the breaker over them, which resets. */
module CircuitBreaker {
  import opened Common

  datatype Sample = Sample(ts: int, hit: bool)

  /** The latest times never go back. */
  predicate Chronological(history: seq<Sample>) {
    forall i, j :: 0 <= i < j < |history| ==> history[i].ts <= history[j].ts
  }

  // ---- What the triggers compute ----

  /** The samples no older than the cutoff. */
  function Since(history: seq<Sample>, cutoff: int): seq<Sample> {
    if history == [] then []
    else
      var last := history[|history| - 1];
      Since(history[..|history| - 1], cutoff) + (if last.ts >= cutoff then [last] else [])
  }

  /** Old samples are only dropped from the front. */
  function DropOld(buf: seq<Sample>, cutoff: int): seq<Sample> {
    if buf != [] && buf[0].ts < cutoff then DropOld(buf[1..], cutoff) else buf
  }

  /** What the deque holds after a history. */
  function Window(history: seq<Sample>, size: int): seq<Sample> {
    if history == [] then []
    else
      var last := history[|history| - 1];
      DropOld(Window(history[..|history| - 1], size) + [last], last.ts - size)
  }

  function Hits(samples: seq<Sample>): nat {
    if samples == [] then 0 else Hits(samples[..|samples| - 1]) + (if samples[|samples| - 1].hit then 1 else 0)
  }

  function Rate(samples: seq<Sample>): real {
    if samples == [] then 0.0 else Hits(samples) as real / |samples| as real
  }

  function TrailingHits(history: seq<Sample>): nat {
    if history == [] || !history[|history| - 1].hit then 0 else 1 + TrailingHits(history[..|history| - 1])
  }

  datatype Spec = RateOver(size: int, threshold: real, min: int) | RunOf(n: int)

  /** Whether the newest sample of a history sets the trigger off. */
  predicate SetsOff(spec: Spec, history: seq<Sample>) {
    match spec
    case RateOver(size, threshold, min) =>
      var window := Window(history, size);
      |window| >= min && Rate(window) >= threshold
    case RunOf(n) => TrailingHits(history) >= n
  }

  /** A trigger has fired when some sample has set it off. */
  predicate FiredOn(spec: Spec, history: seq<Sample>) {
    history != [] && (FiredOn(spec, history[..|history| - 1]) || SetsOff(spec, history))
  }

  // ---- Their declarative meaning ----

  lemma {:induction false} SincePush(history: seq<Sample>, s: Sample, cutoff: int)
    ensures Since(history + [s], cutoff) == Since(history, cutoff) + (if s.ts >= cutoff then [s] else [])
  {
    assert (history + [s])[..|history|] == history;
  }

  lemma {:induction false} SinceHead(history: seq<Sample>, cutoff: int)
    requires history != []
    ensures Since(history, cutoff) == (if history[0].ts >= cutoff then [history[0]] else []) + Since(history[1..], cutoff)
  {
    var n := |history| - 1;
    if n > 0 {
      SinceHead(history[..n], cutoff);
      assert history[..n][1..] == history[1..][..n - 1];
    }
  }

  /** Everything is recent, or the oldest recent sample hides no older one behind it. */
  predicate OldOnesFirst(buf: seq<Sample>, cutoff: int) {
    forall i, j :: 0 <= i < j < |buf| && buf[j].ts < cutoff ==> buf[i].ts < cutoff
  }

  predicate AllRecent(buf: seq<Sample>, cutoff: int) {
    forall i :: 0 <= i < |buf| ==> buf[i].ts >= cutoff
  }

  lemma AllRecentPush(front: seq<Sample>, last: Sample, buf: seq<Sample>, cutoff: int)
    requires buf == front + [last]
    ensures AllRecent(buf, cutoff) <==> AllRecent(front, cutoff) && last.ts >= cutoff
  {
    assert buf[|front|] == last && forall i :: 0 <= i < |front| ==> buf[i] == front[i];
  }

  lemma {:induction false} SinceAll(buf: seq<Sample>, cutoff: int)
    ensures AllRecent(buf, cutoff) ==> Since(buf, cutoff) == buf
    ensures |Since(buf, cutoff)| <= |buf|
    ensures !AllRecent(buf, cutoff) ==> |Since(buf, cutoff)| < |buf|
  {
    if buf != [] {
      var n := |buf| - 1;
      var front, last := buf[..n], buf[n];
      assert buf == front + [last];
      SinceAll(front, cutoff);
      AllRecentPush(front, last, buf, cutoff);
      SincePush(front, last, cutoff);
    }
  }

  /** Dropping from the front keeps exactly the recent samples when, and only when, no old one stands
      behind a recent one. */
  lemma {:induction false} DropOldIsFilter(buf: seq<Sample>, cutoff: int)
    ensures DropOld(buf, cutoff) == Since(buf, cutoff) <==> OldOnesFirst(buf, cutoff)
  {
    if buf != [] {
      SinceHead(buf, cutoff);
      if buf[0].ts < cutoff {
        DropOldIsFilter(buf[1..], cutoff);
        assert forall i :: 0 <= i < |buf| - 1 ==> buf[1..][i] == buf[i + 1];
        assert OldOnesFirst(buf[1..], cutoff) ==> OldOnesFirst(buf, cutoff);
      } else {
        SinceAll(buf, cutoff);
      }
    }
  }

  lemma {:induction false} SinceTwice(history: seq<Sample>, early: int, late: int)
    requires early <= late
    ensures Since(Since(history, early), late) == Since(history, late)
  {
    if history != [] {
      var n := |history| - 1;
      SinceTwice(history[..n], early, late);
      if history[n].ts >= early {
        SincePush(Since(history[..n], early), history[n], late);
      } else {
        assert Since(history[..n], early) + [] == Since(history[..n], early);
      }
    }
  }

  lemma {:induction false} SinceChronological(history: seq<Sample>, cutoff: int)
    requires Chronological(history)
    ensures Chronological(Since(history, cutoff))
    ensures forall i :: 0 <= i < |Since(history, cutoff)| ==> Since(history, cutoff)[i] in history
  {
    if history != [] {
      SinceChronological(history[..|history| - 1], cutoff);
    }
  }

  /** What the deque keeps of a filtered chronological history, when one more sample comes in. */
  lemma DropOldFilters(before: seq<Sample>, kept: seq<Sample>, early: int, last: Sample, late: int)
    requires Chronological(before) && kept == Since(before, early) && early <= late
    requires forall i :: 0 <= i < |before| ==> before[i].ts <= last.ts
    ensures DropOld(kept + [last], late) == Since(before + [last], late)
  {
    SinceChronological(before, early);
    assert forall i :: 0 <= i < |kept| ==> kept[i] in before;
    DropOldIsFilter(kept + [last], late);
    SinceTwice(before, early, late);
    SincePush(kept, last, late);
    SincePush(before, last, late);
  }

  lemma WindowUnfolds(before: seq<Sample>, last: Sample, size: int)
    ensures Window(before + [last], size) == DropOld(Window(before, size) + [last], last.ts - size)
  {
    assert (before + [last])[..|before|] == before;
  }

  /** While the clock does not go back, the deque holds exactly the samples of the window. */
  lemma {:induction false} WindowIsFilter(history: seq<Sample>, size: int)
    requires Chronological(history) && history != []
    ensures Window(history, size) == Since(history, history[|history| - 1].ts - size)
  {
    var n := |history| - 1;
    var before, last := history[..n], history[n];
    assert history == before + [last];
    WindowUnfolds(before, last, size);
    if n == 0 {
      assert Window([], size) == [] == Since([], last.ts - size);
      DropOldFilters(before, [], last.ts - size, last, last.ts - size);
    } else {
      WindowIsFilter(before, size);
      DropOldFilters(before, Window(before, size), history[n - 1].ts - size, last, last.ts - size);
    }
  }

  /** A chronological history splits at the cutoff: everything before the split is older, everything behind it is not. */
  ghost predicate SplitsAt(history: seq<Sample>, k: int, cutoff: int) {
    && 0 <= k <= |history|
    && (forall i :: 0 <= i < k ==> history[i].ts < cutoff)
    && (forall i :: k <= i < |history| ==> history[i].ts >= cutoff)
  }

  lemma SplitPush(front: seq<Sample>, last: Sample, history: seq<Sample>, k: nat, cutoff: int)
    requires history == front + [last] && Chronological(history) && SplitsAt(front, k, cutoff)
    ensures last.ts >= cutoff ==> SplitsAt(history, k, cutoff) && history[k..] == front[k..] + [last]
    ensures last.ts < cutoff ==> k == |front| && SplitsAt(history, |history|, cutoff)
  {
    assert k < |front| ==> history[k] == front[k] && history[k].ts <= history[|front|].ts;
    assert forall i :: 0 <= i < |front| ==> history[i] == front[i];
  }

  lemma {:induction false} SinceIsTheRest(history: seq<Sample>, cutoff: int) returns (k: nat)
    requires Chronological(history)
    ensures SplitsAt(history, k, cutoff) && Since(history, cutoff) == history[k..]
  {
    k := 0;
    if history != [] {
      var n := |history| - 1;
      var front, last := history[..n], history[n];
      assert history == front + [last];
      k := SinceIsTheRest(front, cutoff);
      SplitPush(front, last, history, k, cutoff);
      SincePush(front, last, cutoff);
      if last.ts < cutoff {
        k := n + 1;
      }
    }
  }

  function HitOne(s: Sample): int {
    if s.hit then 1 else 0
  }

  lemma {:induction false} HitsAreCounted(samples: seq<Sample>)
    ensures Hits(samples) == Sum(samples, HitOne)
  {
    if samples != [] {
      var n := |samples| - 1;
      HitsAreCounted(samples[..n]);
      assert samples == samples[..n] + [samples[n]];
      SumAppend(samples[..n], samples[n], HitOne);
    }
  }

  /** There are enough samples, and the hits among them make up the share; without any sample the share is 0. */
  predicate ShareReached(samples: seq<Sample>, threshold: real, min: int) {
    |samples| >= min && if samples == [] then threshold <= 0.0 else Sum(samples, HitOne) as real >= threshold * |samples| as real
  }

  lemma RateIsShare(samples: seq<Sample>, threshold: real, min: int)
    ensures |samples| >= min && Rate(samples) >= threshold <==> ShareReached(samples, threshold, min)
  {
    HitsAreCounted(samples);
    if samples != [] {
      ShareAt(Hits(samples) as real, |samples| as real, threshold);
    }
  }

  /** On a chronological history the newest sample sets the rate trigger off exactly when the samples no older than the
      window reach the share. */
  lemma RateSetsOffExactly(history: seq<Sample>, size: int, threshold: real, min: int) returns (k: nat)
    requires Chronological(history) && history != []
    ensures SplitsAt(history, k, history[|history| - 1].ts - size)
    ensures SetsOff(RateOver(size, threshold, min), history) <==> ShareReached(history[k..], threshold, min)
  {
    WindowIsFilter(history, size);
    k := SinceIsTheRest(history, history[|history| - 1].ts - size);
    RateIsShare(history[k..], threshold, min);
  }

  lemma ShareAt(hits: real, n: real, threshold: real)
    requires n > 0.0
    ensures hits / n >= threshold <==> hits >= threshold * n
  {
    assert (hits / n) * n == hits;
    assert hits - threshold * n == (hits / n - threshold) * n;
  }

  /** A clock set back leaves an old sample in the window: behind a recent one, nothing drops it. */
  lemma ClockSetBackKeepsStaleSample(first: Sample, stale: Sample, last: Sample, size: int)
    requires stale.ts < last.ts - size <= first.ts && first.ts - size <= stale.ts < first.ts
    ensures Window([first, stale, last], size) == [first, stale, last]
    ensures Since([first, stale, last], last.ts - size) != [first, stale, last]
  {
    assert [first, stale, last][..2] == [first, stale] && [first, stale][..1] == [first];
    assert [first][..0] == [];
    assert Window([first], size) == DropOld([] + [first], first.ts - size);
    assert [] + [first] == [first] && [first][1..] == [];
    assert Window([first], size) == [first];
    assert [first] + [stale] == [first, stale];
    assert Window([first, stale], size) == [first, stale];
    assert [first, stale] + [last] == [first, stale, last];
    SinceAll([first, stale, last], last.ts - size);
    assert [first, stale, last][1].ts < last.ts - size;
  }

  /** A run of n hits somewhere in the history. */
  ghost predicate HasRun(history: seq<Sample>, n: nat) {
    exists i :: RunAt(history, i, n)
  }

  predicate RunAt(history: seq<Sample>, i: int, n: nat) {
    0 <= i && i + n <= |history| && forall j :: i <= j < i + n ==> history[j].hit
  }

  lemma {:induction false} TrailingIsRun(history: seq<Sample>, n: nat)
    requires n <= |history|
    ensures TrailingHits(history) >= n <==> forall j :: |history| - n <= j < |history| ==> history[j].hit
  {
    if n > 0 {
      var m := |history| - 1;
      if history[m].hit {
        TrailingIsRun(history[..m], n - 1);
        assert forall j :: m - (n - 1) <= j < m ==> history[..m][j] == history[j];
        if forall j :: m - (n - 1) <= j < m ==> history[..m][j].hit {
          assert forall j :: |history| - n <= j < |history| ==> history[j].hit;
        }
      }
    }
  }

  lemma {:induction false} TrailingAtMost(history: seq<Sample>)
    ensures TrailingHits(history) <= |history|
  {
    if history != [] {
      TrailingAtMost(history[..|history| - 1]);
    }
  }

  /** For a positive threshold, the trigger has fired when the history holds that many hits in a row. */
  lemma {:induction false} ConsecutiveFiresOnRuns(history: seq<Sample>, n: nat)
    requires n > 0
    ensures FiredOn(RunOf(n), history) <==> HasRun(history, n)
  {
    TrailingAtMost(history);
    if history == [] {
      assert forall i :: !RunAt(history, i, n);
    } else {
      var m := |history| - 1;
      var before := history[..m];
      ConsecutiveFiresOnRuns(before, n);
      if |history| >= n {
        TrailingIsRun(history, n);
      }
      if HasRun(before, n) {
        var i :| RunAt(before, i, n);
        assert forall j :: i <= j < i + n ==> history[j] == before[j];
        assert RunAt(history, i, n);
      }
      if TrailingHits(history) >= n {
        assert RunAt(history, |history| - n, n);
      }
      if HasRun(history, n) {
        var i :| RunAt(history, i, n);
        if i + n <= m {
          assert forall j :: i <= j < i + n ==> history[j] == before[j];
          assert RunAt(before, i, n);
        }
      }
    }
  }

  /** A threshold of zero or less fires on the first sample, hit or not. */
  lemma {:induction false} NonPositiveThresholdFiresAtOnce(history: seq<Sample>, n: int)
    requires n <= 0
    ensures FiredOn(RunOf(n), history) <==> history != []
  {
  }

  /** Some sample set the trigger off when it came in. */
  lemma {:induction false} FiredOnIsSomePrefix(spec: Spec, history: seq<Sample>)
    ensures FiredOn(spec, history) <==> exists k :: 1 <= k <= |history| && SetsOff(spec, history[..k])
  {
    if history != [] {
      var n := |history| - 1;
      FiredOnIsSomePrefix(spec, history[..n]);
      assert forall k :: 1 <= k <= n ==> history[..n][..k] == history[..k];
      assert history[..n + 1] == history;
    }
  }

  lemma FiredPush(spec: Spec, history: seq<Sample>, s: Sample)
    ensures FiredOn(spec, history + [s]) <==> FiredOn(spec, history) || SetsOff(spec, history + [s])
  {
    assert (history + [s])[..|history|] == history;
  }

  lemma {:induction false} FiredStays(spec: Spec, history: seq<Sample>, more: seq<Sample>)
    requires FiredOn(spec, history)
    ensures FiredOn(spec, history + more)
  {
    if more == [] {
      assert history + more == history;
    } else {
      var n := |more| - 1;
      FiredStays(spec, history, more[..n]);
      assert (history + more)[..|history + more| - 1] == history + more[..n];
    }
  }
}
