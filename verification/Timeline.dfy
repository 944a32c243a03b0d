/** The token timeline of a streamed response, and the latencies derived from it. */
module Timeline {
  import opened Common

  // ---- Merging two channels by time ----

  predicate SortedBy<T>(s: seq<T>, key: T -> real) {
    forall i, j :: 0 <= i < j < |s| ==> key(s[i]) <= key(s[j])
  }

  /** Merges two lists, each in order; at equal times the first goes first. */
  function Merge<T>(a: seq<T>, b: seq<T>, key: T -> real): seq<T>
    decreases |a| + |b|
  {
    if a == [] then b
    else if b == [] then a
    else if key(b[0]) < key(a[0]) then [b[0]] + Merge(a, b[1..], key)
    else [a[0]] + Merge(a[1..], b, key)
  }

  lemma HeadAndRest<T>(s: seq<T>)
    requires s != []
    ensures multiset(s) == multiset{s[0]} + multiset(s[1..])
  {
    assert s == [s[0]] + s[1..];
  }

  lemma HeadInFront<T>(x: T, rest: seq<T>, a: multiset<T>, b: multiset<T>)
    requires multiset(rest) == a + b
    ensures multiset([x] + rest) == (multiset{x} + a) + b && multiset([x] + rest) == a + (multiset{x} + b)
  {
    assert multiset([x] + rest) == multiset{x} + multiset(rest);
  }

  lemma {:induction false} MergeKeepsAll<T>(a: seq<T>, b: seq<T>, key: T -> real)
    ensures multiset(Merge(a, b, key)) == multiset(a) + multiset(b)
    ensures |Merge(a, b, key)| == |a| + |b|
    decreases |a| + |b|
  {
    if a != [] && b != [] {
      if key(b[0]) < key(a[0]) {
        MergeKeepsAll(a, b[1..], key);
        HeadAndRest(b);
        HeadInFront(b[0], Merge(a, b[1..], key), multiset(a), multiset(b[1..]));
      } else {
        MergeKeepsAll(a[1..], b, key);
        HeadAndRest(a);
        HeadInFront(a[0], Merge(a[1..], b, key), multiset(a[1..]), multiset(b));
      }
    }
  }

  /** An element no later than all of a and b goes in front of their merge. */
  lemma InFront<T>(head: T, a: seq<T>, b: seq<T>, key: T -> real)
    requires SortedBy(Merge(a, b, key), key)
    requires (forall x :: x in a ==> key(head) <= key(x)) && (forall x :: x in b ==> key(head) <= key(x))
    ensures SortedBy([head] + Merge(a, b, key), key)
  {
    var rest := Merge(a, b, key);
    MergeKeepsAll(a, b, key);
    forall k | 0 <= k < |rest| ensures key(head) <= key(rest[k]) {
      assert rest[k] in multiset(rest);
      assert rest[k] in a || rest[k] in b;
    }
  }

  lemma {:induction false} MergeSorts<T>(a: seq<T>, b: seq<T>, key: T -> real)
    requires SortedBy(a, key) && SortedBy(b, key)
    ensures SortedBy(Merge(a, b, key), key)
    decreases |a| + |b|
  {
    if a != [] && b != [] {
      if key(b[0]) < key(a[0]) {
        MergeSorts(a, b[1..], key);
        InFront(b[0], a, b[1..], key);
      } else {
        MergeSorts(a[1..], b, key);
        InFront(a[0], a[1..], b, key);
      }
    }
  }

  /** A time, as its own sort key. */
  function Instant(t: real): real {
    t
  }

  /** One time per chunk of either channel, in order. */
  function GeneratedChunkTimes(content: seq<real>, reasoning: seq<real>): seq<real> {
    Merge(content, reasoning, Instant)
  }

  // ---- Counting tokens chunk by chunk ----

  datatype Chunk = Chunk(time: real, texts: seq<string>)

  function ChunkTime(c: Chunk): real {
    c.time
  }

  function TokensIn(texts: seq<string>, count: string -> nat): nat {
    if texts == [] then 0 else TokensIn(texts[..|texts| - 1], count) + count(texts[|texts| - 1])
  }

  function Repeat(t: real, n: nat): seq<real> {
    if n == 0 then [] else Repeat(t, n - 1) + [t]
  }

  /** Every token at the arrival time of its chunk. */
  function TokenTimes(chunks: seq<Chunk>, count: string -> nat): seq<real> {
    if chunks == [] then []
    else
      var last := chunks[|chunks| - 1];
      TokenTimes(chunks[..|chunks| - 1], count) + Repeat(last.time, TokensIn(last.texts, count))
  }

  function TotalTokens(chunks: seq<Chunk>, count: string -> nat): nat {
    if chunks == [] then 0
    else TotalTokens(chunks[..|chunks| - 1], count) + TokensIn(chunks[|chunks| - 1].texts, count)
  }

  lemma {:induction false} RepeatAll(t: real, n: nat)
    ensures |Repeat(t, n)| == n && forall i :: 0 <= i < n ==> Repeat(t, n)[i] == t
  {
    if n > 0 {
      RepeatAll(t, n - 1);
    }
  }

  /** As many times as tokens, in order, and each the time of a chunk. */
  lemma {:induction false} TokenTimesInOrder(chunks: seq<Chunk>, count: string -> nat)
    requires SortedBy(chunks, ChunkTime)
    ensures |TokenTimes(chunks, count)| == TotalTokens(chunks, count)
    ensures SortedBy(TokenTimes(chunks, count), Instant)
    ensures forall i :: 0 <= i < |TokenTimes(chunks, count)| ==> exists k :: 0 <= k < |chunks| && TokenTimes(chunks, count)[i] == chunks[k].time
  {
    if chunks != [] {
      var n := |chunks| - 1;
      var front := chunks[..n];
      TokenTimesInOrder(front, count);
      RepeatAll(chunks[n].time, TokensIn(chunks[n].texts, count));
      var times := TokenTimes(chunks, count);
      var before := TokenTimes(front, count);
      forall i | 0 <= i < |times| ensures exists k :: 0 <= k < |chunks| && times[i] == chunks[k].time {
        if i < |before| {
          var k :| 0 <= k < |front| && before[i] == front[k].time;
          assert times[i] == chunks[k].time;
        } else {
          assert times[i] == chunks[n].time;
        }
      }
      forall i | 0 <= i < |before| ensures before[i] <= chunks[n].time {
        var k :| 0 <= k < |front| && before[i] == front[k].time;
        assert chunks[k].time <= chunks[n].time;
      }
    }
  }

  lemma {:induction false} TotalCons(c: Chunk, chunks: seq<Chunk>, count: string -> nat)
    ensures TotalTokens([c] + chunks, count) == TokensIn(c.texts, count) + TotalTokens(chunks, count)
  {
    if chunks == [] {
      assert [c] + chunks == [c] && [c][..0] == [];
    } else {
      var n := |chunks| - 1;
      TotalCons(c, chunks[..n], count);
      assert ([c] + chunks)[..n + 1] == [c] + chunks[..n];
    }
  }

  lemma {:induction false} MergeTotals(a: seq<Chunk>, b: seq<Chunk>, count: string -> nat)
    ensures TotalTokens(Merge(a, b, ChunkTime), count) == TotalTokens(a, count) + TotalTokens(b, count)
    decreases |a| + |b|
  {
    if a != [] && b != [] {
      if b[0].time < a[0].time {
        MergeTotals(a, b[1..], count);
        TotalCons(b[0], b[1..], count);
        TotalCons(b[0], Merge(a, b[1..], ChunkTime), count);
        assert b == [b[0]] + b[1..];
      } else {
        MergeTotals(a[1..], b, count);
        TotalCons(a[0], a[1..], count);
        TotalCons(a[0], Merge(a[1..], b, ChunkTime), count);
        assert a == [a[0]] + a[1..];
      }
    }
  }

  /** The timeline of a response whose channels arrived in order: one time per token of either channel,
      in order. */
  lemma TimelineOfResponse(content: seq<Chunk>, reasoning: seq<Chunk>, count: string -> nat)
    requires SortedBy(content, ChunkTime) && SortedBy(reasoning, ChunkTime)
    ensures var times := TokenTimes(Merge(content, reasoning, ChunkTime), count);
            && SortedBy(times, Instant)
            && |times| == TotalTokens(content, count) + TotalTokens(reasoning, count)
  {
    MergeSorts(content, reasoning, ChunkTime);
    TokenTimesInOrder(Merge(content, reasoning, ChunkTime), count);
    MergeTotals(content, reasoning, count);
  }

  /** The tokens of a chunk that arrived at t. */
  function TokensAt(t: real, count: string -> nat): Chunk -> int {
    (c: Chunk) => if c.time == t then Sum(c.texts, Tokens(count)) else 0
  }

  function Tokens(count: string -> nat): string -> int {
    (text: string) => count(text)
  }

  function IsAt(t: real): real -> int {
    (x: real) => if x == t then 1 else 0
  }

  lemma {:induction false} TokensAreSum(texts: seq<string>, count: string -> nat)
    ensures TokensIn(texts, count) == Sum(texts, Tokens(count))
  {
    if texts != [] {
      var n := |texts| - 1;
      TokensAreSum(texts[..n], count);
      assert texts == texts[..n] + [texts[n]];
      SumAppend(texts[..n], texts[n], Tokens(count));
    }
  }

  lemma {:induction false} RepeatedAt(x: real, n: nat, t: real)
    ensures Sum(Repeat(x, n), IsAt(t)) == if x == t then n else 0
  {
    if n > 0 {
      RepeatedAt(x, n - 1, t);
      SumAppend(Repeat(x, n - 1), x, IsAt(t));
    }
  }

  lemma {:induction false} TimesOfChunks(chunks: seq<Chunk>, count: string -> nat, t: real)
    ensures Sum(TokenTimes(chunks, count), IsAt(t)) == Sum(chunks, TokensAt(t, count))
  {
    if chunks != [] {
      var n := |chunks| - 1;
      var front, last := chunks[..n], chunks[n];
      var tokens := TokensIn(last.texts, count);
      TimesOfChunks(front, count, t);
      TokensAreSum(last.texts, count);
      RepeatedAt(last.time, tokens, t);
      SumConcat(TokenTimes(front, count), Repeat(last.time, tokens), IsAt(t));
      assert chunks == front + [last];
      SumAppend(front, last, TokensAt(t, count));
    }
  }

  lemma {:induction false} MergeSums(a: seq<Chunk>, b: seq<Chunk>, f: Chunk -> int)
    ensures Sum(Merge(a, b, ChunkTime), f) == Sum(a, f) + Sum(b, f)
    decreases |a| + |b|
  {
    if a != [] && b != [] {
      if b[0].time < a[0].time {
        MergeSums(a, b[1..], f);
      } else {
        MergeSums(a[1..], b, f);
      }
    }
  }

  /** The timeline has each instant once for every token that arrived then, on either channel. */
  lemma EveryTokenOnItsInstant(content: seq<Chunk>, reasoning: seq<Chunk>, count: string -> nat, t: real)
    ensures Sum(TokenTimes(Merge(content, reasoning, ChunkTime), count), IsAt(t))
         == Sum(content, TokensAt(t, count)) + Sum(reasoning, TokensAt(t, count))
  {
    TimesOfChunks(Merge(content, reasoning, ChunkTime), count, t);
    MergeSums(content, reasoning, TokensAt(t, count));
  }

  const CACHE_LIMIT := 8192

  /** A tokenizer with counts it remembers; `caching` is false where nothing can be attached to it. */
  class CountingTokenizer {
    const count: string -> nat
    const caching: bool
    var cache: map<string, nat>

    ghost predicate Valid()
      reads this
    {
      |cache| <= CACHE_LIMIT && forall text :: text in cache ==> cache[text] == count(text)
    }

    constructor (count: string -> nat, caching: bool)
      ensures Valid() && cache == map[] && this.count == count && this.caching == caching
    {
      this.count, this.caching := count, caching;
      cache := map[];
    }

    method CountTokens(text: string) returns (n: nat)
      requires Valid()
      modifies this
      ensures Valid() && n == count(text)
      ensures !caching ==> cache == old(cache)
    {
      if caching && text in cache {
        return cache[text];
      }
      n := count(text);
      if caching && |cache| < CACHE_LIMIT {
        cache := cache[text := n];
      }
    }

    /** One time per generated token. What is remembered from earlier responses makes no difference. */
    method RetokenizeOutputTokenTimes(content: seq<Chunk>, reasoning: seq<Chunk>) returns (times: seq<real>)
      requires Valid()
      modifies this
      ensures Valid()
      ensures times == TokenTimes(Merge(content, reasoning, ChunkTime), count)
    {
      var chunks := Merge(content, reasoning, ChunkTime);
      times := [];
      var i := 0;
      while i < |chunks|
        invariant i <= |chunks| && Valid() && times == TokenTimes(chunks[..i], count)
      {
        assert chunks[..i + 1][..i] == chunks[..i];
        var tokens := CountChunk(chunks[i].texts);
        if tokens > 0 {
          times := times + Repeat(chunks[i].time, tokens);
        }
        i := i + 1;
      }
      assert chunks[..i] == chunks;
    }

    method CountChunk(texts: seq<string>) returns (tokens: nat)
      requires Valid()
      modifies this
      ensures Valid() && tokens == TokensIn(texts, count)
    {
      tokens := 0;
      var i := 0;
      while i < |texts|
        invariant i <= |texts| && Valid() && tokens == TokensIn(texts[..i], count)
      {
        assert texts[..i + 1][..i] == texts[..i];
        var n := CountTokens(texts[i]);
        tokens := tokens + n;
        i := i + 1;
      }
      assert texts[..i] == texts;
    }
  }

  // ---- Latencies ----

  /** The first content time that is on the timeline. */
  function FirstOnTimeline(content: seq<real>, timeline: seq<real>): (t: Option<real>)
    ensures t.Some? ==> t.value in content && t.value in timeline
    ensures t.None? ==> forall x :: x in content ==> x !in timeline
  {
    if content == [] then None
    else if content[0] in timeline then Some(content[0])
    else FirstOnTimeline(content[1..], timeline)
  }

  function FirstContentTokenTime(content: seq<real>, reasoning: seq<real>, timeline: seq<real>): Option<real> {
    if content != [] then FirstOnTimeline(content, timeline)
    else if timeline != [] && reasoning == [] then Some(timeline[0])
    else None
  }

  function Deltas(times: seq<real>): seq<real> {
    if |times| < 2 then [] else Deltas(times[..|times| - 1]) + [times[|times| - 1] - times[|times| - 2]]
  }

  function TotalTime(xs: seq<real>): real {
    if xs == [] then 0.0 else TotalTime(xs[..|xs| - 1]) + xs[|xs| - 1]
  }

  datatype Latencies = Latencies(
    requestLatency: real, ntpot: Option<real>, ttft: Option<real>, ttfo: Option<real>,
    tpot: Option<real>, itl: Option<real>, deltas: seq<real>)

  /** The latencies of one successful request; a response that was not streamed has an empty timeline. */
  function LatenciesOf(start: real, end: real, content: seq<real>, reasoning: seq<real>, timeline: seq<real>, outputTokens: nat): Latencies {
    var ntpot := if outputTokens > 0 then Some((end - start) / outputTokens as real) else None;
    if |timeline| <= 1 then Latencies(end - start, ntpot, None, None, None, None, [])
    else
      var firstContent := FirstContentTokenTime(content, reasoning, timeline);
      var deltas := Deltas(timeline);
      Latencies(
        end - start, ntpot,
        Some(timeline[0] - start),
        if firstContent.Some? then Some(firstContent.value - start) else None,
        if outputTokens > 1 then Some((timeline[|timeline| - 1] - timeline[0]) / (outputTokens - 1) as real) else None,
        if deltas != [] then Some(TotalTime(deltas) / |deltas| as real) else None,
        deltas)
  }

  lemma {:induction false} DeltasTelescope(times: seq<real>)
    requires |times| >= 1
    ensures |Deltas(times)| == |times| - 1 && TotalTime(Deltas(times)) == times[|times| - 1] - times[0]
  {
    if |times| > 1 {
      var n := |times| - 1;
      DeltasTelescope(times[..n]);
      assert (Deltas(times[..n]) + [times[n] - times[n - 1]])[..n - 1] == Deltas(times[..n]);
    }
  }

  lemma {:induction false} DeltasNonNegative(times: seq<real>)
    requires SortedBy(times, Instant)
    ensures forall i :: 0 <= i < |Deltas(times)| ==> Deltas(times)[i] >= 0.0
  {
    if |times| > 1 {
      var n := |times| - 1;
      DeltasNonNegative(times[..n]);
      assert times[n - 1] <= times[n];
    }
  }

  lemma {:induction false} GapAt(times: seq<real>, i: nat)
    requires i + 1 < |times|
    ensures |Deltas(times)| == |times| - 1 && Deltas(times)[i] == times[i + 1] - times[i]
  {
    var n := |times| - 1;
    DeltasTelescope(times);
    DeltasTelescope(times[..n]);
    if i + 1 < n {
      GapAt(times[..n], i);
    }
  }

  /** `total` over `n`, where there is anything to divide by. */
  predicate IsMean(mean: Option<real>, total: real, n: int) {
    (mean.Some? <==> n > 0) && (mean.Some? ==> mean.value * n as real == total)
  }

  lemma QuotientIsMean(total: real, n: int)
    ensures IsMean(if n > 0 then Some(total / n as real) else None, total, n)
  {
  }

  lemma GapsAreExact(times: seq<real>)
    requires |times| > 1
    ensures GapsBetween(Deltas(times), times)
  {
    DeltasTelescope(times);
    forall i | 0 <= i < |times| - 1 ensures times[i] + Deltas(times)[i] == times[i + 1] {
      GapAt(times, i);
    }
  }

  predicate GapsBetween(gaps: seq<real>, times: seq<real>) {
    |gaps| + 1 == |times| && forall i :: 0 <= i < |gaps| ==> times[i] + gaps[i] == times[i + 1]
  }

  /** The latency runs from start to end, and per token of the answer when there are any. */
  lemma FiguresOfARequest(start: real, end: real, content: seq<real>, reasoning: seq<real>, timeline: seq<real>, outputTokens: nat)
    ensures var l := LatenciesOf(start, end, content, reasoning, timeline, outputTokens);
            start + l.requestLatency == end && IsMean(l.ntpot, end - start, outputTokens)
  {
    QuotientIsMean(end - start, outputTokens);
  }

  /** The figures of a stream, against its token timeline: a stream has them when it has two tokens. */
  lemma FiguresOfAStream(start: real, end: real, content: seq<real>, reasoning: seq<real>, timeline: seq<real>, outputTokens: nat)
    ensures var l := LatenciesOf(start, end, content, reasoning, timeline, outputTokens);
            if |timeline| <= 1 then l.ttft == l.tpot == l.itl == None && l.deltas == [] else
              var span := timeline[|timeline| - 1] - timeline[0];
              && l.ttft.Some? && start + l.ttft.value == timeline[0]
              && IsMean(l.tpot, span, outputTokens - 1)
              && IsMean(l.itl, span, |timeline| - 1)
              && GapsBetween(l.deltas, timeline)
  {
    if |timeline| > 1 {
      var span := timeline[|timeline| - 1] - timeline[0];
      DeltasTelescope(timeline);
      GapsAreExact(timeline);
      QuotientIsMean(span, outputTokens - 1);
      QuotientIsMean(span, |timeline| - 1);
    }
  }

  /** The time to the first answer runs to the first content chunk on the timeline; without any chunk of either
      channel it runs to the first token, and a response of reasoning alone has none. */
  lemma FirstOutputOfARequest(start: real, end: real, content: seq<real>, reasoning: seq<real>, timeline: seq<real>, outputTokens: nat)
    ensures var ttfo := LatenciesOf(start, end, content, reasoning, timeline, outputTokens).ttfo;
            && (|timeline| <= 1 ==> ttfo == None)
            && (|timeline| > 1 && content == [] ==> ttfo == if reasoning == [] then Some(timeline[0] - start) else None)
            && (|timeline| > 1 && ttfo.Some? ==> FirstAt(content, timeline, start + ttfo.value) || content == [])
            && (|timeline| > 1 && ttfo.None? && content != [] ==> forall t :: t in content ==> t !in timeline)
  {
    if |timeline| > 1 && content != [] {
      FirstIsFirst(content, timeline);
    }
  }

  /** t is on the timeline, and no content time before it in the list is. */
  ghost predicate FirstAt(content: seq<real>, timeline: seq<real>, t: real) {
    exists k :: 0 <= k < |content| && content[k] == t && t in timeline && forall j :: 0 <= j < k ==> content[j] !in timeline
  }

  lemma {:induction false} FirstIsFirst(content: seq<real>, timeline: seq<real>)
    ensures var first := FirstOnTimeline(content, timeline); first.Some? ==> FirstAt(content, timeline, first.value)
  {
    var first := FirstOnTimeline(content, timeline);
    if first.Some? {
      if content[0] in timeline {
        assert FirstAt(content, timeline, content[0]);
      } else {
        FirstIsFirst(content[1..], timeline);
        var k :| 0 <= k < |content[1..]| && content[1..][k] == first.value && forall j :: 0 <= j < k ==> content[1..][j] !in timeline;
        assert forall j :: 0 <= j < k + 1 ==> content[j] == (if j == 0 then content[0] else content[1..][j - 1]);
        assert content[k + 1] == first.value;
      }
    }
  }

  /** On a timeline in order the first token never comes after the first content token, the gaps are
      non-negative, and as many as the tokens less one. */
  lemma LatenciesAreConsistent(start: real, end: real, content: seq<real>, reasoning: seq<real>, timeline: seq<real>, outputTokens: nat)
    requires SortedBy(timeline, Instant)
    ensures var l := LatenciesOf(start, end, content, reasoning, timeline, outputTokens);
            && (l.ttfo.Some? ==> l.ttft.Some? && l.ttft.value <= l.ttfo.value)
            && (l.itl.Some? <==> l.ttft.Some?) && (l.ttft.Some? <==> |timeline| > 1)
            && (forall i :: 0 <= i < |l.deltas| ==> l.deltas[i] >= 0.0)
            && (|timeline| > 1 ==> |l.deltas| == |timeline| - 1 && TotalTime(l.deltas) == timeline[|timeline| - 1] - timeline[0])
  {
    DeltasNonNegative(timeline);
    if |timeline| > 1 {
      DeltasTelescope(timeline);
      FirstContentNotBeforeFirst(content, reasoning, timeline);
    }
  }

  lemma FirstContentNotBeforeFirst(content: seq<real>, reasoning: seq<real>, timeline: seq<real>)
    requires SortedBy(timeline, Instant) && timeline != []
    ensures var first := FirstContentTokenTime(content, reasoning, timeline); first.Some? ==> timeline[0] <= first.value
  {
    var first := FirstContentTokenTime(content, reasoning, timeline);
    if first.Some? && content != [] {
      var k :| 0 <= k < |timeline| && timeline[k] == first.value;
      assert Instant(timeline[0]) <= Instant(timeline[k]);
    }
  }

  /** The mean gap and the time per output token are the same exactly when the reported token count is
      the length of the timeline, or no time passed between the first token and the last. */
  lemma TpotIsMeanGap(start: real, end: real, content: seq<real>, reasoning: seq<real>, timeline: seq<real>, outputTokens: nat)
    requires |timeline| > 1 && outputTokens > 1
    ensures var l := LatenciesOf(start, end, content, reasoning, timeline, outputTokens);
            l.tpot == l.itl <==> outputTokens == |timeline| || timeline[|timeline| - 1] == timeline[0]
  {
    DeltasTelescope(timeline);
    var duration := timeline[|timeline| - 1] - timeline[0];
    SameQuotient(duration, (outputTokens - 1) as real, (|timeline| - 1) as real);
  }

  lemma SameQuotient(d: real, m: real, n: real)
    requires m > 0.0 && n > 0.0
    ensures d / m == d / n <==> m == n || d == 0.0
  {
    var q := d / m;
    assert q * m == d;
    if q == d / n {
      assert q * n == d;
      assert q * (m - n) == 0.0;
    }
  }

  /** With a content chunk on the timeline, there is a first content token. */
  lemma ContentOnTimelineIsFound(content: seq<real>, reasoning: seq<real>, timeline: seq<real>)
    requires content != []
    ensures FirstContentTokenTime(content, reasoning, timeline).Some? <==> exists t :: t in content && t in timeline
  {
    if exists t :: t in content && t in timeline {
      var t :| t in content && t in timeline;
    }
    var first := FirstContentTokenTime(content, reasoning, timeline);
    if first.Some? {
      assert first.value in content && first.value in timeline;
    }
  }
}
