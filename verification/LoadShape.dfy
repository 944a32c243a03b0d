/** The in-flight step function reconstructed from request start and end times. */
module LoadShape {
  import opened Common

  datatype Request = Request(start: real, end: real)
  datatype Event = Event(time: real, delta: int)
  datatype Segment = Segment(from: real, to: real, value: int)
  datatype Outcome = Segments(segments: seq<Segment>) | EndsBeforeStart | NoRequests

  // ---- The declarative side ----

  predicate Running(r: Request, t: real) {
    r.start <= t < r.end
  }

  /** The number of requests with start <= t < end. */
  function InFlight(entries: seq<Request>, t: real): nat {
    if entries == [] then 0
    else InFlight(entries[..|entries| - 1], t) + (if Running(entries[|entries| - 1], t) then 1 else 0)
  }

  function StartedBy(entries: seq<Request>, t: real): nat {
    if entries == [] then 0
    else StartedBy(entries[..|entries| - 1], t) + (if entries[|entries| - 1].start <= t then 1 else 0)
  }

  function EndedBy(entries: seq<Request>, t: real): nat {
    if entries == [] then 0
    else EndedBy(entries[..|entries| - 1], t) + (if entries[|entries| - 1].end <= t then 1 else 0)
  }

  function TotalDuration(entries: seq<Request>): real {
    if entries == [] then 0.0
    else TotalDuration(entries[..|entries| - 1]) + (entries[|entries| - 1].end - entries[|entries| - 1].start)
  }

  /** The length of what [from, to) and [lo, hi) share. */
  function Overlap(from: real, to: real, lo: real, hi: real): real {
    if Earlier(to, hi) > Later(from, lo) then Earlier(to, hi) - Later(from, lo) else 0.0
  }

  function Times(n: int, t: real): real {
    n as real * t
  }

  /** The time that the requests spend in flight within a window, taken together. */
  function TimeWithin(entries: seq<Request>, lo: real, hi: real): real {
    if entries == [] then 0.0
    else
      var last := entries[|entries| - 1];
      TimeWithin(entries[..|entries| - 1], lo, hi) + Overlap(last.start, last.end, lo, hi)
  }

  predicate Ordered(entries: seq<Request>) {
    forall i :: 0 <= i < |entries| ==> entries[i].start <= entries[i].end
  }

  // ---- Events and their order ----

  function EventsOf(entries: seq<Request>): seq<Event> {
    if entries == [] then []
    else
      var last := entries[|entries| - 1];
      EventsOf(entries[..|entries| - 1]) + [Event(last.start, 1)] + [Event(last.end, -1)]
  }

  predicate Before(a: Event, b: Event) {
    a.time < b.time || (a.time == b.time && a.delta <= b.delta)
  }

  predicate Sorted(events: seq<Event>) {
    forall i, j :: 0 <= i < j < |events| ==> Before(events[i], events[j])
  }

  function Insert(e: Event, s: seq<Event>): seq<Event> {
    if s == [] || Before(s[|s| - 1], e) then s + [e] else Insert(e, s[..|s| - 1]) + [s[|s| - 1]]
  }

  function SortEvents(events: seq<Event>): seq<Event> {
    if events == [] then [] else Insert(events[|events| - 1], SortEvents(events[..|events| - 1]))
  }

  lemma {:induction false} InsertSorts(e: Event, s: seq<Event>)
    requires Sorted(s)
    ensures Sorted(Insert(e, s)) && |Insert(e, s)| == |s| + 1
    ensures multiset(Insert(e, s)) == multiset(s) + multiset{e}
  {
    if s != [] && !Before(s[|s| - 1], e) {
      var last := s[|s| - 1];
      assert s == s[..|s| - 1] + [last];
      InsertSorts(e, s[..|s| - 1]);
      var t := Insert(e, s[..|s| - 1]);
      forall i | 0 <= i < |t| ensures Before(t[i], last) {
        assert t[i] in multiset(t);
      }
    }
  }

  lemma {:induction false} SortSorts(events: seq<Event>)
    ensures Sorted(SortEvents(events)) && multiset(SortEvents(events)) == multiset(events)
    ensures |SortEvents(events)| == |events|
  {
    if events != [] {
      var n := |events| - 1;
      assert events == events[..n] + [events[n]];
      SortSorts(events[..n]);
      InsertSorts(events[n], SortEvents(events[..n]));
    }
  }

  // ---- Sums over events ----

  /** The sum of the deltas of the events up to time t. */
  function Level(events: seq<Event>, t: real): int {
    if events == [] then 0
    else Level(events[..|events| - 1], t) + (if events[|events| - 1].time <= t then events[|events| - 1].delta else 0)
  }

  function Deltas(events: seq<Event>): int {
    if events == [] then 0 else Deltas(events[..|events| - 1]) + events[|events| - 1].delta
  }

  /** The instant of the window that is nearest to t. */
  function Clip(t: real, lo: real, hi: real): real {
    Later(lo, Earlier(t, hi))
  }

  lemma OverlapIsClipped(from: real, to: real, lo: real, hi: real)
    requires from <= to && lo < hi
    ensures Overlap(from, to, lo, hi) == Clip(to, lo, hi) - Clip(from, lo, hi)
  {
  }

  function Signed(e: Event, lo: real, hi: real): real {
    Times(e.delta, Clip(e.time, lo, hi))
  }

  function Moment(events: seq<Event>, lo: real, hi: real): real {
    if events == [] then 0.0 else Moment(events[..|events| - 1], lo, hi) + Signed(events[|events| - 1], lo, hi)
  }

  lemma Push(s: seq<Event>, e: Event, t: real)
    ensures Level(s + [e], t) == Level(s, t) + (if e.time <= t then e.delta else 0)
    ensures Deltas(s + [e]) == Deltas(s) + e.delta
  {
    assert (s + [e])[..|s|] == s;
  }

  lemma PushMoment(s: seq<Event>, e: Event, lo: real, hi: real)
    ensures Moment(s + [e], lo, hi) == Moment(s, lo, hi) + Signed(e, lo, hi)
  {
    assert (s + [e])[..|s|] == s;
  }

  lemma {:induction false} InsertAdds(e: Event, s: seq<Event>, t: real)
    ensures Level(Insert(e, s), t) == Level(s, t) + (if e.time <= t then e.delta else 0)
    ensures Deltas(Insert(e, s)) == Deltas(s) + e.delta
  {
    if s == [] || Before(s[|s| - 1], e) {
      Push(s, e, t);
    } else {
      var n := |s| - 1;
      InsertAdds(e, s[..n], t);
      Push(Insert(e, s[..n]), s[n], t);
    }
  }

  lemma {:induction false} InsertAddsMoment(e: Event, s: seq<Event>, lo: real, hi: real)
    ensures Moment(Insert(e, s), lo, hi) == Moment(s, lo, hi) + Signed(e, lo, hi)
  {
    if s == [] || Before(s[|s| - 1], e) {
      PushMoment(s, e, lo, hi);
    } else {
      var n := |s| - 1;
      InsertAddsMoment(e, s[..n], lo, hi);
      PushMoment(Insert(e, s[..n]), s[n], lo, hi);
    }
  }

  lemma SortedLevel(front: seq<Event>, sorted: seq<Event>, e: Event, events: seq<Event>, t: real)
    requires Level(sorted, t) == Level(front, t) && Deltas(sorted) == Deltas(front) && events == front + [e]
    ensures Level(Insert(e, sorted), t) == Level(events, t) && Deltas(Insert(e, sorted)) == Deltas(events)
  {
    InsertAdds(e, sorted, t);
    Push(front, e, t);
  }

  /** Sorting changes none of the sums. */
  lemma {:induction false} SortKeepsLevel(events: seq<Event>, t: real)
    ensures Level(SortEvents(events), t) == Level(events, t) && Deltas(SortEvents(events)) == Deltas(events)
  {
    if events != [] {
      var n := |events| - 1;
      SortKeepsLevel(events[..n], t);
      assert events == events[..n] + [events[n]];
      SortedLevel(events[..n], SortEvents(events[..n]), events[n], events, t);
    }
  }

  lemma SortedMoment(front: seq<Event>, sorted: seq<Event>, e: Event, events: seq<Event>, lo: real, hi: real)
    requires Moment(sorted, lo, hi) == Moment(front, lo, hi) && events == front + [e]
    ensures Moment(Insert(e, sorted), lo, hi) == Moment(events, lo, hi)
  {
    InsertAddsMoment(e, sorted, lo, hi);
    PushMoment(front, e, lo, hi);
  }

  lemma {:induction false} SortKeepsMoment(events: seq<Event>, lo: real, hi: real)
    ensures Moment(SortEvents(events), lo, hi) == Moment(events, lo, hi)
  {
    if events != [] {
      var n := |events| - 1;
      SortKeepsMoment(events[..n], lo, hi);
      assert events == events[..n] + [events[n]];
      SortedMoment(events[..n], SortEvents(events[..n]), events[n], events, lo, hi);
    }
  }

  lemma {:induction false} LevelCounts(entries: seq<Request>, t: real)
    requires Ordered(entries)
    ensures Level(EventsOf(entries), t) == InFlight(entries, t) == StartedBy(entries, t) - EndedBy(entries, t)
    ensures Deltas(EventsOf(entries)) == 0
  {
    if entries != [] {
      var n := |entries| - 1;
      LevelCounts(entries[..n], t);
      var before := EventsOf(entries[..n]);
      Push(before, Event(entries[n].start, 1), t);
      Push(before + [Event(entries[n].start, 1)], Event(entries[n].end, -1), t);
    }
  }

  lemma {:induction false} MomentIsTime(entries: seq<Request>, lo: real, hi: real)
    requires Ordered(entries) && lo < hi
    ensures Moment(EventsOf(entries), lo, hi) == -TimeWithin(entries, lo, hi)
  {
    if entries != [] {
      var n := |entries| - 1;
      var start, end := Event(entries[n].start, 1), Event(entries[n].end, -1);
      MomentIsTime(entries[..n], lo, hi);
      OverlapIsClipped(entries[n].start, entries[n].end, lo, hi);
      PushMoment(EventsOf(entries[..n]), start, lo, hi);
      PushMoment(EventsOf(entries[..n]) + [start], end, lo, hi);
      assert EventsOf(entries) == EventsOf(entries[..n]) + [start] + [end];
      assert Signed(start, lo, hi) == Clip(start.time, lo, hi) && Signed(end, lo, hi) == -Clip(end.time, lo, hi);
    }
  }

  /** A window around all requests holds all their time. */
  lemma {:induction false} WholeWindowHoldsAll(entries: seq<Request>, lo: real, hi: real)
    requires Ordered(entries) && forall r :: r in entries ==> lo <= r.start && r.end <= hi
    ensures TimeWithin(entries, lo, hi) == TotalDuration(entries)
  {
    if entries != [] {
      var n := |entries| - 1;
      assert entries[n] in entries;
      WholeWindowHoldsAll(entries[..n], lo, hi);
    }
  }

  /** Two windows that abut hold together what the window over both does. */
  lemma {:induction false} WindowsAddUp(entries: seq<Request>, lo: real, mid: real, hi: real)
    requires Ordered(entries) && lo <= mid <= hi
    ensures TimeWithin(entries, lo, hi) == TimeWithin(entries, lo, mid) + TimeWithin(entries, mid, hi)
  {
    if entries != [] {
      var n := |entries| - 1;
      WindowsAddUp(entries[..n], lo, mid, hi);
    }
  }

  /** Where a prefix of the events lies up to t and the others after it, the level at t is the sum of
      the prefix. */
  lemma {:induction false} LevelOfPrefix(events: seq<Event>, k: nat, t: real)
    requires k <= |events|
    requires forall i :: 0 <= i < k ==> events[i].time <= t
    requires forall i :: k <= i < |events| ==> events[i].time > t
    ensures Level(events, t) == Deltas(events[..k])
  {
    var n := |events| - 1;
    if k < |events| {
      LevelOfPrefix(events[..n], k, t);
      assert events[..n][..k] == events[..k];
    } else if events != [] {
      LevelOfPrefix(events[..n], n, t);
      assert events[..n][..n] == events[..n];
      assert events[..k] == events;
    }
  }

  // ---- The sweep ----

  function Contribution(s: Segment, lo: real, hi: real): real {
    Times(s.value, Overlap(s.from, s.to, lo, hi))
  }

  /** What the segments add up to over a window. */
  function Weighted(segments: seq<Segment>, lo: real, hi: real): real {
    if segments == [] then 0.0
    else Weighted(segments[..|segments| - 1], lo, hi) + Contribution(segments[|segments| - 1], lo, hi)
  }

  /** The segments abut, cover [from, to), and hold the level of the events all over each of them. */
  ghost predicate Describes(segments: seq<Segment>, events: seq<Event>, from: real, to: real) {
    && (if segments == [] then from == to else segments[0].from == from && segments[|segments| - 1].to == to)
    && (forall i :: 0 < i < |segments| ==> segments[i - 1].to == segments[i].from)
    && (forall i :: 0 <= i < |segments| ==> Constant(segments[i], events))
  }

  ghost predicate Constant(s: Segment, events: seq<Event>) {
    s.from < s.to && forall t :: s.from <= t < s.to ==> Level(events, t) == s.value
  }

  lemma NextSegment(segments: seq<Segment>, events: seq<Event>, from: real, to: real, next: Segment)
    requires Describes(segments, events, from, to) && next.from == to && Constant(next, events)
    ensures Describes(segments + [next], events, from, next.to)
  {
  }

  lemma ConstantUntilNext(events: seq<Event>, k: nat, from: real)
    requires Sorted(events) && k < |events| && from < events[k].time
    requires forall i :: 0 <= i < k ==> events[i].time <= from
    ensures Constant(Segment(from, events[k].time, Deltas(events[..k])), events)
  {
    forall t | from <= t < events[k].time ensures Level(events, t) == Deltas(events[..k]) {
      LevelOfPrefix(events, k, t);
    }
  }

  method InflightSegments(entries: seq<Request>) returns (outcome: Outcome)
    ensures outcome.EndsBeforeStart? <==> !Ordered(entries)
    ensures outcome.NoRequests? <==> entries == []
    ensures outcome.Segments? ==> Reconstructs(outcome.segments, entries)
    ensures outcome.Segments? ==> HoldsAllTime(outcome.segments, entries)
  {
    var events: seq<Event> := [];
    var i := 0;
    while i < |entries|
      invariant i <= |entries| && events == EventsOf(entries[..i]) && Ordered(entries[..i])
      invariant i > 0 ==> events != []
    {
      if entries[i].end < entries[i].start {
        return EndsBeforeStart;
      }
      assert entries[..i + 1][..i] == entries[..i];
      events := events + [Event(entries[i].start, 1)];
      events := events + [Event(entries[i].end, -1)];
      i := i + 1;
    }
    assert entries[..i] == entries;
    if events == [] {
      return NoRequests;
    }
    EventsAreSettled(entries, events);
    var segments := Sweep(SortEvents(events));
    TimeIsHeld(entries, events, segments);
    outcome := Segments(segments);
  }

  /** Over every window the segments add up to the time that the requests spend in it. */
  ghost predicate HoldsAllTime(segments: seq<Segment>, entries: seq<Request>) {
    forall lo, hi :: lo < hi ==> Weighted(segments, lo, hi) == TimeWithin(entries, lo, hi)
  }

  lemma TimeIsHeld(entries: seq<Request>, events: seq<Event>, segments: seq<Segment>)
    requires Ordered(entries) && events == EventsOf(entries) && Accounts(segments, SortEvents(events))
    ensures HoldsAllTime(segments, entries)
  {
    forall lo, hi | lo < hi ensures Weighted(segments, lo, hi) == TimeWithin(entries, lo, hi) {
      SortKeepsMoment(events, lo, hi);
      MomentIsTime(entries, lo, hi);
    }
  }

  /** The segments add up to what the events do. */
  ghost predicate Accounts(segments: seq<Segment>, events: seq<Event>) {
    forall lo, hi :: lo < hi ==> Weighted(segments, lo, hi) == -Moment(events, lo, hi)
  }

  /** The segments describe the sorted events of the entries, from the first start to the last end. */
  ghost predicate Reconstructs(segments: seq<Segment>, entries: seq<Request>) {
    var events := SortEvents(EventsOf(entries));
    |events| > 0 && Describes(segments, events, events[0].time, events[|events| - 1].time)
  }

  lemma EventsAreSettled(entries: seq<Request>, events: seq<Event>)
    requires Ordered(entries) && events == EventsOf(entries) && events != []
    ensures Sorted(SortEvents(events)) && SortEvents(events) != []
    ensures Deltas(SortEvents(events)) == 0
  {
    SortSorts(events);
    SortKeepsLevel(events, 0.0);
    LevelCounts(entries, 0.0);
  }

  /** The time the sweep has reached after k events. */
  function Reached(events: seq<Event>, k: nat): real
    requires k <= |events| && events != []
  {
    if k == 0 then events[0].time else events[k - 1].time
  }

  /** Where the sweep stands after k events. */
  ghost predicate Swept(segments: seq<Segment>, events: seq<Event>, k: nat, inflight: int, prev: real)
    requires k <= |events| && events != []
  {
    && inflight == Deltas(events[..k]) && prev == Reached(events, k)
    && Describes(segments, events, events[0].time, prev)
  }

  lemma SweepStep(segments: seq<Segment>, events: seq<Event>, k: nat, inflight: int, prev: real, segments': seq<Segment>)
    requires Sorted(events) && k < |events| && Swept(segments, events, k, inflight, prev)
    requires segments' == if events[k].time > prev then segments + [Segment(prev, events[k].time, inflight)] else segments
    ensures Swept(segments', events, k + 1, inflight + events[k].delta, events[k].time)
    ensures events[k].time >= prev
  {
    SweepDescribes(segments, events, k, inflight, prev, segments');
    DeltasNext(events, k);
  }

  lemma DeltasNext(events: seq<Event>, k: nat)
    requires k < |events|
    ensures Deltas(events[..k + 1]) == Deltas(events[..k]) + events[k].delta
  {
    assert events[..k + 1] == events[..k] + [events[k]];
    Push(events[..k], events[k], 0.0);
  }

  lemma SweepDescribes(segments: seq<Segment>, events: seq<Event>, k: nat, inflight: int, prev: real, segments': seq<Segment>)
    requires Sorted(events) && k < |events| && Swept(segments, events, k, inflight, prev)
    requires segments' == if events[k].time > prev then segments + [Segment(prev, events[k].time, inflight)] else segments
    ensures events[k].time >= prev && Describes(segments', events, events[0].time, events[k].time)
  {
    if events[k].time > prev {
      ConstantUntilNext(events, k, prev);
      NextSegment(segments, events, events[0].time, prev, Segment(prev, events[k].time, inflight));
    }
  }

  /** Over every window the segments so far hold what the open requests would add up to, were they to end now. */
  ghost predicate Balanced(segments: seq<Segment>, past: seq<Event>, inflight: int, prev: real) {
    forall lo, hi :: lo < hi ==> BalancedOver(segments, past, inflight, prev, lo, hi)
  }

  ghost predicate BalancedOver(segments: seq<Segment>, past: seq<Event>, inflight: int, prev: real, lo: real, hi: real) {
    InBalance(Weighted(segments, lo, hi), Moment(past, lo, hi), inflight, Clip(prev, lo, hi))
  }

  ghost predicate InBalance(weighted: real, moment: real, inflight: int, at: real) {
    weighted == Times(inflight, at) - moment
  }

  /** n requests add t each. */
  ghost predicate Gains(after: real, before: real, n: int, t: real) {
    after == before + Times(n, t)
  }

  lemma BalanceStep(segments: seq<Segment>, past: seq<Event>, inflight: int, prev: real, e: Event, segments': seq<Segment>)
    requires Balanced(segments, past, inflight, prev) && e.time >= prev
    requires segments' == if e.time > prev then segments + [Segment(prev, e.time, inflight)] else segments
    ensures Balanced(segments', past + [e], inflight + e.delta, e.time)
  {
    var more, next := past + [e], inflight + e.delta;
    forall lo, hi | lo < hi ensures BalancedOver(segments', more, next, e.time, lo, hi) {
      assert BalancedOver(segments, past, inflight, prev, lo, hi);
      BalanceOverStep(segments, past, inflight, prev, e, segments', lo, hi);
    }
  }

  lemma BalanceOverStep(segments: seq<Segment>, past: seq<Event>, inflight: int, prev: real, e: Event, segments': seq<Segment>,
                        lo: real, hi: real)
    requires BalancedOver(segments, past, inflight, prev, lo, hi) && e.time >= prev && lo < hi
    requires segments' == if e.time > prev then segments + [Segment(prev, e.time, inflight)] else segments
    ensures BalancedOver(segments', past + [e], inflight + e.delta, e.time, lo, hi)
  {
    WeightedNext(segments, prev, e.time, inflight, segments', lo, hi);
    MomentNext(past, e, past + [e], lo, hi);
    BalanceArithmetic(Weighted(segments, lo, hi), Weighted(segments', lo, hi), Moment(past, lo, hi), Moment(past + [e], lo, hi),
                      inflight, e.delta, Clip(prev, lo, hi), Clip(e.time, lo, hi));
  }

  lemma WeightedNext(segments: seq<Segment>, prev: real, until: real, inflight: int, segments': seq<Segment>, lo: real, hi: real)
    requires prev <= until && lo < hi
    requires segments' == if until > prev then segments + [Segment(prev, until, inflight)] else segments
    ensures Gains(Weighted(segments', lo, hi), Weighted(segments, lo, hi), inflight, Clip(until, lo, hi) - Clip(prev, lo, hi))
  {
    OverlapIsClipped(prev, until, lo, hi);
    if until > prev {
      WeightedMore(segments, Segment(prev, until, inflight), lo, hi);
    } else {
      assert Clip(until, lo, hi) - Clip(prev, lo, hi) == 0.0;
    }
  }

  lemma MomentNext(past: seq<Event>, e: Event, more: seq<Event>, lo: real, hi: real)
    requires more == past + [e]
    ensures Gains(Moment(more, lo, hi), Moment(past, lo, hi), e.delta, Clip(e.time, lo, hi))
  {
    PushMoment(past, e, lo, hi);
  }

  lemma BalanceArithmetic(before: real, after: real, past0: real, past1: real, n: int, delta: int, from: real, to: real)
    requires InBalance(before, past0, n, from) && Gains(after, before, n, to - from) && Gains(past1, past0, delta, to)
    ensures InBalance(after, past1, n + delta, to)
  {
    AreaAdvances(n, from, to);
    AreaSteps(n, delta, to);
  }

  lemma WeightedMore(segments: seq<Segment>, next: Segment, lo: real, hi: real)
    ensures Weighted(segments + [next], lo, hi) == Weighted(segments, lo, hi) + Contribution(next, lo, hi)
  {
    assert (segments + [next])[..|segments|] == segments;
  }

  method Sweep(events: seq<Event>) returns (segments: seq<Segment>)
    requires Sorted(events) && events != [] && Deltas(events) == 0
    ensures Describes(segments, events, events[0].time, events[|events| - 1].time)
    ensures Accounts(segments, events)
  {
    segments := [];
    var inflight := 0;
    var prev := events[0].time;
    var k := 0;
    while k < |events|
      invariant k <= |events| && Swept(segments, events, k, inflight, prev) && Balanced(segments, events[..k], inflight, prev)
    {
      ghost var before := segments;
      if events[k].time > prev {
        segments := segments + [Segment(prev, events[k].time, inflight)];
      }
      SweepStep(before, events, k, inflight, prev, segments);
      BalanceStep(before, events[..k], inflight, prev, events[k], segments);
      assert events[..k + 1] == events[..k] + [events[k]];
      prev := events[k].time;
      inflight := inflight + events[k].delta;
      k := k + 1;
    }
    assert events[..k] == events;
    BalancedAtEnd(segments, events, inflight, prev);
  }

  lemma BalancedAtEnd(segments: seq<Segment>, events: seq<Event>, inflight: int, prev: real)
    requires Balanced(segments, events, inflight, prev) && inflight == 0
    ensures Accounts(segments, events)
  {
    forall lo, hi | lo < hi ensures Weighted(segments, lo, hi) == -Moment(events, lo, hi) {
      assert BalancedOver(segments, events, inflight, prev, lo, hi);
    }
  }

  lemma AreaAdvances(n: int, from: real, to: real)
    ensures n as real * from + n as real * (to - from) == n as real * to
  {
  }

  lemma AreaSteps(n: int, delta: int, t: real)
    ensures (n + delta) as real * t == n as real * t + delta as real * t
  {
  }

  // ---- What the step function says ----

  lemma LevelIsInFlight(entries: seq<Request>, t: real)
    requires Ordered(entries)
    ensures Level(SortEvents(EventsOf(entries)), t) == InFlight(entries, t)
  {
    SortKeepsLevel(EventsOf(entries), t);
    LevelCounts(entries, t);
  }

  /** Every instant from the first start to the last end lies in a segment. */
  lemma {:induction false} SegmentAt(segments: seq<Segment>, events: seq<Event>, from: real, to: real, t: real) returns (i: nat)
    requires Describes(segments, events, from, to) && from <= t < to
    ensures i < |segments| && segments[i].from <= t < segments[i].to
  {
    var n := |segments| - 1;
    if segments[n].from <= t {
      return n;
    }
    assert n > 0;
    i := SegmentAt(segments[..n], events, from, segments[n].from, t);
  }

  function MaxInflight(segments: seq<Segment>): int {
    if segments == [] then 0
    else if |segments| == 1 then segments[0].value
    else
      var before, last := MaxInflight(segments[..|segments| - 1]), segments[|segments| - 1].value;
      if last > before then last else before
  }

  lemma {:induction false} MaxIsMax(segments: seq<Segment>) returns (k: nat)
    ensures forall i :: 0 <= i < |segments| ==> segments[i].value <= MaxInflight(segments)
    ensures segments != [] ==> k < |segments| && segments[k].value == MaxInflight(segments)
  {
    var n := |segments| - 1;
    k := 0;
    if n > 0 {
      k := MaxIsMax(segments[..n]);
      assert forall i :: 0 <= i < n ==> segments[..n][i] == segments[i];
      if segments[n].value > MaxInflight(segments[..n]) {
        k := n;
      }
    }
  }

  /** Outside the events' span the level is zero. */
  lemma OutsideIsZero(events: seq<Event>, t: real)
    requires Sorted(events) && events != [] && Deltas(events) == 0
    requires t < events[0].time || events[|events| - 1].time <= t
    ensures Level(events, t) == 0
  {
    if t < events[0].time {
      LevelOfPrefix(events, 0, t);
    } else {
      LevelOfPrefix(events, |events|, t);
      assert events[..|events|] == events;
    }
  }

  lemma BoundedAt(entries: seq<Request>, segments: seq<Segment>, bound: nat, t: real)
    requires Ordered(entries) && entries != [] && Reconstructs(segments, entries) && MaxInflight(segments) <= bound
    ensures InFlight(entries, t) <= bound
  {
    var events := SortEvents(EventsOf(entries));
    EventsAreSettled(entries, EventsOf(entries));
    LevelIsInFlight(entries, t);
    if events[0].time <= t < events[|events| - 1].time {
      var i := SegmentAt(segments, events, events[0].time, events[|events| - 1].time, t);
      var k := MaxIsMax(segments);
      assert Constant(segments[i], events);
    } else {
      OutsideIsZero(events, t);
    }
  }

  lemma MaxIsReached(entries: seq<Request>, segments: seq<Segment>) returns (t: real)
    requires Ordered(entries) && Reconstructs(segments, entries) && segments != []
    ensures InFlight(entries, t) == MaxInflight(segments)
  {
    var k := MaxIsMax(segments);
    t := segments[k].from;
    assert Constant(segments[k], SortEvents(EventsOf(entries)));
    LevelIsInFlight(entries, t);
  }

  /** The largest segment value bounds the requests in flight at every instant, and is reached. */
  lemma MaxInflightIsExact(entries: seq<Request>, segments: seq<Segment>, bound: nat)
    requires Ordered(entries) && entries != [] && Reconstructs(segments, entries)
    ensures MaxInflight(segments) <= bound <==> forall t :: InFlight(entries, t) <= bound
  {
    if MaxInflight(segments) <= bound {
      forall t ensures InFlight(entries, t) <= bound {
        BoundedAt(entries, segments, bound, t);
      }
    } else {
      var t := MaxIsReached(entries, segments);
      assert InFlight(entries, t) > bound;
    }
  }

  lemma {:induction false} SortedStartsCounted(entries: seq<Request>, k: nat)
    requires k < |entries| && InStartOrder(entries)
    ensures StartedBy(entries, entries[k].start) >= k + 1
  {
    var t := entries[k].start;
    StartedPrefix(entries, k + 1, t);
  }

  lemma {:induction false} StartedPrefix(entries: seq<Request>, k: nat, t: real)
    requires k <= |entries| && forall i :: 0 <= i < k ==> entries[i].start <= t
    ensures StartedBy(entries, t) >= k
  {
    if k > 0 {
      var n := |entries| - 1;
      StartedPrefix(entries[..n], if k == |entries| then n else k, t);
    }
  }

  /** Under a limit of c, when request k (in start order, from 0) starts, at least k - c + 1 requests
      have ended. */
  lemma PlateauIsFed(entries: seq<Request>, c: nat, k: nat)
    requires Ordered(entries) && k < |entries| && InStartOrder(entries)
    requires forall t :: InFlight(entries, t) <= c
    ensures EndedBy(entries, entries[k].start) >= k - c + 1
  {
    SortedStartsCounted(entries, k);
    LevelCounts(entries, entries[k].start);
  }

  predicate InStartOrder(entries: seq<Request>) {
    forall i, j :: 0 <= i < j < |entries| ==> entries[i].start <= entries[j].start
  }

  /** Each request starts when the one c places before it has ended. */
  predicate Paired(entries: seq<Request>, c: nat) {
    forall k :: c <= k < |entries| ==> entries[k - c].end <= entries[k].start
  }

  /** Request j, which started later than request k - c, has ended when request k starts, and that one has
      not. Request k itself may be the one, when it takes no time. */
  predicate Overtaken(entries: seq<Request>, c: nat, k: nat, j: nat)
    requires c <= k < |entries| && k - c < j <= k
  {
    entries[j].end <= entries[k].start < entries[k - c].end
  }

  lemma {:induction false} RunningCounted(entries: seq<Request>, a: nat, b: nat, t: real)
    requires a <= b <= |entries| && forall i :: a <= i < b ==> Running(entries[i], t)
    ensures InFlight(entries, t) >= b - a
  {
    if entries != [] {
      var n := |entries| - 1;
      RunningCounted(entries[..n], if a <= n then a else n, if b <= n then b else n, t);
    }
  }

  lemma {:induction false} EndedNotCounted(entries: seq<Request>, k: nat, t: real)
    requires k <= |entries| && Ordered(entries) && forall i :: 0 <= i < k ==> entries[i].end <= t
    ensures InFlight(entries, t) <= |entries| - k
  {
    if entries != [] {
      var n := |entries| - 1;
      EndedNotCounted(entries[..n], if k <= n then k else n, t);
    }
  }

  /** Starting only when the request c places before has ended keeps the limit of c. */
  lemma {:induction false} PairingKeepsTheLimit(entries: seq<Request>, c: nat, t: real)
    requires Ordered(entries) && InStartOrder(entries) && Paired(entries, c)
    ensures InFlight(entries, t) <= c
  {
    if entries != [] {
      var n := |entries| - 1;
      if entries[n].start > t {
        PairingKeepsTheLimit(entries[..n], c, t);
      } else {
        forall i | 0 <= i < n - c + 1 ensures entries[i].end <= t {
          assert entries[(i + c) - c].end <= entries[i + c].start;
        }
        EndedNotCounted(entries, if n - c + 1 > 0 then n - c + 1 else 0, t);
      }
    }
  }

  lemma LimitPairsUnlessOvertaken(entries: seq<Request>, c: nat, k: nat)
    requires Ordered(entries) && InStartOrder(entries) && c <= k < |entries|
    requires InFlight(entries, entries[k].start) <= c
    requires forall j :: k - c < j <= k ==> !Overtaken(entries, c, k, j)
    ensures entries[k - c].end <= entries[k].start
  {
    var t := entries[k].start;
    if entries[k - c].end > t {
      forall i | k - c <= i < k + 1 ensures Running(entries[i], t) {
        if k - c < i <= k {
          assert !Overtaken(entries, c, k, i);
        }
      }
      RunningCounted(entries, k - c, k + 1, t);
    }
  }

  /** A limit of c does not make each request wait for the one c places before it. It does exactly when
      nobody that started later has ended before that one, while it was still running at the start. */
  lemma LimitIsPairingExactlyWithoutOvertaking(entries: seq<Request>, c: nat)
    requires InStartOrder(entries) && Ordered(entries)
    requires forall t :: InFlight(entries, t) <= c
    ensures Paired(entries, c) <==> forall k, j :: c <= k < |entries| && k - c < j <= k ==> !Overtaken(entries, c, k, j)
  {
    if forall k, j :: c <= k < |entries| && k - c < j <= k ==> !Overtaken(entries, c, k, j) {
      forall k | c <= k < |entries| ensures entries[k - c].end <= entries[k].start {
        LimitPairsUnlessOvertaken(entries, c, k);
      }
    }
  }

  /** Under a limit of two, a request that runs for ten seconds is still running when the third starts. */
  lemma OvertakenUnderTheLimit() returns (entries: seq<Request>)
    ensures entries == [Request(0.0, 10.0), Request(0.0, 1.0), Request(1.0, 2.0)]
    ensures InStartOrder(entries) && Ordered(entries) && (forall t :: InFlight(entries, t) <= 2)
    ensures !Paired(entries, 2)
  {
    entries := [Request(0.0, 10.0), Request(0.0, 1.0), Request(1.0, 2.0)];
    assert entries[2 - 2].end > entries[2].start;
    forall t ensures InFlight(entries, t) <= 2 {
      assert entries[..2] == [entries[0], entries[1]] && entries[..2][..1] == [entries[0]] && entries[..1] == [entries[0]];
      assert InFlight(entries, t) == InFlight(entries[..2], t) + (if Running(entries[2], t) then 1 else 0);
      assert InFlight(entries[..2], t) == InFlight([entries[0]], t) + (if Running(entries[1], t) then 1 else 0);
    }
  }

  // ---- The window of a full pipeline ----

  function Starts(entries: seq<Request>): seq<real> {
    if entries == [] then [] else Starts(entries[..|entries| - 1]) + [entries[|entries| - 1].start]
  }

  function UpTo(t: real): real -> int {
    (x: real) => if x <= t then 1 else 0
  }

  function Below(t: real): real -> int {
    (x: real) => if x < t then 1 else 0
  }

  predicate AscendingTimes(times: seq<real>) {
    forall i, j :: 0 <= i < j < |times| ==> times[i] <= times[j]
  }

  function InsertTime(x: real, times: seq<real>): seq<real> {
    if times == [] || x <= times[0] then [x] + times else [times[0]] + InsertTime(x, times[1..])
  }

  function SortTimes(times: seq<real>): seq<real> {
    if times == [] then [] else InsertTime(times[0], SortTimes(times[1..]))
  }

  lemma {:induction false} InsertTimeSorts(x: real, times: seq<real>)
    requires AscendingTimes(times)
    ensures AscendingTimes(InsertTime(x, times)) && |InsertTime(x, times)| == |times| + 1
    ensures forall y :: y in InsertTime(x, times) ==> y == x || y in times
  {
    if times != [] && x > times[0] {
      InsertTimeSorts(x, times[1..]);
      var rest := InsertTime(x, times[1..]);
      forall i | 0 <= i < |rest| ensures times[0] <= rest[i] {
        assert rest[i] in rest;
      }
    }
  }

  lemma {:induction false} SortTimesSorts(times: seq<real>)
    ensures AscendingTimes(SortTimes(times)) && |SortTimes(times)| == |times|
  {
    if times != [] {
      SortTimesSorts(times[1..]);
      InsertTimeSorts(times[0], SortTimes(times[1..]));
    }
  }

  lemma {:induction false} InsertTimeCounts(x: real, times: seq<real>, f: real -> int)
    ensures Sum(InsertTime(x, times), f) == f(x) + Sum(times, f)
  {
    if times != [] && x > times[0] {
      InsertTimeCounts(x, times[1..], f);
    }
  }

  lemma {:induction false} SortTimesCounts(times: seq<real>, f: real -> int)
    ensures Sum(SortTimes(times), f) == Sum(times, f)
  {
    if times != [] {
      SortTimesCounts(times[1..], f);
      InsertTimeCounts(times[0], SortTimes(times[1..]), f);
    }
  }

  lemma {:induction false} StartsCounted(entries: seq<Request>, t: real)
    ensures |Starts(entries)| == |entries| && Sum(Starts(entries), UpTo(t)) == StartedBy(entries, t)
  {
    if entries != [] {
      var n := |entries| - 1;
      StartsCounted(entries[..n], t);
      SumAppend(Starts(entries[..n]), entries[n].start, UpTo(t));
    }
  }

  /** Of ascending times, at least k + 1 come up to the time at k, and at most k before it. */
  lemma {:induction false} AscendingCounts(times: seq<real>, k: nat)
    requires AscendingTimes(times) && k < |times|
    ensures k < Sum(times, UpTo(times[k])) <= |times| && Sum(times, Below(times[k])) <= k
    ensures k == |times| - 1 ==> Sum(times, UpTo(times[k])) == |times|
  {
    CountedUpTo(times, k + 1, times[k]);
    CountedBelow(times, k, times[k]);
  }

  lemma {:induction false} CountedUpTo(times: seq<real>, k: nat, t: real)
    requires k <= |times| && forall i :: 0 <= i < k ==> times[i] <= t
    ensures k <= Sum(times, UpTo(t)) <= |times|
  {
    if times != [] {
      CountedUpTo(times[1..], if k > 0 then k - 1 else 0, t);
    }
  }

  lemma {:induction false} CountedBelow(times: seq<real>, k: nat, t: real)
    requires k <= |times| && forall i :: k <= i < |times| ==> times[i] >= t
    ensures Sum(times, Below(t)) <= k
  {
    if times != [] {
      CountedBelow(times[1..], if k > 0 then k - 1 else 0, t);
    }
  }

  datatype Window = Window(from: real, to: real) | NoConcurrency | TooFewRequests

  /** From the start of the c-th request to that of the last: fewer than c requests have started before
      it, c by then, and all of them at its end. */
  method PlateauWindow(entries: seq<Request>, concurrency: int) returns (window: Window)
    ensures window.NoConcurrency? <==> concurrency < 1
    ensures window.TooFewRequests? <==> 1 <= concurrency && |entries| < 2 * concurrency
    ensures window.Window? ==>
      && window.from <= window.to
      && Sum(Starts(entries), Below(window.from)) < concurrency <= StartedBy(entries, window.from)
      && Sum(Starts(entries), Below(window.to)) < |entries| == StartedBy(entries, window.to)
  {
    if concurrency < 1 {
      return NoConcurrency;
    }
    if |entries| < 2 * concurrency {
      return TooFewRequests;
    }
    var starts := SortTimes(Starts(entries));
    SortTimesSorts(Starts(entries));
    StartsCounted(entries, 0.0);
    window := Window(starts[concurrency - 1], starts[|starts| - 1]);
    AscendingCounts(starts, concurrency - 1);
    AscendingCounts(starts, |starts| - 1);
    SortTimesCounts(Starts(entries), Below(window.from));
    SortTimesCounts(Starts(entries), Below(window.to));
    SortTimesCounts(Starts(entries), UpTo(window.from));
    SortTimesCounts(Starts(entries), UpTo(window.to));
    StartsCounted(entries, window.from);
    StartsCounted(entries, window.to);
  }

  // ---- The time-weighted mean ----

  function Covered(segments: seq<Segment>, lo: real, hi: real): real {
    if segments == [] then 0.0
    else
      var last := segments[|segments| - 1];
      Covered(segments[..|segments| - 1], lo, hi) + Overlap(last.from, last.to, lo, hi)
  }

  lemma {:induction false} SpanGrows(segments: seq<Segment>, events: seq<Event>, from: real, to: real)
    requires Describes(segments, events, from, to)
    ensures from <= to
  {
    if |segments| > 0 {
      var n := |segments| - 1;
      assert Constant(segments[n], events);
      if n > 0 {
        SpanGrows(segments[..n], events, from, segments[n].from);
      }
    }
  }

  lemma OverlapAdds(from: real, mid: real, to: real, lo: real, hi: real)
    requires from <= mid <= to && lo < hi
    ensures Overlap(from, to, lo, hi) == Overlap(from, mid, lo, hi) + Overlap(mid, to, lo, hi)
  {
  }

  /** Abutting segments cover of a window what their whole span does. */
  lemma {:induction false} CoveredIsSpan(segments: seq<Segment>, events: seq<Event>, from: real, to: real, lo: real, hi: real)
    requires Describes(segments, events, from, to) && lo < hi
    ensures Covered(segments, lo, hi) == Overlap(from, to, lo, hi)
  {
    if segments != [] {
      var n := |segments| - 1;
      var last := segments[n];
      assert Constant(last, events);
      if n > 0 {
        CoveredIsSpan(segments[..n], events, from, last.from, lo, hi);
        SpanGrows(segments[..n], events, from, last.from);
        OverlapAdds(from, last.from, last.to, lo, hi);
      } else {
        assert segments[..n] == [];
      }
    }
  }

  datatype Mean = Mean(value: real) | EmptyWindow | NoOverlap

  /** The mean of a total over a width. */
  ghost predicate IsMean(mean: real, w: real, total: real) {
    w > 0.0 && mean * w == total
  }

  lemma Quotient(a: real, b: real, mean: real)
    requires b > 0.0 && mean == a / b
    ensures IsMean(mean, b, a)
  {
  }

  lemma MeasureNext(more: seq<Segment>, segments: seq<Segment>, next: Segment, lo: real, hi: real)
    requires more == segments + [next]
    ensures Weighted(more, lo, hi) == Weighted(segments, lo, hi) + Contribution(next, lo, hi)
    ensures Covered(more, lo, hi) == Covered(segments, lo, hi) + Overlap(next.from, next.to, lo, hi)
  {
    assert more[..|segments|] == segments;
  }

  method Measure(segments: seq<Segment>, lo: real, hi: real) returns (weighted: real, covered: real)
    ensures weighted == Weighted(segments, lo, hi) && covered == Covered(segments, lo, hi)
  {
    weighted, covered := 0.0, 0.0;
    var i := 0;
    while i < |segments|
      invariant i <= |segments| && weighted == Weighted(segments[..i], lo, hi) && covered == Covered(segments[..i], lo, hi)
    {
      MeasureNext(segments[..i + 1], segments[..i], segments[i], lo, hi);
      var a, b := Later(segments[i].from, lo), Earlier(segments[i].to, hi);
      if b > a {
        weighted := weighted + segments[i].value as real * (b - a);
        covered := covered + (b - a);
      }
      i := i + 1;
    }
    assert segments[..i] == segments;
  }

  lemma {:induction false} CoveredNonNegative(segments: seq<Segment>, lo: real, hi: real)
    ensures Covered(segments, lo, hi) >= 0.0
  {
    if segments != [] {
      CoveredNonNegative(segments[..|segments| - 1], lo, hi);
    }
  }

  /** The time-weighted mean over a window, of any segments. */
  method MeanInflight(segments: seq<Segment>, lo: real, hi: real) returns (mean: Mean)
    ensures mean.EmptyWindow? <==> hi <= lo
    ensures mean.NoOverlap? <==> hi > lo && Covered(segments, lo, hi) == 0.0
    ensures mean.Mean? ==> IsMean(mean.value, Covered(segments, lo, hi), Weighted(segments, lo, hi))
  {
    if hi <= lo {
      return EmptyWindow;
    }
    var weighted, covered := Measure(segments, lo, hi);
    CoveredNonNegative(segments, lo, hi);
    if covered <= 0.0 {
      return NoOverlap;
    }
    Quotient(weighted, covered, weighted / covered);
    mean := Mean(weighted / covered);
  }

  /** The mean in flight over a window is the time that the requests spend in it, over the part of it that lies between
      the first start and the last end. */
  lemma MeanTellsTheRequests(entries: seq<Request>, segments: seq<Segment>, from: real, to: real, lo: real, hi: real, mean: real)
    requires HoldsAllTime(segments, entries) && Describes(segments, SortEvents(EventsOf(entries)), from, to) && lo < hi
    requires IsMean(mean, Covered(segments, lo, hi), Weighted(segments, lo, hi))
    ensures IsMean(mean, Overlap(from, to, lo, hi), TimeWithin(entries, lo, hi))
  {
    CoveredIsSpan(segments, SortEvents(EventsOf(entries)), from, to, lo, hi);
  }

  ghost predicate AtMost(total: real, c: real, w: real) {
    total <= c * w
  }

  lemma AtMostStep(before: real, c: real, covered: real, value: real, more: real, after: real)
    requires AtMost(before, c, covered) && value <= c && more >= 0.0 && after == before + value * more
    ensures AtMost(after, c, covered + more)
  {
    assert value * more <= c * more;
    assert c * (covered + more) == c * covered + c * more;
  }

  lemma {:induction false} WeightedBounded(segments: seq<Segment>, lo: real, hi: real, c: real)
    requires forall i :: 0 <= i < |segments| ==> segments[i].value as real <= c
    ensures AtMost(Weighted(segments, lo, hi), c, Covered(segments, lo, hi))
  {
    if segments != [] {
      var n := |segments| - 1;
      var last := segments[n];
      WeightedBounded(segments[..n], lo, hi, c);
      AtMostStep(Weighted(segments[..n], lo, hi), c, Covered(segments[..n], lo, hi), last.value as real,
                 Overlap(last.from, last.to, lo, hi), Weighted(segments, lo, hi));
    }
  }

  lemma Exceeds(a: real, b: real, w: real)
    requires a > b && w > 0.0
    ensures a * w > b * w
  {
  }

  lemma MeanBelow(mean: real, c: real, w: real, total: real)
    requires IsMean(mean, w, total) && AtMost(total, c, w)
    ensures mean <= c
  {
    if mean > c {
      Exceeds(mean, c, w);
    }
  }

  /** When no more than c requests are ever in flight, no mean over any window exceeds c. */
  lemma MeanStaysBelowTheLimit(segments: seq<Segment>, lo: real, hi: real, mean: real, c: nat)
    requires MaxInflight(segments) <= c && IsMean(mean, Covered(segments, lo, hi), Weighted(segments, lo, hi))
    ensures mean <= c as real
  {
    var k := MaxIsMax(segments);
    WeightedBounded(segments, lo, hi, c as real);
    MeanBelow(mean, c as real, Covered(segments, lo, hi), Weighted(segments, lo, hi));
  }
}
