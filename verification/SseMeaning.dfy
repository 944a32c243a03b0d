/** What a stream yields, told payload by payload, and what its payloads are, told event by event. */
module SseMeaning {
  import opened Common
  import opened SseReference

  // ---- The text, the chunks and the usage of a stream ----

  /** The content a payload adds: none where the callback for reasoning or the one for content found a fault. */
  function ContentOf(read: Bytes -> Reading): Bytes -> string {
    (p: Bytes) =>
      match read(p)
      case Readable(_, Found(_), Found(text)) => text
      case _ => ""
  }

  /** The reasoning it adds, whatever the callback for content makes of it. */
  function ReasoningOf(read: Bytes -> Reading): Bytes -> string {
    (p: Bytes) =>
      match read(p)
      case Readable(_, Found(text), _) => text
      case _ => ""
  }

  function WithContent(read: Bytes -> Reading): Bytes -> seq<Bytes> {
    (p: Bytes) => if ContentOf(read)(p) != "" then [p] else []
  }

  function WithReasoningAlone(read: Bytes -> Reading): Bytes -> seq<Bytes> {
    (p: Bytes) => if ReasoningOf(read)(p) != "" && read(p).content == Found("") then [p] else []
  }

  lemma {:induction false} TextsPutTogether(read: Bytes -> Reading, payloads: seq<Bytes>)
    ensures Summary(read, payloads).text == Collect(payloads, ContentOf(read))
    ensures Summary(read, payloads).reasoning == Collect(payloads, ReasoningOf(read))
  {
    if payloads != [] {
      var n := |payloads| - 1;
      TextsPutTogether(read, payloads[..n]);
      assert payloads == payloads[..n] + [payloads[n]];
      CollectAppend(payloads[..n], payloads[n], ContentOf(read));
      CollectAppend(payloads[..n], payloads[n], ReasoningOf(read));
    }
  }

  lemma AbsorbedChunks(read: Bytes -> Reading, y: Yield, p: Bytes)
    ensures Absorb(y, read(p), p).chunks == y.chunks + WithContent(read)(p)
    ensures Absorb(y, read(p), p).reasoningChunks == y.reasoningChunks + WithReasoningAlone(read)(p)
  {
    assert y.chunks + [] == y.chunks && y.reasoningChunks + [] == y.reasoningChunks;
    assert CarriesContent(read(p)) <==> ContentOf(read)(p) != "";
    assert CarriesReasoningOnly(read(p)) <==> WithReasoningAlone(read)(p) == [p];
  }

  lemma {:induction false} ChunksFiltered(read: Bytes -> Reading, payloads: seq<Bytes>)
    ensures Summary(read, payloads).chunks == Collect(payloads, WithContent(read))
    ensures Summary(read, payloads).reasoningChunks == Collect(payloads, WithReasoningAlone(read))
  {
    if payloads != [] {
      var n := |payloads| - 1;
      ChunksFiltered(read, payloads[..n]);
      AbsorbedChunks(read, Summary(read, payloads[..n]), payloads[n]);
      assert payloads == payloads[..n] + [payloads[n]];
      CollectAppend(payloads[..n], payloads[n], WithContent(read));
      CollectAppend(payloads[..n], payloads[n], WithReasoningAlone(read));
    }
  }

  /** The text of a stream is the content of its payloads put together in order, and so is its reasoning; the
      chunks are the payloads with content, and the reasoning chunks those with reasoning alone. */
  lemma StreamYieldsItsPayloads(read: Bytes -> Reading, payloads: seq<Bytes>)
    ensures Summary(read, payloads).text == Collect(payloads, ContentOf(read))
    ensures Summary(read, payloads).reasoning == Collect(payloads, ReasoningOf(read))
    ensures Summary(read, payloads).chunks == Collect(payloads, WithContent(read))
    ensures Summary(read, payloads).reasoningChunks == Collect(payloads, WithReasoningAlone(read))
  {
    TextsPutTogether(read, payloads);
    ChunksFiltered(read, payloads);
  }

  /** The payload reports a value under the key. */
  predicate ReportsUsage(r: Reading, key: string) {
    r.Readable? && r.usage.Some? && key in r.usage.value
  }

  /** The payload at i is the last to report the key. */
  ghost predicate LastToReport(read: Bytes -> Reading, payloads: seq<Bytes>, key: string, i: nat) {
    && i < |payloads| && ReportsUsage(read(payloads[i]), key)
    && forall j :: i < j < |payloads| ==> !ReportsUsage(read(payloads[j]), key)
  }

  predicate HasUsage(r: Reading) {
    r.Readable? && r.usage.Some?
  }

  lemma {:induction false} UsageIsThere(read: Bytes -> Reading, payloads: seq<Bytes>)
    ensures Summary(read, payloads).usage.Some? <==> exists i :: 0 <= i < |payloads| && HasUsage(read(payloads[i]))
  {
    if payloads != [] {
      var front := payloads[..|payloads| - 1];
      UsageIsThere(read, front);
      assert forall i :: 0 <= i < |front| ==> front[i] == payloads[i];
    }
  }

  /** What the merged usage says of a key. */
  function Merged(usage: Option<Usage>, key: string): Option<int> {
    if usage.Some? && key in usage.value then Some(usage.value[key]) else None
  }

  lemma MergedNext(known: Option<Usage>, fresher: Option<Usage>, key: string)
    ensures Merged(MergeUsage(known, fresher), key) == if Merged(fresher, key).Some? then Merged(fresher, key) else Merged(known, key)
  {
  }

  lemma {:induction false} UsageOfKey(read: Bytes -> Reading, payloads: seq<Bytes>, key: string)
    ensures var m := Merged(Summary(read, payloads).usage, key);
            if m.None? then forall i :: 0 <= i < |payloads| ==> !ReportsUsage(read(payloads[i]), key)
            else exists i: nat :: LastToReport(read, payloads, key, i) && m.value == read(payloads[i]).usage.value[key]
  {
    if payloads != [] {
      var n := |payloads| - 1;
      var front, r := payloads[..n], read(payloads[n]);
      UsageOfKey(read, front, key);
      assert forall i :: 0 <= i < n ==> front[i] == payloads[i];
      if r.Readable? {
        MergedNext(Summary(read, front).usage, r.usage, key);
      }
      if ReportsUsage(r, key) {
        assert LastToReport(read, payloads, key, n);
      } else if i: nat :| LastToReport(read, front, key, i) && Merged(Summary(read, front).usage, key) == Some(read(front[i]).usage.value[key]) {
        assert LastToReport(read, payloads, key, i);
      }
    }
  }

  /** The usage of a stream maps each key to what the last payload that reports it says, and has no other keys;
      there is none exactly when no payload has any. */
  lemma UsageIsTheLatest(read: Bytes -> Reading, payloads: seq<Bytes>, key: string, i: nat)
    ensures var usage := Summary(read, payloads).usage;
            && (usage.Some? <==> exists j :: 0 <= j < |payloads| && HasUsage(read(payloads[j])))
            && (usage.Some? && key in usage.value <==> exists j :: 0 <= j < |payloads| && ReportsUsage(read(payloads[j]), key))
            && (LastToReport(read, payloads, key, i) ==>
                  usage.Some? && key in usage.value && usage.value[key] == read(payloads[i]).usage.value[key])
  {
    UsageIsThere(read, payloads);
    UsageOfKey(read, payloads, key);
  }

  predicate BreaksOff(r: Reading) {
    match r
    case Malformed => false
    case Raising => true
    case Readable(_, Fault, _) => true
    case Readable(_, Found(_), Fault) => true
    case Readable(_, _, _) => false
  }

  /** A stream is broken by exactly these payloads: one whose decoding raises, and one whose callback for
      reasoning, or after that has found something the one for content, has a fault other than an index fault. */
  lemma BreaksExactlyOn(read: Bytes -> Reading, payloads: seq<Bytes>)
    ensures Breaks(read, payloads) <==> exists p :: p in payloads && BreaksOff(read(p))
  {
    if Breaks(read, payloads) {
      var i :| 0 <= i < |payloads| && Fatal(read(payloads[i]));
      assert payloads[i] in payloads;
    }
  }

  // ---- The payloads of a stream ----

  /** A line of data, that is one whose field name is exactly `data`, with its value. */
  function DataOf(line: Bytes): seq<Bytes> {
    if line == DATA then [[]]
    else if PREFIX + [SPACE] <= line then [line[6..]]
    else if PREFIX <= line then [line[5..]]
    else []
  }

  lemma ColonAt(line: Bytes, k: nat)
    requires k < |line| && line[k] == COLON && forall j :: 0 <= j < k ==> line[j] != COLON
    ensures FirstColon(line) == k
  {
  }

  lemma DataLines(line: Bytes)
    ensures (if Field(line) == DATA then [Value(line)] else []) == DataOf(line)
  {
    if PREFIX <= line {
      FrameLine(line);
      assert |PREFIX| == 5 && line[4] == PREFIX[4];
    } else if Field(line) == DATA {
      assert |Field(line)| == 4;
    } else {
      assert FirstColon(DATA) == 4 && DATA[..4] == DATA;
    }
  }

  predicate Filled(lines: seq<Bytes>) {
    forall i :: 0 <= i < |lines| ==> lines[i] != []
  }

  ghost predicate Gathers(before: seq<Bytes>, lines: seq<Bytes>) {
    Feed(before + lines) == Feed(before).(data := Feed(before).data + Collect(lines, DataOf))
  }

  lemma GathersOneMore(before: seq<Bytes>, front: seq<Bytes>, line: Bytes, lines: seq<Bytes>)
    requires !Feed(before).done && line != [] && lines == front + [line] && Gathers(before, front)
    ensures Gathers(before, lines)
  {
    assert before + lines == (before + front) + [line];
    FeedOne(before + front, line);
    CollectAppend(front, line, DataOf);
    LineGathers(Feed(before), line, Collect(front, DataOf));
  }

  lemma {:induction false} LinesGather(before: seq<Bytes>, lines: seq<Bytes>)
    requires !Feed(before).done && Filled(lines)
    ensures Gathers(before, lines)
  {
    if lines == [] {
      assert before + lines == before;
    } else {
      var n := |lines| - 1;
      LinesGather(before, lines[..n]);
      GathersOneMore(before, lines[..n], lines[n], lines);
    }
  }

  lemma LineGathers(d: Dispatcher, line: Bytes, values: seq<Bytes>)
    requires !d.done && line != []
    ensures FeedLine(d.(data := d.data + values), line) == d.(data := d.data + (values + DataOf(line)))
  {
    DataLines(line);
    assert (d.data + values) + DataOf(line) == d.data + (values + DataOf(line));
    assert d.data + values + [] == d.data + values;
  }

  /** An event is a run of lines with an empty one behind it. It dispatches the values of its data lines, joined,
      unless it has none or they are the end marker; all its other lines count for nothing. */
  lemma EventDispatches(before: seq<Bytes>, lines: seq<Bytes>)
    requires Feed(before).data == [] && !Feed(before).done && Filled(lines)
    ensures var values := Collect(lines, DataOf);
            Feed(before + lines + [[]]) ==
              if values == [] then Feed(before)
              else if Strip(JoinLines(values), IsSpace) == DONE then Dispatcher([], Feed(before).payloads, true)
              else Dispatcher([], Feed(before).payloads + [JoinLines(values)], false)
  {
    LinesGather(before, lines);
    FeedOne(before + lines, []);
    assert [] + Collect(lines, DataOf) == Collect(lines, DataOf);
  }

  function AfterLf(line: Bytes): Bytes {
    [LF] + line
  }

  /** Joining puts an LF in front of every line but the first. */
  lemma {:induction false} JoinedByLf(first: Bytes, rest: seq<Bytes>)
    ensures JoinLines([first] + rest) == first + Collect(rest, AfterLf)
  {
    if rest == [] {
      assert [first] + rest == [first];
    } else {
      var n := |rest| - 1;
      JoinedByLf(first, rest[..n]);
      assert rest == rest[..n] + [rest[n]];
      assert ([first] + rest)[..|rest|] == [first] + rest[..n];
      CollectAppend(rest[..n], rest[n], AfterLf);
      assert first + (Collect(rest[..n], AfterLf) + ([LF] + rest[n])) == (first + Collect(rest[..n], AfterLf)) + [LF] + rest[n];
    }
  }

  lemma {:induction false} LfsBetween(rest: seq<Bytes>)
    requires forall i :: 0 <= i < |rest| ==> LF !in rest[i]
    ensures Occurrences(Collect(rest, AfterLf), LF) == |rest|
  {
    if rest != [] {
      LfsBetween(rest[1..]);
      OccurrencesAdd(AfterLf(rest[0]), Collect(rest[1..], AfterLf), LF);
      OccurrencesAdd([LF], rest[0], LF);
      assert multiset([LF])[LF] == 1;
    }
  }

  lemma OccurrencesAdd(a: Bytes, b: Bytes, x: byte)
    ensures Occurrences(a + b, x) == Occurrences(a, x) + Occurrences(b, x)
  {
    assert multiset(a + b) == multiset(a) + multiset(b);
  }

  /** So n lines without an LF are joined by n - 1 of them. */
  lemma LinesAreJoinedByLfs(lines: seq<Bytes>)
    requires lines != [] && forall i :: 0 <= i < |lines| ==> LF !in lines[i]
    ensures Occurrences(JoinLines(lines), LF) == |lines| - 1
  {
    JoinedByLf(lines[0], lines[1..]);
    assert lines == [lines[0]] + lines[1..];
    LfsBetween(lines[1..]);
    OccurrencesAdd(lines[0], Collect(lines[1..], AfterLf), LF);
  }
}
