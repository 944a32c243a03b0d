/** The streaming parser, and that it reads every cutting of a stream like the one-pass reading. */
module SseParser {
  import opened Common
  import opened SseReference
  import opened Timeline

  datatype Outcome =
    | Parsed(yielded: Yield, chunkTimes: seq<real>, reasoningTimes: seq<real>, raw: Bytes)
    | Interrupted(raw: Bytes)

  /** Times for as many chunks, in order, taken between two instants. */
  predicate TimesFor(times: seq<real>, chunks: nat, from: real, to: real) {
    |times| == chunks && SortedBy(times, Instant) && forall i :: 0 <= i < |times| ==> from <= times[i] <= to
  }

  lemma TimesForLater(times: seq<real>, chunks: nat, from: real, to: real, at: real, later: real)
    requires TimesFor(times, chunks, from, to) && from <= to <= at <= later
    ensures TimesFor(times, chunks, from, later) && TimesFor(times + [at], chunks + 1, from, later)
  {
  }

  /** The times of one more piece of the stream are no earlier than the given instant. */
  predicate Dates(before: seq<real>, after: seq<real>, since: real) {
    before <= after && forall i :: |before| <= i < |after| ==> after[i] >= since
  }

  predicate BothDate(chunks: seq<real>, reasoning: seq<real>, chunks': seq<real>, reasoning': seq<real>, since: real) {
    Dates(chunks, chunks', since) && Dates(reasoning, reasoning', since)
  }

  /** When a chunk arrived, in a reading that began at `from`, and the times recorded by then. */
  datatype Mark = Mark(from: real, at: real, times: seq<real>, others: seq<real>)

  /** What the stream up to the i-th chunk yields. */
  function YieldBefore(read: Bytes -> Reading, chunks: seq<Bytes>, i: nat): Yield
    requires i <= |chunks|
  {
    Summary(read, Payloads(Concat(chunks[..i])))
  }

  /** The times of what the i-th chunk completes lie between its arrival and that of the next. */
  ghost predicate TimedByChunk(read: Bytes -> Reading, chunks: seq<Bytes>, i: nat, arrivals: seq<real>,
                               chunkTimes: seq<real>, reasoningTimes: seq<real>)
    requires i < |chunks| && i + 1 < |arrivals|
  {
    var before, after := YieldBefore(read, chunks, i), YieldBefore(read, chunks, i + 1);
    && |after.chunks| <= |chunkTimes| && |after.reasoningChunks| <= |reasoningTimes|
    && (forall k :: |before.chunks| <= k < |after.chunks| ==> arrivals[i] <= chunkTimes[k] <= arrivals[i + 1])
    && (forall k :: |before.reasoningChunks| <= k < |after.reasoningChunks| ==> arrivals[i] <= reasoningTimes[k] <= arrivals[i + 1])
  }

  /** The i-th chunk arrives at arrivals[i]. Each time is taken between the arrival of the chunk that completes its
      event and that of the next chunk. */
  ghost predicate TimedByArrival(read: Bytes -> Reading, chunks: seq<Bytes>, n: nat, arrivals: seq<real>, chunkTimes: seq<real>,
                                 reasoningTimes: seq<real>)
    requires n <= |chunks|
  {
    && |arrivals| == n + 1
    && (forall i :: 0 <= i < n ==> arrivals[i] <= arrivals[i + 1])
    && forall i :: 0 <= i < n ==> TimedByChunk(read, chunks, i, arrivals, chunkTimes, reasoningTimes)
  }

  lemma NextArrival(read: Bytes -> Reading, chunks: seq<Bytes>, n: nat, arrivals: seq<real>, chunkTimes: seq<real>, reasoningTimes: seq<real>,
                    chunkTimes': seq<real>, reasoningTimes': seq<real>, from: real, next: real, arrivals': seq<real>)
    requires n < |chunks| && TimedByArrival(read, chunks, n, arrivals, chunkTimes, reasoningTimes)
    requires arrivals' == arrivals + [next] && arrivals[n] <= next
    requires BothDate(chunkTimes, reasoningTimes, chunkTimes', reasoningTimes', arrivals[n])
    requires |chunkTimes| == |YieldBefore(read, chunks, n).chunks| && |reasoningTimes| == |YieldBefore(read, chunks, n).reasoningChunks|
    requires TimesFor(chunkTimes', |YieldBefore(read, chunks, n + 1).chunks|, from, next)
    requires TimesFor(reasoningTimes', |YieldBefore(read, chunks, n + 1).reasoningChunks|, from, next)
    ensures TimedByArrival(read, chunks, n + 1, arrivals', chunkTimes', reasoningTimes')
  {
    forall i | 0 <= i < n + 1 ensures TimedByChunk(read, chunks, i, arrivals', chunkTimes', reasoningTimes') {
      if i < n {
        assert TimedByChunk(read, chunks, i, arrivals, chunkTimes, reasoningTimes);
        StillTimed(read, chunks, i, arrivals, chunkTimes, reasoningTimes, arrivals', chunkTimes', reasoningTimes');
      }
    }
  }

  lemma StillTimed(read: Bytes -> Reading, chunks: seq<Bytes>, i: nat, arrivals: seq<real>, chunkTimes: seq<real>, reasoningTimes: seq<real>,
                   arrivals': seq<real>, chunkTimes': seq<real>, reasoningTimes': seq<real>)
    requires i < |chunks| && i + 1 < |arrivals| && TimedByChunk(read, chunks, i, arrivals, chunkTimes, reasoningTimes)
    requires arrivals <= arrivals' && chunkTimes <= chunkTimes' && reasoningTimes <= reasoningTimes'
    ensures TimedByChunk(read, chunks, i, arrivals', chunkTimes', reasoningTimes')
  {
  }

  /** The n-th chunk is the first to complete a fatal event, or the connection breaks after the last. */
  ghost predicate StopsAt(read: Bytes -> Reading, chunks: seq<Bytes>, connectionBreaks: bool, n: nat)
    requires n <= |chunks|
  {
    && (Breaks(read, Payloads(Concat(chunks[..n]))) || (connectionBreaks && n == |chunks|))
    && (n > 0 ==> !Breaks(read, Payloads(Concat(chunks[..n - 1]))))
  }

  /** What the parser must hold after the stream s, when it has not met the end marker. */
  ghost predicate Holds(s: Bytes, d: Dispatcher, buffer: Bytes, dataLines: seq<Bytes>, skipLf: bool) {
    buffer == Split(s).tail && dataLines == d.data && skipLf == EndsInCr(s)
  }

  class Parser {
    const read: Bytes -> Reading
    var text: string
    var chunkTimes: seq<real>
    var rawChunks: seq<Bytes>
    var responseChunks: seq<Bytes>
    var serverUsage: Option<Usage>
    var reasoningText: string
    var reasoningChunks: seq<Bytes>
    var reasoningTimes: seq<real>
    var buffer: Bytes
    var dataLines: seq<Bytes>
    var skipLf: bool
    var done: bool

    constructor (read: Bytes -> Reading)
      ensures this.read == read && rawChunks == [] && Refines([])
      ensures forall t :: Timed(t, t)
    {
      this.read := read;
      text, chunkTimes, rawChunks, responseChunks, serverUsage := "", [], [], [], None;
      reasoningText, reasoningChunks, reasoningTimes := "", [], [];
      buffer, dataLines, skipLf, done := [], [], false, false;
    }

    ghost function Yielded(): Yield
      reads this
    {
      Yield(text, responseChunks, serverUsage, reasoningText, reasoningChunks)
    }

    ghost predicate Timed(from: real, to: real)
      reads this
    {
      TimesFor(chunkTimes, |responseChunks|, from, to) && TimesFor(reasoningTimes, |reasoningChunks|, from, to)
    }

    /** The times up to now, those behind the mark no earlier than it. */
    ghost predicate Since(mark: Mark, to: real)
      reads this
    {
      mark.from <= mark.at <= to && Timed(mark.from, to) && BothDate(mark.times, mark.others, chunkTimes, reasoningTimes, mark.at)
    }

    /** Nothing dispatched so far was fatal, and all of it is recorded. */
    ghost predicate Recorded(payloads: seq<Bytes>)
      reads this
    {
      Yielded() == Summary(read, payloads) && !Breaks(read, payloads)
    }

    /** The parser stands where the dispatcher stands after the given lines. */
    ghost predicate After(lines: seq<Bytes>)
      reads this
    {
      var d := Feed(lines);
      Recorded(d.payloads) && done == d.done && (!done ==> dataLines == d.data)
    }

    /** The parser stands where the one-pass reading of s stands. */
    ghost predicate Refines(s: Bytes)
      reads this
    {
      After(Split(s).lines) && (!done ==> Holds(s, Feed(Split(s).lines), buffer, dataLines, skipLf))
    }

    /** Records what one payload yields; false when reading it raises. */
    method ProcessDataPayload(payload: Bytes, time: real, ghost payloads: seq<Bytes>, ghost mark: Mark, ghost to: real)
      returns (ok: bool)
      requires Recorded(payloads) && Since(mark, to) && to <= time
      modifies this`text, this`chunkTimes, this`responseChunks, this`serverUsage, this`reasoningText, this`reasoningChunks, this`reasoningTimes
      ensures ok == !Fatal(read(payload))
      ensures ok ==> Recorded(payloads + [payload]) && Since(mark, time)
    {
      assert (payloads + [payload])[..|payloads|] == payloads;
      TimesForLater(chunkTimes, |responseChunks|, mark.from, to, time, time);
      TimesForLater(reasoningTimes, |reasoningChunks|, mark.from, to, time, time);
      var r := read(payload);
      if r.Raising? {
        return false;
      }
      ok := true;
      if r.Malformed? {
        return;
      }
      serverUsage := MergeUsage(serverUsage, r.usage);
      if r.reasoning.Fault? {
        return false;
      }
      if r.reasoning.IndexFault? {
        return;
      }
      reasoningText := reasoningText + r.reasoning.text;
      if r.content.Fault? {
        return false;
      }
      if r.content.IndexFault? {
        return;
      }
      if r.content.text != "" {
        text := text + r.content.text;
        chunkTimes := chunkTimes + [time];
        responseChunks := responseChunks + [payload];
      } else if r.reasoning.text != "" {
        reasoningTimes := reasoningTimes + [time];
        reasoningChunks := reasoningChunks + [payload];
      }
    }

    /** Takes in one line of the buffered stream: false when the event it completes is fatal. */
    method TakeLine(line: Bytes, clock: Clock, ghost lines: seq<Bytes>, ghost mark: Mark)
      returns (ok: bool)
      requires After(lines) && !done && Since(mark, clock.now)
      modifies this`text, this`chunkTimes, this`responseChunks, this`serverUsage, this`reasoningText, this`reasoningChunks, this`reasoningTimes,
               this`dataLines, this`done, clock
      ensures clock.now >= old(clock.now)
      ensures ok ==> After(lines + [line]) && Since(mark, clock.now)
      ensures !ok ==> Breaks(read, Feed(lines + [line]).payloads)
    {
      FeedOne(lines, line);
      if line != [] {
        if Field(line) == DATA {
          dataLines := dataLines + [Value(line)];
        }
        SinceLater(mark, clock.now);
        return true;
      }
      if dataLines == [] {
        return true;
      }
      var payload := JoinLines(dataLines);
      dataLines := [];
      ghost var before := clock.now;
      var time := clock.Read();
      if Strip(payload, IsSpace) == DONE {
        SinceLater(mark, before);
        done := true;
        return true;
      }
      ok := ProcessDataPayload(payload, time, Feed(lines).payloads, mark, before);
      if !ok {
        FatalBreaks(read, Feed(lines).payloads, payload);
      }
    }

    /** Takes in the complete lines of the buffer, up to the end marker, and says where they end. */
    method ScanLines(clock: Clock, ghost before: seq<Bytes>, ghost mark: Mark)
      returns (ok: bool, scanPos: nat, ghost lines: seq<Bytes>)
      requires After(before) && !done && Since(mark, clock.now)
      modifies this`text, this`chunkTimes, this`responseChunks, this`serverUsage, this`reasoningText, this`reasoningChunks, this`reasoningTimes,
               this`dataLines, this`skipLf, this`done, clock
      ensures clock.now >= old(clock.now) && Scanning(buffer, before, lines, scanPos)
      ensures ok ==> After(lines) && Since(mark, clock.now) && (done || FirstEnding(buffer, scanPos) == |buffer|)
      ensures ok ==> if lines == before then scanPos == 0 && skipLf == old(skipLf) else scanPos > 0
      ensures ok && lines != before ==> (skipLf <==> scanPos == |buffer| && EndsInCr(buffer))
      ensures !ok ==> Breaks(read, Feed(lines).payloads)
    {
      ok, scanPos, lines := true, 0, before;
      var k := FirstEnding(buffer, 0);
      assert buffer[0..] == buffer;
      while k < |buffer| && !done
        invariant ok && Scanning(buffer, before, lines, scanPos) && k == FirstEnding(buffer, scanPos)
        invariant After(lines) && Since(mark, clock.now) && clock.now >= old(clock.now)
        invariant |lines| > |before| || (lines == before && scanPos == 0 && skipLf == old(skipLf))
        invariant |lines| > |before| ==> scanPos > 0 && (skipLf <==> scanPos == |buffer| && EndsInCr(buffer))
        decreases |buffer| - scanPos, !done
      {
        var line := buffer[scanPos..k];
        var end := EndingEnd(buffer, k);
        skipLf := buffer[k] == CR && end == k + 1 && end == |buffer|;
        BareCrAtEnd(buffer, k);
        ScanStep(buffer, before, lines, scanPos, k);
        scanPos := end;
        ok := TakeLine(line, clock, lines, mark);
        lines := lines + [line];
        if !ok {
          return;
        }
        k := FirstEnding(buffer, scanPos);
      }
    }

    /** Takes in the complete lines of the buffer and keeps the rest. */
    method ScanBuffer(clock: Clock, ghost before: seq<Bytes>, ghost mark: Mark) returns (ok: bool)
      requires After(before) && !done && Since(mark, clock.now)
      modifies this, clock
      ensures clock.now >= old(clock.now) && rawChunks == old(rawChunks)
      ensures ok ==> After(before + Split(old(buffer)).lines) && Since(mark, clock.now)
      ensures ok && !done ==> buffer == Split(old(buffer)).tail
      ensures ok && !done ==> skipLf == if Split(old(buffer)).lines == [] then old(skipLf) else EndsInCr(old(buffer))
      ensures !ok ==> Breaks(read, Feed(before + Split(old(buffer)).lines).payloads)
    {
      var scanPos: nat;
      ghost var lines;
      ok, scanPos, lines := ScanLines(clock, before, mark);
      if !ok {
        BreaksInTheEnd(read, buffer, before, lines, scanPos);
        return;
      }
      ScanEnds(buffer, before, lines, scanPos, FirstEnding(buffer, scanPos));
      if scanPos > 0 {
        buffer := if scanPos == |buffer| then [] else buffer[scanPos..];
      }
    }

    /** Dispatches a chunk that is one whole event. */
    method TakeFrame(chunk: Bytes, time: real, ghost stream: Bytes, ghost mark: Mark, ghost to: real) returns (ok: bool)
      requires Refines(stream) && !done && buffer == [] && dataLines == [] && !skipLf
      requires IsLfFrame(chunk) || IsCrLfFrame(chunk)
      requires Since(mark, to) && to <= time
      modifies this`text, this`chunkTimes, this`responseChunks, this`serverUsage, this`reasoningText, this`reasoningChunks, this`reasoningTimes, this`done
      ensures ok ==> Refines(stream + chunk) && Since(mark, time)
      ensures !ok ==> Breaks(read, Payloads(stream + chunk))
    {
      FrameAfter(stream, chunk);
      var payload := FramePayload(chunk);
      if Strip(payload, IsSpace) == DONE {
        SinceLater(mark, to);
        done := true;
        return true;
      }
      ok := ProcessDataPayload(payload, time, Payloads(stream), mark, to);
      if !ok {
        FatalBreaks(read, Payloads(stream), payload);
      }
    }

    /** Appends a chunk to the buffer, less the LF of a CR LF pair cut in two, and scans it. */
    method TakeBuffered(chunk: Bytes, clock: Clock, ghost stream: Bytes, ghost mark: Mark) returns (ok: bool)
      requires Refines(stream) && !done && Since(mark, clock.now)
      modifies this, clock
      ensures clock.now >= old(clock.now) && rawChunks == old(rawChunks)
      ensures ok ==> Refines(stream + chunk) && Since(mark, clock.now)
      ensures !ok ==> Breaks(read, Payloads(stream + chunk))
    {
      PieceAfter(stream, chunk, skipLf, buffer);
      buffer := buffer + chunk;
      if skipLf && buffer != [] {
        if buffer[0] == LF {
          buffer := buffer[1..];
        }
        skipLf := false;
      }
      ok := ScanBuffer(clock, Split(stream).lines, mark);
    }

    /** Takes in one chunk from the network: false when the chunk completes a fatal event. */
    method TakeChunk(chunk: Bytes, clock: Clock, ghost stream: Bytes, ghost from: real) returns (ok: bool)
      requires Refines(stream) && Timed(from, clock.now) && from <= clock.now
      modifies this, clock
      ensures clock.now >= old(clock.now) && rawChunks == old(rawChunks) + [chunk]
      ensures ok ==> Refines(stream + chunk) && Timed(from, clock.now)
      ensures !ok ==> Breaks(read, Payloads(stream + chunk))
      ensures ok ==> BothDate(old(chunkTimes), old(reasoningTimes), chunkTimes, reasoningTimes, old(clock.now))
    {
      rawChunks := rawChunks + [chunk];
      if done {
        DoneStays(stream, chunk);
        return true;
      }
      ghost var before, mark := clock.now, Mark(from, clock.now, chunkTimes, reasoningTimes);
      var time := clock.Read();
      SinceLater(mark, before);
      if buffer == [] && dataLines == [] && !skipLf && (IsLfFrame(chunk) || IsCrLfFrame(chunk)) {
        ok := TakeFrame(chunk, time, stream, mark, before);
        return;
      }
      ok := TakeBuffered(chunk, clock, stream, mark);
    }

    /** Parses a whole response, cut into chunks in any way. What it yields is what the one-pass
        reading of the concatenated chunks yields; when an event is fatal or the connection breaks, it
        hands over all the bytes received by then. */
    method Parse(chunks: seq<Bytes>, connectionBreaks: bool, clock: Clock) returns (outcome: Outcome)
      requires Refines([]) && rawChunks == [] && Timed(clock.now, clock.now)
      modifies this, clock
      ensures outcome.Parsed? <==> !connectionBreaks && !Breaks(read, Payloads(Concat(chunks)))
      ensures outcome.Parsed? ==> outcome.raw == Concat(chunks) && outcome.yielded == Summary(read, Payloads(Concat(chunks)))
      ensures outcome.Parsed? ==> TimesFor(outcome.chunkTimes, |outcome.yielded.chunks|, old(clock.now), clock.now)
      ensures outcome.Parsed? ==> TimesFor(outcome.reasoningTimes, |outcome.yielded.reasoningChunks|, old(clock.now), clock.now)
      ensures outcome.Parsed? ==>
        exists arrivals :: TimedByArrival(read, chunks, |chunks|, arrivals, outcome.chunkTimes, outcome.reasoningTimes)
                           && arrivals[0] == old(clock.now) && arrivals[|chunks|] == clock.now
      ensures outcome.Interrupted? ==> exists n :: 0 <= n <= |chunks| && StopsAt(read, chunks, connectionBreaks, n) && outcome.raw == Concat(chunks[..n])
    {
      ghost var from := clock.now;
      ghost var arrivals := [clock.now];
      var i := 0;
      assert chunks[..0] == [];
      while i < |chunks|
        invariant i <= |chunks| && rawChunks == chunks[..i]
        invariant Refines(Concat(chunks[..i])) && Timed(from, clock.now) && from <= clock.now
        invariant TimedByArrival(read, chunks, i, arrivals, chunkTimes, reasoningTimes) && arrivals[0] == from && arrivals[i] == clock.now
      {
        ConcatNext(chunks, i);
        ghost var times, others := chunkTimes, reasoningTimes;
        var ok := TakeChunk(chunks[i], clock, Concat(chunks[..i]), from);
        i := i + 1;
        if !ok {
          BreaksStays(read, chunks, i);
          assert StopsAt(read, chunks, connectionBreaks, i);
          return Interrupted(Concat(rawChunks));
        }
        NextArrival(read, chunks, i - 1, arrivals, times, others, chunkTimes, reasoningTimes, from, clock.now, arrivals + [clock.now]);
        arrivals := arrivals + [clock.now];
      }
      assert chunks[..i] == chunks;
      if connectionBreaks {
        if i > 0 {
          ConcatNext(chunks, i - 1);
          PayloadsGrow(Concat(chunks[..i - 1]), chunks[i - 1]);
          NotYetBroken(read, Payloads(Concat(chunks[..i - 1])), Payloads(Concat(chunks)));
        }
        assert StopsAt(read, chunks, connectionBreaks, i);
        return Interrupted(Concat(rawChunks));
      }
      outcome := Parsed(Yield(text, responseChunks, serverUsage, reasoningText, reasoningChunks), chunkTimes, reasoningTimes, Concat(rawChunks));
    }

    lemma SinceLater(mark: Mark, to: real)
      requires Since(mark, to)
      ensures forall later :: later >= to ==> Since(mark, later)
    {
    }
  }

  /** The lines taken in and those still in the buffer are those before and those of the whole buffer. */
  ghost predicate Scanning(whole: Bytes, before: seq<Bytes>, lines: seq<Bytes>, scanPos: nat) {
    && scanPos <= |whole|
    && before + Split(whole).lines == lines + Split(whole[scanPos..]).lines
    && Split(whole).tail == Split(whole[scanPos..]).tail
  }

  /** The lines from one position on are the line there and the lines behind its terminator. */
  lemma NextLine(whole: Bytes, from: nat, k: nat, s: Bytes)
    requires from <= |whole| && from <= k == FirstEnding(whole, from) < |whole| && s == whole[from..]
    ensures Split(s) == Behind(whole[from..k], Split(whole[EndingEnd(whole, k)..]))
  {
    FirstEndingIs(s, 0, k - from);
    assert s[..k - from] == whole[from..k];
    assert s[EndingEnd(s, k - from)..] == whole[EndingEnd(whole, k)..];
    SplitUnfolds(s, k - from, whole[from..k], whole[EndingEnd(whole, k)..]);
  }

  /** A terminator that ends the buffer is a bare CR exactly when the buffer ends in CR. */
  lemma BareCrAtEnd(whole: Bytes, k: nat)
    requires k < |whole| && IsTerminator(whole[k])
    ensures var end := EndingEnd(whole, k);
            (whole[k] == CR && end == k + 1 && end == |whole|) <==> (end == |whole| && EndsInCr(whole))
  {
  }

  lemma ScanStepText(before: seq<Bytes>, lines: seq<Bytes>, line: Bytes, whole: Text, rest: Text, rest': Text)
    requires before + whole.lines == lines + rest.lines && whole.tail == rest.tail && rest == Behind(line, rest')
    ensures before + whole.lines == (lines + [line]) + rest'.lines && whole.tail == rest'.tail
  {
    assert lines + ([line] + rest'.lines) == (lines + [line]) + rest'.lines;
  }

  lemma ScanStep(whole: Bytes, before: seq<Bytes>, lines: seq<Bytes>, scanPos: nat, k: nat)
    requires Scanning(whole, before, lines, scanPos) && scanPos <= k == FirstEnding(whole, scanPos) < |whole|
    ensures Scanning(whole, before, lines + [whole[scanPos..k]], EndingEnd(whole, k))
  {
    NextLine(whole, scanPos, k, whole[scanPos..]);
    ScanStepText(before, lines, whole[scanPos..k], Split(whole), Split(whole[scanPos..]), Split(whole[EndingEnd(whole, k)..]));
  }

  lemma BreaksInTheEnd(read: Bytes -> Reading, whole: Bytes, before: seq<Bytes>, lines: seq<Bytes>, scanPos: nat)
    requires Scanning(whole, before, lines, scanPos) && Breaks(read, Feed(lines).payloads)
    ensures Breaks(read, Feed(before + Split(whole).lines).payloads)
  {
    FeedExtends(lines, Split(whole[scanPos..]).lines);
    BreaksLater(read, Feed(lines).payloads, Feed(before + Split(whole).lines).payloads);
  }

  /** Once the end marker is met, or no line is left, the dispatcher stands where the whole buffer takes it. */
  lemma ScanEnds(whole: Bytes, before: seq<Bytes>, lines: seq<Bytes>, scanPos: nat, k: nat)
    requires Scanning(whole, before, lines, scanPos) && k == FirstEnding(whole, scanPos)
    requires k == |whole| || Feed(lines).done
    ensures Feed(before + Split(whole).lines) == Feed(lines)
    ensures !Feed(lines).done ==> lines == before + Split(whole).lines && Split(whole).tail == whole[scanPos..]
  {
    FeedExtends(lines, Split(whole[scanPos..]).lines);
    if !Feed(lines).done {
      UnterminatedRest(whole, scanPos, whole[scanPos..]);
      assert lines + [] == lines;
    }
  }

  lemma UnterminatedRest(whole: Bytes, from: nat, s: Bytes)
    requires from <= |whole| && |whole| == FirstEnding(whole, from) && s == whole[from..]
    ensures Split(s) == Text([], s)
  {
    FirstEndingIs(s, 0, |s|);
  }

  lemma BreaksLater(read: Bytes -> Reading, payloads: seq<Bytes>, more: seq<Bytes>)
    requires Breaks(read, payloads) && payloads <= more
    ensures Breaks(read, more)
  {
    var i :| 0 <= i < |payloads| && Fatal(read(payloads[i]));
    assert more[i] == payloads[i];
  }

  /** A piece appended to the unfinished line reads on where the stream before it stopped. */
  lemma PieceAfter(stream: Bytes, piece: Bytes, skipLf: bool, buffer: Bytes)
    requires skipLf == EndsInCr(stream) && buffer == Split(stream).tail
    ensures var b := buffer + piece;
            var b' := if skipLf && b != [] && b[0] == LF then b[1..] else b;
            && Split(stream + piece) == Joined(Split(stream), Split(b'))
            && (EndsInCr(stream + piece) <==>
                if Split(b').lines == [] then skipLf && b == [] else EndsInCr(b'))
  {
    SplitPieces(stream, piece);
    TailIsUnterminated(stream);
    assert [] + piece == piece;
    var b := buffer + piece;
    var b' := if skipLf && b != [] && b[0] == LF then b[1..] else b;
    assert b' == Split(stream).tail + Beyond(stream, piece);
    TailIsUnterminated(b');
    SameEnd(stream, piece, skipLf, buffer, b');
  }

  lemma SameEnd(stream: Bytes, piece: Bytes, skipLf: bool, buffer: Bytes, b: Bytes)
    requires skipLf == EndsInCr(stream) && buffer == Split(stream).tail
    requires b == if skipLf && piece != [] && piece[0] == LF then piece[1..] else buffer + piece
    requires skipLf ==> buffer == []
    requires Split(b).lines == [] ==> !EndsInCr(b)
    ensures EndsInCr(stream + piece) <==> if Split(b).lines == [] then skipLf && buffer + piece == [] else EndsInCr(b)
  {
    if piece == [] {
      assert stream + piece == stream;
      if !skipLf { TailEnds(stream); }
    } else if b != [] {
      assert b[|b| - 1] == piece[|piece| - 1] == (stream + piece)[|stream + piece| - 1];
    }
  }

  lemma TailEnds(stream: Bytes)
    requires !EndsInCr(stream)
    ensures Split(Split(stream).tail).lines == []
  {
    TailIsUnterminated(stream);
  }

  /** A frame behind a stream with nothing pending. */
  lemma FrameAfter(stream: Bytes, chunk: Bytes)
    requires IsLfFrame(chunk) || IsCrLfFrame(chunk)
    requires Split(stream).tail == [] && !EndsInCr(stream) && Feed(Split(stream).lines).data == [] && !Feed(Split(stream).lines).done
    ensures Feed(Split(stream + chunk).lines)
            == if Strip(FramePayload(chunk), IsSpace) == DONE then Dispatcher([], Payloads(stream), true)
               else Dispatcher([], Payloads(stream) + [FramePayload(chunk)], false)
    ensures Split(stream + chunk).tail == [] && !EndsInCr(stream + chunk)
  {
    SplitPieces(stream, chunk);
    assert [] + chunk == chunk;
    FrameDispatches(Split(stream).lines, chunk);
    var end := if IsLfFrame(chunk) then |chunk| - 2 else |chunk| - 4;
    FrameLines(chunk, end);
    var e := FrameEnding(chunk, end);
    assert chunk[|chunk| - 1] == chunk[end..][|chunk[end..]| - 1] == LF;
    assert (stream + chunk)[|stream + chunk| - 1] == chunk[|chunk| - 1];
  }

  lemma DoneStays(stream: Bytes, chunk: Bytes)
    requires Feed(Split(stream).lines).done
    ensures Feed(Split(stream + chunk).lines) == Feed(Split(stream).lines)
  {
    SplitPieces(stream, chunk);
    FeedExtends(Split(stream).lines, Split(Split(stream).tail + Beyond(stream, chunk)).lines);
  }

  lemma ConcatNext(chunks: seq<Bytes>, i: nat)
    requires i < |chunks|
    ensures chunks[..i + 1] == chunks[..i] + [chunks[i]]
    ensures Concat(chunks[..i + 1]) == Concat(chunks[..i]) + chunks[i]
  {
    assert chunks[..i + 1][..i] == chunks[..i];
  }

  /** More bytes never take back a payload. */
  lemma PayloadsGrow(stream: Bytes, piece: Bytes)
    ensures Payloads(stream) <= Payloads(stream + piece)
  {
    SplitPieces(stream, piece);
    FeedExtends(Split(stream).lines, Split(Split(stream).tail + Beyond(stream, piece)).lines);
  }

  lemma {:induction false} BreaksStays(read: Bytes -> Reading, chunks: seq<Bytes>, i: nat)
    requires i <= |chunks| && Breaks(read, Payloads(Concat(chunks[..i])))
    ensures Breaks(read, Payloads(Concat(chunks)))
    decreases |chunks| - i
  {
    if i == |chunks| {
      assert chunks[..i] == chunks;
    } else {
      ConcatNext(chunks, i);
      PayloadsGrow(Concat(chunks[..i]), chunks[i]);
      BreaksLater(read, Payloads(Concat(chunks[..i])), Payloads(Concat(chunks[..i + 1])));
      BreaksStays(read, chunks, i + 1);
    }
  }

  lemma NotYetBroken(read: Bytes -> Reading, payloads: seq<Bytes>, more: seq<Bytes>)
    requires !Breaks(read, more) && payloads <= more
    ensures !Breaks(read, payloads)
  {
    if Breaks(read, payloads) {
      BreaksLater(read, payloads, more);
    }
  }

  lemma FatalBreaks(read: Bytes -> Reading, payloads: seq<Bytes>, payload: Bytes)
    requires Fatal(read(payload))
    ensures Breaks(read, payloads + [payload])
  {
    assert (payloads + [payload])[|payloads|] == payload;
  }

  /** Merging the times of the two channels gives one time per recorded chunk, in order, and as many as
      the stream had payloads that carried text. */
  lemma GeneratedTimesOfStream(read: Bytes -> Reading, stream: Bytes, chunkTimes: seq<real>, reasoningTimes: seq<real>, from: real, to: real)
    requires TimesFor(chunkTimes, |Summary(read, Payloads(stream)).chunks|, from, to)
    requires TimesFor(reasoningTimes, |Summary(read, Payloads(stream)).reasoningChunks|, from, to)
    ensures SortedBy(GeneratedChunkTimes(chunkTimes, reasoningTimes), Instant)
    ensures |GeneratedChunkTimes(chunkTimes, reasoningTimes)|
            == Sum(Payloads(stream), (p: Bytes) => if CarriesContent(read(p)) || CarriesReasoningOnly(read(p)) then 1 else 0)
  {
    MergeSorts(chunkTimes, reasoningTimes, Instant);
    MergeKeepsAll(chunkTimes, reasoningTimes, Instant);
    EachPayloadIsRecordedOnce(read, Payloads(stream));
  }
}
