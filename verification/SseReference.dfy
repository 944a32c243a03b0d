/** What a stream of server-sent events means, read as one piece: sections 9.2.5 and 9.2.6 of the HTML
    standard, with the two deviations of the client: a byte order mark is not stripped, and an event
    whose data is empty is still dispatched. */
module SseReference {
  import opened Common

  newtype byte = x: int | 0 <= x < 256
  type Bytes = seq<byte>

  const LF: byte := 10
  const CR: byte := 13
  const SPACE: byte := 32
  const COLON: byte := 58
  const DATA: Bytes := [100, 97, 116, 97]
  const DONE: Bytes := [91, 68, 79, 78, 69, 93]

  // ---- Lines ----

  predicate IsTerminator(b: byte) {
    b == CR || b == LF
  }

  predicate EndsInCr(s: Bytes) {
    s != [] && s[|s| - 1] == CR
  }

  /** The position of the first line terminator at or after `from`, or the length. */
  function FirstEnding(s: Bytes, from: nat): (k: nat)
    requires from <= |s|
    ensures from <= k <= |s|
    ensures forall j :: from <= j < k ==> !IsTerminator(s[j])
    ensures k < |s| ==> IsTerminator(s[k])
    decreases |s| - from
  {
    if from == |s| || IsTerminator(s[from]) then from else FirstEnding(s, from + 1)
  }

  /** The end of the terminator at k: CR LF is one terminator. */
  function EndingEnd(s: Bytes, k: nat): (e: nat)
    requires k < |s|
    ensures k < e <= |s|
  {
    if s[k] == CR && k + 1 < |s| && s[k + 1] == LF then k + 2 else k + 1
  }

  datatype Text = Text(lines: seq<Bytes>, tail: Bytes)

  function Behind(line: Bytes, text: Text): Text {
    Text([line] + text.lines, text.tail)
  }

  function Joined(first: Text, second: Text): Text {
    Text(first.lines + second.lines, second.tail)
  }

  lemma JoinedBehind(line: Bytes, first: Text, second: Text)
    ensures Joined(Behind(line, first), second) == Behind(line, Joined(first, second))
  {
  }

  lemma LineBefore(line: Bytes, second: Text)
    ensures Joined(Behind(line, Text([], [])), second) == Behind(line, second)
  {
  }

  /** The complete lines of a stream, and the unfinished rest. */
  function Split(s: Bytes): Text
    decreases |s|
  {
    var k := FirstEnding(s, 0);
    if k == |s| then Text([], s) else Behind(s[..k], Split(s[EndingEnd(s, k)..]))
  }

  lemma FirstEndingIs(s: Bytes, from: nat, k: nat)
    requires from <= k <= |s| && forall j :: from <= j < k ==> !IsTerminator(s[j])
    requires k < |s| ==> IsTerminator(s[k])
    ensures FirstEnding(s, from) == k
  {
  }

  /** A terminated line in front of anything is that line in front of the lines of the rest. */
  lemma SplitFirst(line: Bytes, ending: Bytes, rest: Bytes)
    requires forall j :: 0 <= j < |line| ==> line[j] != CR && line[j] != LF
    requires ending in {[LF], [CR, LF]} || (ending == [CR] && (rest == [] || rest[0] != LF))
    ensures Split(line + ending + rest) == Behind(line, Split(rest))
  {
    var s := line + ending + rest;
    FirstEndingIs(s, 0, |line|);
    assert s[..|line|] == line;
    assert EndingEnd(s, |line|) == |line| + |ending|;
    assert s[|line| + |ending|..] == rest;
  }

  lemma {:induction false} TailIsUnterminated(s: Bytes)
    ensures FirstEnding(Split(s).tail, 0) == |Split(s).tail|
    ensures EndsInCr(s) ==> Split(s).tail == [] && Split(s).lines != []
    ensures Split(s).lines == [] ==> Split(s).tail == s && !EndsInCr(s)
    decreases |s|
  {
    var k := FirstEnding(s, 0);
    if k < |s| {
      var rest := s[EndingEnd(s, k)..];
      TailIsUnterminated(rest);
      if EndsInCr(s) && rest != [] {
        assert rest[|rest| - 1] == s[|s| - 1];
      }
    }
  }

  /** What a piece adds after s: a leading LF only completes a CR that ended s. */
  function Beyond(s: Bytes, piece: Bytes): Bytes {
    if EndsInCr(s) && piece != [] && piece[0] == LF then piece[1..] else piece
  }

  lemma SplitUnfolds(s: Bytes, k: nat, line: Bytes, rest: Bytes)
    requires k == FirstEnding(s, 0) < |s| && s[..k] == line && s[EndingEnd(s, k)..] == rest
    ensures Split(s) == Behind(line, Split(rest))
  {
  }

  lemma RestGrows(s: Bytes, piece: Bytes, k: nat, e: nat)
    requires k < |s| && IsTerminator(s[k]) && e == EndingEnd(s, k) < |s|
    ensures EndingEnd(s + piece, k) == e && (s + piece)[e..] == s[e..] + piece
  {
    assert (s + piece)[k] == s[k] && (s + piece)[k + 1] == s[k + 1];
  }

  lemma RestBegins(s: Bytes, piece: Bytes, k: nat)
    requires k < |s| == EndingEnd(s, k) && IsTerminator(s[k])
    ensures (s + piece)[EndingEnd(s + piece, k)..] == Beyond(s, piece)
  {
    var whole := s + piece;
    assert whole[|s|..] == piece;
    if k + 1 < |s| {
      assert !EndsInCr(s) && whole[k + 1] == s[k + 1];
    } else if piece != [] {
      assert whole[k + 1] == piece[0];
      assert whole[k + 2..] == piece[1..];
    }
  }

  /** The first terminated line of s is that of s with a piece behind it, and what follows it is the
      rest of s with the piece behind it. */
  lemma FirstLineStays(s: Bytes, piece: Bytes, k: nat, rest: Bytes)
    requires k == FirstEnding(s, 0) < |s| && rest == s[EndingEnd(s, k)..]
    ensures FirstEnding(s + piece, 0) == k && (s + piece)[..k] == s[..k]
    ensures rest != [] ==> (s + piece)[EndingEnd(s + piece, k)..] == rest + piece
    ensures rest == [] ==> (s + piece)[EndingEnd(s + piece, k)..] == Beyond(s, piece)
  {
    FirstEndingIs(s + piece, 0, k);
    if rest != [] {
      RestGrows(s, piece, k, EndingEnd(s, k));
    } else {
      RestBegins(s, piece, k);
    }
  }

  lemma BeyondRest(s: Bytes, piece: Bytes, k: nat)
    requires k == FirstEnding(s, 0) < |s| && s[EndingEnd(s, k)..] != []
    ensures Beyond(s[EndingEnd(s, k)..], piece) == Beyond(s, piece)
  {
    var rest := s[EndingEnd(s, k)..];
    assert rest[|rest| - 1] == s[|s| - 1];
  }

  lemma SplitPiecesAtEnd(s: Bytes, piece: Bytes, k: nat)
    requires k == FirstEnding(s, 0) < |s| && s[EndingEnd(s, k)..] == []
    ensures Split(s).tail == []
    ensures Split(s + piece) == Joined(Split(s), Split(Beyond(s, piece)))
  {
    SplitUnfolds(s, k, s[..k], []);
    assert Split([]) == Text([], []);
    FirstLineStays(s, piece, k, []);
    SplitUnfolds(s + piece, k, s[..k], Beyond(s, piece));
    LineBefore(s[..k], Split(Beyond(s, piece)));
  }

  /** Cutting a stream anywhere, even inside a CR LF pair, and reading the second part behind the
      unfinished line of the first yields the lines of the whole. */
  lemma {:induction false} SplitPieces(s: Bytes, piece: Bytes)
    ensures Split(s + piece) == Joined(Split(s), Split(Split(s).tail + Beyond(s, piece)))
    decreases |s|, 0
  {
    var k := FirstEnding(s, 0);
    if k == |s| {
      assert Beyond(s, piece) == piece;
    } else if s[EndingEnd(s, k)..] == [] {
      SplitPiecesAtEnd(s, piece, k);
      assert Split(s).tail + Beyond(s, piece) == Beyond(s, piece);
    } else {
      SplitPiecesInside(s, piece, k, s[EndingEnd(s, k)..]);
    }
  }

  lemma {:induction false} SplitPiecesInside(s: Bytes, piece: Bytes, k: nat, rest: Bytes)
    requires k == FirstEnding(s, 0) < |s| && s[EndingEnd(s, k)..] == rest != []
    ensures Split(s + piece) == Joined(Split(s), Split(Split(s).tail + Beyond(s, piece)))
    decreases |rest|, 1
  {
    SplitUnfolds(s, k, s[..k], rest);
    FirstLineStays(s, piece, k, rest);
    BeyondRest(s, piece, k);
    SplitUnfolds(s + piece, k, s[..k], rest + piece);
    SplitPieces(rest, piece);
    JoinedBehind(s[..k], Split(rest), Split(Split(rest).tail + Beyond(s, piece)));
  }

  // ---- Events ----

  function FirstColon(line: Bytes): (k: nat)
    ensures k <= |line|
    ensures forall j :: 0 <= j < k ==> line[j] != COLON
    ensures k < |line| ==> line[k] == COLON
  {
    if line == [] || line[0] == COLON then 0 else 1 + FirstColon(line[1..])
  }

  function Field(line: Bytes): Bytes {
    line[..FirstColon(line)]
  }

  function WithoutLeadingSpace(value: Bytes): Bytes {
    if value != [] && value[0] == SPACE then value[1..] else value
  }

  function Value(line: Bytes): Bytes {
    var k := FirstColon(line);
    if k == |line| then [] else WithoutLeadingSpace(line[k + 1..])
  }

  function JoinLines(lines: seq<Bytes>): Bytes {
    if lines == [] then []
    else if |lines| == 1 then lines[0]
    else JoinLines(lines[..|lines| - 1]) + [LF] + lines[|lines| - 1]
  }

  predicate IsSpace(b: byte) {
    b == 32 || 9 <= b <= 13
  }

  /** The dispatcher after some lines: data gathered for the next event, payloads dispatched, and
      whether the end marker was met. */
  datatype Dispatcher = Dispatcher(data: seq<Bytes>, payloads: seq<Bytes>, done: bool)

  function FeedLine(d: Dispatcher, line: Bytes): Dispatcher {
    if d.done then d
    else if line != [] then
      if Field(line) == DATA then d.(data := d.data + [Value(line)]) else d
    else if d.data == [] then d
    else if Strip(JoinLines(d.data), IsSpace) == DONE then Dispatcher([], d.payloads, true)
    else Dispatcher([], d.payloads + [JoinLines(d.data)], false)
  }

  function Feed(lines: seq<Bytes>): Dispatcher {
    if lines == [] then Dispatcher([], [], false) else FeedLine(Feed(lines[..|lines| - 1]), lines[|lines| - 1])
  }

  /** More lines only add payloads, and none after the end marker. */
  lemma {:induction false} FeedExtends(lines: seq<Bytes>, more: seq<Bytes>)
    ensures Feed(lines).payloads <= Feed(lines + more).payloads
    ensures Feed(lines).done ==> Feed(lines + more) == Feed(lines)
  {
    if more == [] {
      assert lines + more == lines;
    } else {
      var n := |more| - 1;
      FeedExtends(lines, more[..n]);
      assert (lines + more)[..|lines + more| - 1] == lines + more[..n];
    }
  }

  lemma FeedOne(lines: seq<Bytes>, line: Bytes)
    ensures Feed(lines + [line]) == FeedLine(Feed(lines), line)
  {
    assert (lines + [line])[..|lines|] == lines;
  }

  /** The payloads of a whole stream, up to the end marker. */
  function Payloads(s: Bytes): seq<Bytes> {
    Feed(Split(s).lines).payloads
  }

  // ---- What a payload contributes ----

  type Usage = map<string, int>

  /** What an extract callback does with a decoded payload. */
  datatype Extract = Found(text: string) | IndexFault | Fault

  /** A payload as the JSON reader, the usage lookup and the callbacks see it. `Malformed` faults are
      swallowed, `Raising` ones break the stream. */
  datatype Reading = Malformed | Raising | Readable(usage: Option<Usage>, reasoning: Extract, content: Extract)

  predicate Fatal(r: Reading) {
    r.Raising? || (r.Readable? && (r.reasoning.Fault? || (r.reasoning.Found? && r.content.Fault?)))
  }

  predicate CarriesContent(r: Reading) {
    r.Readable? && r.reasoning.Found? && r.content.Found? && r.content.text != ""
  }

  predicate CarriesReasoningOnly(r: Reading) {
    r.Readable? && r.reasoning.Found? && r.reasoning.text != "" && r.content.Found? && r.content.text == ""
  }

  /** Everything a stream yields but the times. */
  datatype Yield = Yield(text: string, chunks: seq<Bytes>, usage: Option<Usage>, reasoning: string, reasoningChunks: seq<Bytes>)

  function MergeUsage(known: Option<Usage>, fresher: Option<Usage>): Option<Usage> {
    if fresher.None? then known
    else if known.None? then fresher
    else Some(known.value + fresher.value)
  }

  function Absorb(y: Yield, r: Reading, payload: Bytes): Yield {
    if !r.Readable? then y
    else Yield(
      if CarriesContent(r) then y.text + r.content.text else y.text,
      if CarriesContent(r) then y.chunks + [payload] else y.chunks,
      MergeUsage(y.usage, r.usage),
      if r.reasoning.Found? then y.reasoning + r.reasoning.text else y.reasoning,
      if CarriesReasoningOnly(r) then y.reasoningChunks + [payload] else y.reasoningChunks)
  }

  function Summary(read: Bytes -> Reading, payloads: seq<Bytes>): Yield {
    if payloads == [] then Yield("", [], None, "", [])
    else
      var n := |payloads| - 1;
      Absorb(Summary(read, payloads[..n]), read(payloads[n]), payloads[n])
  }

  predicate Breaks(read: Bytes -> Reading, payloads: seq<Bytes>) {
    exists i :: 0 <= i < |payloads| && Fatal(read(payloads[i]))
  }

  /** Every kept chunk is one of the payloads, kept in one of the two channels: their numbers add up
      to the number of payloads that carry text. */
  lemma {:induction false} EachPayloadIsRecordedOnce(read: Bytes -> Reading, payloads: seq<Bytes>)
    ensures var y := Summary(read, payloads);
            |y.chunks| + |y.reasoningChunks|
            == Sum(payloads, (p: Bytes) => if CarriesContent(read(p)) || CarriesReasoningOnly(read(p)) then 1 else 0)
  {
    if payloads != [] {
      var n := |payloads| - 1;
      EachPayloadIsRecordedOnce(read, payloads[..n]);
      assert payloads == payloads[..n] + [payloads[n]];
      SumAppend(payloads[..n], payloads[n], (p: Bytes) => if CarriesContent(read(p)) || CarriesReasoningOnly(read(p)) then 1 else 0);
    }
  }

  // ---- One-frame chunks ----

  const PREFIX: Bytes := DATA + [COLON]

  function Occurrences(s: Bytes, b: byte): nat {
    multiset(s)[b]
  }

  function CrLfPairs(s: Bytes): nat {
    if |s| < 2 then 0 else (if s[0] == CR && s[1] == LF then 1 else 0) + CrLfPairs(s[1..])
  }

  predicate EndsWith(s: Bytes, suffix: Bytes) {
    |suffix| <= |s| && s[|s| - |suffix|..] == suffix
  }

  predicate IsLfFrame(chunk: Bytes) {
    PREFIX <= chunk && EndsWith(chunk, [LF, LF]) && Occurrences(chunk, LF) == 2 && Occurrences(chunk, CR) == 0
  }

  predicate IsCrLfFrame(chunk: Bytes) {
    && PREFIX <= chunk && EndsWith(chunk, [CR, LF, CR, LF])
    && Occurrences(chunk, CR) == 2 && Occurrences(chunk, LF) == 2 && CrLfPairs(chunk) == 2
  }

  function FramePayload(chunk: Bytes): Bytes
    requires IsLfFrame(chunk) || IsCrLfFrame(chunk)
  {
    var end := if IsLfFrame(chunk) then |chunk| - 2 else |chunk| - 4;
    FrameEndsAfterPrefix(chunk, end);
    if PREFIX + [SPACE] <= chunk then chunk[6..end] else chunk[5..end]
  }

  lemma FrameEndsAfterPrefix(chunk: Bytes, end: nat)
    requires (IsLfFrame(chunk) && end == |chunk| - 2) || (IsCrLfFrame(chunk) && end == |chunk| - 4)
    ensures 5 <= end && (PREFIX + [SPACE] <= chunk ==> 6 <= end)
  {
    assert chunk[end] == chunk[end..][0];
    assert PREFIX == [100, 97, 116, 97, 58];
    assert forall i :: 0 <= i < 5 ==> chunk[i] == PREFIX[i];
  }

  /** Cut before its ending, a frame is one line free of terminators. */
  lemma FrameBody(chunk: Bytes, end: nat)
    requires (IsLfFrame(chunk) && end == |chunk| - 2) || (IsCrLfFrame(chunk) && end == |chunk| - 4)
    ensures forall j :: 0 <= j < end ==> !IsTerminator(chunk[j])
  {
    var body, ending := chunk[..end], chunk[end..];
    assert chunk == body + ending;
    assert multiset(chunk) == multiset(body) + multiset(ending);
    assert multiset(ending)[LF] == 2;
    assert LF !in multiset(body);
    assert CR !in multiset(body);
    forall j | 0 <= j < end ensures !IsTerminator(chunk[j]) {
      assert body[j] in multiset(body);
    }
  }

  lemma TwoLines(line: Bytes, e: Bytes)
    requires forall j :: 0 <= j < |line| ==> !IsTerminator(line[j])
    requires e in {[LF], [CR, LF]}
    ensures Split(line + e + e) == Text([line, []], [])
  {
    SplitFirst(line, e, e);
    SplitFirst([], e, []);
    assert [] + e + [] == e;
  }

  lemma FrameShape(chunk: Bytes, end: nat, e: Bytes)
    requires end <= |chunk| && chunk[end..] == e + e
    ensures chunk == chunk[..end] + e + e
  {
    assert chunk == chunk[..end] + chunk[end..];
  }

  lemma FrameEnding(chunk: Bytes, end: nat) returns (e: Bytes)
    requires (IsLfFrame(chunk) && end == |chunk| - 2) || (IsCrLfFrame(chunk) && end == |chunk| - 4)
    ensures e in {[LF], [CR, LF]} && chunk[end..] == e + e
  {
    if IsLfFrame(chunk) {
      assert EndsWith(chunk, [LF, LF]);
      e := [LF];
    } else {
      assert EndsWith(chunk, [CR, LF, CR, LF]);
      e := [CR, LF];
    }
  }

  /** A frame is two lines, its data line and the empty one, and nothing is left over. */
  lemma FrameLines(chunk: Bytes, end: nat)
    requires (IsLfFrame(chunk) && end == |chunk| - 2) || (IsCrLfFrame(chunk) && end == |chunk| - 4)
    ensures Split(chunk) == Text([chunk[..end], []], [])
  {
    FrameBody(chunk, end);
    var e := FrameEnding(chunk, end);
    FrameShape(chunk, end, e);
    TwoLines(chunk[..end], e);
  }

  lemma FrameLine(line: Bytes)
    requires PREFIX <= line
    ensures Field(line) == DATA && Value(line) == (if PREFIX + [SPACE] <= line then line[6..] else line[5..])
  {
    assert forall i :: 0 <= i < 5 ==> line[i] == PREFIX[i];
    assert FirstColon(line) == 4 by {
      assert line[4] == COLON;
    }
    assert line[..4] == DATA;
    if |line| > 5 {
      assert line[5..][0] == line[5];
      assert line[5..][1..] == line[6..];
      assert PREFIX + [SPACE] <= line <==> line[5] == SPACE;
    }
  }

  /** A data line and an empty one. */
  lemma DataLineDispatches(lines: seq<Bytes>, line: Bytes)
    requires Feed(lines).data == [] && !Feed(lines).done && line != [] && Field(line) == DATA
    ensures Feed(lines + [line] + [[]])
            == if Strip(Value(line), IsSpace) == DONE then Dispatcher([], Feed(lines).payloads, true)
               else Dispatcher([], Feed(lines).payloads + [Value(line)], false)
  {
    FeedOne(lines, line);
    FeedOne(lines + [line], []);
    assert JoinLines([Value(line)]) == Value(line);
    assert [] + [Value(line)] == [Value(line)];
  }

  /** Fed to a dispatcher with nothing gathered, a frame dispatches its payload and leaves nothing. */
  lemma FrameDispatches(lines: seq<Bytes>, chunk: Bytes)
    requires IsLfFrame(chunk) || IsCrLfFrame(chunk)
    requires Feed(lines).data == [] && !Feed(lines).done
    ensures Feed(lines + Split(chunk).lines)
            == if Strip(FramePayload(chunk), IsSpace) == DONE then Dispatcher([], Feed(lines).payloads, true)
               else Dispatcher([], Feed(lines).payloads + [FramePayload(chunk)], false)
  {
    var end := if IsLfFrame(chunk) then |chunk| - 2 else |chunk| - 4;
    FrameLines(chunk, end);
    FrameEndsAfterPrefix(chunk, end);
    var line := chunk[..end];
    FrameLine(line);
    assert PREFIX + [SPACE] <= chunk <==> PREFIX + [SPACE] <= line;
    assert Value(line) == FramePayload(chunk);
    DataLineDispatches(lines, line);
    TwoMore(lines, line, []);
  }

  lemma TwoMore(lines: seq<Bytes>, line: Bytes, next: Bytes)
    ensures lines + [line, next] == lines + [line] + [next]
  {
  }
}
