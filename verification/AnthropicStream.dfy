/** Reassembly of a streamed Messages response, against the body of the same response sent whole. */
module AnthropicStream {
  import opened Common

  /** The input of a tool call: none (or an empty one), a string, an object with its JSON text, or
      something else that is not empty. */
  datatype Input = NoInput | Text(text: string) | Object(json: string) | Odd

  predicate Truthy(i: Input) {
    match i
    case NoInput => false
    case Text(s) => s != ""
    case Object(_) => true
    case Odd => true
  }

  function ToolArguments(i: Input): string {
    match i
    case NoInput => "{}"
    case Text(s) => s
    case Object(json) => json
    case Odd => "{}"
  }

  datatype Block = TextBlock(text: string) | ToolUse(id: string, name: string, input: Input) | OtherBlock
  datatype Delta = TextDelta(text: string) | InputJsonDelta(partial: string) | OtherDelta
  datatype Event = BlockStart(index: Option<int>, block: Block) | BlockDelta(index: Option<int>, delta: Delta) | OtherEvent

  datatype Call = Call(id: string, name: string)
  datatype ToolCall = ToolCall(call: Call, arguments: string)
  datatype Message = Message(content: Option<string>, toolCalls: seq<ToolCall>)

  function MessageWith(text: string, toolCalls: seq<ToolCall>): Message {
    Message(if toolCalls != [] && text == "" then None else Some(text), toolCalls)
  }

  // ---- What a stream says about each channel ----

  /** The text an event adds to the output. */
  function TextIn(e: Event): string {
    if e.BlockStart? && e.block.TextBlock? then e.block.text
    else if e.BlockDelta? && e.delta.TextDelta? then e.delta.text
    else ""
  }

  predicate IsToolEvent(e: Event) {
    (e.BlockStart? && e.block.ToolUse?) || (e.BlockDelta? && e.delta.InputJsonDelta?)
  }

  predicate OnIndex(e: Event, i: int) {
    IsToolEvent(e) && e.index == Some(i)
  }

  /** The piece of the arguments of tool i an event carries. */
  function ArgumentsIn(e: Event, i: int): string {
    if !OnIndex(e, i) then ""
    else if e.BlockDelta? then e.delta.partial
    else if Truthy(e.block.input) then ToolArguments(e.block.input)
    else ""
  }

  function TextOf(events: seq<Event>): string {
    if events == [] then "" else TextOf(events[..|events| - 1]) + TextIn(events[|events| - 1])
  }

  function ArgumentsOf(events: seq<Event>, i: int): string {
    if events == [] then "" else ArgumentsOf(events[..|events| - 1], i) + ArgumentsIn(events[|events| - 1], i)
  }

  /** The tool call last opened at index i. */
  function CallOf(events: seq<Event>, i: int): Option<Call> {
    if events == [] then None
    else
      var e := events[|events| - 1];
      if OnIndex(e, i) && e.BlockStart? then Some(Call(e.block.id, e.block.name)) else CallOf(events[..|events| - 1], i)
  }

  predicate Indexed(events: seq<Event>) {
    forall k :: 0 <= k < |events| && IsToolEvent(events[k]) ==> events[k].index.Some?
  }

  // ---- The handlers ----

  function PartsAt(parts: map<int, seq<string>>, i: int): seq<string> {
    if i in parts then parts[i] else []
  }

  /** What a stream says about the tool calls of the given indices. */
  function CallsIn(events: seq<Event>, indices: seq<int>): seq<ToolCall> {
    if indices == [] then []
    else
      var i := indices[|indices| - 1];
      CallsIn(events, indices[..|indices| - 1])
      + (match CallOf(events, i) case Some(call) => [ToolCall(call, ArgumentsOf(events, i))] case None => [])
  }

  /** The indices at which a stream opens tool calls, in ascending order. */
  ghost predicate IndicesOf(events: seq<Event>, indices: seq<int>) {
    && (forall j, k :: 0 <= j < k < |indices| ==> indices[j] < indices[k])
    && (forall i :: i in indices <==> CallOf(events, i).Some?)
  }

  /** An event with its missing index filled in: the number of tool calls so far for a start, 0 for a delta. */
  function Resolved(e: Event, calls: nat): Event {
    match e
    case BlockStart(at, block) => BlockStart(Some(if at.Some? then at.value else calls), block)
    case BlockDelta(at, delta) => BlockDelta(Some(if at.Some? then at.value else 0), delta)
    case OtherEvent => OtherEvent
  }

  /** The maps hold, per index, what the events say about it. */
  ghost predicate Reflects(calls: map<int, Call>, parts: map<int, seq<string>>, events: seq<Event>) {
    && (forall i :: i in calls <==> CallOf(events, i).Some?)
    && (forall i :: i in calls ==> CallOf(events, i) == Some(calls[i]))
    && (forall i :: Concat(PartsAt(parts, i)) == ArgumentsOf(events, i))
  }

  /** The maps after one more event. */
  ghost predicate Takes(calls: map<int, Call>, parts: map<int, seq<string>>, e: Event, calls': map<int, Call>, parts': map<int, seq<string>>) {
    && calls' == (if IsToolEvent(e) && e.BlockStart? && e.index.Some? then calls[e.index.value := Call(e.block.id, e.block.name)] else calls)
    && forall i :: Concat(PartsAt(parts', i)) == Concat(PartsAt(parts, i)) + ArgumentsIn(e, i)
  }

  lemma ReflectsNext(calls: map<int, Call>, parts: map<int, seq<string>>, events: seq<Event>, e: Event,
                     calls': map<int, Call>, parts': map<int, seq<string>>)
    requires Reflects(calls, parts, events) && Takes(calls, parts, e, calls', parts')
    ensures Reflects(calls', parts', events + [e])
  {
    Handled(events, e);
  }

  lemma KeysAreIndices(calls: map<int, Call>, parts: map<int, seq<string>>, events: seq<Event>, keys: seq<int>)
    requires Reflects(calls, parts, events) && Ascending(keys, calls.Keys)
    ensures IndicesOf(events, keys) && forall i :: i in keys ==> i in calls
  {
  }

  ghost predicate Lists(calls: seq<ToolCall>, events: seq<Event>, indices: seq<int>) {
    calls == CallsIn(events, indices)
  }

  lemma ListsNext(toolCalls: map<int, Call>, parts: map<int, seq<string>>, events: seq<Event>, calls: seq<ToolCall>, indices: seq<int>,
                  i: int, call: ToolCall, calls': seq<ToolCall>, indices': seq<int>)
    requires Reflects(toolCalls, parts, events) && Lists(calls, events, indices) && i in toolCalls
    requires call == ToolCall(toolCalls[i], Concat(PartsAt(parts, i))) && calls' == calls + [call] && indices' == indices + [i]
    ensures Lists(calls', events, indices')
  {
    CallsNext(events, indices, i, toolCalls[i], indices');
  }

  lemma CallsNext(events: seq<Event>, indices: seq<int>, i: int, call: Call, more: seq<int>)
    requires more == indices + [i] && CallOf(events, i) == Some(call)
    ensures CallsIn(events, more) == CallsIn(events, indices) + [ToolCall(call, ArgumentsOf(events, i))]
  {
    assert more[..|indices|] == indices;
  }

  lemma IndexedNext(events: seq<Event>, e: Event, fallback: nat, resolved: Event)
    requires Indexed(events) && resolved == Resolved(e, fallback)
    ensures Indexed(events + [resolved])
  {
  }

  class Handlers {
    var toolCalls: map<int, Call>
    var argumentParts: map<int, seq<string>>
    ghost var events: seq<Event>   // what was handled, with missing indices filled in

    ghost predicate Valid()
      reads this
    {
      Indexed(events) && Reflects(toolCalls, argumentParts, events)
    }

    constructor ()
      ensures Valid() && events == []
    {
      toolCalls, argumentParts, events := map[], map[], [];
    }

    method AddPart(index: int, part: string)
      modifies this`argumentParts
      ensures forall i :: Concat(PartsAt(argumentParts, i)) == Concat(PartsAt(old(argumentParts), i)) + (if i == index then part else "")
    {
      ConcatPush(PartsAt(argumentParts, index), part);
      argumentParts := argumentParts[index := PartsAt(argumentParts, index) + [part]];
    }

    method Start(index: int, block: Block) returns (content: Option<string>)
      modifies this`toolCalls, this`argumentParts
      ensures Takes(old(toolCalls), old(argumentParts), BlockStart(Some(index), block), toolCalls, argumentParts)
      ensures content == (if block.TextBlock? && block.text != "" then Some(block.text) else None)
    {
      content := None;
      if block.ToolUse? {
        toolCalls := toolCalls[index := Call(block.id, block.name)];
        if Truthy(block.input) {
          AddPart(index, ToolArguments(block.input));
        }
      } else if block.TextBlock? && block.text != "" {
        content := Some(block.text);
      }
    }

    method Continue(index: int, delta: Delta) returns (content: Option<string>)
      modifies this`argumentParts
      ensures Takes(toolCalls, old(argumentParts), BlockDelta(Some(index), delta), toolCalls, argumentParts)
      ensures content == (if delta.TextDelta? && delta.text != "" then Some(delta.text) else None)
    {
      content := None;
      if delta.TextDelta? {
        content := if delta.text != "" then Some(delta.text) else None;
      } else if delta.InputJsonDelta? && delta.partial != "" {
        AddPart(index, delta.partial);
      }
    }

    method Handle(e: Event) returns (content: Option<string>)
      modifies this`toolCalls, this`argumentParts
      ensures Takes(old(toolCalls), old(argumentParts), Resolved(e, |old(toolCalls)|), toolCalls, argumentParts)
      ensures content == (if TextIn(e) == "" then None else Some(TextIn(e)))
    {
      content := None;
      match e {
        case BlockStart(at, block) =>
          content := Start(if at.Some? then at.value else |toolCalls|, block);
        case BlockDelta(at, delta) =>
          content := Continue(if at.Some? then at.value else 0, delta);
        case OtherEvent =>
      }
    }

    /** Handles one event, filling in a missing index; the result is the text the event adds, or none. */
    method ExtractContent(e: Event) returns (content: Option<string>)
      requires Valid()
      modifies this
      ensures Valid()
      ensures |events| == |old(events)| + 1 && events[..|old(events)|] == old(events)
      ensures var last := events[|old(events)|];
              match e
              case BlockStart(Some(i), block) => last == e
              case BlockStart(None, block) => last == BlockStart(Some(|old(toolCalls)|), block)
              case BlockDelta(Some(i), delta) => last == e
              case BlockDelta(None, delta) => last == BlockDelta(Some(0), delta)
              case OtherEvent => last == e
      ensures content == (if TextIn(e) == "" then None else Some(TextIn(e)))
    {
      ghost var resolved := Resolved(e, |toolCalls|);
      content := Handle(e);
      ReflectsNext(old(toolCalls), old(argumentParts), events, resolved, toolCalls, argumentParts);
      IndexedNext(events, e, |old(toolCalls)|, resolved);
      events := events + [resolved];
    }

    method CallsAt(keys: seq<int>) returns (calls: seq<ToolCall>)
      requires Valid() && forall i :: i in keys ==> i in toolCalls
      ensures Lists(calls, events, keys)
    {
      calls := [];
      ghost var seen := [];
      var k := 0;
      while k < |keys|
        invariant k <= |keys| && seen == keys[..k] && Lists(calls, events, seen)
      {
        var i := keys[k];
        var call := ToolCall(toolCalls[i], Concat(PartsAt(argumentParts, i)));
        ListsNext(toolCalls, argumentParts, events, calls, seen, i, call, calls + [call], seen + [i]);
        calls := calls + [call];
        seen := seen + [i];
        k := k + 1;
      }
      assert seen == keys;
    }

    /** Builds the message from the text the stream parser has put together. */
    method OutputMessage(outputText: string) returns (message: Message)
      requires Valid()
      ensures exists indices :: IndicesOf(events, indices) && message == MessageWith(outputText, CallsIn(events, indices))
      ensures message.content == if message.toolCalls != [] && outputText == "" then None else Some(outputText)
    {
      var keys := SortedKeys(toolCalls.Keys);
      KeysAreIndices(toolCalls, argumentParts, events, keys);
      var calls := CallsAt(keys);
      message := MessageWith(outputText, calls);
    }
  }

  lemma Handled(events: seq<Event>, e: Event)
    ensures forall i :: ArgumentsOf(events + [e], i) == ArgumentsOf(events, i) + ArgumentsIn(e, i)
    ensures forall i :: CallOf(events + [e], i) ==
                if OnIndex(e, i) && e.BlockStart? then Some(Call(e.block.id, e.block.name)) else CallOf(events, i)
    ensures TextOf(events + [e]) == TextOf(events) + TextIn(e)
  {
    assert (events + [e])[..|events|] == events;
  }

  // ---- Event by event ----

  function TextPiece(e: Event): string {
    match e
    case BlockStart(_, TextBlock(text)) => text
    case BlockDelta(_, TextDelta(text)) => text
    case _ => ""
  }

  /** The arguments come whole with the start of a tool call, if it has any, or in pieces behind it. */
  function ArgumentPiece(i: int): Event -> string {
    (e: Event) =>
      match e
      case BlockStart(Some(at), ToolUse(_, _, Text(text))) => if at == i then text else ""
      case BlockStart(Some(at), ToolUse(_, _, Object(json))) => if at == i then json else ""
      case BlockStart(Some(at), ToolUse(_, _, Odd)) => if at == i then "{}" else ""
      case BlockDelta(Some(at), InputJsonDelta(partial)) => if at == i then partial else ""
      case _ => ""
  }

  /** Text and arguments are put together from the events, in order. */
  lemma {:induction false} EventByEvent(events: seq<Event>, i: int)
    ensures TextOf(events) == Collect(events, TextPiece) && ArgumentsOf(events, i) == Collect(events, ArgumentPiece(i))
  {
    if events != [] {
      var n := |events| - 1;
      EventByEvent(events[..n], i);
      assert events == events[..n] + [events[n]];
      CollectAppend(events[..n], events[n], TextPiece);
      CollectAppend(events[..n], events[n], ArgumentPiece(i));
    }
  }

  predicate Opens(e: Event, i: int) {
    e.BlockStart? && e.block.ToolUse? && e.index == Some(i)
  }

  /** The call at an index is the one that was opened there last. */
  lemma {:induction false} CallIsTheLast(events: seq<Event>, i: int)
    ensures CallOf(events, i).None? <==> forall k :: 0 <= k < |events| ==> !Opens(events[k], i)
    ensures forall k :: 0 <= k < |events| && Opens(events[k], i) && (forall j :: k < j < |events| ==> !Opens(events[j], i))
                   ==> CallOf(events, i) == Some(Call(events[k].block.id, events[k].block.name))
  {
    if events != [] {
      var n := |events| - 1;
      CallIsTheLast(events[..n], i);
      assert events == events[..n] + [events[n]];
    }
  }

  // ---- The stream may be cut and interleaved in any way ----

  /** Two streams say the same about the text and about every tool. */
  ghost predicate Agree(a: seq<Event>, b: seq<Event>) {
    TextOf(a) == TextOf(b) && forall i :: CallOf(a, i) == CallOf(b, i) && ArgumentsOf(a, i) == ArgumentsOf(b, i)
  }

  lemma {:induction false} CallsAgree(a: seq<Event>, b: seq<Event>, indices: seq<int>)
    requires Agree(a, b)
    ensures CallsIn(a, indices) == CallsIn(b, indices)
  {
    if indices != [] {
      CallsAgree(a, b, indices[..|indices| - 1]);
    }
  }

  lemma SameIndices(ia: seq<int>, ib: seq<int>)
    requires forall j, k :: 0 <= j < k < |ia| ==> ia[j] < ia[k]
    requires forall j, k :: 0 <= j < k < |ib| ==> ib[j] < ib[k]
    requires forall i :: i in ia <==> i in ib
    ensures ia == ib
  {
    var keys := set i | i in ia;
    assert Ascending(ia, keys) && Ascending(ib, keys);
    AscendingIsUnique(ia, ib, keys);
  }

  /** Streams that agree build the same message: it depends on nothing but the text, and each index's
      call and joined fragments. */
  lemma AgreeingStreamsBuildTheSame(a: seq<Event>, ia: seq<int>, b: seq<Event>, ib: seq<int>)
    requires Agree(a, b) && IndicesOf(a, ia) && IndicesOf(b, ib)
    ensures MessageWith(TextOf(a), CallsIn(a, ia)) == MessageWith(TextOf(b), CallsIn(b, ib))
  {
    forall i ensures i in ia <==> i in ib {
      assert CallOf(a, i) == CallOf(b, i);
    }
    SameIndices(ia, ib);
    CallsAgree(a, b, ia);
  }

  function TextEvents(events: seq<Event>): seq<Event> {
    if events == [] then []
    else TextEvents(events[..|events| - 1]) + (if TextIn(events[|events| - 1]) != "" then [events[|events| - 1]] else [])
  }

  function ToolEvents(events: seq<Event>, i: int): seq<Event> {
    if events == [] then []
    else ToolEvents(events[..|events| - 1], i) + (if OnIndex(events[|events| - 1], i) then [events[|events| - 1]] else [])
  }

  lemma {:induction false} TextFromTextEvents(events: seq<Event>)
    ensures TextOf(TextEvents(events)) == TextOf(events)
  {
    if events != [] {
      var n := |events| - 1;
      TextFromTextEvents(events[..n]);
      Handled(TextEvents(events[..n]), events[n]);
      assert TextEvents(events[..n]) + [] == TextEvents(events[..n]);
    }
  }

  lemma {:induction false} ToolFromToolEvents(events: seq<Event>, i: int)
    ensures CallOf(ToolEvents(events, i), i) == CallOf(events, i)
    ensures ArgumentsOf(ToolEvents(events, i), i) == ArgumentsOf(events, i)
  {
    if events != [] {
      var n := |events| - 1;
      ToolFromToolEvents(events[..n], i);
      Handled(ToolEvents(events[..n], i), events[n]);
      assert ToolEvents(events[..n], i) + [] == ToolEvents(events[..n], i);
    }
  }

  /** An interleaving that keeps the order of the text events, and the order of the events of every
      tool, changes nothing. */
  lemma InterleavingDoesNotMatter(a: seq<Event>, b: seq<Event>)
    requires TextEvents(a) == TextEvents(b) && forall i :: ToolEvents(a, i) == ToolEvents(b, i)
    ensures Agree(a, b)
  {
    TextFromTextEvents(a);
    TextFromTextEvents(b);
    forall i ensures CallOf(a, i) == CallOf(b, i) && ArgumentsOf(a, i) == ArgumentsOf(b, i) {
      ToolFromToolEvents(a, i);
      ToolFromToolEvents(b, i);
    }
  }

  lemma TextPush(events: seq<Event>, e: Event, longer: seq<Event>)
    requires longer == events + [e]
    ensures TextOf(longer) == TextOf(events) + TextIn(e)
  {
    assert longer[..|events|] == events;
  }

  lemma ToolPush(events: seq<Event>, e: Event, longer: seq<Event>, i: int)
    requires longer == events + [e]
    ensures ArgumentsOf(longer, i) == ArgumentsOf(events, i) + ArgumentsIn(e, i)
    ensures CallOf(longer, i) == if OnIndex(e, i) && e.BlockStart? then Some(Call(e.block.id, e.block.name)) else CallOf(events, i)
  {
    assert longer[..|events|] == events;
  }

  /** Appending events appends their text. */
  lemma {:induction false} TextConcat(a: seq<Event>, after: seq<Event>, all: seq<Event>)
    requires all == a + after
    ensures TextOf(all) == TextOf(a) + TextOf(after)
    decreases |after|
  {
    if after == [] {
      assert all == a;
    } else {
      var n := |after| - 1;
      var middle := all[..|a| + n];
      assert all == middle + [after[n]] && after == after[..n] + [after[n]] && middle == a + after[..n];
      TextConcat(a, after[..n], middle);
      TextPush(middle, after[n], all);
      TextPush(after[..n], after[n], after);
      Associates(TextOf(a), TextOf(after[..n]), TextIn(after[n]));
    }
  }

  lemma {:induction false} ToolConcat(a: seq<Event>, after: seq<Event>, all: seq<Event>, i: int)
    requires all == a + after
    ensures ArgumentsOf(all, i) == ArgumentsOf(a, i) + ArgumentsOf(after, i)
    ensures CallOf(all, i) == if CallOf(after, i).Some? then CallOf(after, i) else CallOf(a, i)
    decreases |after|
  {
    if after == [] {
      assert all == a;
    } else {
      var n := |after| - 1;
      var middle := all[..|a| + n];
      assert all == middle + [after[n]] && after == after[..n] + [after[n]] && middle == a + after[..n];
      ToolConcat(a, after[..n], middle, i);
      ToolPush(middle, after[n], all, i);
      ToolPush(after[..n], after[n], after, i);
      Associates(ArgumentsOf(a, i), ArgumentsOf(after[..n], i), ArgumentsIn(after[n], i));
    }
  }

  lemma AgreementExtends(a: seq<Event>, b: seq<Event>, after: seq<Event>)
    requires Agree(a, b)
    ensures Agree(a + after, b + after)
  {
    TextConcat(a, after, a + after);
    TextConcat(b, after, b + after);
    forall i ensures CallOf(a + after, i) == CallOf(b + after, i) && ArgumentsOf(a + after, i) == ArgumentsOf(b + after, i) {
      ToolConcat(a, after, a + after, i);
      ToolConcat(b, after, b + after, i);
    }
  }

  /** A fragment may be cut in two anywhere. */
  lemma CuttingAFragmentDoesNotMatter(before: seq<Event>, index: Option<int>, p: string, q: string, after: seq<Event>)
    ensures Agree(before + [BlockDelta(index, InputJsonDelta(p + q))] + after,
                  before + [BlockDelta(index, InputJsonDelta(p))] + [BlockDelta(index, InputJsonDelta(q))] + after)
    ensures Agree(before + [BlockDelta(index, TextDelta(p + q))] + after,
                  before + [BlockDelta(index, TextDelta(p))] + [BlockDelta(index, TextDelta(q))] + after)
  {
    CutOnce(before, BlockDelta(index, InputJsonDelta(p + q)), BlockDelta(index, InputJsonDelta(p)), BlockDelta(index, InputJsonDelta(q)));
    CutOnce(before, BlockDelta(index, TextDelta(p + q)), BlockDelta(index, TextDelta(p)), BlockDelta(index, TextDelta(q)));
    AgreementExtends(before + [BlockDelta(index, InputJsonDelta(p + q))],
                     before + [BlockDelta(index, InputJsonDelta(p))] + [BlockDelta(index, InputJsonDelta(q))], after);
    AgreementExtends(before + [BlockDelta(index, TextDelta(p + q))],
                     before + [BlockDelta(index, TextDelta(p))] + [BlockDelta(index, TextDelta(q))], after);
  }

  lemma CutOnce(before: seq<Event>, whole: Event, first: Event, second: Event)
    requires whole.BlockDelta? && first.BlockDelta? && second.BlockDelta?
    requires TextIn(whole) == TextIn(first) + TextIn(second)
    requires forall i :: ArgumentsIn(whole, i) == ArgumentsIn(first, i) + ArgumentsIn(second, i)
    ensures Agree(before + [whole], before + [first] + [second])
  {
    Handled(before, whole);
    Handled(before, first);
    Handled(before + [first], second);
    forall i ensures CallOf(before + [whole], i) == CallOf(before + [first] + [second], i)
                  && ArgumentsOf(before + [whole], i) == ArgumentsOf(before + [first] + [second], i) {
      Associates(ArgumentsOf(before, i), ArgumentsIn(first, i), ArgumentsIn(second, i));
    }
    Associates(TextOf(before), TextIn(first), TextIn(second));
  }

  lemma Associates(a: string, b: string, d: string)
    ensures a + (b + d) == a + b + d
  {
  }

  // ---- The body of the same response, sent whole ----

  function BlocksText(blocks: seq<Block>): string {
    if blocks == [] then ""
    else
      var last := blocks[|blocks| - 1];
      BlocksText(blocks[..|blocks| - 1]) + (if last.TextBlock? then last.text else "")
  }

  function BlockCalls(blocks: seq<Block>): seq<ToolCall> {
    if blocks == [] then []
    else
      var last := blocks[|blocks| - 1];
      BlockCalls(blocks[..|blocks| - 1])
      + (if last.ToolUse? then [ToolCall(Call(last.id, last.name), ToolArguments(last.input))] else [])
  }

  /** The content may be missing altogether; then there is no message. */
  method ParseContent(content: Option<seq<Block>>) returns (text: string, message: Option<Message>)
    ensures content.None? ==> text == "" && message == None
    ensures content.Some? ==> text == BlocksText(content.value) && message == Some(MessageWith(text, BlockCalls(content.value)))
    ensures content.Some? ==>
      message.value.content == if message.value.toolCalls != [] && text == "" then None else Some(text)
  {
    if content.None? {
      return "", None;
    }
    var blocks := content.value;
    var calls := [];
    text := "";
    var k := 0;
    while k < |blocks|
      invariant k <= |blocks| && text == BlocksText(blocks[..k]) && calls == BlockCalls(blocks[..k])
    {
      assert blocks[..k + 1][..k] == blocks[..k];
      var block := blocks[k];
      if block.TextBlock? {
        text := text + block.text;
      } else if block.ToolUse? {
        calls := calls + [ToolCall(Call(block.id, block.name), ToolArguments(block.input))];
      }
      k := k + 1;
    }
    assert blocks[..k] == blocks;
    message := Some(MessageWith(text, calls));
  }

  function TextOfBlock(b: Block): string {
    match b
    case TextBlock(text) => text
    case _ => ""
  }

  function CallOfBlock(b: Block): seq<ToolCall> {
    match b
    case ToolUse(id, name, Text(text)) => [ToolCall(Call(id, name), text)]
    case ToolUse(id, name, Object(json)) => [ToolCall(Call(id, name), json)]
    case ToolUse(id, name, _) => [ToolCall(Call(id, name), "{}")]
    case _ => []
  }

  /** So is the message of a body, from its blocks. */
  lemma {:induction false} BlockByBlock(blocks: seq<Block>)
    ensures BlocksText(blocks) == Collect(blocks, TextOfBlock) && BlockCalls(blocks) == Collect(blocks, CallOfBlock)
  {
    if blocks != [] {
      var n := |blocks| - 1;
      BlockByBlock(blocks[..n]);
      assert blocks == blocks[..n] + [blocks[n]];
      CollectAppend(blocks[..n], blocks[n], TextOfBlock);
      CollectAppend(blocks[..n], blocks[n], CallOfBlock);
    }
  }

  predicate IsTool(blocks: seq<Block>, i: int) {
    0 <= i < |blocks| && blocks[i].ToolUse?
  }

  /** The stream opens exactly the tool calls of the blocks, each at its position. */
  ghost predicate OpensCallsOf(events: seq<Event>, blocks: seq<Block>) {
    forall i :: CallOf(events, i) == if IsTool(blocks, i) then Some(Call(blocks[i].id, blocks[i].name)) else None
  }

  ghost predicate FillsArgumentsOf(events: seq<Event>, blocks: seq<Block>) {
    forall i :: IsTool(blocks, i) ==> ArgumentsOf(events, i) == ToolArguments(blocks[i].input)
  }

  /** The positions of the tool blocks. */
  function ToolPositions(blocks: seq<Block>): seq<int> {
    if blocks == [] then []
    else ToolPositions(blocks[..|blocks| - 1]) + (if blocks[|blocks| - 1].ToolUse? then [|blocks| - 1] else [])
  }

  lemma {:induction false} PositionsAscend(blocks: seq<Block>)
    ensures Ascending(ToolPositions(blocks), set i | 0 <= i < |blocks| && IsTool(blocks, i))
  {
    if blocks != [] {
      var n := |blocks| - 1;
      PositionsAscend(blocks[..n]);
      var before := set i | 0 <= i < n && IsTool(blocks[..n], i);
      var after := set i | 0 <= i < |blocks| && IsTool(blocks, i);
      assert after == before + (if blocks[n].ToolUse? then {n} else {});
      AscendingPush(ToolPositions(blocks[..n]), before, n);
      assert ToolPositions(blocks[..n]) + [] == ToolPositions(blocks[..n]);
    }
  }

  lemma AscendingPush(keys: seq<int>, of: set<int>, n: int)
    requires Ascending(keys, of) && forall i :: i in of ==> i < n
    ensures Ascending(keys + [n], of + {n})
    ensures Ascending(keys, of + {})
  {
    assert of + {} == of;
  }

  lemma Snoc(a: seq<ToolCall>, x: ToolCall, b: seq<ToolCall>, y: ToolCall)
    requires |a| == |b|
    ensures a + [x] == b + [y] <==> a == b && x == y
  {
    if a + [x] == b + [y] {
      assert (a + [x])[..|a|] == a && (b + [y])[..|b|] == b;
      assert (a + [x])[|a|] == x && (b + [y])[|b|] == y;
    }
  }

  lemma FillsFront(events: seq<Event>, blocks: seq<Block>)
    requires blocks != []
    ensures var n := |blocks| - 1;
            FillsArgumentsOf(events, blocks)
            <==> FillsArgumentsOf(events, blocks[..n]) && (blocks[n].ToolUse? ==> ArgumentsOf(events, n) == ToolArguments(blocks[n].input))
  {
    var n := |blocks| - 1;
    assert forall i :: IsTool(blocks[..n], i) ==> IsTool(blocks, i) && blocks[..n][i] == blocks[i];
    assert forall i :: IsTool(blocks, i) && i < n ==> IsTool(blocks[..n], i);
  }

  /** The calls built at the tool positions are those of the blocks exactly when the arguments are. */
  lemma {:induction false} CallsMatchBlocks(events: seq<Event>, blocks: seq<Block>)
    requires forall i :: IsTool(blocks, i) ==> CallOf(events, i) == Some(Call(blocks[i].id, blocks[i].name))
    ensures CallsIn(events, ToolPositions(blocks)) == BlockCalls(blocks) <==> FillsArgumentsOf(events, blocks)
    ensures |CallsIn(events, ToolPositions(blocks))| == |BlockCalls(blocks)|
  {
    if blocks != [] {
      var n := |blocks| - 1;
      var front := blocks[..n];
      assert forall i :: IsTool(front, i) ==> IsTool(blocks, i) && front[i] == blocks[i];
      CallsMatchBlocks(events, front);
      FillsFront(events, blocks);
      if blocks[n].ToolUse? {
        assert IsTool(blocks, n);
        assert (ToolPositions(front) + [n])[..|ToolPositions(front)|] == ToolPositions(front);
        Snoc(CallsIn(events, ToolPositions(front)), ToolCall(Call(blocks[n].id, blocks[n].name), ArgumentsOf(events, n)),
             BlockCalls(front), ToolCall(Call(blocks[n].id, blocks[n].name), ToolArguments(blocks[n].input)));
      } else {
        assert ToolPositions(blocks) == ToolPositions(front);
      }
    }
  }

  lemma SameMessage(text: string, calls: seq<ToolCall>, text': string, calls': seq<ToolCall>)
    ensures MessageWith(text, calls) == MessageWith(text', calls') <==> text == text' && calls == calls'
  {
  }

  /** A stream that opens the tool calls of a response builds the message of its body exactly when it
      carries the text of the body and, for each tool, fragments that join to its serialised input. */
  lemma StreamMatchesBody(events: seq<Event>, indices: seq<int>, blocks: seq<Block>)
    requires IndicesOf(events, indices) && OpensCallsOf(events, blocks)
    ensures MessageWith(TextOf(events), CallsIn(events, indices)) == MessageWith(BlocksText(blocks), BlockCalls(blocks))
            <==> TextOf(events) == BlocksText(blocks) && FillsArgumentsOf(events, blocks)
  {
    PositionsAscend(blocks);
    SameIndices(indices, ToolPositions(blocks));
    CallsMatchBlocks(events, blocks);
    SameMessage(TextOf(events), CallsIn(events, indices), BlocksText(blocks), BlockCalls(blocks));
  }

  /** A tool called without input, streamed without a fragment, keeps empty arguments, where the body
      has an empty object. */
  lemma MissingInputDiffers(index: int, id: string, name: string)
    ensures var events := [BlockStart(Some(index), ToolUse(id, name, NoInput))];
            ArgumentsOf(events, index) == "" != ToolArguments(NoInput)
  {
    Handled([], BlockStart(Some(index), ToolUse(id, name, NoInput)));
    assert [] + [BlockStart(Some(index), ToolUse(id, name, NoInput))] == [BlockStart(Some(index), ToolUse(id, name, NoInput))];
  }
}
