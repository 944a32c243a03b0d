/** Multi-turn sessions: how a prompt is assembled from the history, how it is cut to its budget, and
    how a response goes back into the history. */
module UserSession {
  import opened Common

  const PROMPT_TOKEN_BUFFER := 200

  /** Text becomes tokens in ways this model does not know. */
  datatype Tokenizer = Tokenizer(encode: string -> seq<int>, decode: seq<int> -> string, count: string -> nat)

  datatype Config = Config(
    accumulates: bool,              // responses go into the history
    boundary: bool,                 // the boundary between prefix and first question is kept as it is
    tokenizer: Option<Tokenizer>,
    maxLen: Option<int>,
    isSpace: char -> bool)
  {
    predicate Bounded() {
      tokenizer.Some? && maxLen.Some? && maxLen.value != 0
    }
  }

  // ---- Text ----

  function JoinSpaced(parts: seq<string>): string {
    if parts == [] then ""
    else if |parts| == 1 then parts[0]
    else JoinSpaced(parts[..|parts| - 1]) + " " + parts[|parts| - 1]
  }

  function Joined(c: Config, history: seq<string>): string {
    if c.boundary then Concat(history) else JoinSpaced(history)
  }

  function From(s: string, n: nat): string {
    if n <= |s| then s[n..] else ""
  }

  /** Two texts with a space between them, unless one is empty. */
  function Spaced(a: string, b: string): string {
    if a == "" then b else if b == "" then a else a + " " + b
  }

  /** What the legacy mode puts together, with spaces in between. */
  function Parts(system: string, history: seq<string>, question: string): seq<string> {
    (if system == "" then [] else [system]) + (if history == [] then [] else [JoinSpaced(history)])
    + (if question == "" then [] else [question])
  }

  /** The separator before a later question, in the boundary-keeping mode. */
  function Separator(c: Config, before: string, question: string): string {
    if before != "" && question != "" && !c.isSpace(before[|before| - 1]) && !c.isSpace(question[0]) then " " else ""
  }

  /** The prompt of a turn. */
  function GetText(c: Config, system: string, history: seq<string>, question: string): string {
    if !c.boundary then JoinSpaced(Parts(system, history, question))
    else
      var before := system + Concat(history);
      if Concat(history) == "" then before + question else before + Separator(c, before, question) + question
  }

  /** The text a session carries between turns. */
  function ContextOf(c: Config, system: string, history: seq<string>): string {
    if c.boundary then system + Concat(history)
    else if history == [] then system
    else if system == "" then JoinSpaced(history)
    else system + " " + JoinSpaced(history)
  }

  // ---- The longest fitting suffix ----

  /** The fewest oldest turns to drop so that the rest fits, or all of them. */
  function Drop(fits: nat -> bool, k: nat, n: nat): (d: nat)
    requires k <= n
    ensures k <= d <= n
    ensures forall j :: k <= j < d ==> !fits(j)
    ensures d < n ==> fits(d)
    decreases n - k
  {
    if k == n || fits(k) then k else Drop(fits, k + 1, n)
  }

  function PromptTokens(c: Config, system: string, history: seq<string>, question: string): nat
    requires c.Bounded()
  {
    |c.tokenizer.value.encode(GetText(c, system, history, question))|
  }

  function PromptBudget(c: Config, maxTokens: int): nat
    requires c.Bounded()
  {
    var budget := c.maxLen.value - maxTokens - PROMPT_TOKEN_BUFFER;
    if budget > 0 then budget else 0
  }

  function PromptFits(c: Config, system: string, history: seq<string>, question: string, budget: nat): nat -> bool
    requires c.Bounded()
  {
    (k: nat) => k <= |history| && PromptTokens(c, system, history[k..], question) <= budget
  }

  function ContextFits(c: Config, system: string, history: seq<string>): nat -> bool
    requires c.Bounded()
  {
    (k: nat) => k <= |history| && c.tokenizer.value.count(system) + c.tokenizer.value.count(Joined(c, history[k..])) <= c.maxLen.value
  }

  /** What is left of the system prompt and the question when they alone exceed the budget. */
  function Squeeze(t: Tokenizer, system: string, question: string, budget: nat): (string, string) {
    var questionIds := t.encode(question);
    if budget > |questionIds| then
      var ids := t.encode(system);
      var room := budget - |questionIds|;
      (t.decode(if room < |ids| then ids[..room] else ids), question)
    else
      ("", t.decode(if budget < |questionIds| then questionIds[..budget] else questionIds))
  }

  /** How much of a text the system prompt and the history account for. */
  function CutAt(c: Config, system: string, history: seq<string>): nat {
    var joined := Joined(c, history);
    |system| + (if joined == "" then 0 else |joined| + (if c.boundary then 0 else 1))
  }

  /** The turn a response adds to the history. */
  function TurnOf(c: Config, system: string, history: seq<string>, response: string): string {
    var behind := From(response, CutAt(c, system, history));
    if c.boundary then behind else Strip(behind, c.isSpace)
  }

  function Appended(history: seq<string>, turn: string): seq<string> {
    if turn == "" then history else history + [turn]
  }

  /** The history with a text taken in, and the fewest oldest turns evicted that make it fit the model. */
  function Grown(c: Config, system: string, history: seq<string>, text: string): seq<string> {
    Appended(history, TurnOf(c, system, history, text))
  }

  function Evicted(c: Config, system: string, history: seq<string>): seq<string>
    requires c.Bounded()
  {
    history[Drop(ContextFits(c, system, history), 0, |history|)..]
  }

  /** What is kept are the newest turns, as many as fit the model beside the system prompt. */
  ghost predicate KeepsTheNewest(c: Config, system: string, history: seq<string>, kept: seq<string>)
    requires c.Bounded()
  {
    && |kept| <= |history| && kept == history[|history| - |kept|..]
    && (kept != [] ==> c.tokenizer.value.count(system) + c.tokenizer.value.count(Joined(c, kept)) <= c.maxLen.value)
    && (forall j :: 0 <= j < |history| - |kept| ==>
          c.tokenizer.value.count(system) + c.tokenizer.value.count(Joined(c, history[j..])) > c.maxLen.value)
  }

  lemma EvictedKeepsTheNewest(c: Config, system: string, history: seq<string>)
    requires c.Bounded()
    ensures KeepsTheNewest(c, system, history, Evicted(c, system, history))
  {
    var fits := ContextFits(c, system, history);
    var k := Drop(fits, 0, |history|);
    forall j | 0 <= j < k ensures c.tokenizer.value.count(system) + c.tokenizer.value.count(Joined(c, history[j..])) > c.maxLen.value {
      assert !fits(j);
    }
  }

  /** What is left of the system prompt and the history once the prompt of a turn has been built. */
  function LeftOver(c: Config, system: string, history: seq<string>, question: string, maxTokens: int): (string, seq<string>)
    requires c.Bounded()
  {
    var budget := PromptBudget(c, maxTokens);
    var fits := PromptFits(c, system, history, question, budget);
    var k := Drop(fits, 0, |history|);
    (if fits(k) then system else Squeeze(c.tokenizer.value, system, question, budget).0, history[k..])
  }

  /** Nothing, or in the legacy mode nothing but space, stands in a text behind what is accounted for. */
  predicate NothingBehind(c: Config, system: string, history: seq<string>, text: string) {
    forall i :: CutAt(c, system, history) <= i < |text| ==> !c.boundary && c.isSpace(text[i])
  }

  /** A prompt leaves the output its tokens, and 200 more; where these alone exceed the model, it is empty. */
  predicate LeavesRoom(c: Config, prompt: string, maxTokens: int)
    requires c.Bounded()
  {
    var tokens := |c.tokenizer.value.encode(prompt)|;
    tokens == 0 || tokens + maxTokens + 200 <= c.maxLen.value
  }

  /** As many of the newest turns as leave the output its tokens are kept: with the turns that are left the prompt
      does, and with any more of them it does not. */
  lemma PromptLeavesRoom(c: Config, system: string, history: seq<string>, question: string, maxTokens: int)
    requires c.Bounded()
    ensures var (left, kept) := LeftOver(c, system, history, question, maxTokens);
            var k := Drop(PromptFits(c, system, history, question, PromptBudget(c, maxTokens)), 0, |history|);
            && kept == history[k..]
            && (kept != [] ==> left == system && LeavesRoom(c, GetText(c, system, kept, question), maxTokens))
            && (forall j :: 0 <= j < k ==> !LeavesRoom(c, GetText(c, system, history[j..], question), maxTokens))
            && (kept == [] && left != system ==> !LeavesRoom(c, GetText(c, system, [], question), maxTokens))
  {
    var fits := PromptFits(c, system, history, question, PromptBudget(c, maxTokens));
    var k := Drop(fits, 0, |history|);
    forall j | 0 <= j <= |history| ensures fits(j) <==> LeavesRoom(c, GetText(c, system, history[j..], question), maxTokens) {
    }
    if k == |history| {
      assert history[k..] == [];
    }
  }

  /** When not even the prompt without turns leaves room, the question comes first: where it leaves some, it stays
      whole, with the longest beginning of the system prompt that fits beside it; otherwise there is no
      system prompt, and the longest beginning of the question. */
  lemma SqueezeFitsTheBudget(t: Tokenizer, system: string, question: string, budget: nat)
    ensures var (left, asked) := Squeeze(t, system, question, budget);
            var ids, questionIds := t.encode(system), t.encode(question);
            if |questionIds| < budget then
              && asked == question
              && exists n :: 0 <= n <= |ids| && left == t.decode(ids[..n])
                             && n + |questionIds| <= budget && (n < |ids| ==> n + |questionIds| == budget)
            else
              && left == ""
              && exists n :: 0 <= n <= |questionIds| && asked == t.decode(questionIds[..n]) && n <= budget && (n < |questionIds| ==> n == budget)
  {
    var ids, questionIds := t.encode(system), t.encode(question);
    assert ids[..|ids|] == ids && questionIds[..|questionIds|] == questionIds;
    var room := if |questionIds| < budget then budget - |questionIds| else budget;
    var n := if |questionIds| < budget then (if room < |ids| then room else |ids|) else (if room < |questionIds| then room else |questionIds|);
    assert n >= 0;
  }

  class Session {
    const config: Config
    var context: string
    var systemPrompt: string
    var history: seq<string>
    var warnedEmptyBudget: bool
    var warnedSystemPromptDropped: bool

    constructor (config: Config, context: string, systemPrompt: string)
      ensures this.config == config && this.context == context && this.systemPrompt == systemPrompt && history == []
    {
      this.config, this.context, this.systemPrompt := config, context, systemPrompt;
      history, warnedEmptyBudget, warnedSystemPromptDropped := [], false, false;
    }

    /** Builds the prompt of a turn. A bounded session drops the fewest oldest turns that make the
        prompt fit; when none are left, the system prompt and then the question are cut. */
    method ToRequestBody(question: string, maxTokens: int) returns (prompt: string, sessionContext: string)
      modifies this
      ensures sessionContext == old(context)
      ensures !config.Bounded() ==> prompt == old(context) + " " + question && context == old(context)
      ensures !config.Bounded() ==> history == old(history) && systemPrompt == old(systemPrompt)
      ensures config.Bounded() ==>
        var budget := PromptBudget(config, maxTokens);
        var fits := PromptFits(config, old(systemPrompt), old(history), question, budget);
        var k := Drop(fits, 0, |old(history)|);
        && history == old(history)[k..]
        && context == ContextOf(config.(boundary := false), systemPrompt, history)
        && (if fits(k) then systemPrompt == old(systemPrompt) && prompt == GetText(config, systemPrompt, history, question)
            else var squeezed := Squeeze(config.tokenizer.value, old(systemPrompt), question, budget);
                 systemPrompt == squeezed.0 && history == [] && prompt == GetText(config, squeezed.0, [], squeezed.1))
      ensures config.Bounded() ==> |history| <= |old(history)| && history == old(history)[|old(history)| - |history|..]
      ensures config.Bounded() && history != [] ==>
        && systemPrompt == old(systemPrompt) && prompt == GetText(config, systemPrompt, history, question)
        && LeavesRoom(config, prompt, maxTokens)
      ensures config.Bounded() ==> forall j :: 0 <= j < |old(history)| - |history| ==>
        !LeavesRoom(config, GetText(config, old(systemPrompt), old(history)[j..], question), maxTokens)
    {
      sessionContext := context;
      if !config.Bounded() {
        prompt := sessionContext + " " + question;
        return;
      }
      PromptLeavesRoom(config, systemPrompt, history, question, maxTokens);
      var t := config.tokenizer.value;
      var budget := PromptBudget(config, maxTokens);
      if budget == 0 {
        warnedEmptyBudget := true;
      }
      var kept;
      kept, prompt := DropTurns(question, budget);
      if |t.encode(prompt)| > budget {
        var squeezed := Squeeze(t, systemPrompt, question, budget);
        if budget <= |t.encode(question)| && budget > 0 {
          warnedSystemPromptDropped := true;
        }
        systemPrompt := squeezed.0;
        prompt := GetText(config, squeezed.0, [], squeezed.1);
      }
      history := kept;
      context := ContextOf(config.(boundary := false), systemPrompt, history);
    }

    /** Drops oldest turns until the prompt fits, or none is left. */
    method DropTurns(question: string, budget: nat) returns (kept: seq<string>, prompt: string)
      requires config.Bounded()
      ensures kept == history[Drop(PromptFits(config, systemPrompt, history, question, budget), 0, |history|)..]
      ensures prompt == GetText(config, systemPrompt, kept, question)
    {
      var t := config.tokenizer.value;
      kept := history;
      ghost var fits := PromptFits(config, systemPrompt, history, question, budget);
      ghost var k := 0;
      assert history[0..] == history;
      prompt := GetText(config, systemPrompt, kept, question);
      var tokens := |t.encode(prompt)|;
      while kept != [] && tokens > budget
        invariant k <= |history| && kept == history[k..] && prompt == GetText(config, systemPrompt, kept, question)
        invariant tokens == |t.encode(prompt)|
        invariant Drop(fits, 0, |history|) == Drop(fits, k, |history|)
        decreases |kept|
      {
        kept := kept[1..];
        k := k + 1;
        prompt := GetText(config, systemPrompt, kept, question);
        tokens := |t.encode(prompt)|;
      }
    }

    /** Takes the text of the last exchange back in. An accumulating, bounded session appends what the
        text holds beyond its system prompt and history, and then evicts the fewest oldest turns that
        make the rest fit the model. */
    method UpdateContext(response: string)
      modifies this
      ensures systemPrompt == old(systemPrompt)
      ensures !(config.accumulates && config.Bounded()) ==> context == response && history == old(history)
      ensures config.accumulates && config.Bounded() ==>
        && history == Evicted(config, systemPrompt, Grown(config, systemPrompt, old(history), response))
        && context == ContextOf(config, systemPrompt, history)
      ensures config.accumulates && config.Bounded() ==>
        KeepsTheNewest(config, systemPrompt, Grown(config, systemPrompt, old(history), response), history)
    {
      if !(config.accumulates && config.Bounded()) {
        context := response;
        return;
      }
      var turn := TurnOf(config, systemPrompt, history, response);
      if turn != "" {
        history := history + [turn];
      }
      EvictedKeepsTheNewest(config, systemPrompt, history);
      Evict();
      context := ContextOf(config, systemPrompt, history);
    }

    method Evict()
      requires config.Bounded()
      modifies this`history
      ensures history == Evicted(config, systemPrompt, old(history))
    {
      ghost var grown := history;
      ghost var fits := ContextFits(config, systemPrompt, grown);
      ghost var k := 0;
      assert grown[0..] == grown;
      while history != [] && config.tokenizer.value.count(systemPrompt) + config.tokenizer.value.count(Joined(config, history)) > config.maxLen.value
        invariant k <= |grown| && history == grown[k..]
        invariant Drop(fits, 0, |grown|) == Drop(fits, k, |grown|)
        decreases |history|
      {
        history := history[1..];
        k := k + 1;
      }
    }

    /** A turn that fails: the text from before it is handed back, and cut at the length of what the prompt
        has left of system prompt and history. This adds nothing exactly when nothing of the old text
        stands behind that, as where the prompt had to drop nothing. */
    method FailedTurn(question: string, maxTokens: int)
      requires config.accumulates && config.Bounded()
      modifies this
      ensures var (system, kept) := LeftOver(config, old(systemPrompt), old(history), question, maxTokens);
              var grown := Grown(config, system, kept, old(context));
              && systemPrompt == system && history == Evicted(config, system, grown) && context == ContextOf(config, system, history)
              && (grown == kept <==> NothingBehind(config, system, kept, old(context)))
      ensures PromptFits(config, old(systemPrompt), old(history), question, PromptBudget(config, maxTokens))(0)
              && old(context) == ContextOf(config, old(systemPrompt), old(history)) && (forall i :: 0 <= i < |old(history)| ==> old(history)[i] != "")
              ==> systemPrompt == old(systemPrompt) && history == Evicted(config, systemPrompt, old(history))
    {
      var sessionContext;
      var prompt;
      prompt, sessionContext := ToRequestBody(question, maxTokens);
      AddsNothingExactly(config, systemPrompt, history, sessionContext);
      assert old(history)[0..] == old(history);
      if forall i :: 0 <= i < |old(history)| ==> old(history)[i] != "" {
        FailedTurnAddsNothing(config, old(systemPrompt), old(history));
      }
      UpdateContext(sessionContext);
    }

    /** A turn that is answered: where neither the prompt nor the grown history has to drop anything, the
        history takes in the whole exchange. */
    method Turn(question: string, answer: string, maxTokens: int) returns (prompt: string)
      requires config.accumulates && config.Bounded()
      modifies this
      ensures PromptFits(config, old(systemPrompt), old(history), question, PromptBudget(config, maxTokens))(0)
              && ContextFits(config, old(systemPrompt), Appended(old(history), TurnOf(config, old(systemPrompt), old(history), prompt + " " + answer)))(0)
              ==> Exchanged(config, old(systemPrompt), old(history), Exchange(question, answer), prompt, history)
                  && systemPrompt == old(systemPrompt) && context == ContextOf(config, systemPrompt, history)
    {
      var sessionContext;
      prompt, sessionContext := ToRequestBody(question, maxTokens);
      ghost var middle := history;
      UpdateContext(prompt + " " + answer);
      assert old(history)[0..] == old(history);
      ghost var grown := Appended(middle, TurnOf(config, systemPrompt, middle, prompt + " " + answer));
      assert grown[0..] == grown;
    }
  }

  // ---- What a response adds ----

  /** In the boundary-keeping mode, taking a response in makes the session's text the prompt, a space
      and the response, to the letter. */
  lemma ResponseCompletesPrompt(c: Config, system: string, history: seq<string>, question: string, answer: string)
    requires c.boundary
    ensures var prompt := GetText(c, system, history, question);
            var turn := TurnOf(c, system, history, prompt + " " + answer);
            turn != "" && ContextOf(c, system, history + [turn]) == prompt + " " + answer
  {
    var before := system + Concat(history);
    var prompt := GetText(c, system, history, question);
    var turn := TurnOf(c, system, history, prompt + " " + answer);
    PromptGoesOn(c, system, history, question, before);
    CutAfter(before, prompt, answer, turn);
    ConcatPush(history, turn);
    TextOfMore(system, Concat(history), turn, before);
  }

  lemma PromptGoesOn(c: Config, system: string, history: seq<string>, question: string, before: string)
    requires c.boundary && before == system + Concat(history)
    ensures before <= GetText(c, system, history, question)
  {
  }

  lemma CutAfter(before: string, prompt: string, answer: string, turn: string)
    requires before <= prompt && turn == From(prompt + " " + answer, |before|)
    ensures turn != "" && before + turn == prompt + " " + answer
  {
    assert before <= prompt + " " + answer;
  }

  lemma TextOfMore(system: string, history: string, turn: string, before: string)
    requires before == system + history
    ensures system + (history + turn) == before + turn
  {
  }

  /** And the next prompt goes on from there. */
  lemma PromptsExtendContext(c: Config, system: string, history: seq<string>, question: string)
    requires c.boundary
    ensures ContextOf(c, system, history) <= GetText(c, system, history, question)
  {
  }

  /** In the boundary-keeping mode the question comes right behind the session's text, but for a space where there is
      a history and neither side has one. */
  lemma QuestionComesLast(c: Config, system: string, history: seq<string>, question: string)
    requires c.boundary
    ensures var before := ContextOf(c, system, history);
            var apart := Concat(history) != "" && question != "" && !c.isSpace(before[|before| - 1]) && !c.isSpace(question[0]);
            GetText(c, system, history, question) == before + (if apart then " " else "") + question
  {
    assert system + Concat(history) + "" == system + Concat(history);
  }

  lemma JoinPair(a: string, b: string)
    ensures JoinSpaced([a]) == a && JoinSpaced([a, b]) == a + " " + b
  {
    assert [a, b][..1] == [a];
  }

  lemma JoinTriple(a: string, b: string, d: string)
    ensures JoinSpaced([a, b, d]) == a + " " + b + " " + d
  {
    assert [a, b, d][..2] == [a, b];
    JoinPair(a, b);
  }

  function IfAny(part: string): seq<string> {
    if part == "" then [] else [part]
  }

  lemma ThreeParts(a: string, b: string, d: string)
    ensures JoinSpaced(IfAny(a) + IfAny(b) + IfAny(d)) == Spaced(Spaced(a, b), d)
  {
    var parts := IfAny(a) + IfAny(b) + IfAny(d);
    if a == "" {
      JoinPair(b, d);
      JoinPair(d, d);
      assert parts == if b == "" then IfAny(d) else if d == "" then [b] else [b, d];
    } else if b == "" {
      JoinPair(a, d);
      assert parts == if d == "" then [a] else [a, d];
    } else {
      JoinPair(a, b);
      JoinTriple(a, b, d);
      assert parts == if d == "" then [a, b] else [a, b, d];
    }
  }

  /** The legacy prompt is the session's text and the question, with a space where both are there. */
  lemma LegacyPrompt(c: Config, system: string, history: seq<string>, question: string)
    requires !c.boundary && forall i :: 0 <= i < |history| ==> history[i] != ""
    ensures GetText(c, system, history, question) == Spaced(ContextOf(c, system, history), question)
  {
    JoinedEmpty(history);
    ThreeParts(system, JoinSpaced(history), question);
    assert Parts(system, history, question) == IfAny(system) + IfAny(JoinSpaced(history)) + IfAny(question);
  }

  lemma {:induction false} StripLeadingSpace(s: string, isSpace: char -> bool)
    requires isSpace(' ')
    ensures Strip(" " + s, isSpace) == Strip(s, isSpace)
  {
    assert (" " + s)[1..] == s;
  }

  /** Behind the session's text comes the exchange, with a space in between where there is text. */
  lemma ExchangeBehind(before: string, question: string, answer: string)
    ensures Spaced(before, question) + " " + answer
            == if question == "" then before + " " + answer
               else if before == "" then question + " " + answer else before + (" " + (question + " " + answer))
  {
  }

  lemma FromBehind(before: string, rest: string, base: nat)
    requires base == |before| || (base == |before| + 1 && rest != "" && rest[0] == ' ')
    ensures From(before + rest, base) == if base == |before| then rest else rest[1..]
  {
  }

  lemma StripExchange(question: string, answer: string, isSpace: char -> bool)
    requires isSpace(' ')
    ensures Strip(" " + (question + " " + answer), isSpace) == Strip(question + " " + answer, isSpace)
    ensures question == "" ==> Strip(" " + answer, isSpace) == Strip(question + " " + answer, isSpace)
    ensures question == "" ==> Strip(answer, isSpace) == Strip(question + " " + answer, isSpace)
  {
    StripLeadingSpace(question + " " + answer, isSpace);
    StripLeadingSpace(answer, isSpace);
    assert question == "" ==> question + " " + answer == " " + answer;
  }

  lemma CutBehind(before: string, question: string, answer: string, base: nat, isSpace: char -> bool)
    requires isSpace(' ') && (base == |before| || (base == |before| + 1 && before != ""))
    ensures Strip(From(Spaced(before, question) + " " + answer, base), isSpace) == Strip(question + " " + answer, isSpace)
  {
    ExchangeBehind(before, question, answer);
    StripExchange(question, answer, isSpace);
    if question == "" {
      FromBehind(before, " " + answer, base);
    } else if before == "" {
      FromBehind(before, question + " " + answer, base);
    } else {
      FromBehind(before, " " + (question + " " + answer), base);
    }
  }

  /** In the legacy mode, what a response adds is the question and the response, stripped: the cut
      before it falls exactly behind the system prompt and the history, whichever of them is empty. */
  lemma TurnIsQuestionAndAnswer(c: Config, system: string, history: seq<string>, question: string, answer: string)
    requires !c.boundary && c.isSpace(' ')
    requires forall i :: 0 <= i < |history| ==> history[i] != ""
    ensures TurnOf(c, system, history, GetText(c, system, history, question) + " " + answer)
            == Strip(question + " " + answer, c.isSpace)
  {
    var base := CutPosition(c, system, history, GetText(c, system, history, question) + " " + answer);
    LegacyPrompt(c, system, history, question);
    CutBehind(ContextOf(c, system, history), question, answer, base, c.isSpace);
  }

  /** Where the legacy mode cuts a response: behind the session's text, or behind the space after it. */
  lemma CutPosition(c: Config, system: string, history: seq<string>, response: string) returns (base: nat)
    requires !c.boundary && forall i :: 0 <= i < |history| ==> history[i] != ""
    ensures TurnOf(c, system, history, response) == Strip(From(response, base), c.isSpace)
    ensures var before := ContextOf(c, system, history); base == |before| || (base == |before| + 1 && before != "")
  {
    JoinedEmpty(history);
    base := |system| + (if JoinSpaced(history) == "" then 0 else |JoinSpaced(history)| + 1);
  }

  lemma {:induction false} JoinedEmpty(history: seq<string>)
    requires forall i :: 0 <= i < |history| ==> history[i] != ""
    ensures JoinSpaced(history) == "" <==> history == []
  {
  }

  /** A failed turn hands the unchanged context back, which adds nothing. */
  lemma FailedTurnAddsNothing(c: Config, system: string, history: seq<string>)
    requires forall i :: 0 <= i < |history| ==> history[i] != ""
    ensures TurnOf(c, system, history, ContextOf(c, system, history)) == ""
  {
    JoinedEmpty(history);
  }

  lemma {:induction false} ConcatSplit(parts: seq<string>, k: nat)
    requires k <= |parts|
    ensures Concat(parts) == Concat(parts[..k]) + Concat(parts[k..])
    decreases |parts| - k
  {
    if k == |parts| {
      assert parts[..k] == parts && parts[k..] == [];
    } else {
      var n := |parts| - 1;
      ConcatSplit(parts[..n], k);
      assert parts[..n][..k] == parts[..k] && parts[..n][k..] == parts[k..n];
      ConcatLast(parts, parts[..n], parts[n]);
      ConcatLast(parts[k..], parts[k..n], parts[n]);
      TextOfMore(Concat(parts[..k]), Concat(parts[k..n]), parts[n], Concat(parts[..n]));
    }
  }

  lemma ConcatLast(parts: seq<string>, front: seq<string>, last: string)
    requires parts == front + [last]
    ensures Concat(parts) == Concat(front) + last
  {
    ConcatPush(front, last);
  }

  lemma {:induction false} JoinSplit(parts: seq<string>, k: nat)
    requires 0 < k < |parts|
    ensures JoinSpaced(parts) == JoinSpaced(parts[..k]) + (" " + JoinSpaced(parts[k..]))
    decreases |parts| - k
  {
    var n := |parts| - 1;
    var a, b := JoinSpaced(parts[..k]), parts[k..];
    if k == n {
      assert b == [parts[n]];
      assert JoinSpaced(parts) == a + " " + parts[n];
    } else {
      var front := parts[..n];
      JoinSplit(front, k);
      assert front[..k] == parts[..k] && front[k..] == b[..|b| - 1];
      JoinAssoc(a, JoinSpaced(b[..|b| - 1]), parts[n]);
    }
  }

  lemma JoinAssoc(a: string, b: string, d: string)
    ensures a + (" " + b) + " " + d == a + (" " + (b + " " + d))
  {
  }

  /** The last m characters. */
  function Tail(s: string, m: nat): string
    requires m <= |s|
  {
    s[|s| - m..]
  }

  lemma {:induction false} StripEmpty(s: string, isSpace: char -> bool)
    ensures Strip(s, isSpace) == "" <==> forall i :: 0 <= i < |s| ==> isSpace(s[i])
    decreases |s|
  {
    if s != "" && isSpace(s[0]) {
      StripEmpty(s[1..], isSpace);
      assert s == [s[0]] + s[1..];
    } else if s != "" && isSpace(s[|s| - 1]) {
      StripEmpty(s[..|s| - 1], isSpace);
    }
  }

  /** A text adds a turn exactly when something stands behind what is accounted for. */
  lemma AddsNothingExactly(c: Config, system: string, history: seq<string>, text: string)
    ensures TurnOf(c, system, history, text) == "" <==> NothingBehind(c, system, history, text)
    ensures Grown(c, system, history, text) == history <==> NothingBehind(c, system, history, text)
  {
    var cut := CutAt(c, system, history);
    var behind := From(text, cut);
    StripEmpty(behind, c.isSpace);
    assert forall i :: cut <= i < |text| ==> text[i] == behind[i - cut];
    assert behind != "" ==> cut <= cut < |text|;
    assert |history + [TurnOf(c, system, history, text)]| > |history|;
  }

  function AtLeastZero(n: int): nat {
    if n < 0 then 0 else n
  }

  /** When the prompt of a failed turn had to drop its k oldest turns, or to cut the system prompt as well, the
      text handed back is longer than what is accounted for, and its end comes in again as a turn. With
      the boundary kept, that is as much text as was dropped and cut. */
  lemma FailedCutTurnRepeatsText(c: Config, system: string, history: seq<string>, k: nat, system': string)
    requires c.boundary && k <= |history|
    ensures var whole, m := ContextOf(c, system, history), AtLeastZero(|Concat(history[..k])| + |system| - |system'|);
            && m <= |whole| && TurnOf(c, system', history[k..], whole) == Tail(whole, m)
            && (TurnOf(c, system', history[k..], whole) == "" <==> |Concat(history[..k])| + |system| <= |system'|)
            && (TurnOf(c, system', history[k..], whole) == "" <==> |whole| <= |system'| + |Concat(history[k..])|)
  {
    ConcatSplit(history, k);
  }

  /** How much longer the legacy text is than what is accounted for, when the prompt has dropped turns. */
  lemma LegacyCutLength(c: Config, system: string, history: seq<string>, k: nat, system': string)
    requires !c.boundary && 0 < k <= |history| && forall i :: 0 <= i < |history| ==> history[i] != ""
    ensures |ContextOf(c, system, history)| - CutAt(c, system', history[k..])
            == |JoinSpaced(history[..k])| + (if system == "" then 0 else 1) + |system| - |system'|
  {
    JoinedEmpty(history[k..]);
    if k < |history| {
      JoinSplit(history, k);
    } else {
      assert history[..k] == history && history[k..] == [];
    }
  }

  /** In the legacy mode it is a space more where there was a system prompt, and comes in stripped: nothing is
      added exactly when it is all space. Without a history it is what was cut of the system prompt. */
  lemma LegacyFailedCutTurnRepeatsText(c: Config, system: string, history: seq<string>, k: nat, system': string)
    requires !c.boundary && k <= |history|
    ensures var whole := ContextOf(c, system, history);
            var m := AtLeastZero(|whole| - CutAt(c, system', history[k..]));
            && TurnOf(c, system', history[k..], whole) == Strip(Tail(whole, m), c.isSpace)
            && (TurnOf(c, system', history[k..], whole) == "" <==> forall i :: |whole| - m <= i < |whole| ==> c.isSpace(whole[i]))
            && (history == [] ==> m == AtLeastZero(|system| - |system'|))
            && (k > 0 && (forall i :: 0 <= i < |history| ==> history[i] != "") ==>
                  m == AtLeastZero(|JoinSpaced(history[..k])| + (if system == "" then 0 else 1) + |system| - |system'|))
  {
    var whole := ContextOf(c, system, history);
    LegacyTail(c, system', history[k..], whole, AtLeastZero(|whole| - CutAt(c, system', history[k..])));
    if k > 0 && forall i :: 0 <= i < |history| ==> history[i] != "" {
      LegacyCutLength(c, system, history, k, system');
    }
  }

  lemma LegacyTail(c: Config, system: string, kept: seq<string>, whole: string, m: nat)
    requires !c.boundary && m == AtLeastZero(|whole| - CutAt(c, system, kept))
    ensures m <= |whole| && TurnOf(c, system, kept, whole) == Strip(Tail(whole, m), c.isSpace)
    ensures TurnOf(c, system, kept, whole) == "" <==> forall i :: |whole| - m <= i < |whole| ==> c.isSpace(whole[i])
  {
    AddsNothingExactly(c, system, kept, whole);
  }

  // ---- Two failed turns ----

  function Codes(text: string): seq<int> {
    seq(|text|, i requires 0 <= i < |text| => text[i] as int)
  }

  function Letters(codes: seq<int>): string {
    seq(|codes|, i requires 0 <= i < |codes| => if 0 <= codes[i] < 0x80 then codes[i] as char else '?')
  }

  function Length(text: string): nat {
    |text|
  }

  /** A session of one token per letter, in a model of `maxLen` tokens. */
  function Spelled(maxLen: int): (c: Config)
    ensures c.Bounded() <==> maxLen != 0
  {
    Config(true, true, Some(Tokenizer(Codes, Letters, Length)), Some(maxLen), (x: char) => x == ' ')
  }

  /** The system prompt and the history after a failed turn, from text that was in step. */
  function AfterFailure(c: Config, system: string, history: seq<string>, question: string, maxTokens: int): (string, seq<string>)
    requires c.Bounded()
  {
    var (left, kept) := LeftOver(c, system, history, question, maxTokens);
    (left, Evicted(c, left, Grown(c, left, kept, ContextOf(c, system, history))))
  }

  /** The prompt "sab q" has a letter too many: the turn "a" is dropped, and "b" is there twice afterwards. */
  lemma DroppedTurnRepeatsText()
    ensures AfterFailure(Spelled(204), "s", ["a", "b"], "q", 0) == ("s", ["b", "b"])
  {
    var c := Spelled(204);
    var history := ["a", "b"];
    SpelledPrompts(c, history);
    var fits := PromptFits(c, "s", history, "q", 4);
    assert !fits(0) && fits(1);
    assert Drop(fits, 0, 2) == 1;
    assert LeftOver(c, "s", history, "q", 0) == ("s", ["b"]);
    assert ContextOf(c, "s", history) == "sab";
    assert Grown(c, "s", ["b"], "sab") == ["b", "b"];
    ConcatPush(["b"], "b");
    NothingEvicted(c, "s", ["b", "b"]);
  }

  lemma NothingEvicted(c: Config, system: string, history: seq<string>)
    requires c.Bounded() && c.tokenizer.value.count(system) + c.tokenizer.value.count(Joined(c, history)) <= c.maxLen.value
    ensures Evicted(c, system, history) == history
  {
    assert history[0..] == history;
    assert ContextFits(c, system, history)(0);
  }

  /** The prompt "abq" has a letter too many, and there is no turn to drop: the system prompt loses its "b",
      which comes back as a turn. */
  lemma CutSystemPromptRepeatsText()
    ensures AfterFailure(Spelled(202), "ab", [], "q", 0) == ("a", ["b"])
  {
    var c := Spelled(202);
    assert Concat([]) == "";
    assert GetText(c, "ab", [], "q") == "abq";
    assert Squeeze(c.tokenizer.value, "ab", "q", 2).0 == "a";
    assert LeftOver(c, "ab", [], "q", 0) == ("a", []);
    assert ContextOf(c, "ab", []) == "ab";
    assert Grown(c, "a", [], "ab") == ["b"];
    ConcatPush([], "b");
    NothingEvicted(c, "a", ["b"]);
  }

  /** Eight tokens for the output cost the prompt "sab q" a turn, although the model would hold it. */
  lemma OutputTokensDropATurn()
    ensures LeftOver(Spelled(212), "s", ["a", "b"], "q", 8) == ("s", ["b"])
    ensures LeftOver(Spelled(212), "s", ["a", "b"], "q", 0) == ("s", ["a", "b"])
  {
    var c := Spelled(212);
    var history := ["a", "b"];
    SpelledPrompts(c, history);
    var fits := PromptFits(c, "s", history, "q", 4);
    assert !fits(0) && fits(1);
    assert Drop(fits, 0, 2) == 1;
    assert PromptFits(c, "s", history, "q", 12)(0);
  }

  lemma SpelledPrompts(c: Config, history: seq<string>)
    requires history == ["a", "b"] && c.boundary && !c.isSpace('a') && !c.isSpace('b') && !c.isSpace('q')
    ensures history[0..] == history && history[1..] == ["b"] && Concat(history) == "ab" && Concat(["b"]) == "b"
    ensures GetText(c, "s", history, "q") == "sab q" && GetText(c, "s", ["b"], "q") == "sb q"
  {
    ConcatPush([], "a");
    ConcatPush([], "b");
    ConcatPush(["a"], "b");
    assert [] + ["a"] == ["a"] && [] + ["b"] == ["b"] && ["a"] + ["b"] == history;
    assert Concat(history) == "ab" && Concat(["b"]) == "b";
  }

  // ---- Whole conversations ----

  datatype Exchange = Exchange(question: string, answer: string)

  /** A conversation that never has to drop anything: the history before each turn, and its prompt. */
  ghost predicate Conversation(c: Config, system: string, turns: seq<Exchange>, histories: seq<seq<string>>, prompts: seq<string>) {
    && |histories| == |turns| + 1 && |prompts| == |turns|
    && forall i :: 0 <= i < |turns| ==> Exchanged(c, system, histories[i], turns[i], prompts[i], histories[i + 1])
  }

  ghost predicate Exchanged(c: Config, system: string, history: seq<string>, turn: Exchange, prompt: string, history': seq<string>) {
    && prompt == GetText(c, system, history, turn.question)
    && history' == Appended(history, TurnOf(c, system, history, prompt + " " + turn.answer))
  }

  lemma ExchangeExtends(c: Config, system: string, history: seq<string>, turn: Exchange, prompt: string, history': seq<string>)
    requires c.boundary && Exchanged(c, system, history, turn, prompt, history')
    ensures ContextOf(c, system, history) <= prompt
    ensures ContextOf(c, system, history') == prompt + " " + turn.answer
  {
    ResponseCompletesPrompt(c, system, history, turn.question, turn.answer);
    PromptsExtendContext(c, system, history, turn.question);
  }

  /** Each prompt starts with the session's text, which then becomes the prompt, a space and the answer. */
  ghost predicate Grows(contexts: seq<string>, turns: seq<Exchange>, prompts: seq<string>) {
    && |contexts| == |turns| + 1 && |prompts| == |turns|
    && forall i :: 0 <= i < |turns| ==> contexts[i] <= prompts[i] && contexts[i + 1] == prompts[i] + " " + turns[i].answer
  }

  lemma {:induction false} GrowingContexts(contexts: seq<string>, turns: seq<Exchange>, prompts: seq<string>, i: nat, j: nat)
    requires Grows(contexts, turns, prompts) && i < j < |turns|
    ensures contexts[i + 1] <= contexts[j]
  {
    if i + 1 < j {
      GrowingContexts(contexts, turns, prompts, i, j - 1);
      assert contexts[j - 1] <= prompts[j - 1] <= prompts[j - 1] + " " <= contexts[j];
    }
  }

  lemma ConversationGrows(c: Config, system: string, turns: seq<Exchange>, histories: seq<seq<string>>, prompts: seq<string>)
    returns (contexts: seq<string>)
    requires c.boundary && Conversation(c, system, turns, histories, prompts)
    ensures Grows(contexts, turns, prompts)
  {
    contexts := seq(|histories|, i requires 0 <= i < |histories| => ContextOf(c, system, histories[i]));
    forall i | 0 <= i < |turns| ensures contexts[i] <= prompts[i] && contexts[i + 1] == prompts[i] + " " + turns[i].answer {
      ExchangeExtends(c, system, histories[i], turns[i], prompts[i], histories[i + 1]);
    }
  }

  /** In the boundary-keeping mode every prompt is a prefix of every later one, followed there by a
      space and its answer: a prefix cache can serve each turn from the one before. */
  lemma PromptsGrowByPrefix(c: Config, system: string, turns: seq<Exchange>, histories: seq<seq<string>>, prompts: seq<string>, i: nat, j: nat)
    requires c.boundary && Conversation(c, system, turns, histories, prompts) && i < j < |turns|
    ensures prompts[i] + " " + turns[i].answer <= prompts[j]
  {
    var contexts := ConversationGrows(c, system, turns, histories, prompts);
    GrowingContexts(contexts, turns, prompts, i, j);
    PrefixOfPrefix(prompts[i] + " " + turns[i].answer, contexts[j], prompts[j]);
  }

  lemma PrefixOfPrefix(a: string, b: string, d: string)
    requires a <= b <= d
    ensures a <= d
  {
  }
}
