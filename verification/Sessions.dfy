/** Per-session totals folded from request metrics, and the session summary built on them. */
module Sessions {
  import opened Common
  import EC = ErrorCounts

  /** What a response reports about the prompt cache: a missing count is not a count of zero. */
  datatype Usage = Usage(cached: Option<int>, prompt: int)

  datatype Error = Error(kind: string, text: string)

  /** When the first content token of a response came in; none when it carried no content. */
  datatype Response = Streamed(firstContent: Option<real>) | NotStreamed

  datatype Request = Request(
    session: string,            // empty when the request belongs to no session
    event: string,              // empty when it belongs to no event of the session
    response: Response,
    inputTokens: nat, outputTokens: nat,
    error: Option<Error>,
    retries: nat, recovered: bool,
    usage: Option<Usage>)

  /** The number of 0 to `most` that is nearest to x. */
  ghost predicate Clamps(n: nat, x: int, most: nat) {
    n <= most && (0 <= x <= most ==> n == x) && (x < 0 ==> n == 0) && (x > most ==> n == most)
  }

  /** Cached and total prompt tokens, from the same report; none when it says nothing about the cache. */
  function CachedPromptTokens(usage: Option<Usage>): (r: Option<(nat, nat)>)
    ensures r.Some? ==> r.value.0 <= r.value.1 && 0 < r.value.1
    ensures r.Some? <==> usage.Some? && usage.value.cached.Some? && usage.value.prompt > 0
    ensures r.Some? ==> r.value.1 == usage.value.prompt && Clamps(r.value.0, usage.value.cached.value, usage.value.prompt)
  {
    if usage.None? || usage.value.cached.None? || usage.value.prompt <= 0 then None
    else
      var cached := if usage.value.cached.value < 0 then 0 else usage.value.cached.value;
      Some((if cached < usage.value.prompt then cached else usage.value.prompt, usage.value.prompt))
  }

  // ---- What the totals mean: sums over the requests of a session ----

  predicate Belongs(r: Request, id: string) {
    r.session != "" && r.session == id
  }

  function InputOf(rs: seq<Request>, id: string): nat {
    if rs == [] then 0 else InputOf(rs[..|rs| - 1], id) + (if Belongs(rs[|rs| - 1], id) then rs[|rs| - 1].inputTokens else 0)
  }

  function OutputOf(rs: seq<Request>, id: string): nat {
    if rs == [] then 0 else OutputOf(rs[..|rs| - 1], id) + (if Belongs(rs[|rs| - 1], id) then rs[|rs| - 1].outputTokens else 0)
  }

  function RetriesOf(rs: seq<Request>, id: string): nat {
    if rs == [] then 0 else RetriesOf(rs[..|rs| - 1], id) + (if Belongs(rs[|rs| - 1], id) then rs[|rs| - 1].retries else 0)
  }

  function RecoveredOf(rs: seq<Request>, id: string): nat {
    if rs == [] then 0
    else RecoveredOf(rs[..|rs| - 1], id) + (if Belongs(rs[|rs| - 1], id) && rs[|rs| - 1].retries > 0 && rs[|rs| - 1].recovered then 1 else 0)
  }

  function FirstErrorOf(rs: seq<Request>, id: string): Option<Error> {
    if rs == [] then None
    else
      var before := FirstErrorOf(rs[..|rs| - 1], id);
      if before.Some? then before else if Belongs(rs[|rs| - 1], id) then rs[|rs| - 1].error else None
  }

  /** Whether a request counts for the cache totals: it succeeded and reported its cache use. */
  predicate Reports(r: Request, id: string) {
    Belongs(r, id) && r.error.None? && CachedPromptTokens(r.usage).Some?
  }

  /** What one request adds to the cache totals. */
  function CacheIn(r: Request, id: string): (nat, nat) {
    if Reports(r, id) then CachedPromptTokens(r.usage).value else (0, 0)
  }

  function CacheOf(rs: seq<Request>, id: string): (nat, nat) {
    if rs == [] then (0, 0)
    else
      var before, more := CacheOf(rs[..|rs| - 1], id), CacheIn(rs[|rs| - 1], id);
      (before.0 + more.0, before.1 + more.1)
  }

  predicate AnyReports(rs: seq<Request>, id: string) {
    exists i :: 0 <= i < |rs| && Reports(rs[i], id)
  }

  lemma {:induction false} CachedAtMostCacheable(rs: seq<Request>, id: string)
    ensures CacheOf(rs, id).0 <= CacheOf(rs, id).1
    ensures CacheOf(rs, id).1 > 0 <==> AnyReports(rs, id)
  {
    if rs != [] {
      var n := |rs| - 1;
      CachedAtMostCacheable(rs[..n], id);
      assert AnyReports(rs, id) <==> AnyReports(rs[..n], id) || Reports(rs[n], id) by {
        assert forall i :: 0 <= i < n ==> rs[..n][i] == rs[i];
        if AnyReports(rs[..n], id) {
          var i :| 0 <= i < n && Reports(rs[..n][i], id);
          assert Reports(rs[i], id);
        }
      }
    }
  }

  // ---- The totals as plain sums ----

  /** The request belongs to the session, which has a name. */
  predicate IsOf(r: Request, id: string) {
    id != "" && r.session == id
  }

  function InputTokens(id: string): Request -> int {
    (r: Request) => if IsOf(r, id) then r.inputTokens else 0
  }

  function OutputTokens(id: string): Request -> int {
    (r: Request) => if IsOf(r, id) then r.outputTokens else 0
  }

  function Retries(id: string): Request -> int {
    (r: Request) => if IsOf(r, id) then r.retries else 0
  }

  /** One for a request that recovered after a retry. */
  function Recoveries(id: string): Request -> int {
    (r: Request) => if IsOf(r, id) && r.retries > 0 && r.recovered then 1 else 0
  }

  /** A request that succeeded and says how many of how many prompt tokens came from the cache. */
  predicate TellsCache(r: Request, id: string) {
    IsOf(r, id) && r.error == None && r.usage.Some? && r.usage.value.cached.Some? && r.usage.value.prompt > 0
  }

  function PromptTokens(id: string): Request -> int {
    (r: Request) => if TellsCache(r, id) then r.usage.value.prompt else 0
  }

  /** The cached count it reports, brought into the range from nothing to the whole prompt. */
  function CachedTokens(id: string): Request -> int {
    (r: Request) =>
      if !TellsCache(r, id) then 0
      else if r.usage.value.cached.value < 0 then 0
      else if r.usage.value.cached.value > r.usage.value.prompt then r.usage.value.prompt
      else r.usage.value.cached.value
  }

  lemma CachedTokensClamp(r: Request, id: string)
    requires TellsCache(r, id)
    ensures CachedTokens(id)(r) >= 0 && Clamps(CachedTokens(id)(r), r.usage.value.cached.value, r.usage.value.prompt)
  {
  }

  lemma {:induction false} TokensAreSums(rs: seq<Request>, id: string)
    ensures InputOf(rs, id) == Sum(rs, InputTokens(id)) && OutputOf(rs, id) == Sum(rs, OutputTokens(id))
    ensures RetriesOf(rs, id) == Sum(rs, Retries(id)) && RecoveredOf(rs, id) == Sum(rs, Recoveries(id))
  {
    if rs != [] {
      var n := |rs| - 1;
      TokensAreSums(rs[..n], id);
      assert rs == rs[..n] + [rs[n]];
      SumAppend(rs[..n], rs[n], InputTokens(id));
      SumAppend(rs[..n], rs[n], OutputTokens(id));
      SumAppend(rs[..n], rs[n], Retries(id));
      SumAppend(rs[..n], rs[n], Recoveries(id));
    }
  }

  lemma CacheInTells(r: Request, id: string)
    ensures CacheIn(r, id).0 == CachedTokens(id)(r) && CacheIn(r, id).1 == PromptTokens(id)(r)
    ensures Reports(r, id) <==> TellsCache(r, id)
  {
  }

  lemma {:induction false} CacheTotalsAreSums(rs: seq<Request>, id: string)
    ensures CacheOf(rs, id).0 == Sum(rs, CachedTokens(id)) && CacheOf(rs, id).1 == Sum(rs, PromptTokens(id))
  {
    if rs != [] {
      var n := |rs| - 1;
      CacheTotalsAreSums(rs[..n], id);
      assert rs == rs[..n] + [rs[n]];
      CacheInTells(rs[n], id);
      SumAppend(rs[..n], rs[n], CachedTokens(id));
      SumAppend(rs[..n], rs[n], PromptTokens(id));
    }
  }

  /** The totals of a session are the sums over its own requests: the cached tokens of those that succeeded and
      report them, against the prompts of the same requests; and some request reports exactly when one of
      them does. */
  lemma TotalsAreSums(rs: seq<Request>, id: string)
    ensures InputOf(rs, id) == Sum(rs, InputTokens(id)) && OutputOf(rs, id) == Sum(rs, OutputTokens(id))
    ensures RetriesOf(rs, id) == Sum(rs, Retries(id)) && RecoveredOf(rs, id) == Sum(rs, Recoveries(id))
    ensures CacheOf(rs, id).0 == Sum(rs, CachedTokens(id)) && CacheOf(rs, id).1 == Sum(rs, PromptTokens(id))
    ensures AnyReports(rs, id) <==> exists r :: r in rs && TellsCache(r, id)
  {
    TokensAreSums(rs, id);
    CacheTotalsAreSums(rs, id);
    if AnyReports(rs, id) {
      var i :| 0 <= i < |rs| && Reports(rs[i], id);
      CacheInTells(rs[i], id);
      assert rs[i] in rs;
    }
    if r :| r in rs && TellsCache(r, id) {
      var i :| 0 <= i < |rs| && rs[i] == r;
      CacheInTells(rs[i], id);
    }
  }

  ghost predicate FirstWithError(rs: seq<Request>, id: string, i: nat) {
    && i < |rs| && IsOf(rs[i], id) && rs[i].error.Some?
    && forall j :: 0 <= j < i && IsOf(rs[j], id) ==> rs[j].error == None
  }

  ghost predicate LastOfEvent(rs: seq<Request>, id: string, event: string, i: nat) {
    && i < |rs| && IsOf(rs[i], id) && rs[i].event == event
    && forall j :: i < j < |rs| ==> !(IsOf(rs[j], id) && rs[j].event == event)
  }

  /** The error of a session is that of its first request with one, and it has none when none of them has. */
  lemma {:induction false} FirstErrorIsFirst(rs: seq<Request>, id: string)
    ensures FirstErrorOf(rs, id).None? <==> forall i :: 0 <= i < |rs| && IsOf(rs[i], id) ==> rs[i].error == None
    ensures forall i: nat :: FirstWithError(rs, id, i) ==> FirstErrorOf(rs, id) == rs[i].error
  {
    if rs != [] {
      var front := rs[..|rs| - 1];
      FirstErrorIsFirst(front, id);
      assert forall i :: 0 <= i < |front| ==> front[i] == rs[i];
    }
  }

  /** The response of an event is that of its last request. */
  lemma {:induction false} LastResponseIsLast(rs: seq<Request>, id: string, event: string)
    requires event != ""
    ensures LastResponse(rs, id, event).None? <==> forall i :: 0 <= i < |rs| ==> !(IsOf(rs[i], id) && rs[i].event == event)
    ensures forall i: nat :: LastOfEvent(rs, id, event, i) ==> LastResponse(rs, id, event) == Some(rs[i].response)
  {
    if rs != [] {
      var front := rs[..|rs| - 1];
      LastResponseIsLast(front, id, event);
      assert forall i :: 0 <= i < |front| ==> front[i] == rs[i];
    }
  }

  // ---- The time to the first token a user sees ----

  /** What the last request of an event brought. */
  function LastResponse(rs: seq<Request>, id: string, event: string): Option<Response> {
    if rs == [] then None
    else
      var last := rs[|rs| - 1];
      if Belongs(last, id) && last.event != "" && last.event == event then Some(last.response) else LastResponse(rs[..|rs| - 1], id, event)
  }

  function ResponsesOf(rs: seq<Request>, id: string): string -> Option<Response> {
    (event: string) => LastResponse(rs, id, event)
  }

  function ResponsesIn(responses: map<string, Response>): string -> Option<Response> {
    (event: string) => if event in responses then Some(responses[event]) else None
  }

  datatype Tfut = At(time: real) | Missing(reason: string)

  predicate Shown(r: Option<Response>) {
    r.Some? && r.value.Streamed? && r.value.firstContent.Some?
  }

  /** The least time from dispatch to the first content of a user-facing event, or why there is none. */
  ghost predicate IsTfut(events: seq<string>, dispatch: Option<real>, responses: string -> Option<Response>, t: Tfut) {
    match t
    case At(time) =>
      && dispatch.Some?
      && (exists k :: 0 <= k < |events| && Shown(responses(events[k])) && time == responses(events[k]).value.firstContent.value - dispatch.value)
      && (forall k :: 0 <= k < |events| && Shown(responses(events[k])) ==> time <= responses(events[k]).value.firstContent.value - dispatch.value)
    case Missing(reason) =>
      if events == [] then reason == "no_user_facing"
      else if dispatch.None? then reason == "no_dispatch_anchor"
      else
        && (forall k :: 0 <= k < |events| ==> !Shown(responses(events[k])))
        && reason == (if Some(NotStreamed) in Found(events, responses) then "non_streaming"
                      else if Some(Streamed(None)) in Found(events, responses) then "no_output_tokens" else "no_user_facing")
  }

  function Found(events: seq<string>, responses: string -> Option<Response>): seq<Option<Response>> {
    seq(|events|, k requires 0 <= k < |events| => responses(events[k]))
  }

  lemma SameTfut(events: seq<string>, dispatch: Option<real>, responses: string -> Option<Response>, others: string -> Option<Response>, t: Tfut)
    requires IsTfut(events, dispatch, responses, t) && forall event :: responses(event) == others(event)
    ensures IsTfut(events, dispatch, others, t)
  {
    assert Found(events, responses) == Found(events, others);
    assert forall k :: 0 <= k < |events| ==> responses(events[k]) == others(events[k]);
  }

  lemma FoundNext(events: seq<string>, responses: string -> Option<Response>, i: nat)
    requires i < |events|
    ensures Found(events[..i + 1], responses) == Found(events[..i], responses) + [responses(events[i])]
  {
  }

  method ComputeTfut(events: seq<string>, dispatch: Option<real>, responses: map<string, Response>) returns (t: Tfut)
    ensures IsTfut(events, dispatch, ResponsesIn(responses), t)
  {
    if events == [] {
      return Missing("no_user_facing");
    }
    if dispatch.None? {
      return Missing("no_dispatch_anchor");
    }
    var least, nonStreaming, noOutput := None, false, false;
    ghost var lookup := ResponsesIn(responses);
    var i := 0;
    while i < |events|
      invariant i <= |events|
      invariant least.Some? ==> IsTfut(events[..i], dispatch, lookup, At(least.value))
      invariant least.None? ==> forall k :: 0 <= k < i ==> !Shown(lookup(events[k]))
      invariant nonStreaming == (Some(NotStreamed) in Found(events[..i], lookup))
      invariant noOutput == (Some(Streamed(None)) in Found(events[..i], lookup))
    {
      FoundNext(events, lookup, i);
      ghost var before := least;
      if events[i] in responses {
        var r := responses[events[i]];
        match r
        case NotStreamed => nonStreaming := true;
        case Streamed(None) => noOutput := true;
        case Streamed(Some(first)) =>
          var time := first - dispatch.value;
          least := if least.None? || time < least.value then Some(time) else least;
      }
      LeastNext(events, dispatch.value, lookup, i, before, least);
      i := i + 1;
    }
    assert events[..i] == events;
    if least.Some? {
      return At(least.value);
    }
    t := Missing(if nonStreaming then "non_streaming" else if noOutput then "no_output_tokens" else "no_user_facing");
  }

  lemma LeastNext(events: seq<string>, dispatch: real, responses: string -> Option<Response>, i: nat, before: Option<real>, after: Option<real>)
    requires i < |events|
    requires before.Some? ==> IsTfut(events[..i], Some(dispatch), responses, At(before.value))
    requires before.None? ==> forall k :: 0 <= k < i ==> !Shown(responses(events[k]))
    requires var r := responses(events[i]);
             after == if !Shown(r) then before
                      else if before.None? || r.value.firstContent.value - dispatch < before.value then Some(r.value.firstContent.value - dispatch)
                      else before
    ensures after.Some? ==> IsTfut(events[..i + 1], Some(dispatch), responses, At(after.value))
    ensures after.None? ==> forall k :: 0 <= k < i + 1 ==> !Shown(responses(events[k]))
  {
    var front, more := events[..i], events[..i + 1];
    assert more[i] == events[i] && forall k :: 0 <= k < i ==> more[k] == front[k] == events[k];
    if before.Some? {
      var k :| 0 <= k < |front| && Shown(responses(front[k])) && before.value == responses(front[k]).value.firstContent.value - dispatch;
      assert more[k] == front[k];
    }
  }

  // ---- The fold ----

  /** The dictionaries of the fold. */
  datatype Index = Index(
    tokens: map<string, (nat, nat)>, errors: map<string, Error>,
    retries: map<string, (nat, nat)>, cache: map<string, (nat, nat)>,
    events: map<string, map<string, Response>>)

  function PairAt(m: map<string, (nat, nat)>, id: string): (nat, nat) {
    if id in m then m[id] else (0, 0)
  }

  ghost predicate Indexes(x: Index, rs: seq<Request>) {
    forall id :: IndexesAt(x, rs, id)
  }

  ghost predicate IndexesAt(x: Index, rs: seq<Request>, id: string) {
    && PairAt(x.tokens, id) == (InputOf(rs, id), OutputOf(rs, id))
    && PairAt(x.retries, id) == (RetriesOf(rs, id), RecoveredOf(rs, id))
    && ErrorAt(x.errors, rs, id)
    && CacheAt(x.cache, rs, id)
    && EventsAt(x.events, rs, id)
  }

  function EventsIn(events: map<string, map<string, Response>>, id: string): map<string, Response> {
    if id in events then events[id] else map[]
  }

  ghost predicate EventsAt(events: map<string, map<string, Response>>, rs: seq<Request>, id: string) {
    forall event :: ResponsesIn(EventsIn(events, id))(event) == LastResponse(rs, id, event)
  }

  ghost predicate ErrorAt(errors: map<string, Error>, rs: seq<Request>, id: string) {
    FirstErrorOf(rs, id) == if id in errors then Some(errors[id]) else None
  }

  ghost predicate CacheAt(cache: map<string, (nat, nat)>, rs: seq<Request>, id: string) {
    PairAt(cache, id) == CacheOf(rs, id) && (id in cache <==> AnyReports(rs, id))
  }

  function AddPair(m: map<string, (nat, nat)>, id: string, a: nat, b: nat): map<string, (nat, nat)> {
    m[id := (PairAt(m, id).0 + a, PairAt(m, id).1 + b)]
  }

  function AddEvent(events: map<string, map<string, Response>>, r: Request): map<string, map<string, Response>> {
    events[r.session := EventsIn(events, r.session)[r.event := r.response]]
  }

  function AddRequest(x: Index, r: Request): Index {
    if r.session == "" then x
    else
      var reported := if r.error.None? then CachedPromptTokens(r.usage) else None;
      Index(
        AddPair(x.tokens, r.session, r.inputTokens, r.outputTokens),
        if r.session !in x.errors && r.error.Some? then x.errors[r.session := r.error.value] else x.errors,
        if r.retries > 0 then AddPair(x.retries, r.session, r.retries, if r.recovered then 1 else 0) else x.retries,
        if reported.Some? then AddPair(x.cache, r.session, reported.value.0, reported.value.1) else x.cache,
        if r.event != "" then AddEvent(x.events, r) else x.events)
  }

  lemma AnyReportsPush(rs: seq<Request>, r: Request, id: string)
    ensures AnyReports(rs + [r], id) <==> AnyReports(rs, id) || Reports(r, id)
  {
    if AnyReports(rs, id) {
      var i :| 0 <= i < |rs| && Reports(rs[i], id);
      assert Reports((rs + [r])[i], id);
    }
    assert (rs + [r])[|rs|] == r;
  }

  lemma TotalsPush(rs: seq<Request>, r: Request, id: string)
    ensures InputOf(rs + [r], id) == InputOf(rs, id) + (if Belongs(r, id) then r.inputTokens else 0)
    ensures OutputOf(rs + [r], id) == OutputOf(rs, id) + (if Belongs(r, id) then r.outputTokens else 0)
    ensures RetriesOf(rs + [r], id) == RetriesOf(rs, id) + (if Belongs(r, id) then r.retries else 0)
    ensures RecoveredOf(rs + [r], id) == RecoveredOf(rs, id) + (if Belongs(r, id) && r.retries > 0 && r.recovered then 1 else 0)
  {
    assert (rs + [r])[..|rs|] == rs;
  }

  lemma ErrorsPush(rs: seq<Request>, r: Request, id: string)
    ensures FirstErrorOf(rs + [r], id) == if FirstErrorOf(rs, id).Some? || !Belongs(r, id) then FirstErrorOf(rs, id) else r.error
  {
    assert (rs + [r])[..|rs|] == rs;
  }

  lemma CachePush(rs: seq<Request>, r: Request, id: string, longer: seq<Request>)
    requires longer == rs + [r]
    ensures CacheOf(longer, id).0 == CacheOf(rs, id).0 + CacheIn(r, id).0 && CacheOf(longer, id).1 == CacheOf(rs, id).1 + CacheIn(r, id).1
  {
    assert longer != [] && longer[..|longer| - 1] == rs && longer[|longer| - 1] == r;
  }

  lemma ErrorNext(x: Index, rs: seq<Request>, r: Request, id: string)
    requires ErrorAt(x.errors, rs, id)
    ensures ErrorAt(AddRequest(x, r).errors, rs + [r], id)
  {
    ErrorsPush(rs, r, id);
  }

  lemma EventsNext(x: Index, rs: seq<Request>, r: Request, id: string)
    requires EventsAt(x.events, rs, id)
    ensures EventsAt(AddRequest(x, r).events, rs + [r], id)
  {
    var events := AddRequest(x, r).events;
    forall event ensures ResponsesIn(EventsIn(events, id))(event) == LastResponse(rs + [r], id, event) {
      assert (rs + [r])[..|rs|] == rs;
      assert ResponsesIn(EventsIn(x.events, id))(event) == LastResponse(rs, id, event);
    }
  }

  lemma CacheNext(x: Index, rs: seq<Request>, r: Request, id: string)
    requires CacheAt(x.cache, rs, id)
    ensures CacheAt(AddRequest(x, r).cache, rs + [r], id)
  {
    CachePush(rs, r, id, rs + [r]);
    AnyReportsPush(rs, r, id);
  }

  lemma PairsNext(x: Index, rs: seq<Request>, r: Request, id: string)
    requires PairAt(x.tokens, id) == (InputOf(rs, id), OutputOf(rs, id))
    requires PairAt(x.retries, id) == (RetriesOf(rs, id), RecoveredOf(rs, id))
    ensures PairAt(AddRequest(x, r).tokens, id) == (InputOf(rs + [r], id), OutputOf(rs + [r], id))
    ensures PairAt(AddRequest(x, r).retries, id) == (RetriesOf(rs + [r], id), RecoveredOf(rs + [r], id))
  {
    TotalsPush(rs, r, id);
  }

  lemma IndexesNext(x: Index, rs: seq<Request>, r: Request, id: string)
    requires IndexesAt(x, rs, id)
    ensures IndexesAt(AddRequest(x, r), rs + [r], id)
  {
    PairsNext(x, rs, r, id);
    ErrorNext(x, rs, r, id);
    CacheNext(x, rs, r, id);
    EventsNext(x, rs, r, id);
  }

  method IndexRequests(rs: seq<Request>) returns (x: Index)
    ensures Indexes(x, rs)
  {
    x := Index(map[], map[], map[], map[], map[]);
    var i := 0;
    while i < |rs|
      invariant i <= |rs| && Indexes(x, rs[..i])
    {
      assert rs[..i + 1] == rs[..i] + [rs[i]];
      var next, seen := AddRequest(x, rs[i]), rs[..i + 1];
      forall id ensures IndexesAt(next, seen, id) {
        IndexesNext(x, rs[..i], rs[i], id);
      }
      x := next;
      i := i + 1;
    }
    assert rs[..i] == rs;
  }

  lemma IndexedTotals(x: Index, rs: seq<Request>, id: string)
    requires Indexes(x, rs)
    ensures PairAt(x.tokens, id) == (InputOf(rs, id), OutputOf(rs, id))
    ensures PairAt(x.retries, id) == (RetriesOf(rs, id), RecoveredOf(rs, id))
    ensures ErrorAt(x.errors, rs, id) && CacheAt(x.cache, rs, id)
  {
    assert IndexesAt(x, rs, id);
  }

  class Session {
    const id: string
    const events: int
    const eventsCompleted: int
    const userFacing: seq<string>      // the events whose output a user sees
    const dispatch: Option<real>       // when the session was dispatched
    var totalInput: Option<nat>
    var totalOutput: Option<nat>
    var totalCached: Option<nat>
    var totalCacheable: Option<nat>
    var retries: nat
    var recovered: nat
    var error: Option<Error>
    var success: Option<bool>
    var tfut: Option<real>
    var tfutMissing: Option<string>

    constructor (id: string, events: int, eventsCompleted: int, userFacing: seq<string>, dispatch: Option<real>, error: Option<Error>)
      ensures this.id == id && this.events == events && this.eventsCompleted == eventsCompleted
      ensures this.userFacing == userFacing && this.dispatch == dispatch
      ensures this.error == error && success == None && tfut == None && tfutMissing == None
    {
      this.id, this.events, this.eventsCompleted, this.error := id, events, eventsCompleted, error;
      this.userFacing, this.dispatch, tfut, tfutMissing := userFacing, dispatch, None, None;
      totalInput, totalOutput, totalCached, totalCacheable, retries, recovered, success := None, None, None, None, 0, 0, None;
    }

    /** The session carries the totals of its requests, and an error of its own before one of theirs. */
    ghost predicate Enriched(rs: seq<Request>, own: Option<Error>)
      reads this
    {
      && totalInput == Some(InputOf(rs, id)) && totalOutput == Some(OutputOf(rs, id))
      && totalCached == (if AnyReports(rs, id) then Some(CacheOf(rs, id).0) else None)
      && totalCacheable == (if AnyReports(rs, id) then Some(CacheOf(rs, id).1) else None)
      && retries == RetriesOf(rs, id) && recovered == RecoveredOf(rs, id)
      && error == (if own.Some? then own else FirstErrorOf(rs, id))
      && success == Some(eventsCompleted == events && error.None?)
    }

    /** The session carries its time to the first user token, or why it has none; the other is as it was. */
    ghost predicate Timed(rs: seq<Request>, oldTfut: Option<real>, oldMissing: Option<string>)
      reads this
    {
      || (tfut.Some? && IsTfut(userFacing, dispatch, ResponsesOf(rs, id), At(tfut.value)) && tfutMissing == oldMissing)
      || (tfutMissing.Some? && IsTfut(userFacing, dispatch, ResponsesOf(rs, id), Missing(tfutMissing.value)) && tfut == oldTfut)
    }

    method EnrichTfut(x: Index, ghost rs: seq<Request>)
      requires Indexes(x, rs)
      modifies this`tfut, this`tfutMissing
      ensures Timed(rs, old(tfut), old(tfutMissing))
    {
      assert IndexesAt(x, rs, id);
      var responses := EventsIn(x.events, id);
      var t := ComputeTfut(userFacing, dispatch, responses);
      SameTfut(userFacing, dispatch, ResponsesIn(responses), ResponsesOf(rs, id), t);
      match t
      case At(time) => tfut := Some(time);
      case Missing(reason) => tfutMissing := Some(reason);
    }

    method Enrich(x: Index, ghost rs: seq<Request>)
      requires Indexes(x, rs)
      modifies this
      ensures Enriched(rs, old(error)) && Timed(rs, old(tfut), old(tfutMissing))
    {
      EnrichTotals(x, rs);
      EnrichTfut(x, rs);
    }

    method EnrichTotals(x: Index, ghost rs: seq<Request>)
      requires Indexes(x, rs)
      modifies this
      ensures Enriched(rs, old(error)) && tfut == old(tfut) && tfutMissing == old(tfutMissing)
    {
      IndexedTotals(x, rs, id);
      var tokens := PairAt(x.tokens, id);
      totalInput, totalOutput := Some(tokens.0), Some(tokens.1);
      totalCached := if id in x.cache then Some(x.cache[id].0) else None;
      totalCacheable := if id in x.cache then Some(x.cache[id].1) else None;
      var retried := PairAt(x.retries, id);
      retries, recovered := retried.0, retried.1;
      if id in x.errors && error.None? {
        error := Some(x.errors[id]);
      }
      success := Some(eventsCompleted == events && error.None?);
    }
  }

  /** Enriches every session in the list from the requests of the run. */
  method EnrichSessions(sessions: seq<Session>, rs: seq<Request>)
    requires forall i, j :: 0 <= i < j < |sessions| ==> sessions[i] != sessions[j]
    modifies set i | 0 <= i < |sessions| :: sessions[i]
    ensures forall i :: 0 <= i < |sessions| ==> sessions[i].Enriched(rs, old(sessions[i].error))
    ensures forall i :: 0 <= i < |sessions| ==> sessions[i].Timed(rs, old(sessions[i].tfut), old(sessions[i].tfutMissing))
  {
    var x := IndexRequests(rs);
    var k := 0;
    while k < |sessions|
      invariant k <= |sessions|
      invariant forall i :: 0 <= i < k ==> sessions[i].Enriched(rs, old(sessions[i].error))
      invariant forall i :: 0 <= i < k ==> sessions[i].Timed(rs, old(sessions[i].tfut), old(sessions[i].tfutMissing))
      invariant forall i :: k <= i < |sessions| ==> sessions[i].error == old(sessions[i].error)
      invariant forall i :: k <= i < |sessions| ==> sessions[i].tfut == old(sessions[i].tfut) && sessions[i].tfutMissing == old(sessions[i].tfutMissing)
    {
      sessions[k].Enrich(x, rs);
      k := k + 1;
    }
  }

  // ---- The summary ----

  /** A session as the summary reads it. */
  datatype Outcome = Outcome(id: string, success: Option<bool>, error: Option<Error>)

  function CountWith(outcomes: seq<Outcome>, success: bool): nat {
    if outcomes == [] then 0
    else CountWith(outcomes[..|outcomes| - 1], success) + (if outcomes[|outcomes| - 1].success == Some(success) then 1 else 0)
  }

  const UNREPORTED := Error("unreported", "session failed with no error recorded")

  /** The failures handed to the error counts: an unexplained one under a label of its own. */
  function FailuresOf(outcomes: seq<Outcome>, parse: string -> string): seq<EC.Occurrence> {
    if outcomes == [] then []
    else
      var last := outcomes[|outcomes| - 1];
      var error := if last.error.Some? then last.error.value else UNREPORTED;
      FailuresOf(outcomes[..|outcomes| - 1], parse)
      + (if last.success == Some(false) then [EC.Occurrence(error.kind, parse(error.text), Some(last.id))] else [])
  }

  function Succeeding(success: bool): Outcome -> int {
    (o: Outcome) => if o.success == Some(success) then 1 else 0
  }

  /** A failed session under the kind of its error, with the parsed text and its own id. */
  function FailureOf(parse: string -> string): Outcome -> seq<EC.Occurrence> {
    (o: Outcome) =>
      if o.success != Some(false) then []
      else if o.error.Some? then [EC.Occurrence(o.error.value.kind, parse(o.error.value.text), Some(o.id))]
      else [EC.Occurrence("unreported", parse("session failed with no error recorded"), Some(o.id))]
  }

  /** The failures are the failed sessions in order, and the outcomes are counted one by one. */
  lemma {:induction false} OutcomesOneByOne(outcomes: seq<Outcome>, parse: string -> string, success: bool)
    ensures CountWith(outcomes, success) == Sum(outcomes, Succeeding(success))
    ensures FailuresOf(outcomes, parse) == Collect(outcomes, FailureOf(parse))
  {
    if outcomes != [] {
      var n := |outcomes| - 1;
      OutcomesOneByOne(outcomes[..n], parse, success);
      assert outcomes == outcomes[..n] + [outcomes[n]];
      SumAppend(outcomes[..n], outcomes[n], Succeeding(success));
      CollectAppend(outcomes[..n], outcomes[n], FailureOf(parse));
    }
  }

  lemma {:induction false} FailuresCounted(outcomes: seq<Outcome>, parse: string -> string)
    requires forall i :: 0 <= i < |outcomes| ==> outcomes[i].success.Some?
    ensures CountWith(outcomes, true) + CountWith(outcomes, false) == |outcomes|
    ensures |FailuresOf(outcomes, parse)| == CountWith(outcomes, false)
  {
    if outcomes != [] {
      var n := |outcomes| - 1;
      FailuresCounted(outcomes[..n], parse);
      assert outcomes[n].success.Some?;
      if outcomes[n].success.value {
        assert outcomes[n].success == Some(true);
      } else {
        assert outcomes[n].success == Some(false);
      }
    }
  }

  datatype Summary = Summary(sessions: nat, succeeded: nat, failed: nat, failures: seq<EC.Group>)

  method SummarizeSessions(outcomes: seq<Outcome>, parse: string -> string, max: int) returns (s: Summary)
    ensures s.sessions == |outcomes| && s.succeeded == CountWith(outcomes, true) && s.failed == CountWith(outcomes, false)
    ensures s.failures == EC.ErrorGroups(FailuresOf(outcomes, parse), max)
  {
    var succeeded, failed, failures, i := 0, 0, [], 0;
    while i < |outcomes|
      invariant i <= |outcomes| && succeeded == CountWith(outcomes[..i], true) && failed == CountWith(outcomes[..i], false)
      invariant failures == FailuresOf(outcomes[..i], parse)
    {
      assert outcomes[..i + 1][..i] == outcomes[..i];
      var o := outcomes[i];
      if o.success == Some(true) {
        succeeded := succeeded + 1;
      }
      if o.success == Some(false) {
        failed := failed + 1;
        var error := if o.error.Some? then o.error.value else UNREPORTED;
        failures := failures + [EC.Occurrence(error.kind, parse(error.text), Some(o.id))];
      }
      i := i + 1;
    }
    assert outcomes[..i] == outcomes;
    var groups := EC.BuildErrorCounts(failures, max);
    s := Summary(|outcomes|, succeeded, failed, groups);
  }

  /** After enrichment every session has succeeded or failed, and the counts of the failure labels add
      up to the failed sessions. */
  lemma SummaryReconciles(outcomes: seq<Outcome>, parse: string -> string, max: int)
    requires forall i :: 0 <= i < |outcomes| ==> outcomes[i].success.Some?
    ensures CountWith(outcomes, true) + CountWith(outcomes, false) == |outcomes|
    ensures EC.TotalCount(EC.ErrorGroups(FailuresOf(outcomes, parse), max)) == CountWith(outcomes, false)
  {
    FailuresCounted(outcomes, parse);
    EC.GroupsReconcile(FailuresOf(outcomes, parse), max);
  }
}
