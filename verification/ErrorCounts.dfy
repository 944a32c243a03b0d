/** Errors grouped by label: counts, a capped sample of messages, and who reported them. */
module ErrorCounts {
  import opened Common

  /** An error with its message parsed and its label assigned. */
  datatype Occurrence = Occurrence(tag: string, message: string, id: Option<string>)

  datatype Message = Message(text: string, ids: seq<string>)
  datatype Group = Group(tag: string, count: nat, messages: seq<Message>)

  // ---- The declarative side ----

  function Count(errors: seq<Occurrence>, tag: string): nat {
    if errors == [] then 0
    else Count(errors[..|errors| - 1], tag) + (if errors[|errors| - 1].tag == tag then 1 else 0)
  }

  /** The messages of a label, as they came. */
  function MessagesOf(errors: seq<Occurrence>, tag: string): seq<string> {
    if errors == [] then []
    else
      var last := errors[|errors| - 1];
      MessagesOf(errors[..|errors| - 1], tag) + (if last.tag == tag then [last.message] else [])
  }

  /** The ids given with a message of a label, as they came. */
  function IdsOf(errors: seq<Occurrence>, tag: string, text: string): seq<string> {
    if errors == [] then []
    else
      var last := errors[|errors| - 1];
      IdsOf(errors[..|errors| - 1], tag, text)
      + (if last.tag == tag && last.message == text && last.id.Some? then [last.id.value] else [])
  }

  function LabelsOf(errors: seq<Occurrence>): seq<string> {
    if errors == [] then [] else LabelsOf(errors[..|errors| - 1]) + [errors[|errors| - 1].tag]
  }

  /** The different elements, each where it first occurs. */
  function Distinct(xs: seq<string>): seq<string> {
    if xs == [] then []
    else
      var front := Distinct(xs[..|xs| - 1]);
      if xs[|xs| - 1] in front then front else front + [xs[|xs| - 1]]
  }

  function Capped(xs: seq<string>, max: int): seq<string> {
    if max <= 0 then [] else if |xs| <= max then xs else xs[..max]
  }

  function KeptMessages(errors: seq<Occurrence>, tag: string, max: int): seq<string> {
    Capped(Distinct(MessagesOf(errors, tag)), max)
  }

  function WithIds(errors: seq<Occurrence>, tag: string, texts: seq<string>): seq<Message> {
    if texts == [] then []
    else
      var n := |texts| - 1;
      WithIds(errors, tag, texts[..n]) + [Message(texts[n], IdsOf(errors, tag, texts[n]))]
  }

  function GroupOf(errors: seq<Occurrence>, tag: string, max: int): Group {
    Group(tag, Count(errors, tag), WithIds(errors, tag, KeptMessages(errors, tag, max)))
  }

  /** How often each label occurs. */
  function CountIn(errors: seq<Occurrence>): string -> nat {
    tag => Count(errors, tag)
  }

  /** Inserts a label behind all that rank at least as high. */
  function InsertByRank(labels: seq<string>, tag: string, rank: string -> nat): seq<string> {
    if labels == [] || rank(labels[|labels| - 1]) >= rank(tag) then labels + [tag]
    else InsertByRank(labels[..|labels| - 1], tag, rank) + [labels[|labels| - 1]]
  }

  /** A stable sort, highest rank first. */
  function ByRank(labels: seq<string>, rank: string -> nat): seq<string> {
    if labels == [] then [] else InsertByRank(ByRank(labels[..|labels| - 1], rank), labels[|labels| - 1], rank)
  }

  function Groups(labels: seq<string>, errors: seq<Occurrence>, max: int): seq<Group> {
    if labels == [] then []
    else Groups(labels[..|labels| - 1], errors, max) + [GroupOf(errors, labels[|labels| - 1], max)]
  }

  /** The declarative meaning: a group for each label, by descending count, then by first occurrence. */
  function ErrorGroups(errors: seq<Occurrence>, max: int): seq<Group> {
    Groups(ByRank(Distinct(LabelsOf(errors)), CountIn(errors)), errors, max)
  }

  // ---- Facts about it ----

  lemma {:induction false} DistinctIsSet(xs: seq<string>)
    ensures forall x :: x in Distinct(xs) <==> x in xs
    ensures forall i, j :: 0 <= i < j < |Distinct(xs)| ==> Distinct(xs)[i] != Distinct(xs)[j]
  {
    if xs != [] {
      DistinctIsSet(xs[..|xs| - 1]);
      assert forall x :: x in xs <==> x in xs[..|xs| - 1] || x == xs[|xs| - 1];
    }
  }

  lemma {:induction false} CountZero(errors: seq<Occurrence>, tag: string)
    ensures Count(errors, tag) == 0 <==> tag !in LabelsOf(errors)
    ensures tag !in LabelsOf(errors) ==> MessagesOf(errors, tag) == []
  {
    if errors != [] {
      CountZero(errors[..|errors| - 1], tag);
    }
  }

  lemma {:induction false} NoIdsBefore(errors: seq<Occurrence>, tag: string, text: string)
    requires text !in MessagesOf(errors, tag)
    ensures IdsOf(errors, tag, text) == []
  {
    if errors != [] {
      NoIdsBefore(errors[..|errors| - 1], tag, text);
    }
  }

  function CountsOf(labels: seq<string>, errors: seq<Occurrence>): nat {
    if labels == [] then 0 else CountsOf(labels[..|labels| - 1], errors) + Count(errors, labels[|labels| - 1])
  }

  lemma {:induction false} CountsAfterOne(labels: seq<string>, errors: seq<Occurrence>, e: Occurrence)
    requires forall i, j :: 0 <= i < j < |labels| ==> labels[i] != labels[j]
    ensures CountsOf(labels, errors + [e]) == CountsOf(labels, errors) + (if e.tag in labels then 1 else 0)
  {
    assert (errors + [e])[..|errors|] == errors;
    if labels != [] {
      var n := |labels| - 1;
      CountsAfterOne(labels[..n], errors, e);
      assert e.tag in labels <==> e.tag in labels[..n] || e.tag == labels[n];
    }
  }

  /** The counts of all labels add up to the number of errors. */
  lemma {:induction false} CountsAddUp(errors: seq<Occurrence>)
    ensures CountsOf(Distinct(LabelsOf(errors)), errors) == |errors|
  {
    if errors != [] {
      var n := |errors| - 1;
      var front, e := errors[..n], errors[n];
      CountsAddUp(front);
      var labels := Distinct(LabelsOf(front));
      DistinctIsSet(LabelsOf(front));
      assert errors == front + [e];
      CountsAfterOne(labels, front, e);
      if e.tag !in labels {
        CountZero(front, e.tag);
        assert (labels + [e.tag])[..|labels|] == labels;
        assert Count(errors, e.tag) == 1;
      }
    }
  }

  predicate Descending(labels: seq<string>, rank: string -> nat) {
    forall i, j :: 0 <= i < j < |labels| ==> rank(labels[i]) >= rank(labels[j])
  }

  function WithRank(labels: seq<string>, rank: string -> nat, c: nat): seq<string> {
    if labels == [] then []
    else
      var n := |labels| - 1;
      WithRank(labels[..n], rank, c) + (if rank(labels[n]) == c then [labels[n]] else [])
  }

  lemma WithRankPush(labels: seq<string>, tag: string, rank: string -> nat, c: nat)
    ensures WithRank(labels + [tag], rank, c) == WithRank(labels, rank, c) + (if rank(tag) == c then [tag] else [])
  {
    assert (labels + [tag])[..|labels|] == labels;
  }

  lemma {:induction false} InsertKeepsAll(labels: seq<string>, tag: string, rank: string -> nat)
    ensures multiset(InsertByRank(labels, tag, rank)) == multiset(labels) + multiset{tag}
    ensures |InsertByRank(labels, tag, rank)| == |labels| + 1
  {
    if labels != [] && rank(labels[|labels| - 1]) < rank(tag) {
      var n := |labels| - 1;
      InsertKeepsAll(labels[..n], tag, rank);
      assert labels == labels[..n] + [labels[n]];
    }
  }

  lemma {:induction false} InsertDescends(labels: seq<string>, tag: string, rank: string -> nat)
    requires Descending(labels, rank)
    ensures Descending(InsertByRank(labels, tag, rank), rank)
  {
    if labels != [] && rank(labels[|labels| - 1]) < rank(tag) {
      var n := |labels| - 1;
      var rest := InsertByRank(labels[..n], tag, rank);
      InsertDescends(labels[..n], tag, rank);
      InsertAddsOnly(labels[..n], tag, rank);
      forall i | 0 <= i < |rest| ensures rank(rest[i]) >= rank(labels[n]) {
        assert rest[i] in rest;
      }
      assert InsertByRank(labels, tag, rank) == rest + [labels[n]];
    }
  }

  lemma {:induction false} InsertAddsOnly(labels: seq<string>, tag: string, rank: string -> nat)
    ensures forall l :: l in InsertByRank(labels, tag, rank) ==> l in labels || l == tag
  {
    if labels != [] && rank(labels[|labels| - 1]) < rank(tag) {
      InsertAddsOnly(labels[..|labels| - 1], tag, rank);
    }
  }

  lemma {:induction false} InsertIsStable(labels: seq<string>, tag: string, rank: string -> nat, c: nat)
    ensures WithRank(InsertByRank(labels, tag, rank), rank, c) == WithRank(labels, rank, c) + (if rank(tag) == c then [tag] else [])
  {
    if labels == [] || rank(labels[|labels| - 1]) >= rank(tag) {
      WithRankPush(labels, tag, rank, c);
    } else {
      var n := |labels| - 1;
      InsertIsStable(labels[..n], tag, rank, c);
      WithRankPush(InsertByRank(labels[..n], tag, rank), labels[n], rank, c);
    }
  }

  /** The sort keeps every label, puts higher ranks first, and leaves equal ranks in order. */
  lemma {:induction false} ByRankSorts(labels: seq<string>, rank: string -> nat)
    ensures Descending(ByRank(labels, rank), rank)
    ensures multiset(ByRank(labels, rank)) == multiset(labels)
    ensures forall c: nat :: WithRank(ByRank(labels, rank), rank, c) == WithRank(labels, rank, c)
  {
    if labels != [] {
      var n := |labels| - 1;
      ByRankSorts(labels[..n], rank);
      InsertDescends(ByRank(labels[..n], rank), labels[n], rank);
      InsertKeepsAll(ByRank(labels[..n], rank), labels[n], rank);
      assert labels == labels[..n] + [labels[n]];
      forall c: nat ensures WithRank(ByRank(labels, rank), rank, c) == WithRank(labels, rank, c) {
        InsertIsStable(ByRank(labels[..n], rank), labels[n], rank, c);
      }
    }
  }

  method SortLabels(order: seq<string>, counts: map<string, nat>, ghost rank: string -> nat) returns (sorted: seq<string>)
    requires forall tag :: tag in order ==> tag in counts && counts[tag] == rank(tag)
    ensures sorted == ByRank(order, rank)
  {
    sorted := [];
    var i := 0;
    while i < |order|
      invariant i <= |order| && sorted == ByRank(order[..i], rank)
    {
      assert order[..i + 1][..i] == order[..i];
      SortedFrom(order, i, rank);
      sorted := InsertLabel(sorted, order[i], counts, rank);
      i := i + 1;
    }
    assert order[..i] == order;
  }

  lemma SortedFrom(order: seq<string>, i: nat, rank: string -> nat)
    requires i <= |order|
    ensures forall tag :: tag in ByRank(order[..i], rank) ==> tag in order
  {
    ByRankSorts(order[..i], rank);
    forall tag | tag in ByRank(order[..i], rank) ensures tag in order {
      assert tag in multiset(ByRank(order[..i], rank));
      assert tag in order[..i];
    }
  }

  method InsertLabel(labels: seq<string>, tag: string, counts: map<string, nat>, ghost rank: string -> nat) returns (longer: seq<string>)
    requires forall t :: t in labels || t == tag ==> t in counts && counts[t] == rank(t)
    ensures longer == InsertByRank(labels, tag, rank)
  {
    var j := |labels|;
    assert labels[..j] == labels;
    while j > 0 && counts[labels[j - 1]] < counts[tag]
      invariant 0 <= j <= |labels|
      invariant InsertByRank(labels, tag, rank) == InsertByRank(labels[..j], tag, rank) + labels[j..]
    {
      assert labels[..j][..j - 1] == labels[..j - 1];
      assert [labels[j - 1]] + labels[j..] == labels[j - 1..];
      j := j - 1;
    }
    longer := labels[..j] + [tag] + labels[j..];
  }

  // ---- The one-pass fold ----

  /** The messages merged under one label: the kept texts in order, and the ids of each. */
  datatype Merged = Merged(order: seq<string>, ids: map<string, seq<string>>)

  /** What has been gathered for a label after some errors. */
  ghost predicate MergedOf(m: Merged, errors: seq<Occurrence>, tag: string, max: int) {
    && m.order == KeptMessages(errors, tag, max)
    && (forall t :: t in m.ids <==> t in m.order)
    && (forall t :: t in m.order ==> m.ids[t] == IdsOf(errors, tag, t))
  }

  function MergedAt(messages: map<string, Merged>, tag: string): Merged {
    if tag in messages then messages[tag] else Merged([], map[])
  }

  function AddMessage(m: Merged, e: Occurrence, max: int): Merged {
    if e.message in m.ids then
      if e.id.Some? then m.(ids := m.ids[e.message := m.ids[e.message] + [e.id.value]]) else m
    else if |m.order| < max then
      Merged(m.order + [e.message], m.ids[e.message := if e.id.Some? then [e.id.value] else []])
    else m
  }

  lemma MergedOther(m: Merged, errors: seq<Occurrence>, e: Occurrence, tag: string, max: int)
    requires MergedOf(m, errors, tag, max) && e.tag != tag
    ensures MergedOf(m, errors + [e], tag, max)
  {
    assert (errors + [e])[..|errors|] == errors;
    assert MessagesOf(errors + [e], tag) == MessagesOf(errors, tag);
    assert forall t :: IdsOf(errors + [e], tag, t) == IdsOf(errors, tag, t);
  }

  /** The cap only matters when a new message comes in: a text beyond it is never kept later on. */
  lemma CapGrows(texts: seq<string>, text: string, max: int)
    ensures var before, after := Capped(Distinct(texts), max), Capped(Distinct(texts + [text]), max);
            && after == (if text in before then before else if |before| < max then before + [text] else before)
            && (text !in before && |before| < max ==> text !in texts)
  {
    assert (texts + [text])[..|texts|] == texts;
    DistinctIsSet(texts);
    var d := Distinct(texts);
    if max > 0 && |d| > max {
      assert Distinct(texts + [text]) == d || Distinct(texts + [text]) == d + [text];
      assert (d + [text])[..max] == d[..max];
    } else if max > 0 && |d| == max {
      assert (d + [text])[..max] == d;
    }
  }

  lemma ErrorsPush(errors: seq<Occurrence>, e: Occurrence, text: string)
    ensures MessagesOf(errors + [e], e.tag) == MessagesOf(errors, e.tag) + [e.message]
    ensures IdsOf(errors + [e], e.tag, text)
            == IdsOf(errors, e.tag, text) + (if e.message == text && e.id.Some? then [e.id.value] else [])
  {
    assert (errors + [e])[..|errors|] == errors;
  }

  lemma MergedNext(m: Merged, errors: seq<Occurrence>, e: Occurrence, max: int)
    requires MergedOf(m, errors, e.tag, max)
    ensures MergedOf(AddMessage(m, e, max), errors + [e], e.tag, max)
  {
    MergedOrder(m, errors, e, max);
    var m' := AddMessage(m, e, max);
    forall t | t in m'.order ensures t in m'.ids && m'.ids[t] == IdsOf(errors + [e], e.tag, t) {
      MergedIds(m, errors, e, max, t);
    }
  }

  lemma MergedOrder(m: Merged, errors: seq<Occurrence>, e: Occurrence, max: int)
    requires MergedOf(m, errors, e.tag, max)
    ensures AddMessage(m, e, max).order == KeptMessages(errors + [e], e.tag, max)
    ensures e.message !in m.order && |m.order| < max ==> e.message !in MessagesOf(errors, e.tag)
  {
    ErrorsPush(errors, e, e.message);
    CapGrows(MessagesOf(errors, e.tag), e.message, max);
  }

  lemma MergedIds(m: Merged, errors: seq<Occurrence>, e: Occurrence, max: int, t: string)
    requires MergedOf(m, errors, e.tag, max) && t in AddMessage(m, e, max).order
    ensures t in AddMessage(m, e, max).ids && AddMessage(m, e, max).ids[t] == IdsOf(errors + [e], e.tag, t)
  {
    MergedOrder(m, errors, e, max);
    ErrorsPush(errors, e, t);
    if e.message !in m.order && |m.order| < max {
      NoIdsBefore(errors, e.tag, e.message);
    }
  }

  /** Where the fold stands: the labels in order of first occurrence, their counts, their messages. */
  ghost predicate Folded(order: seq<string>, counts: map<string, nat>, messages: map<string, Merged>, errors: seq<Occurrence>, max: int) {
    && order == Distinct(LabelsOf(errors))
    && (forall l :: l in counts <==> l in order)
    && (forall l :: l in counts ==> counts[l] == Count(errors, l))
    && (forall l :: MergedOf(MergedAt(messages, l), errors, l, max))
  }

  lemma FoldCounts(order: seq<string>, counts: map<string, nat>, errors: seq<Occurrence>, e: Occurrence,
                   order': seq<string>, counts': map<string, nat>)
    requires order == Distinct(LabelsOf(errors)) && (forall l :: l in counts <==> l in order)
    requires forall l :: l in counts ==> counts[l] == Count(errors, l)
    requires order' == if e.tag in counts then order else order + [e.tag]
    requires counts' == counts[e.tag := (if e.tag in counts then counts[e.tag] else 0) + 1]
    ensures order' == Distinct(LabelsOf(errors + [e])) && (forall l :: l in counts' <==> l in order')
    ensures forall l :: l in counts' ==> counts'[l] == Count(errors + [e], l)
  {
    assert (errors + [e])[..|errors|] == errors;
    assert LabelsOf(errors + [e])[..|LabelsOf(errors)|] == LabelsOf(errors);
    DistinctIsSet(LabelsOf(errors));
    CountZero(errors, e.tag);
  }

  lemma FoldMessages(messages: map<string, Merged>, errors: seq<Occurrence>, e: Occurrence, max: int, messages': map<string, Merged>)
    requires forall l :: MergedOf(MergedAt(messages, l), errors, l, max)
    requires messages' == messages[e.tag := AddMessage(MergedAt(messages, e.tag), e, max)]
    ensures forall l :: MergedOf(MergedAt(messages', l), errors + [e], l, max)
  {
    forall l ensures MergedOf(MergedAt(messages', l), errors + [e], l, max) {
      if l == e.tag {
        MergedNext(MergedAt(messages, l), errors, e, max);
      } else {
        MergedOther(MergedAt(messages, l), errors, e, l, max);
      }
    }
  }

  method BuildErrorCounts(errors: seq<Occurrence>, max: int) returns (groups: seq<Group>)
    ensures groups == ErrorGroups(errors, max)
  {
    var order, counts, messages := Fold(errors, max);
    FoldedIsGathered(order, counts, messages, errors, max);
    groups := Render(order, counts, messages, errors, max);
  }

  lemma FoldedAtStart(max: int)
    ensures Folded([], map[], map[], [], max)
  {
  }

  method Fold(errors: seq<Occurrence>, max: int) returns (order: seq<string>, counts: map<string, nat>, messages: map<string, Merged>)
    ensures Folded(order, counts, messages, errors, max)
  {
    order, counts, messages := [], map[], map[];
    ghost var seen := [];
    var i := 0;
    FoldedAtStart(max);
    while i < |errors|
      invariant i <= |errors| && seen == errors[..i] && Folded(order, counts, messages, seen, max)
    {
      var e := errors[i];
      FoldedNext(order, counts, messages, seen, e, max, seen + [e]);
      seen := seen + [e];
      order, counts, messages := NextOrder(order, counts, e.tag), NextCounts(counts, e.tag), NextMessages(messages, e, max);
      i := i + 1;
    }
    assert seen == errors;
  }

  function NextOrder(order: seq<string>, counts: map<string, nat>, tag: string): seq<string> {
    if tag in counts then order else order + [tag]
  }

  function NextCounts(counts: map<string, nat>, tag: string): map<string, nat> {
    counts[tag := (if tag in counts then counts[tag] else 0) + 1]
  }

  function NextMessages(messages: map<string, Merged>, e: Occurrence, max: int): map<string, Merged> {
    messages[e.tag := AddMessage(MergedAt(messages, e.tag), e, max)]
  }

  lemma FoldedNext(order: seq<string>, counts: map<string, nat>, messages: map<string, Merged>, seen: seq<Occurrence>, e: Occurrence, max: int,
                   more: seq<Occurrence>)
    requires Folded(order, counts, messages, seen, max) && more == seen + [e]
    ensures Folded(NextOrder(order, counts, e.tag), NextCounts(counts, e.tag), NextMessages(messages, e, max), more, max)
  {
    FoldCounts(order, counts, seen, e, NextOrder(order, counts, e.tag), NextCounts(counts, e.tag));
    FoldMessages(messages, seen, e, max, NextMessages(messages, e, max));
  }

  lemma FoldedIsGathered(order: seq<string>, counts: map<string, nat>, messages: map<string, Merged>, errors: seq<Occurrence>, max: int)
    requires Folded(order, counts, messages, errors, max)
    ensures forall tag :: tag in order ==> Gathered(counts, messages, errors, max, tag)
  {
  }

  /** Everything about a label is gathered. */
  ghost predicate Gathered(counts: map<string, nat>, messages: map<string, Merged>, errors: seq<Occurrence>, max: int, tag: string) {
    tag in counts && counts[tag] == Count(errors, tag) && MergedOf(MergedAt(messages, tag), errors, tag, max)
  }

  method Render(order: seq<string>, counts: map<string, nat>, messages: map<string, Merged>, ghost errors: seq<Occurrence>, max: int)
    returns (groups: seq<Group>)
    requires forall tag :: tag in order ==> Gathered(counts, messages, errors, max, tag)
    ensures groups == Groups(ByRank(order, CountIn(errors)), errors, max)
  {
    var sorted := SortLabels(order, counts, CountIn(errors));
    SortedFrom(order, |order|, CountIn(errors));
    assert order[..|order|] == order;
    groups := RenderAll(sorted, counts, messages, errors, max);
  }

  method RenderAll(sorted: seq<string>, counts: map<string, nat>, messages: map<string, Merged>, ghost errors: seq<Occurrence>, max: int)
    returns (groups: seq<Group>)
    requires forall tag :: tag in sorted ==> Gathered(counts, messages, errors, max, tag)
    ensures groups == Groups(sorted, errors, max)
  {
    groups := [];
    var i := 0;
    while i < |sorted|
      invariant i <= |sorted| && groups == Groups(sorted[..i], errors, max)
    {
      assert sorted[..i + 1][..i] == sorted[..i];
      var group := RenderGroup(sorted[i], counts, messages, errors, max);
      groups := groups + [group];
      i := i + 1;
    }
    assert sorted[..i] == sorted;
  }

  method RenderGroup(tag: string, counts: map<string, nat>, messages: map<string, Merged>, ghost errors: seq<Occurrence>, max: int)
    returns (group: Group)
    requires Gathered(counts, messages, errors, max, tag)
    ensures group == GroupOf(errors, tag, max)
  {
    var entries := RenderMessages(MergedAt(messages, tag), errors, tag, max);
    group := Group(tag, counts[tag], entries);
  }

  method RenderMessages(m: Merged, ghost errors: seq<Occurrence>, tag: string, max: int) returns (entries: seq<Message>)
    requires MergedOf(m, errors, tag, max)
    ensures entries == WithIds(errors, tag, KeptMessages(errors, tag, max))
  {
    entries := [];
    var i := 0;
    while i < |m.order|
      invariant i <= |m.order| && entries == WithIds(errors, tag, m.order[..i])
    {
      assert m.order[..i + 1][..i] == m.order[..i];
      entries := entries + [Message(m.order[i], m.ids[m.order[i]])];
      i := i + 1;
    }
    assert m.order[..i] == m.order;
  }

  // ---- What a reader of the groups may rely on ----

  function TotalCount(groups: seq<Group>): nat {
    if groups == [] then 0 else TotalCount(groups[..|groups| - 1]) + groups[|groups| - 1].count
  }

  lemma {:induction false} GroupsTotal(labels: seq<string>, errors: seq<Occurrence>, max: int)
    ensures TotalCount(Groups(labels, errors, max)) == CountsOf(labels, errors)
  {
    if labels != [] {
      var n := |labels| - 1;
      GroupsTotal(labels[..n], errors, max);
      assert (Groups(labels[..n], errors, max) + [GroupOf(errors, labels[n], max)])[..|Groups(labels[..n], errors, max)|]
          == Groups(labels[..n], errors, max);
    }
  }

  lemma CountsPush(labels: seq<string>, tag: string, errors: seq<Occurrence>)
    ensures CountsOf(labels + [tag], errors) == CountsOf(labels, errors) + Count(errors, tag)
  {
    assert (labels + [tag])[..|labels|] == labels;
  }

  lemma {:induction false} InsertKeepsCounts(labels: seq<string>, tag: string, errors: seq<Occurrence>, rank: string -> nat)
    ensures CountsOf(InsertByRank(labels, tag, rank), errors) == CountsOf(labels, errors) + Count(errors, tag)
  {
    if labels == [] || rank(labels[|labels| - 1]) >= rank(tag) {
      CountsPush(labels, tag, errors);
    } else {
      var n := |labels| - 1;
      InsertKeepsCounts(labels[..n], tag, errors, rank);
      CountsPush(InsertByRank(labels[..n], tag, rank), labels[n], errors);
    }
  }

  lemma {:induction false} SortKeepsCounts(labels: seq<string>, errors: seq<Occurrence>, rank: string -> nat)
    ensures CountsOf(ByRank(labels, rank), errors) == CountsOf(labels, errors)
  {
    if labels != [] {
      var n := |labels| - 1;
      SortKeepsCounts(labels[..n], errors, rank);
      InsertKeepsCounts(ByRank(labels[..n], rank), labels[n], errors, rank);
    }
  }

  /** The counts of the groups add up to the errors put in, whatever the cap on messages. */
  lemma GroupsReconcile(errors: seq<Occurrence>, max: int)
    ensures TotalCount(ErrorGroups(errors, max)) == |errors|
  {
    var labels := Distinct(LabelsOf(errors));
    GroupsTotal(ByRank(labels, CountIn(errors)), errors, max);
    SortKeepsCounts(labels, errors, CountIn(errors));
    CountsAddUp(errors);
  }

  /** A label keeps its first different messages, no more than the cap, and drops one only for the cap. */
  lemma KeptMessagesAreTheFirst(errors: seq<Occurrence>, tag: string, max: int, text: string)
    ensures var kept := KeptMessages(errors, tag, max);
            && kept <= Distinct(MessagesOf(errors, tag))
            && (max >= 0 ==> |kept| <= max)
            && (forall i, j :: 0 <= i < j < |kept| ==> kept[i] != kept[j])
            && (text in MessagesOf(errors, tag) && text !in kept ==> |kept| == (if max > 0 then max else 0))
            && (text in kept ==> text in MessagesOf(errors, tag))
  {
    DistinctIsSet(MessagesOf(errors, tag));
  }

  // ---- The groups one by one ----

  function TagIs(tag: string): Occurrence -> int {
    (e: Occurrence) => if e.tag == tag then 1 else 0
  }

  function MessageUnder(tag: string): Occurrence -> seq<string> {
    (e: Occurrence) => if e.tag == tag then [e.message] else []
  }

  function IdWith(tag: string, text: string): Occurrence -> seq<string> {
    (e: Occurrence) => if e.tag == tag && e.message == text && e.id.Some? then [e.id.value] else []
  }

  function TagOf(e: Occurrence): seq<string> {
    [e.tag]
  }

  /** Counts, messages and ids of a label are taken from its own errors, in order. */
  lemma {:induction false} LabelOneByOne(errors: seq<Occurrence>, tag: string, text: string)
    ensures Count(errors, tag) == Sum(errors, TagIs(tag))
    ensures MessagesOf(errors, tag) == Collect(errors, MessageUnder(tag))
    ensures IdsOf(errors, tag, text) == Collect(errors, IdWith(tag, text))
    ensures LabelsOf(errors) == Collect(errors, TagOf)
  {
    if errors != [] {
      var n := |errors| - 1;
      LabelOneByOne(errors[..n], tag, text);
      assert errors == errors[..n] + [errors[n]];
      SumAppend(errors[..n], errors[n], TagIs(tag));
      CollectAppend(errors[..n], errors[n], MessageUnder(tag));
      CollectAppend(errors[..n], errors[n], IdWith(tag, text));
      CollectAppend(errors[..n], errors[n], TagOf);
    }
  }

  /** x occurs in the list, and before y does, if y does at all. */
  ghost predicate OccursBefore(xs: seq<string>, x: string, y: string) {
    exists a :: 0 <= a < |xs| && xs[a] == x && forall b :: 0 <= b <= a ==> xs[b] != y
  }

  lemma OccursBeforeStays(xs: seq<string>, more: seq<string>, x: string, y: string)
    requires xs <= more && OccursBefore(xs, x, y)
    ensures OccursBefore(more, x, y)
  {
    var a :| 0 <= a < |xs| && xs[a] == x && forall b :: 0 <= b <= a ==> xs[b] != y;
    assert more[a] == x && forall b :: 0 <= b <= a ==> more[b] == xs[b];
  }

  /** The different elements stand in order of first occurrence. */
  lemma {:induction false} DistinctInOrder(xs: seq<string>, i: nat, j: nat)
    requires i < j < |Distinct(xs)|
    ensures OccursBefore(xs, Distinct(xs)[i], Distinct(xs)[j])
  {
    var n := |xs| - 1;
    var front := Distinct(xs[..n]);
    if j < |front| {
      DistinctInOrder(xs[..n], i, j);
      OccursBeforeStays(xs[..n], xs, front[i], front[j]);
    } else {
      DistinctIsSet(xs[..n]);
      assert front[i] in xs[..n];
      var a :| 0 <= a < n && xs[a] == front[i];
      assert forall b :: 0 <= b < n ==> xs[b] in xs[..n];
      assert OccursBefore(xs, front[i], xs[n]);
    }
  }

  /** Two labels of one rank keep their order among those of that rank. */
  lemma {:induction false} RankedInOrder(labels: seq<string>, rank: string -> nat, i: nat, j: nat) returns (p: nat, q: nat)
    requires i < j < |labels| && rank(labels[i]) == rank(labels[j])
    ensures var same := WithRank(labels, rank, rank(labels[i]));
            p < q < |same| && same[p] == labels[i] && same[q] == labels[j]
  {
    var n := |labels| - 1;
    var c := rank(labels[i]);
    if j < n {
      p, q := RankedInOrder(labels[..n], rank, i, j);
    } else {
      p := RankedAt(labels[..n], rank, i);
      q := |WithRank(labels[..n], rank, c)|;
    }
  }

  lemma {:induction false} RankedAt(labels: seq<string>, rank: string -> nat, i: nat) returns (p: nat)
    requires i < |labels|
    ensures var same := WithRank(labels, rank, rank(labels[i])); p < |same| && same[p] == labels[i]
  {
    var n := |labels| - 1;
    if i < n {
      p := RankedAt(labels[..n], rank, i);
    } else {
      p := |WithRank(labels[..n], rank, rank(labels[i]))|;
    }
  }

  lemma {:induction false} RankedComeFrom(labels: seq<string>, rank: string -> nat, c: nat, p: nat, q: nat) returns (i: nat, j: nat)
    requires p < q < |WithRank(labels, rank, c)|
    ensures i < j < |labels| && labels[i] == WithRank(labels, rank, c)[p] && labels[j] == WithRank(labels, rank, c)[q]
  {
    var n := |labels| - 1;
    var front := WithRank(labels[..n], rank, c);
    if q < |front| {
      i, j := RankedComeFrom(labels[..n], rank, c, p, q);
    } else {
      i := RankedComesFrom(labels[..n], rank, c, p);
      j := n;
    }
  }

  lemma {:induction false} RankedComesFrom(labels: seq<string>, rank: string -> nat, c: nat, p: nat) returns (i: nat)
    requires p < |WithRank(labels, rank, c)|
    ensures i < |labels| && labels[i] == WithRank(labels, rank, c)[p]
  {
    var n := |labels| - 1;
    if p < |WithRank(labels[..n], rank, c)| {
      i := RankedComesFrom(labels[..n], rank, c, p);
    } else {
      i := n;
    }
  }

  lemma {:induction false} GroupPerLabel(labels: seq<string>, errors: seq<Occurrence>, max: int)
    ensures |Groups(labels, errors, max)| == |labels|
  {
    if labels != [] {
      GroupPerLabel(labels[..|labels| - 1], errors, max);
    }
  }

  lemma GroupsUnfold(labels: seq<string>, errors: seq<Occurrence>, max: int, front: seq<Group>, last: Group)
    requires labels != [] && front == Groups(labels[..|labels| - 1], errors, max) && last == GroupOf(errors, labels[|labels| - 1], max)
    ensures Groups(labels, errors, max) == front + [last]
  {
  }

  lemma {:induction false} GroupAt(labels: seq<string>, errors: seq<Occurrence>, max: int, i: nat)
    requires i < |labels|
    ensures |Groups(labels, errors, max)| == |labels| && Groups(labels, errors, max)[i] == GroupOf(errors, labels[i], max)
  {
    var n := |labels| - 1;
    var front, last := Groups(labels[..n], errors, max), GroupOf(errors, labels[n], max);
    GroupPerLabel(labels[..n], errors, max);
    GroupsUnfold(labels, errors, max, front, last);
    if i < n {
      GroupAt(labels[..n], errors, max, i);
    }
  }

  lemma {:induction false} MessageAt(errors: seq<Occurrence>, tag: string, texts: seq<string>, k: nat)
    requires k < |texts|
    ensures |WithIds(errors, tag, texts)| == |texts| && WithIds(errors, tag, texts)[k] == Message(texts[k], IdsOf(errors, tag, texts[k]))
  {
    var n := |texts| - 1;
    if n > 0 {
      MessageAt(errors, tag, texts[..n], if k < n then k else 0);
    }
  }

  lemma TagsOfGroups(errors: seq<Occurrence>, max: int, i: nat) returns (labels: seq<string>)
    requires i < |ErrorGroups(errors, max)|
    ensures labels == ByRank(Distinct(LabelsOf(errors)), CountIn(errors))
    ensures |ErrorGroups(errors, max)| == |labels| && ErrorGroups(errors, max)[i] == GroupOf(errors, labels[i], max)
  {
    labels := ByRank(Distinct(LabelsOf(errors)), CountIn(errors));
    if labels != [] {
      GroupAt(labels, errors, max, 0);
      GroupAt(labels, errors, max, i);
    }
  }

  /** The messages of a label are its first different ones up to the cap, each with the ids of the errors that brought
      it, both in order of occurrence. */
  ghost predicate MessagesTell(messages: seq<Message>, errors: seq<Occurrence>, tag: string, max: int) {
    var texts := Distinct(Collect(errors, MessageUnder(tag)));
    && |messages| == (if max <= 0 then 0 else if |texts| < max then |texts| else max)
    && forall k :: 0 <= k < |messages| ==> messages[k] == Message(texts[k], Collect(errors, IdWith(tag, texts[k])))
  }

  lemma KeptMessagesTell(errors: seq<Occurrence>, tag: string, max: int, kept: seq<string>, messages: seq<Message>)
    requires kept == KeptMessages(errors, tag, max) && messages == WithIds(errors, tag, kept)
    ensures MessagesTell(messages, errors, tag, max)
  {
    LabelOneByOne(errors, tag, "");
    if kept != [] {
      MessageAt(errors, tag, kept, 0);
    }
    forall k | 0 <= k < |kept| ensures messages[k] == Message(kept[k], Collect(errors, IdWith(tag, kept[k]))) {
      MessageAt(errors, tag, kept, k);
      LabelOneByOne(errors, tag, kept[k]);
    }
  }

  /** A group holds the errors of its label: their number and their messages. */
  lemma GroupHoldsItsErrors(errors: seq<Occurrence>, max: int, i: nat)
    requires i < |ErrorGroups(errors, max)|
    ensures var g := ErrorGroups(errors, max)[i];
            g.count == Sum(errors, TagIs(g.tag)) && MessagesTell(g.messages, errors, g.tag, max)
  {
    var labels := TagsOfGroups(errors, max, i);
    var tag := labels[i];
    var kept := KeptMessages(errors, tag, max);
    LabelOneByOne(errors, tag, "");
    KeptMessagesTell(errors, tag, max, kept, WithIds(errors, tag, kept));
  }

  lemma LabelsOfGroups(errors: seq<Occurrence>, labels: seq<string>)
    requires labels == ByRank(Distinct(LabelsOf(errors)), CountIn(errors))
    ensures forall tag :: tag in labels <==> tag in LabelsOf(errors)
    ensures forall i, j :: 0 <= i < j < |labels| ==> labels[i] != labels[j]
  {
    var distinct := Distinct(LabelsOf(errors));
    DistinctIsSet(LabelsOf(errors));
    ByRankSorts(distinct, CountIn(errors));
    forall tag ensures tag in labels <==> tag in distinct {
      assert tag in labels <==> tag in multiset(labels);
      assert tag in distinct <==> tag in multiset(distinct);
    }
    NoneTwice(distinct, labels);
  }

  lemma NoneTwice(xs: seq<string>, ys: seq<string>)
    requires multiset(xs) == multiset(ys) && forall i, j :: 0 <= i < j < |xs| ==> xs[i] != xs[j]
    ensures forall i, j :: 0 <= i < j < |ys| ==> ys[i] != ys[j]
  {
    forall x ensures multiset(xs)[x] <= 1 {
      AtMostOnce(xs, x);
    }
    forall i, j | 0 <= i < j < |ys| ensures ys[i] != ys[j] {
      assert ys == ys[..i] + [ys[i]] + ys[i + 1..j] + [ys[j]] + ys[j + 1..];
      assert multiset(ys)[ys[i]] <= 1;
    }
  }

  lemma {:induction false} AtMostOnce(xs: seq<string>, x: string)
    requires forall i, j :: 0 <= i < j < |xs| ==> xs[i] != xs[j]
    ensures multiset(xs)[x] <= 1
  {
    if xs != [] {
      var n := |xs| - 1;
      AtMostOnce(xs[..n], x);
      assert xs == xs[..n] + [xs[n]];
      if x == xs[n] {
        assert x !in xs[..n];
        assert x !in multiset(xs[..n]);
      }
    }
  }

  /** There is one group for each label that occurs, larger counts come first, and of equal ones the label that
      occurs first. */
  lemma GroupsAreInOrder(errors: seq<Occurrence>, max: int, i: nat, j: nat)
    requires i < j < |ErrorGroups(errors, max)|
    ensures var gs := ErrorGroups(errors, max);
            && gs[i].tag != gs[j].tag && gs[i].count >= gs[j].count
            && (gs[i].count == gs[j].count ==> OccursBefore(Collect(errors, TagOf), gs[i].tag, gs[j].tag))
  {
    var labels := TagsOfGroups(errors, max, i);
    var same := TagsOfGroups(errors, max, j);
    var distinct, rank := Distinct(LabelsOf(errors)), CountIn(errors);
    LabelsOfGroups(errors, labels);
    ByRankSorts(distinct, rank);
    LabelOneByOne(errors, "", "");
    if rank(labels[i]) == rank(labels[j]) {
      var p, q := RankedInOrder(labels, rank, i, j);
      var a, b := RankedComeFrom(distinct, rank, rank(labels[i]), p, q);
      DistinctInOrder(LabelsOf(errors), a, b);
    }
  }

  lemma EveryLabelHasAGroup(errors: seq<Occurrence>, max: int, tag: string)
    ensures (exists e :: e in errors && e.tag == tag) <==> exists i :: 0 <= i < |ErrorGroups(errors, max)| && ErrorGroups(errors, max)[i].tag == tag
  {
    var labels := ByRank(Distinct(LabelsOf(errors)), CountIn(errors));
    LabelsOfGroups(errors, labels);
    TagsAreLabels(errors, tag);
    if labels != [] {
      GroupAt(labels, errors, max, 0);
    }
    forall i | 0 <= i < |labels| ensures ErrorGroups(errors, max)[i].tag == labels[i] {
      GroupAt(labels, errors, max, i);
    }
    if tag in labels {
      var i :| 0 <= i < |labels| && labels[i] == tag;
      assert ErrorGroups(errors, max)[i].tag == tag;
    }
  }

  lemma {:induction false} TagsAreLabels(errors: seq<Occurrence>, tag: string)
    ensures tag in LabelsOf(errors) <==> exists e :: e in errors && e.tag == tag
  {
    if errors != [] {
      var n := |errors| - 1;
      TagsAreLabels(errors[..n], tag);
      assert errors == errors[..n] + [errors[n]];
      assert errors[n] in errors;
    }
  }
}
