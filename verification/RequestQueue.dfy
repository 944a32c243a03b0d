/** The channels between the main process and the workers. */
module RequestQueue {
  import opened Common

  /** `exact` is false when a channel's leftovers could not be counted. */
  datatype Drained = Drained(removed: nat, exact: bool)

  /** What a drain leaves in one channel, how many items it reports, and whether that is exact. */
  datatype Leftover<T> = Leftover(rest: seq<Option<T>>, removed: nat, exact: bool)

  /** The position of the first marker, or the length when there is none. */
  function FirstMarker<T>(q: seq<Option<T>>): (k: nat)
    ensures k <= |q|
    ensures forall j :: 0 <= j < k ==> q[j].Some?
    ensures k < |q| ==> q[k].None?
  {
    if q == [] || q[0].None? then 0 else 1 + FirstMarker(q[1..])
  }

  /** A drain puts a marker behind the items and reads up to the first marker it meets. `stall` is
      the number of reads after which nothing more arrives in time, if that ever happens; then the
      size of the channel, where the platform knows it, stands in for the items not read. */
  function DrainChannel<T>(q: seq<Option<T>>, stall: Option<nat>, sizeKnown: bool): Leftover<T> {
    var marked := q + [None];
    var k := FirstMarker(marked);
    assert marked[|q|].None?;
    if stall.Some? && stall.value <= k then
      var unread := marked[stall.value..];
      Leftover(unread, stall.value + (if sizeKnown then |unread| - 1 else 0), sizeKnown)
    else
      Leftover(marked[k + 1..], k, true)
  }

  predicate Unmarked<T>(q: seq<Option<T>>) {
    forall j :: 0 <= j < |q| ==> q[j].Some?
  }

  lemma {:induction false} FirstMarkerUnique<T>(q: seq<Option<T>>, k: nat)
    requires k < |q| && q[k].None? && forall j :: 0 <= j < k ==> q[j].Some?
    ensures FirstMarker(q) == k
  {
    if k > 0 {
      assert q[0].Some?;
      FirstMarkerUnique(q[1..], k - 1);
    }
  }

  /** Without a stall, a drain empties the channel, and reports every item in it, exactly when no
      marker was left in it by an earlier drain. */
  lemma DrainEmptiesUnmarkedChannels<T>(q: seq<Option<T>>, stall: Option<nat>, sizeKnown: bool)
    requires stall.None? || stall.value > |q|
    ensures var d := DrainChannel(q, stall, sizeKnown);
            && d.exact
            && (d.rest == [] <==> Unmarked(q))
            && (d.removed == |q| <==> Unmarked(q))
  {
    var marked := q + [None];
    var k := FirstMarker(marked);
    if Unmarked(q) {
      FirstMarkerUnique(marked, |q|);
    } else {
      var j :| 0 <= j < |q| && q[j].None?;
      assert marked[j].None?;
    }
  }

  /** A drain that stalls loses no item: what it read and what stays behind, less the new marker, is
      what the channel held. Where sizes are known it reports all of it as removed. */
  lemma StalledDrainKeepsTheRest<T>(q: seq<Option<T>>, stall: nat, sizeKnown: bool)
    requires Unmarked(q) && stall <= |q|
    ensures var d := DrainChannel(q, Some(stall), sizeKnown);
            && d.rest == q[stall..] + [None]
            && d.removed == (if sizeKnown then |q| else stall)
            && d.exact == sizeKnown
  {
    FirstMarkerUnique(q + [None], |q|);
    assert (q + [None])[stall..] == q[stall..] + [None];
  }

  /** So after a stalled drain, requests of the next stage queue up behind the old marker, and the
      next drain stops at it, however reliable the channel is by then. */
  lemma NextDrainStopsAtTheOldMarker<T>(q: seq<Option<T>>, stall: nat, later: seq<Option<T>>, sizeKnown: bool)
    requires Unmarked(q) && stall <= |q| && Unmarked(later)
    ensures var left := DrainChannel(q, Some(stall), sizeKnown).rest;
            var d := DrainChannel(left + later, None, sizeKnown);
            d.rest == later + [None] && d.removed == |q| - stall && d.exact
  {
    StalledDrainKeepsTheRest(q, stall, sizeKnown);
    var left := q[stall..] + [None];
    var marked := left + later + [None];
    FirstMarkerUnique(marked, |q| - stall);
    assert marked[|q| - stall + 1..] == later + [None];
  }

  function StallOf(stalls: map<nat, nat>, channel: nat): Option<nat> {
    if channel in stalls then Some(stalls[channel]) else None
  }

  /** The drain of a run of channels, as one report. */
  function DrainAll<T>(queues: seq<seq<Option<T>>>, stalls: map<nat, nat>, sizeKnown: bool): Drained {
    if queues == [] then Drained(0, true)
    else
      var n := |queues| - 1;
      var before := DrainAll(queues[..n], stalls, sizeKnown);
      var last := DrainChannel(queues[n], StallOf(stalls, n), sizeKnown);
      Drained(before.removed + last.removed, before.exact && last.exact)
  }

  lemma DrainReads<T>(q: seq<Option<T>>, stall: Option<nat>, sizeKnown: bool, marked: seq<Option<T>>, k: nat)
    requires marked == q + [None] && k == FirstMarker(marked)
    ensures k < |marked|
    ensures var d := DrainChannel(q, stall, sizeKnown);
            if stall.Some? && stall.value <= k
            then d.rest == marked[stall.value..] && d.exact == sizeKnown
                 && d.removed == stall.value + (if sizeKnown then |marked| - stall.value - 1 else 0)
            else d == Leftover(marked[k + 1..], k, true)
  {
    assert marked[|q|].None?;
  }

  lemma DrainAllNext<T>(queues: seq<seq<Option<T>>>, i: nat, stalls: map<nat, nat>, sizeKnown: bool)
    requires i < |queues|
    ensures var before, d := DrainAll(queues[..i], stalls, sizeKnown), DrainChannel(queues[i], StallOf(stalls, i), sizeKnown);
            DrainAll(queues[..i + 1], stalls, sizeKnown) == Drained(before.removed + d.removed, before.exact && d.exact)
  {
    assert queues[..i + 1][..i] == queues[..i];
  }

  class RequestQueue<T> {
    const numChannels: nat
    var queues: seq<seq<Option<T>>>

    ghost predicate Valid()
      reads this
    {
      numChannels > 0 && |queues| == numChannels
    }

    /** No drain has left a marker behind. */
    ghost predicate Clean()
      reads this
      requires Valid()
    {
      forall c :: 0 <= c < numChannels ==> Unmarked(queues[c])
    }

    constructor (numChannels: nat)
      requires numChannels > 0
      ensures Valid() && Clean() && this.numChannels == numChannels
      ensures forall c :: 0 <= c < numChannels ==> queues[c] == []
    {
      this.numChannels := numChannels;
      queues := seq(numChannels, _ => []);
    }

    /** Ids wrap around; -1 is handled by the callers that broadcast. */
    function Channel(id: int): nat
      reads this
      requires Valid()
      ensures Channel(id) < numChannels
    {
      id % numChannels
    }

    method Put(item: T, id: int)
      requires Valid()
      modifies this
      ensures Valid() && (old(Clean()) ==> Clean())
      ensures forall c :: 0 <= c < numChannels ==>
        queues[c] == old(queues[c]) + (if id == -1 || c == id % numChannels then [Some(item)] else [])
    {
      if id == -1 {
        for i := 0 to numChannels
          invariant Valid()
          invariant forall c :: 0 <= c < numChannels ==> queues[c] == old(queues[c]) + (if c < i then [Some(item)] else [])
        {
          queues := queues[i := queues[i] + [Some(item)]];
        }
      } else {
        queues := queues[Channel(id) := queues[Channel(id)] + [Some(item)]];
      }
    }

    /** A non-blocking read. `Some(None)` is a marker, which consumers skip. */
    method Get(id: int) returns (item: Option<Option<T>>)
      requires Valid()
      modifies this
      ensures Valid() && (old(Clean()) ==> Clean())
      ensures var c := id % numChannels; var q := old(queues[c]);
              && item == (if q == [] then None else Some(q[0]))
              && queues == old(queues)[c := if q == [] then q else q[1..]]
    {
      var c := Channel(id);
      if queues[c] == [] {
        return None;
      }
      item := Some(queues[c][0]);
      queues := queues[c := queues[c][1..]];
    }

    method ReplaceChannel(id: int)
      requires Valid()
      modifies this
      ensures Valid() && (old(Clean()) ==> Clean())
      ensures queues == old(queues)[id % numChannels := []]
    {
      queues := queues[Channel(id) := []];
    }

    /** Drains one channel, whose reads time out after `stall` items if at all. */
    method DrainOne(c: nat, stall: Option<nat>, sizeKnown: bool) returns (removed: nat, exact: bool)
      requires Valid() && c < numChannels
      modifies this
      ensures Valid()
      ensures var d := DrainChannel(old(queues[c]), stall, sizeKnown);
              queues == old(queues)[c := d.rest] && removed == d.removed && exact == d.exact
    {
      ghost var before := queues;
      ghost var marked := before[c] + [None];
      assert marked[|before[c]|].None?;
      queues := queues[c := queues[c] + [None]];
      var stalled;
      removed, stalled := ReadToMarker(c, stall, marked);
      exact := true;
      DrainReads(before[c], stall, sizeKnown, marked, FirstMarker(marked));
      if stalled {
        if sizeKnown {
          removed := removed + |queues[c]| - 1;
        } else {
          exact := false;
        }
      }
    }

    /** Reads a channel up to its first marker, or until nothing arrives in time. */
    method ReadToMarker(c: nat, stall: Option<nat>, ghost marked: seq<Option<T>>) returns (taken: nat, stalled: bool)
      requires Valid() && c < numChannels && queues[c] == marked && FirstMarker(marked) < |marked|
      modifies this
      ensures Valid()
      ensures stalled <==> stall.Some? && stall.value <= FirstMarker(marked)
      ensures taken == if stalled then stall.value else FirstMarker(marked)
      ensures queues == old(queues)[c := if stalled then marked[taken..] else marked[taken + 1..]]
    {
      taken, stalled := 0, false;
      ghost var k := FirstMarker(marked);
      while true
        invariant 0 <= taken <= k && !stalled
        invariant stall.Some? ==> taken <= stall.value
        invariant queues == old(queues)[c := marked[taken..]]
        decreases k - taken
      {
        if stall == Some(taken) {
          return taken, true;
        }
        var item := queues[c][0];
        assert marked[taken..][1..] == marked[taken + 1..];
        queues := queues[c := queues[c][1..]];
        if item.None? {
          return;
        }
        taken := taken + 1;
      }
    }

    method DrainEvery(stalls: map<nat, nat>, sizeKnown: bool) returns (result: Drained)
      requires Valid()
      modifies this
      ensures Valid()
      ensures forall c :: 0 <= c < numChannels ==> queues[c] == DrainChannel(old(queues[c]), StallOf(stalls, c), sizeKnown).rest
      ensures result == DrainAll(old(queues), stalls, sizeKnown)
    {
      result := Drained(0, true);
      for i := 0 to numChannels
        invariant Valid()
        invariant result == DrainAll(old(queues)[..i], stalls, sizeKnown)
        invariant forall c :: 0 <= c < i ==> queues[c] == DrainChannel(old(queues[c]), StallOf(stalls, c), sizeKnown).rest
        invariant forall c :: i <= c < numChannels ==> queues[c] == old(queues[c])
      {
        var removed, exact := DrainOne(i, StallOf(stalls, i), sizeKnown);
        DrainAllNext(old(queues), i, stalls, sizeKnown);
        result := Drained(result.removed + removed, result.exact && exact);
      }
      assert old(queues)[..numChannels] == old(queues);
    }

    /** Drains one channel, or all of them for id -1. */
    method Drain(id: int, stalls: map<nat, nat>, sizeKnown: bool) returns (result: Drained)
      requires Valid()
      modifies this
      ensures Valid()
      ensures forall c :: 0 <= c < numChannels ==>
        queues[c] == if id == -1 || c == id % numChannels
                     then DrainChannel(old(queues[c]), StallOf(stalls, c), sizeKnown).rest else old(queues[c])
      ensures id == -1 ==> result == DrainAll(old(queues), stalls, sizeKnown)
      ensures id != -1 ==>
        var d := DrainChannel(old(queues[id % numChannels]), StallOf(stalls, id % numChannels), sizeKnown);
        result == Drained(d.removed, d.exact)
    {
      if id == -1 {
        result := DrainEvery(stalls, sizeKnown);
      } else {
        var c := Channel(id);
        var removed, exact := DrainOne(c, StallOf(stalls, c), sizeKnown);
        result := Drained(removed, exact);
      }
    }
  }

  /** The report of a whole drain, when no channel stalls or carries an old marker, is the number
      of items that were queued, and every channel is empty afterwards. */
  lemma {:induction false} CleanDrainIsExact<T>(queues: seq<seq<Option<T>>>, stalls: map<nat, nat>, sizeKnown: bool)
    requires forall c :: 0 <= c < |queues| ==> Unmarked(queues[c]) && c !in stalls
    ensures DrainAll(queues, stalls, sizeKnown) == Drained(Lengths(queues), true)
    ensures forall c :: 0 <= c < |queues| ==> DrainChannel(queues[c], StallOf(stalls, c), sizeKnown).rest == []
  {
    if queues != [] {
      var n := |queues| - 1;
      CleanDrainIsExact(queues[..n], stalls, sizeKnown);
      DrainEmptiesUnmarkedChannels(queues[n], None, sizeKnown);
      forall c | 0 <= c < n ensures DrainChannel(queues[c], StallOf(stalls, c), sizeKnown).rest == [] {
        assert queues[..n][c] == queues[c];
      }
    }
  }

  /** Nothing arrives in time before the drain has read the whole channel. */
  predicate Stalls<T>(q: seq<Option<T>>, stall: Option<nat>) {
    stall.Some? && stall.value <= |q|
  }

  /** Over channels without old markers: where sizes are known the report is the number of items that were queued,
      whichever channels stall; elsewhere it never exceeds it, and calls itself exact exactly when none does. */
  lemma {:induction false} ReportsWhatWasQueued<T>(queues: seq<seq<Option<T>>>, stalls: map<nat, nat>, sizeKnown: bool)
    requires forall c :: 0 <= c < |queues| ==> Unmarked(queues[c])
    ensures var report := DrainAll(queues, stalls, sizeKnown);
            && (sizeKnown ==> report == Drained(Lengths(queues), true))
            && (!sizeKnown ==> report.removed <= Lengths(queues))
            && (!sizeKnown ==> (report.exact <==> forall c :: 0 <= c < |queues| ==> !Stalls(queues[c], StallOf(stalls, c))))
  {
    if queues != [] {
      var n := |queues| - 1;
      var q, stall := queues[n], StallOf(stalls, n);
      ReportsWhatWasQueued(queues[..n], stalls, sizeKnown);
      if Stalls(q, stall) {
        StalledDrainKeepsTheRest(q, stall.value, sizeKnown);
      } else {
        DrainEmptiesUnmarkedChannels(q, stall, sizeKnown);
      }
      assert forall c :: 0 <= c < n ==> queues[..n][c] == queues[c];
    }
  }

  function Lengths<T>(queues: seq<seq<T>>): nat {
    if queues == [] then 0 else Lengths(queues[..|queues| - 1]) + |queues[|queues| - 1]|
  }
}
