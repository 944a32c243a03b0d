/** The triggers as objects that keep only what they need, and the breaker that feeds them. */
module Breaker {
  import opened CircuitBreaker

  /** Opens when the hit rate over a time window crosses a threshold. */
  class RateOverWindow {
    const size: int
    const threshold: real
    const min: int
    var buf: seq<Sample>
    var latched: bool
    ghost var history: seq<Sample>

    ghost predicate Valid()
      reads this
    {
      buf == Window(history, size) && latched == FiredOn(RateOver(size, threshold, min), history)
    }

    constructor (size: int, threshold: real, min: int)
      ensures Valid() && history == [] && this.size == size && this.threshold == threshold && this.min == min
    {
      this.size, this.threshold, this.min := size, threshold, min;
      buf, latched, history := [], false, [];
    }

    method CountHits() returns (hits: nat)
      ensures hits == Hits(buf)
    {
      hits := 0;
      var i := 0;
      while i < |buf|
        invariant i <= |buf| && hits == Hits(buf[..i])
      {
        assert buf[..i + 1][..i] == buf[..i];
        hits := hits + (if buf[i].hit then 1 else 0);
        i := i + 1;
      }
      assert buf[..i] == buf;
    }

    method Update(s: Sample)
      requires Valid()
      modifies this
      ensures Valid() && history == old(history) + [s]
    {
      history := history + [s];
      assert history[..|history| - 1] == old(history);
      buf := buf + [s];
      var cutoff := s.ts - size;
      while buf != [] && buf[0].ts < cutoff
        invariant DropOld(buf, cutoff) == Window(history, size)
        invariant latched == old(latched) && history == old(history) + [s]
        decreases |buf|
      {
        buf := buf[1..];
      }
      ghost var spec := RateOver(size, threshold, min);
      assert SetsOff(spec, history) == (|buf| >= min && Rate(buf) >= threshold) by {
        assert buf == Window(history, size);
      }
      var total := |buf|;
      if total >= min {
        var hits := CountHits();
        var rate := if total > 0 then hits as real / total as real else 0.0;
        assert rate == Rate(buf);
        if rate >= threshold {
          latched := true;
        }
      }
      FiredPush(spec, old(history), s);
    }

    method Reset()
      modifies this
      ensures Valid() && history == []
    {
      buf, latched, history := [], false, [];
    }
  }

  /** Opens when n hits follow each other. */
  class Consecutive {
    const n: int
    var c: int
    var latched: bool
    ghost var history: seq<Sample>

    ghost predicate Valid()
      reads this
    {
      c == TrailingHits(history) && latched == FiredOn(RunOf(n), history)
    }

    constructor (n: int)
      ensures Valid() && history == [] && this.n == n
    {
      this.n := n;
      c, latched, history := 0, false, [];
    }

    method Update(s: Sample)
      requires Valid()
      modifies this
      ensures Valid() && history == old(history) + [s]
    {
      history := history + [s];
      assert history[..|history| - 1] == old(history);
      c := if s.hit then c + 1 else 0;
      if c >= n {
        latched := true;
      }
      FiredPush(RunOf(n), old(history), s);
    }

    method Reset()
      modifies this
      ensures Valid() && history == []
    {
      c, latched, history := 0, false, [];
    }
  }

  datatype Trigger = OfRate(rate: RateOverWindow) | OfRun(run: Consecutive)
  {
    function Object(): object {
      match this
      case OfRate(rate) => rate
      case OfRun(run) => run
    }

    function Spec(): Spec {
      match this
      case OfRate(rate) => RateOver(rate.size, rate.threshold, rate.min)
      case OfRun(run) => RunOf(run.n)
    }

    /** The trigger is valid and has seen exactly this history. */
    ghost predicate Saw(history: seq<Sample>)
      reads Object()
    {
      match this
      case OfRate(rate) => rate.Valid() && rate.history == history
      case OfRun(run) => run.Valid() && run.history == history
    }

    predicate Fired()
      reads Object()
    {
      match this
      case OfRate(rate) => rate.latched
      case OfRun(run) => run.latched
    }

    method Update(s: Sample, ghost history: seq<Sample>)
      requires Saw(history)
      modifies Object()
      ensures Saw(history + [s])
    {
      match this
      case OfRate(rate) => rate.Update(s);
      case OfRun(run) => run.Update(s);
    }
  }

  function Objects(triggers: seq<Trigger>): set<object> {
    set i | 0 <= i < |triggers| :: triggers[i].Object()
  }

  ghost predicate Distinct(triggers: seq<Trigger>) {
    forall i, j :: 0 <= i < j < |triggers| ==> triggers[i].Object() != triggers[j].Object()
  }

  /** Some of the triggers has fired on the history. */
  ghost predicate FiredAmong(triggers: seq<Trigger>, history: seq<Sample>) {
    exists j :: 0 <= j < |triggers| && FiredOn(triggers[j].Spec(), history)
  }

  lemma FiredAmongNext(triggers: seq<Trigger>, i: nat, history: seq<Sample>)
    requires i < |triggers|
    ensures FiredAmong(triggers[..i + 1], history) <==> FiredAmong(triggers[..i], history) || FiredOn(triggers[i].Spec(), history)
  {
    assert triggers[..i + 1][i] == triggers[i];
    assert forall j :: 0 <= j < i ==> triggers[..i + 1][j] == triggers[..i][j];
  }

  /** Hands a sample to every trigger, and says whether one of them has fired. */
  method UpdateAll(triggers: seq<Trigger>, sample: Sample, ghost history: seq<Sample>) returns (fired: bool)
    requires Distinct(triggers) && forall i :: 0 <= i < |triggers| ==> triggers[i].Saw(history)
    modifies Objects(triggers)
    ensures forall i :: 0 <= i < |triggers| ==> triggers[i].Saw(history + [sample])
    ensures fired <==> FiredAmong(triggers, history + [sample])
  {
    fired := false;
    var i := 0;
    while i < |triggers|
      invariant i <= |triggers|
      invariant forall j :: 0 <= j < i ==> triggers[j].Saw(history + [sample])
      invariant forall j :: i <= j < |triggers| ==> triggers[j].Saw(history)
      invariant fired <==> FiredAmong(triggers[..i], history + [sample])
    {
      assert triggers[i].Object() in Objects(triggers);
      triggers[i].Update(sample, history);
      FiredAmongNext(triggers, i, history + [sample]);
      fired := fired || triggers[i].Fired();
      i := i + 1;
    }
    assert triggers[..i] == triggers;
  }

  /** What a compiled expression makes of a metric. */
  datatype Found = Truthy | Falsy | Raises

  class SimpleBreaker<Metric> {
    const triggers: seq<Trigger>
    const matches: seq<Metric -> Found>
    const rules: seq<Metric -> Found>
    var open: bool
    ghost var matched: seq<Sample>   // every sample fed to the triggers
    ghost var atReset: nat           // how many of them came before the last reset

    /** The breaker is open when, since the last reset, a sample was matched and a trigger had fired by then. */
    ghost predicate Valid()
      reads this, Objects(triggers)
    {
      && Distinct(triggers) && this !in Objects(triggers) && atReset <= |matched|
      && (forall i :: 0 <= i < |triggers| ==> triggers[i].Saw(matched))
      && open == (|matched| > atReset && FiredAmong(triggers, matched))
    }

    constructor (triggers: seq<Trigger>, matches: seq<Metric -> Found>, rules: seq<Metric -> Found>)
      requires Distinct(triggers) && forall i :: 0 <= i < |triggers| ==> triggers[i].Saw([])
      ensures Valid() && matched == [] && !open
      ensures this.triggers == triggers && this.matches == matches && this.rules == rules
    {
      this.triggers, this.matches, this.rules := triggers, matches, rules;
      open, matched, atReset := false, [], 0;
    }

    method Search(exprs: seq<Metric -> Found>, metric: Metric) returns (found: bool)
      ensures found <==> exists i :: 0 <= i < |exprs| && exprs[i](metric) == Truthy
    {
      var i := 0;
      while i < |exprs|
        invariant i <= |exprs| && forall j :: 0 <= j < i ==> exprs[j](metric) != Truthy
      {
        if exprs[i](metric) == Truthy {
          return true;
        }
        i := i + 1;
      }
      found := false;
    }

    ghost predicate Matches(metric: Metric) {
      exists i :: 0 <= i < |matches| && matches[i](metric) == Truthy
    }

    ghost predicate Hit(metric: Metric) {
      rules == [] || exists i :: 0 <= i < |rules| && rules[i](metric) == Truthy
    }

    method Feed(metric: Metric, now: int)
      requires Valid()
      modifies this, Objects(triggers)
      ensures Valid() && atReset == old(atReset)
      ensures matched == if Matches(metric) then old(matched) + [Sample(now, Hit(metric))] else old(matched)
    {
      var found := Search(matches, metric);
      if !found {
        return;
      }
      var hit := rules == [];
      if !hit {
        hit := Search(rules, metric);
      }
      var sample := Sample(now, hit);
      FeedTriggers(sample);
    }

    method FeedTriggers(sample: Sample)
      requires Valid()
      modifies this, Objects(triggers)
      ensures Valid() && atReset == old(atReset) && matched == old(matched) + [sample]
    {
      var fired := UpdateAll(triggers, sample, matched);
      if fired {
        open := true;
      }
      FiredAmongStays(triggers, matched, [sample]);
      matched := matched + [sample];
    }

    method Reset()
      requires Valid()
      modifies this
      ensures Valid() && !open && matched == old(matched) && atReset == |matched|
    {
      open := false;
      atReset := |matched|;
    }
  }

  lemma FiredAmongStays(triggers: seq<Trigger>, history: seq<Sample>, more: seq<Sample>)
    ensures FiredAmong(triggers, history) ==> FiredAmong(triggers, history + more)
  {
    if FiredAmong(triggers, history) {
      var i :| 0 <= i < |triggers| && FiredOn(triggers[i].Spec(), history);
      FiredStays(triggers[i].Spec(), history, more);
    }
  }

  /** A reset breaker reopens on the next matched sample, good or bad, exactly when a trigger has fired
      at any time before, whatever was reset since, or fires on that sample: resetting the breaker does
      not reset its triggers. */
  lemma ResetForgetsNothing(triggers: seq<Trigger>, history: seq<Sample>, s: Sample)
    ensures FiredAmong(triggers, history + [s])
            <==> FiredAmong(triggers, history) || exists i :: 0 <= i < |triggers| && SetsOff(triggers[i].Spec(), history + [s])
  {
    FiredAmongStays(triggers, history, [s]);
    forall i | 0 <= i < |triggers|
      ensures FiredOn(triggers[i].Spec(), history + [s]) <==> FiredOn(triggers[i].Spec(), history) || SetsOff(triggers[i].Spec(), history + [s])
    {
      FiredPush(triggers[i].Spec(), history, s);
    }
  }

  lemma OneHitFires(s: Sample)
    requires s.hit
    ensures FiredOn(RunOf(1), [s])
  {
    FiredPush(RunOf(1), [], s);
    assert [] + [s] == [s];
  }

  /** A breaker that opens at the first hit: after a hit and a reset, a miss opens it again. */
  method AMissReopens() returns (afterHit: bool, afterReset: bool, afterMiss: bool)
    ensures afterHit && !afterReset && afterMiss
  {
    var run := new Consecutive(1);
    var triggers := [OfRun(run)];
    var breaker := new SimpleBreaker<bool>(triggers, [(hit: bool) => Truthy], [(hit: bool) => if hit then Truthy else Falsy]);
    assert forall hit: bool :: breaker.matches[0](hit) == Truthy;
    assert breaker.rules[0](true) == Truthy;
    breaker.Feed(true, 0);
    ghost var first := Sample(0, true);
    assert breaker.matched == [first];
    OneHitFires(first);
    assert triggers[0].Spec() == RunOf(1);
    assert FiredAmong(triggers, [first]);
    afterHit := breaker.open;
    breaker.Reset();
    afterReset := breaker.open;
    breaker.Feed(false, 1);
    FiredAmongStays(triggers, [first], breaker.matched[1..]);
    assert breaker.matched == [first] + breaker.matched[1..];
    afterMiss := breaker.open;
  }
}
