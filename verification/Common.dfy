/** Vocabulary shared by the models: optional values, sums and unions over sequences. */
module Common {

  datatype Option<+T> = None | Some(value: T)

  /** The total of `f` over a sequence. */
  function Sum<T>(xs: seq<T>, f: T -> int): int {
    if xs == [] then 0 else f(xs[0]) + Sum(xs[1..], f)
  }

  lemma {:induction false} SumConcat<T>(xs: seq<T>, ys: seq<T>, f: T -> int)
    ensures Sum(xs + ys, f) == Sum(xs, f) + Sum(ys, f)
  {
    if xs == [] {
      assert xs + ys == ys;
    } else {
      SumConcat(xs[1..], ys, f);
      assert (xs + ys)[1..] == xs[1..] + ys;
    }
  }

  lemma SumSplit<T>(xs: seq<T>, i: nat, f: T -> int)
    requires i < |xs|
    ensures Sum(xs, f) == Sum(xs[..i], f) + f(xs[i]) + Sum(xs[i + 1..], f)
  {
    assert xs == xs[..i] + xs[i..];
    SumConcat(xs[..i], xs[i..], f);
    assert xs[i..][1..] == xs[i + 1..];
  }

  lemma SumUpdate<T>(xs: seq<T>, i: nat, x: T, f: T -> int)
    requires i < |xs|
    ensures Sum(xs[i := x], f) == Sum(xs, f) - f(xs[i]) + f(x)
  {
    SumSplit(xs, i, f);
    SumSplit(xs[i := x], i, f);
    assert xs[i := x][..i] == xs[..i] && xs[i := x][i + 1..] == xs[i + 1..];
  }

  lemma SumRemove<T>(xs: seq<T>, i: nat, f: T -> int)
    requires i < |xs|
    ensures Sum(xs[..i] + xs[i + 1..], f) == Sum(xs, f) - f(xs[i])
  {
    SumSplit(xs, i, f);
    SumConcat(xs[..i], xs[i + 1..], f);
  }

  lemma SumAppend<T>(xs: seq<T>, x: T, f: T -> int)
    ensures Sum(xs + [x], f) == Sum(xs, f) + f(x)
  {
    SumConcat(xs, [x], f);
  }

  lemma {:induction false} SumBounded<T>(xs: seq<T>, f: T -> int, g: T -> int)
    requires forall x :: x in xs ==> f(x) <= g(x)
    ensures Sum(xs, f) <= Sum(xs, g)
  {
    if xs != [] {
      SumBounded(xs[1..], f, g);
    }
  }

  lemma {:induction false} SumPointwise<T, U>(xs: seq<T>, f: T -> int, ys: seq<U>, g: U -> int)
    requires |xs| == |ys| && forall i :: 0 <= i < |xs| ==> f(xs[i]) == g(ys[i])
    ensures Sum(xs, f) == Sum(ys, g)
  {
    if xs != [] {
      SumPointwise(xs[1..], f, ys[1..], g);
    }
  }

  lemma {:induction false} SumBelow<T, U>(xs: seq<T>, f: T -> int, ys: seq<U>, g: U -> int)
    requires |xs| == |ys| && forall i :: 0 <= i < |xs| ==> f(xs[i]) <= g(ys[i])
    ensures Sum(xs, f) <= Sum(ys, g)
  {
    if xs != [] {
      SumBelow(xs[1..], f, ys[1..], g);
    }
  }

  /** For the sum of numbers. */
  function Itself(x: nat): int { x }

  lemma Cancel<U>(a: multiset<U>, b: multiset<U>, c: multiset<U>)
    requires a + c == b + c
    ensures a == b
  {
    forall u ensures a[u] == b[u] {
      assert (a + c)[u] == (b + c)[u];
    }
  }

  /** The union, with multiplicity, of `f` over a sequence. */
  function Gather<T, U>(xs: seq<T>, f: T -> multiset<U>): multiset<U> {
    if xs == [] then multiset{} else f(xs[0]) + Gather(xs[1..], f)
  }

  lemma {:induction false} GatherConcat<T, U>(xs: seq<T>, ys: seq<T>, f: T -> multiset<U>)
    ensures Gather(xs + ys, f) == Gather(xs, f) + Gather(ys, f)
  {
    if xs == [] {
      assert xs + ys == ys;
    } else {
      GatherConcat(xs[1..], ys, f);
      assert (xs + ys)[1..] == xs[1..] + ys;
    }
  }

  lemma GatherSplit<T, U>(xs: seq<T>, i: nat, f: T -> multiset<U>)
    requires i < |xs|
    ensures Gather(xs, f) == Gather(xs[..i], f) + f(xs[i]) + Gather(xs[i + 1..], f)
  {
    assert xs == xs[..i] + xs[i..];
    GatherConcat(xs[..i], xs[i..], f);
    assert xs[i..][1..] == xs[i + 1..];
  }

  lemma GatherUpdate<T, U>(xs: seq<T>, i: nat, x: T, f: T -> multiset<U>)
    requires i < |xs|
    ensures Gather(xs[i := x], f) + f(xs[i]) == Gather(xs, f) + f(x)
  {
    GatherSplit(xs, i, f);
    GatherSplit(xs[i := x], i, f);
    assert xs[i := x][..i] == xs[..i] && xs[i := x][i + 1..] == xs[i + 1..];
  }

  lemma GatherRemove<T, U>(xs: seq<T>, i: nat, f: T -> multiset<U>)
    requires i < |xs|
    ensures Gather(xs[..i] + xs[i + 1..], f) + f(xs[i]) == Gather(xs, f)
  {
    GatherSplit(xs, i, f);
    GatherConcat(xs[..i], xs[i + 1..], f);
  }

  lemma GatherAppend<T, U>(xs: seq<T>, x: T, f: T -> multiset<U>)
    ensures Gather(xs + [x], f) == Gather(xs, f) + f(x)
  {
    GatherConcat(xs, [x], f);
  }

  lemma GatherMember<T, U>(xs: seq<T>, i: nat, f: T -> multiset<U>)
    requires i < |xs|
    ensures f(xs[i]) <= Gather(xs, f)
  {
    GatherSplit(xs, i, f);
  }

  /** A union is empty exactly when every part is. */
  lemma {:induction false} GatherEmpty<T, U>(xs: seq<T>, f: T -> multiset<U>)
    ensures Gather(xs, f) == multiset{} <==> forall i :: 0 <= i < |xs| ==> f(xs[i]) == multiset{}
  {
    if xs != [] {
      GatherEmpty(xs[1..], f);
      if Gather(xs, f) == multiset{} {
        assert f(xs[0]) <= Gather(xs, f) && Gather(xs[1..], f) <= Gather(xs, f);
        assert f(xs[0]) == multiset{} && Gather(xs[1..], f) == multiset{};
        forall i | 0 <= i < |xs| ensures f(xs[i]) == multiset{} {
          if i > 0 { assert xs[i] == xs[1..][i - 1]; }
        }
      } else if forall i :: 0 <= i < |xs| ==> f(xs[i]) == multiset{} {
        forall i | 0 <= i < |xs[1..]| ensures f(xs[1..][i]) == multiset{} {
          assert xs[1..][i] == xs[i + 1];
        }
      }
    }
  }

  method Pick<T>(s: set<T>) returns (x: T)
    requires s != {}
    ensures x in s
  {
    x :| x in s;
  }

  method Least(s: set<int>) returns (least: int)
    requires s != {}
    ensures least in s && forall x :: x in s ==> least <= x
  {
    least := Pick(s);
    var left := s - {least};
    while left != {}
      invariant left <= s && least in s && forall x :: x in s && x !in left ==> least <= x
      decreases left
    {
      var x := Pick(left);
      left := left - {x};
      if x < least {
        least := x;
      }
    }
  }

  /** The pieces of a sequence put together. */
  function Concat<T>(parts: seq<seq<T>>): seq<T> {
    if parts == [] then [] else Concat(parts[..|parts| - 1]) + parts[|parts| - 1]
  }

  lemma ConcatPush<T>(parts: seq<seq<T>>, part: seq<T>)
    ensures Concat(parts + [part]) == Concat(parts) + part
  {
    assert (parts + [part])[..|parts|] == parts;
  }

  /** What each element contributes, put together in order. */
  function Collect<T, U>(xs: seq<T>, f: T -> seq<U>): seq<U> {
    if xs == [] then [] else f(xs[0]) + Collect(xs[1..], f)
  }

  lemma {:induction false} CollectAppend<T, U>(xs: seq<T>, x: T, f: T -> seq<U>)
    ensures Collect(xs + [x], f) == Collect(xs, f) + f(x)
  {
    if xs == [] {
      assert xs + [x] == [x] && Collect([x], f) == f(x) + Collect([], f);
    } else {
      CollectAppend(xs[1..], x, f);
      assert (xs + [x])[1..] == xs[1..] + [x];
      assert f(xs[0]) + (Collect(xs[1..], f) + f(x)) == (f(xs[0]) + Collect(xs[1..], f)) + f(x);
    }
  }

  /** A sequence without the space at its ends. */
  function Strip<T>(s: seq<T>, isSpace: T -> bool): seq<T> {
    if s != [] && isSpace(s[0]) then Strip(s[1..], isSpace)
    else if s != [] && isSpace(s[|s| - 1]) then Strip(s[..|s| - 1], isSpace)
    else s
  }

  predicate AllSpace<T>(s: seq<T>, isSpace: T -> bool) {
    forall i :: 0 <= i < |s| ==> isSpace(s[i])
  }

  /** Stripping takes away white space at both ends, and all of it. */
  lemma {:induction false} StripsBothEnds<T>(s: seq<T>, isSpace: T -> bool) returns (left: seq<T>, right: seq<T>)
    ensures s == left + Strip(s, isSpace) + right && AllSpace(left, isSpace) && AllSpace(right, isSpace)
    ensures Strip(s, isSpace) != [] ==> !isSpace(Strip(s, isSpace)[0]) && !isSpace(Strip(s, isSpace)[|Strip(s, isSpace)| - 1])
    decreases |s|
  {
    left, right := [], [];
    if s != [] && isSpace(s[0]) {
      var l;
      l, right := StripsBothEnds(s[1..], isSpace);
      left := [s[0]] + l;
      FirstInFront(s, l, Strip(s[1..], isSpace), right);
    } else if s != [] && isSpace(s[|s| - 1]) {
      var r;
      left, r := StripsBothEnds(s[..|s| - 1], isSpace);
      right := r + [s[|s| - 1]];
      LastBehind(s, left, Strip(s[..|s| - 1], isSpace), r);
    }
  }

  lemma FirstInFront<T>(s: seq<T>, left: seq<T>, middle: seq<T>, right: seq<T>)
    requires s != [] && s[1..] == left + middle + right
    ensures s == ([s[0]] + left) + middle + right
  {
  }

  lemma LastBehind<T>(s: seq<T>, left: seq<T>, middle: seq<T>, right: seq<T>)
    requires s != [] && s[..|s| - 1] == left + middle + right
    ensures s == left + middle + (right + [s[|s| - 1]])
  {
  }

  function Later(a: real, b: real): real {
    if b > a then b else a
  }

  function Earlier(a: real, b: real): real {
    if b < a then b else a
  }

  /** The elements of a set in ascending order. */
  ghost predicate Ascending(keys: seq<int>, of: set<int>) {
    && (forall j, k :: 0 <= j < k < |keys| ==> keys[j] < keys[k])
    && (forall k :: 0 <= k < |keys| ==> keys[k] in of)
    && (forall i :: i in of ==> i in keys)
  }

  method SortedKeys(s: set<int>) returns (keys: seq<int>)
    ensures Ascending(keys, s)
  {
    keys := [];
    var left := s;
    while left != {}
      invariant left <= s && Ascending(keys, s - left)
      invariant forall k, i :: 0 <= k < |keys| && i in left ==> keys[k] < i
      decreases left
    {
      var least := Least(left);
      left := left - {least};
      keys := keys + [least];
    }
    assert s - left == s;
  }

  /** There is only one such order. */
  lemma {:induction false} AscendingIsUnique(a: seq<int>, b: seq<int>, of: set<int>)
    requires Ascending(a, of) && Ascending(b, of)
    ensures a == b
  {
    if of == {} {
      if a != [] { AscendingHasKeys(a, of); }
      if b != [] { AscendingHasKeys(b, of); }
    } else {
      var x := PickGhost(of);
      assert x in a && x in b;
      var n, m := |a| - 1, |b| - 1;
      assert a[n] in b && b[m] in a;
      assert a[n] == b[m];
      AscendingFront(a, of);
      AscendingFront(b, of);
      AscendingIsUnique(a[..n], b[..m], of - {a[n]});
    }
  }

  lemma AscendingHasKeys(a: seq<int>, of: set<int>)
    requires Ascending(a, of) && a != []
    ensures of != {}
  {
    assert a[0] in of;
  }

  lemma PickGhost<T>(s: set<T>) returns (x: T)
    requires s != {}
    ensures x in s
  {
    x :| x in s;
  }

  lemma AscendingFront(a: seq<int>, of: set<int>)
    requires Ascending(a, of) && a != []
    ensures Ascending(a[..|a| - 1], of - {a[|a| - 1]})
  {
    var n := |a| - 1;
    forall i | i in of - {a[n]} ensures i in a[..n] {
      var k :| 0 <= k < |a| && a[k] == i;
      assert a[..n][k] == i;
    }
  }

  /** A clock in seconds that never runs backwards. */
  class Clock {
    var now: real

    constructor (now: real)
      ensures this.now == now
    {
      this.now := now;
    }

    method Read() returns (t: real)
      modifies this
      ensures t == now >= old(now)
    {
      var late: real :| late >= 0.0;
      now := now + late;
      t := now;
    }

    method Sleep(duration: real)
      requires duration >= 0.0
      modifies this
      ensures now >= old(now) + duration
    {
      var late: real :| late >= 0.0;
      now := now + duration + late;
    }
  }
}
