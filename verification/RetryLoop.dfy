/** One logical request: its attempts, what it waited, and the one metric it leaves. */
module RetryLoop {
  import opened Common

  /** The exception families a fault belongs to. */
  datatype Fault = Fault(connection: bool, timeout: bool, tls: bool, fingerprint: bool)

  predicate RetryableTransport(f: Fault) {
    if f.timeout || f.tls || f.fingerprint then false else f.connection
  }

  /** One attempt as the network answers it. A response whose body cannot be read, or whose content
      cannot be processed, carries the fault; `closing` is a fault raised while letting go of it. */
  datatype Attempt =
    | NoResponse(fault: Fault)
    | Answered(status: int, body: Option<Fault>, closing: Option<Fault>)

  predicate Transient(a: Attempt) {
    a.NoResponse? && RetryableTransport(a.fault)
  }

  predicate Succeeds(a: Attempt) {
    a.Answered? && a.status == 200 && a.body.None? && a.closing.None?
  }

  /** Only a response with status 200 that was processed spares the failure hook. */
  predicate Processed(a: Attempt) {
    a.Answered? && a.status == 200 && a.body.None?
  }

  datatype Source = FromResponse | FromFailure | Missing

  datatype Metric = Metric(
    start: real, end: real, failed: bool, source: Source,
    retries: nat, recovered: bool, wasted: Option<real>)

  function MaxAttempts(retries: int): (n: nat)
    ensures n >= 1
  {
    1 + (if retries > 0 then retries else 0)
  }

  /** The attempt that settles the request: the first, from k on, that is not a transient fault, or
      the last one allowed. */
  function Settling(attempts: nat -> Attempt, k: nat, max: nat): (n: nat)
    requires k < max
    decreases max - k
  {
    if k == max - 1 || !Transient(attempts(k)) then k else Settling(attempts, k + 1, max)
  }

  lemma {:induction false} SettlingIsFirst(attempts: nat -> Attempt, k: nat, max: nat)
    requires k < max
    ensures var n := Settling(attempts, k, max);
            && k <= n < max
            && (forall i :: k <= i < n ==> Transient(attempts(i)))
            && (n == max - 1 || !Transient(attempts(n)))
    decreases max - k
  {
    if k < max - 1 && Transient(attempts(k)) {
      SettlingIsFirst(attempts, k + 1, max);
    }
  }

  function Power(k: nat): (p: real)
    ensures p >= 1.0
  {
    if k == 0 then 1.0 else 2.0 * Power(k - 1)
  }

  /** How long k retries sleep in total: between half and one and a half of backoff * (2^k - 1). */
  ghost predicate SleptFor(slept: real, backoff: real, k: nat) {
    0.5 * (backoff * (Power(k) - 1.0)) <= slept <= 1.5 * (backoff * (Power(k) - 1.0))
  }

  function FirstAttempts(attempts: nat -> Attempt, k: nat): seq<Attempt> {
    if k == 0 then [] else FirstAttempts(attempts, k - 1) + [attempts(k - 1)]
  }

  /** What a session has done so far on the outside. */
  class Session {
    const retries: int
    const backoff: real
    var posts: seq<Attempt>
    var failureHooks: nat
    var slept: real
    var metrics: seq<Metric>

    constructor (retries: int, backoff: real)
      ensures this.retries == retries && this.backoff == backoff
      ensures posts == [] && failureHooks == 0 && slept == 0.0 && metrics == []
    {
      this.retries, this.backoff := retries, backoff;
      posts, failureHooks, slept, metrics := [], 0, 0.0, [];
    }

    /** Sends one attempt and handles its outcome: whether a fault was caught and which, whether a
        response was established, whether an error is recorded, and where the inference data came from. */
    method Post(attempt: Attempt, clock: Clock)
      returns (caught: Option<Fault>, responded: bool, failed: bool, source: Source)
      modifies this`posts, this`failureHooks, clock
      ensures clock.now >= old(clock.now)
      ensures posts == old(posts) + [attempt]
      ensures responded == attempt.Answered? && failed == !Succeeds(attempt)
      ensures attempt.NoResponse? ==> caught == Some(attempt.fault) && source == Missing
      ensures attempt.Answered? ==> caught == (if attempt.closing.Some? then attempt.closing else attempt.body)
      ensures attempt.Answered? ==> (source == Missing <==> attempt.status != 200 && attempt.body.Some?)
      ensures caught.Some? ==> failed
      ensures source == FromResponse <==> Processed(attempt)
      ensures failureHooks == old(failureHooks) + (if source == FromFailure then 1 else 0)
      ensures source == Missing ==> caught.Some?
      ensures Succeeds(attempt) ==> caught.None?
    {
      posts := posts + [attempt];
      var sent := clock.Read();
      caught, responded, failed, source := None, false, false, Missing;
      match attempt
      case NoResponse(fault) =>
        caught, failed := Some(fault), true;
      case Answered(status, body, closing) =>
        responded := true;
        if status == 200 && body.None? {
          source := FromResponse;
        } else if status == 200 {
          caught, failed, source := body, true, FromFailure;
          failureHooks := failureHooks + 1;
        } else if body.None? {
          failed, source := true, FromFailure;
          failureHooks := failureHooks + 1;
        } else {
          caught, failed := body, true;
        }
        if closing.Some? {
          caught, failed := closing, true;
        }
    }

    /** The attempt loop: posts until an attempt settles the request, sleeping between attempts. */
    method Attempt(attempts: nat -> Attempt, start: real, clock: Clock)
      returns (attemptStart: real, retried: nat, recovered: bool, failed: bool, source: Source)
      requires backoff >= 0.0 && start <= clock.now
      modifies this`posts, this`failureHooks, this`slept, clock
      ensures retried == Settling(attempts, 0, MaxAttempts(retries))
      ensures posts == old(posts) + FirstAttempts(attempts, retried + 1)
      ensures SleptFor(slept - old(slept), backoff, retried)
      ensures start + (slept - old(slept)) <= attemptStart <= clock.now
      ensures failed == !Succeeds(attempts(retried)) && recovered == (retried > 0 && !failed)
      ensures source == FromResponse <==> Processed(attempts(retried))
      ensures failureHooks == old(failureHooks) + (if source == FromFailure then 1 else 0)
    {
      var max := MaxAttempts(retries);
      retried := 0;
      while true
        invariant retried < max && Settling(attempts, retried, max) == Settling(attempts, 0, max)
        invariant posts == old(posts) + FirstAttempts(attempts, retried)
        invariant SleptFor(slept - old(slept), backoff, retried) && start + (slept - old(slept)) <= clock.now
        invariant failureHooks == old(failureHooks)
        decreases max - retried
      {
        attemptStart := clock.Read();
        var caught, responded;
        caught, responded, failed, source := Post(attempts(retried), clock);
        if !(caught.Some? && !responded && retried < max - 1 && RetryableTransport(caught.value)) {
          recovered := retried > 0 && caught.None? && !failed;
          return;
        }
        Pause(retried, clock);
        retried := retried + 1;
      }
    }

    /** Sleeps before retry k, with jitter. */
    method Pause(k: nat, clock: Clock)
      requires backoff >= 0.0
      modifies this`slept, clock
      ensures clock.now - old(clock.now) >= slept - old(slept) >= 0.0
      ensures forall before :: SleptFor(before, backoff, k) ==> SleptFor(before + (slept - old(slept)), backoff, k + 1)
    {
      var jitter: real :| 0.0 <= jitter < 1.0;
      var pause := backoff * Power(k) * (0.5 + jitter);
      PauseBounds(backoff, k, jitter, pause);
      clock.Sleep(pause);
      slept := slept + pause;
      forall before | SleptFor(before, backoff, k) ensures SleptFor(before + pause, backoff, k + 1) {
        SleptMore(before, backoff, k, pause);
      }
    }

    /** Runs one logical request. Whatever the attempts do, it records exactly one metric. */
    method ProcessRequest(attempts: nat -> Attempt, clock: Clock) returns (attemptStart: real)
      requires backoff >= 0.0
      modifies this, clock
      ensures var n := Settling(attempts, 0, MaxAttempts(retries));
              && posts == old(posts) + FirstAttempts(attempts, n + 1)
              && SleptFor(slept - old(slept), backoff, n)
              && failureHooks == old(failureHooks) + (if Processed(attempts(n)) then 0 else 1)
      ensures |metrics| == |old(metrics)| + 1 && metrics[..|old(metrics)|] == old(metrics)
      ensures Reports(metrics[|old(metrics)|], attempts(Settling(attempts, 0, MaxAttempts(retries))),
                      Settling(attempts, 0, MaxAttempts(retries)), attemptStart)
      ensures var m := metrics[|old(metrics)|];
              old(clock.now) <= m.start && m.start + (slept - old(slept)) <= attemptStart <= m.end <= clock.now
    {
      var start := clock.Read();
      var retried, recovered, failed, source;
      attemptStart, retried, recovered, failed, source := Attempt(attempts, start, clock);
      var end := clock.Read();
      var wasted := if retried > 0 then Some(if recovered then attemptStart - start else end - start) else None;
      if source == Missing {
        source := FromFailure;
        failureHooks := failureHooks + 1;
      }
      metrics := metrics + [Metric(start, end, failed, source, retried, recovered, wasted)];
    }
  }

  /** The metric of a request that attempt number n, started at attemptStart, settled. */
  predicate Reports(m: Metric, settling: Attempt, n: nat, attemptStart: real) {
    && m.failed == !Succeeds(settling)
    && m.source == (if Processed(settling) then FromResponse else FromFailure)
    && m.retries == n
    && m.recovered == (n > 0 && Succeeds(settling))
    && m.wasted == (if n == 0 then None else Some((if m.recovered then attemptStart else m.end) - m.start))
  }

  /** What a reader of the metric may rely on: it recovered exactly when it retried and ended without
      an error, waste is reported exactly when it retried, and it is no longer than the request and no
      shorter than the sleep of its retries. */
  lemma WasteIsBounded(m: Metric, settling: Attempt, n: nat, attemptStart: real, slept: real, backoff: real)
    requires Reports(m, settling, n, attemptStart) && SleptFor(slept, backoff, n) && backoff >= 0.0
    requires m.start + slept <= attemptStart <= m.end
    ensures m.recovered <==> m.retries > 0 && !m.failed
    ensures m.wasted.Some? <==> m.retries > 0
    ensures m.wasted.Some? ==> 0.5 * (backoff * (Power(m.retries) - 1.0)) <= m.wasted.value <= m.end - m.start
    ensures m.wasted.Some? ==> 0.0 <= m.wasted.value
  {
    ProductSign(backoff, Power(n) - 1.0);
  }

  /** Among at most 1 + max(0, retries) attempts, one is retried only after it brought no response, so
      no request is sent again once a response was established. */
  lemma RetriesOnlyWithoutResponse(attempts: nat -> Attempt, retries: int)
    ensures var n := Settling(attempts, 0, MaxAttempts(retries));
            && n <= (if retries > 0 then retries else 0)
            && (forall i :: 0 <= i < n ==> attempts(i).NoResponse? && RetryableTransport(attempts(i).fault))
            && (attempts(n).Answered? || !RetryableTransport(attempts(n).fault) || n == MaxAttempts(retries) - 1)
  {
    SettlingIsFirst(attempts, 0, MaxAttempts(retries));
  }

  /** A fault of the connection that is no timeout, no rejected certificate and no fingerprint mismatch, raised
      before any response. */
  predicate LostBeforeAnswer(a: Attempt) {
    match a
    case NoResponse(Fault(connection, timeout, tls, fingerprint)) => connection && !(timeout || tls || fingerprint)
    case Answered(_, _, _) => false
  }

  /** Exactly such attempts are repeated, as long as the retries last: each one but the last was lost so, and
      the last either was not, or was the last allowed, the one behind all retries; a negative number of
      retries is none. */
  lemma RetriedExactlyAfterALostConnection(attempts: nat -> Attempt, retries: int, n: nat)
    ensures n == Settling(attempts, 0, MaxAttempts(retries)) <==>
              && (forall i :: 0 <= i < n ==> LostBeforeAnswer(attempts(i)))
              && n <= (if retries < 0 then 0 else retries)
              && (n < retries ==> !LostBeforeAnswer(attempts(n)))
  {
    var settled := Settling(attempts, 0, MaxAttempts(retries));
    SettlingIsFirst(attempts, 0, MaxAttempts(retries));
    forall i: nat ensures Transient(attempts(i)) <==> LostBeforeAnswer(attempts(i)) {
    }
    assert n < settled ==> LostBeforeAnswer(attempts(n));
    assert settled < n && (forall i :: 0 <= i < n ==> LostBeforeAnswer(attempts(i))) ==> LostBeforeAnswer(attempts(settled));
  }

  /** A refused connection is tried again and a 200 then recovers the request; a rejected certificate and a
      timed-out socket are not, although both are faults of the connection. */
  lemma RefusedConnectionRecovers(attempts: nat -> Attempt)
    requires attempts(0) == NoResponse(Fault(true, false, false, false)) && attempts(1) == Answered(200, None, None)
    ensures Settling(attempts, 0, MaxAttempts(2)) == 1 && Succeeds(attempts(1))
  {
    RetriedExactlyAfterALostConnection(attempts, 2, 1);
  }

  lemma RejectedCertificateSettles(attempts: nat -> Attempt, retries: int, timeout: bool)
    requires attempts(0) == NoResponse(Fault(true, timeout, !timeout, false))
    ensures Settling(attempts, 0, MaxAttempts(retries)) == 0
  {
    RetriedExactlyAfterALostConnection(attempts, retries, 0);
  }

  /** What the metric says of the attempt that settled the request. */
  lemma MetricTellsTheOutcome(m: Metric, settling: Attempt, n: nat, attemptStart: real)
    requires Reports(m, settling, n, attemptStart)
    ensures !m.failed <==> settling == Answered(200, None, None)
    ensures m.source == FromResponse <==> settling.Answered? && settling.status == 200 && settling.body == None
    ensures m.source != Missing && m.retries == n
    ensures m.recovered <==> n > 0 && settling == Answered(200, None, None)
    ensures m.recovered ==> m.wasted == Some(attemptStart - m.start)
    ensures n > 0 && !m.recovered ==> m.wasted == Some(m.end - m.start)
  {
  }

  /** More retries never change a request that settled before its last attempt. */
  lemma {:induction false} MoreRetriesAgree(attempts: nat -> Attempt, k: nat, max: nat, more: nat)
    requires k < max <= more && !Transient(attempts(Settling(attempts, k, max)))
    ensures Settling(attempts, k, more) == Settling(attempts, k, max)
    decreases max - k
  {
    if k < max - 1 && Transient(attempts(k)) {
      MoreRetriesAgree(attempts, k + 1, max, more);
    }
  }

  /** The steps double, and one pause stays within half and one and a half of its step. */
  lemma PauseBounds(backoff: real, k: nat, jitter: real, pause: real)
    requires backoff >= 0.0 && 0.0 <= jitter < 1.0 && pause == backoff * Power(k) * (0.5 + jitter)
    ensures 0.0 <= 0.5 * (backoff * Power(k)) <= pause <= 1.5 * (backoff * Power(k))
  {
    var step := backoff * Power(k);
    ProductSign(backoff, Power(k));
    ProductSign(step, jitter);
    ProductSign(step, 1.0 - jitter);
    assert step * (1.0 - jitter) == step - step * jitter;
    assert step * (0.5 + jitter) == 0.5 * step + step * jitter;
  }

  lemma ProductSign(a: real, b: real)
    requires a >= 0.0 && b >= 0.0
    ensures a * b >= 0.0
  {
  }

  lemma SleptMore(slept: real, backoff: real, k: nat, pause: real)
    requires SleptFor(slept, backoff, k)
    requires 0.5 * (backoff * Power(k)) <= pause <= 1.5 * (backoff * Power(k))
    ensures SleptFor(slept + pause, backoff, k + 1)
  {
    Distributes(backoff, Power(k) - 1.0, Power(k), Power(k + 1) - 1.0);
    Within(backoff * (Power(k) - 1.0), backoff * Power(k), backoff * (Power(k + 1) - 1.0), slept, pause);
  }

  lemma Within(before: real, step: real, after: real, slept: real, pause: real)
    requires after == before + step
    requires 0.5 * before <= slept <= 1.5 * before && 0.5 * step <= pause <= 1.5 * step
    ensures 0.5 * after <= slept + pause <= 1.5 * after
  {
  }

  lemma Distributes(a: real, b: real, c: real, d: real)
    requires d == b + c
    ensures a * d == a * b + a * c
  {
  }
}
