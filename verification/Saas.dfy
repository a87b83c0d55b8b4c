/** The circuit breaker of the SaaS client and its retry loop. */
module Circuits {
  datatype Policy = Policy(threshold: nat, openFor: nat)

  datatype Circuit = Closed(failures: nat) | Open(until: nat) | HalfOpen(probing: bool)

  /** What callers tell the breaker, under its lock; times are in nanoseconds. */
  datatype Call = BeforeRequest(now: nat) | Success | Failure(now: nat) | Release

  predicate Admits(c: Circuit, now: nat) {
    match c
    case Closed(_) => true
    case Open(until) => now >= until
    case HalfOpen(probing) => !probing
  }

  function Next(p: Policy, c: Circuit, call: Call): Circuit {
    match call
    case BeforeRequest(now) => if c.Closed? || !Admits(c, now) then c else HalfOpen(true)
    case Success => Closed(0)
    case Failure(now) => if c.Closed? && c.failures + 1 < p.threshold then Closed(c.failures + 1) else Open(now + p.openFor)
    case Release => if c.HalfOpen? then HalfOpen(false) else c
  }

  /** The breaker after a history of calls. */
  function After(p: Policy, calls: seq<Call>): Circuit {
    if calls == [] then Closed(0) else Next(p, After(p, calls[..|calls| - 1]), calls[|calls| - 1])
  }

  /** Transient failures recorded since the last success. */
  function Trailing(calls: seq<Call>): nat {
    if calls == [] then 0
    else
      var before := Trailing(calls[..|calls| - 1]);
      match calls[|calls| - 1]
      case Success => 0
      case Failure(_) => before + 1
      case _ => before
  }

  /** Requests admitted since anything was last recorded or released. */
  function AdmittedSince(p: Policy, calls: seq<Call>): nat {
    if calls == [] then 0
    else
      var front, last := calls[..|calls| - 1], calls[|calls| - 1];
      if !last.BeforeRequest? then 0
      else AdmittedSince(p, front) + if Admits(After(p, front), last.now) then 1 else 0
  }

  /** The breaker is closed exactly while fewer than `threshold` failures have come since the last success. */
  lemma {:induction false} ClosedExactly(p: Policy, calls: seq<Call>)
    requires p.threshold > 0
    ensures After(p, calls).Closed? <==> Trailing(calls) < p.threshold
    ensures After(p, calls).Closed? ==> After(p, calls).failures == Trailing(calls)
  {
    if calls != [] { ClosedExactly(p, calls[..|calls| - 1]); }
  }

  /** While it is not closed, at most one request is admitted between two recorded or released ones. */
  lemma {:induction false} OneProbeAtATime(p: Policy, calls: seq<Call>)
    requires !After(p, calls).Closed?
    ensures AdmittedSince(p, calls) == if After(p, calls) == HalfOpen(true) then 1 else 0
  {
    var front := calls[..|calls| - 1];
    if !After(p, front).Closed? { OneProbeAtATime(p, front); }
  }

  lemma AfterOneMore(p: Policy, calls: seq<Call>, call: Call)
    ensures After(p, calls + [call]) == Next(p, After(p, calls), call)
  {
    assert (calls + [call])[..|calls|] == calls;
  }

  /**
   When a request is admitted: always while the breaker is closed; after the
   failure that opened it, or any later one, not before `openFor` has passed;
   and right away after a probe was released.
   */
  lemma AdmissionMeans(p: Policy, calls: seq<Call>, failed: nat, now: nat)
    ensures After(p, calls).Closed? ==> Admits(After(p, calls), now)
    ensures !After(p, calls + [Failure(failed)]).Closed? ==>
              (Admits(After(p, calls + [Failure(failed)]), now) <==> now >= failed + p.openFor)
    ensures After(p, calls) == HalfOpen(true) ==>
              !Admits(After(p, calls), now) && Admits(After(p, calls + [Release]), now)
  {
    AfterOneMore(p, calls, Failure(failed));
    AfterOneMore(p, calls, Release);
  }

  class CircuitBreaker {
    const policy: Policy
    var circuit: Circuit
    ghost var calls: seq<Call>

    ghost predicate Valid()
      reads this
    {
      policy.threshold > 0 && circuit == After(policy, calls)
    }

    constructor (policy: Policy)
      requires policy.threshold > 0
      ensures Valid() && calls == [] && this.policy == policy
    {
      this.policy, circuit, calls := policy, Closed(0), [];
    }

    ghost method Log(call: Call)
      requires policy.threshold > 0 && circuit == Next(policy, After(policy, calls), call)
      modifies `calls
      ensures Valid() && calls == old(calls) + [call]
    {
      assert (calls + [call])[..|calls|] == calls;
      calls := calls + [call];
    }

    method Before(now: nat) returns (admitted: bool)
      requires Valid()
      modifies this
      ensures Valid() && calls == old(calls) + [BeforeRequest(now)]
      ensures admitted == Admits(old(circuit), now)
    {
      match circuit {
        case Closed(_) => admitted := true;
        case Open(until) =>
          admitted := now >= until;
          if admitted { circuit := HalfOpen(true); }
        case HalfOpen(probing) =>
          admitted := !probing;
          circuit := HalfOpen(true);
      }
      Log(BeforeRequest(now));
    }

    method RecordSuccess()
      requires Valid()
      modifies this
      ensures Valid() && calls == old(calls) + [Success]
    {
      circuit := Closed(0);
      Log(Success);
    }

    method RecordTransientFailure(now: nat)
      requires Valid()
      modifies this
      ensures Valid() && calls == old(calls) + [Failure(now)]
    {
      match circuit {
        case Closed(failures) =>
          circuit := if failures + 1 >= policy.threshold then Open(now + policy.openFor) else Closed(failures + 1);
        case _ => circuit := Open(now + policy.openFor);
      }
      Log(Failure(now));
    }

    method ReleaseProbe()
      requires Valid()
      modifies this
      ensures Valid() && calls == old(calls) + [Release]
    {
      if circuit.HalfOpen? { circuit := HalfOpen(false); }
      Log(Release);
    }
  }
}

module Retries {
  import opened Prelude
  import opened Circuits

  const MAX_ATTEMPTS := 8
  /** One minute, in nanoseconds. */
  const MAX_DELAY := 60_000_000_000
  const U64_MAX := 0xffff_ffff_ffff_ffff

  datatype RetryPolicy = RetryPolicy(maxAttempts: nat, baseDelay: nat, maxDelay: nat)

  function Pow2(n: nat): (r: nat)
    ensures r > 0
  {
    if n == 0 then 1 else 2 * Pow2(n - 1)
  }

  /** The ceiling of the backoff before retry `attempt`. */
  function Ceiling(p: RetryPolicy, attempt: nat): nat {
    if attempt == 0 then 0
    else Min(Min(p.baseDelay * Pow2(Min(attempt - 1, 20)), p.maxDelay), U64_MAX)
  }

  /** A delay drawn from zero to the ceiling; `noise` is the mixed clock value. */
  function NextDelay(p: RetryPolicy, attempt: nat, noise: nat): (d: nat)
    ensures d <= Ceiling(p, attempt) && d <= p.maxDelay
  {
    if Ceiling(p, attempt) == 0 then 0 else noise % (Ceiling(p, attempt) + 1)
  }

  /** Every delay up to the ceiling can be drawn, and no other. */
  lemma EveryDelayPossible(p: RetryPolicy, attempt: nat, d: nat)
    ensures (exists noise: nat :: NextDelay(p, attempt, noise) == d) <==> d <= Ceiling(p, attempt)
  {
    var ceiling := Ceiling(p, attempt);
    if d <= ceiling {
      SmallRemainder(d, ceiling + 1);
      assert NextDelay(p, attempt, d) == d;
    }
  }

  lemma SmallRemainder(a: nat, m: nat)
    requires a < m
    ensures a % m == a
  {
  }

  /** The ceiling starts at the base delay, doubles while there is room, never falls, and stops growing after 21 retries. */
  lemma CeilingMeans(p: RetryPolicy, n: nat)
    requires n >= 1
    ensures Ceiling(p, 1) == Min(Min(p.baseDelay, p.maxDelay), U64_MAX)
    ensures Ceiling(p, n) <= Ceiling(p, n + 1) <= 2 * Ceiling(p, n)
    ensures n <= 20 && 2 * Ceiling(p, n) <= Min(p.maxDelay, U64_MAX) ==> Ceiling(p, n + 1) == 2 * Ceiling(p, n)
    ensures n >= 21 ==> Ceiling(p, n + 1) == Ceiling(p, n)
  {
    assert Pow2(0) == 1;
    if n <= 20 {
      var a := p.baseDelay * Pow2(n - 1);
      assert Pow2(n) == 2 * Pow2(n - 1);
      assert p.baseDelay * Pow2(n) == 2 * a;
    }
  }

  // ---- errors -------------------------------------------------------------------------------

  /** `vetoed`: the server said not to retry. */
  datatype Error =
    | ConnectionFailed
    | TransportUnavailable
    | Timeout
    | MalformedResponse
    | RequestTimeout(hint: Option<nat>, vetoed: bool)
    | TooEarly(hint: Option<nat>, vetoed: bool)
    | RateLimited(hint: Option<nat>, vetoed: bool)
    | ServerFailure(hint: Option<nat>, vetoed: bool)
    | Cancelled
    | CircuitOpen
    /** The server answered: a rejected credential, a conflict, a failed validation and the like. */
    | Rejected(code: string)
    /** The request could not be built. */
    | Local(code: string)

  predicate Transient(e: Error) {
    match e
    case ConnectionFailed => true
    case TransportUnavailable => true
    case Timeout => true
    case MalformedResponse => true
    case RequestTimeout(_, vetoed) => !vetoed
    case TooEarly(_, vetoed) => !vetoed
    case RateLimited(_, vetoed) => !vetoed
    case ServerFailure(_, vetoed) => !vetoed
    case _ => false
  }

  function Hint(e: Error): Option<nat> {
    if e.RequestTimeout? || e.TooEarly? || e.RateLimited? || e.ServerFailure? then e.hint else None
  }

  predicate InfluencesCircuit(e: Error) {
    e.ConnectionFailed? || e.TransportUnavailable? || e.Timeout? || e.ServerFailure? || e.MalformedResponse?
  }

  predicate ProvesReachable(e: Error) { e.Rejected? || e.RequestTimeout? || e.TooEarly? || e.RateLimited? }

  /** The server asked not to retry. */
  predicate Vetoed(e: Error) { (e.RequestTimeout? || e.TooEarly? || e.RateLimited? || e.ServerFailure?) && e.vetoed }

  /**
   How the classes of errors relate: what counts against the server is
   transient unless vetoed; a timeout answer, too-early or rate-limit answer
   is transient too, but proves the server reachable; nothing does both.
   */
  lemma ClassesOfErrors(e: Error)
    ensures Transient(e) <==>
              !Vetoed(e) && (InfluencesCircuit(e) || e.RequestTimeout? || e.TooEarly? || e.RateLimited?)
    ensures InfluencesCircuit(e) ==> !ProvesReachable(e)
    ensures ProvesReachable(e) && !Vetoed(e) ==> Transient(e) || e.Rejected?
    ensures e.Cancelled? || e.CircuitOpen? || e.Local? <==> !InfluencesCircuit(e) && !ProvesReachable(e)
    ensures e == Timeout || e == ConnectionFailed ==> InfluencesCircuit(e)
  {
  }

  // ---- one logical request ---------------------------------------------------------------------

  datatype Class = SafeRead | IdempotentMutation | NonIdempotentMutation | StreamingDownload

  datatype ClientPolicy = ClientPolicy(
    retry: RetryPolicy, maxRetryAfter: nat, safeRead: bool, idempotentMutation: bool, streamingDownload: bool)

  predicate Validates(p: ClientPolicy) {
    p.retry.maxAttempts <= MAX_ATTEMPTS && p.retry.maxDelay <= MAX_DELAY && 0 < p.maxRetryAfter <= MAX_DELAY
  }

  predicate RetriesAllowed(p: ClientPolicy, c: Class) {
    match c
    case SafeRead => p.safeRead
    case IdempotentMutation => p.idempotentMutation
    case NonIdempotentMutation => false
    case StreamingDownload => p.streamingDownload
  }

  /** The class and its switch, said the other way round. */
  ghost predicate Retryable(p: ClientPolicy, c: Class) {
    || (c == SafeRead && p.safeRead) || (c == IdempotentMutation && p.idempotentMutation)
    || (c == StreamingDownload && p.streamingDownload)
  }

  datatype Outcome = Answered(body: string) | Failed(error: Error)

  /** One try: the request may fail to build, may run out of time or be cancelled, or gets an outcome. */
  datatype Try = Unbuilt(code: string) | OutOfTime | CancelledMeanwhile | Got(outcome: Outcome)
  datatype Sleep = Slept | DeadlinePassed | Interrupted
  datatype Round = Round(tried: Try, noise: nat, sleep: Sleep)

  /** The delay before the next try, after this error. */
  function DelayAfter(p: ClientPolicy, e: Error, retries: nat, noise: nat): (d: nat)
    requires Validates(p)
    ensures d <= MAX_DELAY
    ensures Hint(e).Some? ==> d == if Hint(e).value <= p.maxRetryAfter then Hint(e).value else p.maxRetryAfter
    ensures Hint(e).None? ==> d == NextDelay(p.retry, retries, noise) <= Ceiling(p.retry, retries)
  {
    match Hint(e)
    case Some(hint) => Min(hint, p.maxRetryAfter)
    case None => NextDelay(p.retry, retries, noise)
  }

  /** Every sleep follows a transient failure and lasts as long as that failure and the policy say. */
  ghost predicate Justified(p: ClientPolicy, rounds: nat -> Round, delays: seq<nat>)
    requires Validates(p)
  {
    forall i :: 0 <= i < |delays| ==> JustifiedAt(p, rounds(i), delays[i], i + 1)
  }

  ghost predicate JustifiedAt(p: ClientPolicy, round: Round, delay: nat, retries: nat)
    requires Validates(p)
  {
    && round.tried.Got? && round.tried.outcome.Failed? && Transient(round.tried.outcome.error)
    && delay == DelayAfter(p, round.tried.outcome.error, retries, round.noise)
  }

  /** How the last try ends the request: at once, or in the sleep before a further one. */
  function Ending(round: Round, inSleep: bool): Outcome {
    match round.tried
    case Unbuilt(code) => Failed(Local(code))
    case OutOfTime => Failed(Timeout)
    case CancelledMeanwhile => Failed(Cancelled)
    case Got(outcome) => if inSleep && round.sleep.Interrupted? then Failed(Cancelled) else outcome
  }

  predicate CanRetry(p: ClientPolicy, c: Class, retries: nat, e: Error) {
    RetriesAllowed(p, c) && retries < p.retry.maxAttempts && Transient(e)
  }

  /**
   The retry loop: at most one try more than the allowed retries, only one for
   a class that is never retried, and every try but the last ended in a
   transient failure.
   */
  method Attempts(p: ClientPolicy, c: Class, rounds: nat -> Round) returns (result: Outcome, tries: nat, delays: seq<nat>)
    requires Validates(p)
    ensures 1 <= tries <= 1 + p.retry.maxAttempts
    ensures !Retryable(p, c) ==> tries == 1 && delays == []
    ensures |delays| < tries ==>
              var tried := rounds(tries - 1).tried;
              || !tried.Got? || tried.outcome.Answered? || !Transient(tried.outcome.error)
              || !Retryable(p, c) || tries == 1 + p.retry.maxAttempts
    ensures tries - 1 <= |delays| <= tries && Justified(p, rounds, delays)
    ensures forall i :: 0 <= i < tries - 1 ==> rounds(i).sleep.Slept?
    ensures result == Ending(rounds(tries - 1), |delays| == tries)
    ensures |delays| == tries ==> !rounds(tries - 1).sleep.Slept?
  {
    tries, delays := 0, [];
    while true
      invariant tries == |delays| <= p.retry.maxAttempts && Justified(p, rounds, delays)
      invariant tries > 0 ==> RetriesAllowed(p, c)
      invariant forall i :: 0 <= i < tries ==> rounds(i).sleep.Slept?
      decreases p.retry.maxAttempts - tries
    {
      var round := rounds(tries);
      tries := tries + 1;
      match round.tried {
        case Unbuilt(code) => return Failed(Local(code)), tries, delays;
        case OutOfTime => return Failed(Timeout), tries, delays;
        case CancelledMeanwhile => return Failed(Cancelled), tries, delays;
        case Got(outcome) =>
          if outcome.Answered? || !CanRetry(p, c, |delays|, outcome.error) { return outcome, tries, delays; }
          delays := delays + [DelayAfter(p, outcome.error, tries, round.noise)];
          if round.sleep.Interrupted? { return Failed(Cancelled), tries, delays; }
          if round.sleep.DeadlinePassed? { return outcome, tries, delays; }
      }
    }
  }

  /** What a finished request tells the breaker. */
  function Signal(result: Outcome, now: nat): Call {
    match result
    case Answered(_) => Success
    case Failed(e) => if InfluencesCircuit(e) then Failure(now) else if ProvesReachable(e) then Success else Release
  }

  /** An answer closes the breaker, what counts against the server is a failure, any other answer of the server also closes it. */
  lemma SignalMeans(e: Error, body: string, now: nat)
    ensures Signal(Answered(body), now) == Success
    ensures Signal(Failed(e), now).Failure? <==>
              e == ConnectionFailed || e == TransportUnavailable || e == Timeout || e == MalformedResponse || e.ServerFailure?
    ensures Signal(Failed(e), now).Failure? ==> Signal(Failed(e), now).now == now
    ensures Signal(Failed(e), now) == Release <==> e == Cancelled || e == CircuitOpen || e.Local?
  {
  }

  /** A denied request is not sent; an admitted one reports to the breaker exactly once. */
  method Send(p: ClientPolicy, c: Class, breaker: CircuitBreaker, rounds: nat -> Round, before: nat, after: nat)
    returns (result: Outcome, tries: nat)
    requires Validates(p) && breaker.Valid()
    modifies breaker
    ensures breaker.Valid() && tries <= 1 + p.retry.maxAttempts <= 1 + MAX_ATTEMPTS
    ensures c.NonIdempotentMutation? ==> tries <= 1
    ensures tries == 0 <==> !Admits(old(breaker.circuit), before)
    ensures tries == 0 ==> result == Failed(CircuitOpen)
    ensures breaker.calls == old(breaker.calls) + [BeforeRequest(before)] + if tries == 0 then [] else [Signal(result, after)]
  {
    var admitted := breaker.Before(before);
    if !admitted { return Failed(CircuitOpen), 0; }
    var delays;
    result, tries, delays := Attempts(p, c, rounds);
    match result {
      case Answered(_) => breaker.RecordSuccess();
      case Failed(e) =>
        if InfluencesCircuit(e) {
          breaker.RecordTransientFailure(after);
        } else if e.Cancelled? {
          breaker.ReleaseProbe();
        } else if ProvesReachable(e) {
          breaker.RecordSuccess();
        } else {
          breaker.ReleaseProbe();
        }
    }
  }
}
