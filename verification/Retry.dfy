/**
  The HTTP retry loop shared by both clients: which attempt is returned, how often it sends,
  and how long it sleeps, for every stream of answers.
 */
module Retry {
  import opened Wrappers

  /** Retry-After (section 10.2.3 of RFC 9110): seconds, a date, or text that is neither. */
  datatype RetryAfter = NoRetryAfter | Seconds(s: real) | Date(fromNow: real) | MalformedDate

  /** X-RateLimit-Reset, as a number where it is one. */
  datatype RateLimitReset = NoReset | MalformedReset | Reset(value: real)

  datatype Attempt<B> =
    | TransportError
    | Response(status: int, retryAfter: RetryAfter, reset: RateLimitReset, body: B)

  datatype Outcome<B> = Returned(response: Attempt<B>) | Raised(last: Attempt<B>)

  const RETRYABLE_STATUS: set<int> := {408, 429, 500, 502, 503, 504}
  const MAX_SINGLE_BACKOFF: real := 120.0

  function Max(a: real, b: real): real { if a < b then b else a }
  function Min(a: real, b: real): real { if b < a then b else a }

  function ParseRetryAfter(h: RetryAfter): Option<real> {
    match h
    case Seconds(s) => Some(Max(0.0, s))
    case Date(d) => Some(Max(0.0, d))
    case _ => None
  }

  /** A duration, unless it is so large that it must be a timestamp. */
  function ParseRateLimitReset(h: RateLimitReset, now: real): Option<real> {
    if !h.Reset? || h.value <= 0.0 then None
    else Some(Max(0.0, if h.value > 1000000000.0 then h.value - now else h.value))
  }

  function Hint<B>(a: Attempt<B>, now: real): Option<real> {
    if a.TransportError? then None
    else match ParseRetryAfter(a.retryAfter)
      case Some(s) => Some(s)
      case None => ParseRateLimitReset(a.reset, now)
  }

  function TwoTo(n: nat): nat { if n == 0 then 1 else 2 * TwoTo(n - 1) }

  /** Server hint wins; otherwise a jittered share u of the exponential ceiling. attempt is 1-based. */
  function Backoff(attempt: nat, hint: Option<real>, u: real): real
    requires attempt >= 1
  {
    match hint
    case Some(s) => Min(s, MAX_SINGLE_BACKOFF)
    case None => Min(TwoTo(attempt - 1) as real, MAX_SINGLE_BACKOFF) * u
  }

  predicate Success(status: int) { 200 <= status < 300 }

  /** None asks for any 2xx. */
  predicate Accepts(expected: Option<set<int>>, status: int) {
    match expected
    case None => Success(status)
    case Some(codes) => status in codes
  }

  /** An answer that ends the loop: what was asked for, or a status that retrying cannot help. */
  predicate Final<B>(expected: Option<set<int>>, a: Attempt<B>) {
    a.Response? && (Accepts(expected, a.status) || a.status !in RETRYABLE_STATUS)
  }

  /** What one request meets, send by send: nothing final before the end, and an end that is final or the last retry. */
  predicate IsExchange<B>(expected: Option<set<int>>, maxRetries: nat, attempts: seq<Attempt<B>>) {
    && 1 <= |attempts| <= maxRetries + 1
    && (forall i | 0 <= i < |attempts| - 1 :: !Final(expected, attempts[i]))
    && (Final(expected, attempts[|attempts| - 1]) || |attempts| == maxRetries + 1)
  }

  /** How often a request goes out, having gone out n times already. */
  function SendsOf<B>(expected: Option<set<int>>, maxRetries: nat, answers: nat -> Attempt<B>, n: nat): (k: nat)
    requires n <= maxRetries
    ensures n < k <= maxRetries + 1
    decreases maxRetries - n
  {
    if n == maxRetries || Final(expected, answers(n)) then n + 1 else SendsOf(expected, maxRetries, answers, n + 1)
  }

  /** The answers to the first k sends. */
  function Met<B>(answers: nat -> Attempt<B>, k: nat): seq<Attempt<B>> { seq(k, i requires 0 <= i < k => answers(i)) }

  function OutcomeOf<B>(expected: Option<set<int>>, last: Attempt<B>): Outcome<B> {
    if Final(expected, last) then Returned(last) else Raised(last)
  }

  /** The number of sends is the one that makes the answers met an exchange. */
  lemma {:induction false} SendsIffExchange<B>(expected: Option<set<int>>, maxRetries: nat, answers: nat -> Attempt<B>, n: nat, k: nat)
    requires n <= maxRetries && n < k && forall i: nat | i < n :: !Final(expected, answers(i))
    ensures k == SendsOf(expected, maxRetries, answers, n) <==> IsExchange(expected, maxRetries, Met(answers, k))
    decreases maxRetries - n
  {
    if n == maxRetries || Final(expected, answers(n)) {
      assert Met(answers, k)[n] == answers(n);
    } else if k > n + 1 {
      SendsIffExchange(expected, maxRetries, answers, n + 1, k);
    } else {
      assert Met(answers, k)[k - 1] == answers(n);
    }
  }

  /** Which answers end the loop when any 2xx is asked for. */
  lemma FinalIff<B>(a: Attempt<B>)
    ensures Final(None, a) <==> a.Response? && (200 <= a.status < 300 || a.status !in {408, 429, 500, 502, 503, 504})
  {}

  /** Seconds a server may ask for: never negative, and no more than two minutes. */
  function Within(s: real): real { if s < 0.0 then 0.0 else if s > 120.0 then 120.0 else s }

  /**
    How long to wait: what Retry-After says; failing that, what X-RateLimit-Reset says, as a time
    from now on when it is so large that it must be a time; failing that, a share u of
    1, 2, 4, ... seconds.
   */
  lemma PauseIs<B>(attempt: nat, a: Attempt<B>, now: real, u: real)
    requires attempt >= 1
    ensures var pause := Backoff(attempt, Hint(a, now), u);
            var ceiling := TwoTo(attempt - 1) as real;
            var blind := (if ceiling < 120.0 then ceiling else 120.0) * u;
            match a
            case TransportError => pause == blind
            case Response(_, Seconds(s), _, _) => pause == Within(s)
            case Response(_, Date(d), _, _) => pause == Within(d)
            case Response(_, _, Reset(v), _) =>
              pause == if v <= 0.0 then blind else if v > 1000000000.0 then Within(v - now) else Within(v)
            case _ => pause == blind
  {}

  lemma BackoffIsBounded<B>(attempt: nat, a: Attempt<B>, now: real, u: real)
    requires attempt >= 1 && 0.0 <= u <= 1.0
    ensures 0.0 <= Backoff(attempt, Hint(a, now), u) <= MAX_SINGLE_BACKOFF
    ensures Hint(a, now).None? ==> Backoff(attempt, Hint(a, now), u) <= TwoTo(attempt - 1) as real
  {
    if Hint(a, now).None? {
      var ceiling := Min(TwoTo(attempt - 1) as real, MAX_SINGLE_BACKOFF);
      ShareIsSmaller(ceiling, u);
      assert Backoff(attempt, Hint(a, now), u) == ceiling * u;
      assert ceiling <= TwoTo(attempt - 1) as real && ceiling <= MAX_SINGLE_BACKOFF;
    }
  }

  lemma ShareIsSmaller(c: real, u: real)
    requires 0.0 <= c && 0.0 <= u <= 1.0
    ensures 0.0 <= c * u <= c
  {
    assert c * u <= c * 1.0;
  }

  /**
    answers(n) is what the n-th send meets. The first final answer among the first
    maxRetries + 1 is returned as it came; failing that, the last error is raised, after
    exactly maxRetries + 1 sends.
   */
  method Request<B>(answers: nat -> Attempt<B>, jitter: nat -> real, now: real, maxRetries: nat, expected: Option<set<int>>)
    returns (outcome: Outcome<B>, sends: nat, sleeps: seq<real>)
    requires forall n :: 0.0 <= jitter(n) <= 1.0
    ensures 1 <= sends <= maxRetries + 1 && |sleeps| == sends - 1
    ensures sends == SendsOf(expected, maxRetries, answers, 0) && outcome == OutcomeOf(expected, answers(sends - 1))
    ensures outcome.Returned? <==> exists n: nat :: n <= maxRetries && Final(expected, answers(n))
    ensures outcome.Returned? ==> outcome.response == answers(sends - 1) && Final(expected, outcome.response)
    ensures outcome.Raised? ==> sends == maxRetries + 1 && outcome.last == answers(maxRetries)
    ensures forall n: nat | n < sends - 1 :: !Final(expected, answers(n))
    ensures forall n: nat | n < |sleeps| ::
              && sleeps[n] == Backoff(n + 1, Hint(answers(n), now), jitter(n))
              && 0.0 <= sleeps[n] <= MAX_SINGLE_BACKOFF
  {
    var lastError: Option<Attempt<B>> := None;
    sends, sleeps := 0, [];
    while sends < maxRetries + 1
      invariant sends <= maxRetries + 1
      invariant sends <= maxRetries ==> |sleeps| == sends
      invariant sends == maxRetries + 1 ==> |sleeps| == maxRetries
      invariant sends > 0 ==> lastError == Some(answers(sends - 1))
      invariant forall n: nat | n < sends :: !Final(expected, answers(n))
      invariant forall n: nat | n < |sleeps| ::
                  && sleeps[n] == Backoff(n + 1, Hint(answers(n), now), jitter(n))
                  && 0.0 <= sleeps[n] <= MAX_SINGLE_BACKOFF
    {
      var a := answers(sends);
      sends := sends + 1;
      if a.Response? && Accepts(expected, a.status) {
        SendsIffExchange(expected, maxRetries, answers, 0, sends);
        return Returned(a), sends, sleeps;
      }
      if a.TransportError? || a.status in RETRYABLE_STATUS {
        lastError := Some(a);
        if sends <= maxRetries {
          BackoffIsBounded(sends, a, now, jitter(sends - 1));
          sleeps := sleeps + [Backoff(sends, Hint(a, now), jitter(sends - 1))];
        }
      } else {
        SendsIffExchange(expected, maxRetries, answers, 0, sends);
        return Returned(a), sends, sleeps;
      }
    }
    assert lastError.Some?;
    SendsIffExchange(expected, maxRetries, answers, 0, sends);
    outcome := Raised(lastError.value);
  }
}
