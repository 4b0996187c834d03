/** APIClient.makeAPIRequest: a loop of requests, retries and waits over an arbitrary environment. */
module ApiClient {
  import opened Models

  const TWO_TO_63 := 0x8000_0000_0000_0000
  const TWO_TO_64 := 0x1_0000_0000_0000_0000
  const DEFAULT_RETRY_AFTER := 5 * SECOND

  // ---- The environment ----

  /** The Retry-After header: missing, a number of seconds, or anything else (a date, say). */
  datatype RetryAfter = Missing | Delay(seconds: int) | NotANumber

  datatype Outcome = NetworkError | Response(status: int, retryAfter: RetryAfter)

  /** What happens around one attempt: whether the context is cancelled during the backoff before it,
      whether the request can be built, how it goes, and whether the context is cancelled during the
      Retry-After wait. */
  datatype Attempt = Attempt(cancelledInBackoff: bool, buildFails: bool, outcome: Outcome, cancelledInWait: bool)

  datatype Result = Returned(index: nat) | RequestFailed(index: nat) | Cancelled | NotBuilt | MaxRetriesExceeded

  // ---- Pure parts ----

  predicate IsRetriableStatusCode(code: int) {
    code == 429 || code == 500 || code == 502 || code == 503 || code == 504
  }

  /** Every network error counts as retriable. */
  predicate IsRetriable(o: Outcome) {
    o.NetworkError? || IsRetriableStatusCode(o.status)
  }

  /** The product of a multiplication in int64. */
  function ToInt64(x: int): (r: int)
    ensures -TWO_TO_63 <= r < TWO_TO_63
    ensures -TWO_TO_63 <= x < TWO_TO_63 ==> r == x
    ensures (x - r) % TWO_TO_64 == 0
  {
    (x + TWO_TO_63) % TWO_TO_64 - TWO_TO_63
  }

  function GetRetryAfter(h: RetryAfter): int {
    match h
    case Missing => DEFAULT_RETRY_AFTER
    case Delay(seconds) => ToInt64(seconds * SECOND)
    case NotANumber => DEFAULT_RETRY_AFTER
  }

  function Pow2(n: nat): nat {
    if n == 0 then 1 else 2 * Pow2(n - 1)
  }

  /** The shift and the multiplication are both in int64. */
  function BackoffBefore(attempt: nat): int
    requires attempt > 0
  {
    ToInt64(ToInt64(Pow2(attempt - 1)) * SECOND)
  }

  /** A timer with a negative duration fires at once. */
  function Waits(duration: int): nat {
    if duration > 0 then duration else 0
  }

  function WaitFor(o: Outcome): nat {
    if o.Response? && o.status == 429 then Waits(GetRetryAfter(o.retryAfter)) else 0
  }

  // ---- The loop ----

  /** What a run of the loop leaves: its result, how many requests went out, how long it waited, and the
      bodies it closed, by attempt. */
  datatype Report = Report(result: Result, sent: nat, waited: nat, closed: seq<nat>)

  class Client {
    const maxRetries: int

    /** NewAPIClient allows three retries. */
    constructor ()
      ensures maxRetries == 3
    {
      maxRetries := 3;
    }

    method MakeAPIRequest(script: seq<Attempt>) returns (r: Report)
      requires |script| > maxRetries
      ensures r == Expected(script, maxRetries)
    {
      hide BackoffBefore, GetRetryAfter, Waits, ExpectedFrom;
      var sent: nat, waited: nat, closed: seq<nat> := 0, 0, [];
      var attempt := 0;
      while attempt <= maxRetries
        invariant 0 <= attempt && (attempt <= maxRetries + 1 || attempt == 0)
        invariant maxRetries >= 0 && attempt <= maxRetries ==>
                    Expected(script, maxRetries) ==
                    ExpectedFrom(script, maxRetries, attempt, Report(Cancelled, sent, waited, closed))
        invariant attempt == 0 || attempt <= maxRetries
        invariant attempt == 0 ==> sent == waited == 0 && closed == []
      {
        OneAttempt(script, maxRetries, attempt, Report(Cancelled, sent, waited, closed));
        var env := script[attempt];
        if attempt > 0 {
          if env.cancelledInBackoff {
            return Report(Cancelled, sent, waited, closed);
          }
          waited := waited + Waits(BackoffBefore(attempt));
        }
        if env.buildFails {
          return Report(NotBuilt, sent, waited, closed);
        }
        sent := sent + 1;
        match env.outcome {
          case NetworkError =>
            if attempt >= maxRetries {
              return Report(RequestFailed(attempt), sent, waited, closed);
            }
          case Response(status, retryAfter) =>
            if !(IsRetriableStatusCode(status) && attempt < maxRetries) {
              return Report(Returned(attempt), sent, waited, closed);
            }
            if status == 429 {
              if env.cancelledInWait {
                return Report(Cancelled, sent, waited, closed + [attempt]);
              }
              waited := waited + Waits(GetRetryAfter(retryAfter));
            }
            closed := closed + [attempt];
        }
        attempt := attempt + 1;
      }
      r := Report(MaxRetriesExceeded, sent, waited, closed);
    }
  }

  // ---- The specification ----

  /** The attempt is followed by another one. */
  predicate Continues(a: Attempt, last: bool) {
    && !a.buildFails && IsRetriable(a.outcome) && !last
    && !(a.outcome.Response? && a.outcome.status == 429 && a.cancelledInWait)
  }

  /** What has been done once an attempt's request is out, and once it has been retried. */
  function Sent(attempt: nat, done: Report): Report {
    done.(waited := done.waited + (if attempt > 0 then Waits(BackoffBefore(attempt)) else 0), sent := done.sent + 1)
  }

  function Retried(o: Outcome, attempt: nat, done: Report): Report {
    done.(waited := done.waited + WaitFor(o), closed := if o.Response? then done.closed + [attempt] else done.closed)
  }

  /** What is left to do from one attempt on, given what has been done. */
  function ExpectedFrom(script: seq<Attempt>, maxRetries: int, attempt: nat, done: Report): Report
    requires attempt <= maxRetries < |script|
    decreases maxRetries - attempt
  {
    var a := script[attempt];
    var out := Sent(attempt, done);
    if attempt > 0 && a.cancelledInBackoff then done.(result := Cancelled)
    else if a.buildFails then out.(result := NotBuilt, sent := done.sent)
    else if Continues(a, attempt == maxRetries) then
      ExpectedFrom(script, maxRetries, attempt + 1, Retried(a.outcome, attempt, out))
    else if IsRetriable(a.outcome) && attempt < maxRetries then
      out.(result := Cancelled, closed := out.closed + [attempt])
    else out.(result := ResultAt(script, attempt))
  }

  /** ExpectedFrom unfolded once. */
  lemma OneAttempt(script: seq<Attempt>, maxRetries: int, attempt: nat, done: Report)
    requires attempt <= maxRetries < |script|
    ensures var a, out, r := script[attempt], Sent(attempt, done), ExpectedFrom(script, maxRetries, attempt, done);
            r == if attempt > 0 && a.cancelledInBackoff then done.(result := Cancelled)
                 else if a.buildFails then out.(result := NotBuilt, sent := done.sent)
                 else if Continues(a, attempt == maxRetries) then
                   ExpectedFrom(script, maxRetries, attempt + 1, Retried(a.outcome, attempt, out))
                 else if IsRetriable(a.outcome) && attempt < maxRetries then
                   out.(result := Cancelled, closed := out.closed + [attempt])
                 else out.(result := ResultAt(script, attempt))
  {
    hide BackoffBefore, WaitFor, Waits;
  }

  function Expected(script: seq<Attempt>, maxRetries: int): Report
    requires |script| > maxRetries
  {
    if maxRetries < 0 then Report(MaxRetriesExceeded, 0, 0, [])
    else ExpectedFrom(script, maxRetries, 0, Report(Cancelled, 0, 0, []))
  }

  // ---- What the specification promises ----

  predicate Undisturbed(script: seq<Attempt>) {
    forall i :: 0 <= i < |script| ==>
      !script[i].cancelledInBackoff && !script[i].buildFails && !script[i].cancelledInWait
  }

  /** A network error, or one of the five status codes that are worth another try. */
  predicate Transient(o: Outcome) {
    o.NetworkError? || o.status in {429, 500, 502, 503, 504}
  }

  /** The first n outcomes are transient; the next is not, unless the retries are used up. */
  predicate LeadingRetriable(script: seq<Attempt>, maxRetries: nat, n: nat) {
    && n <= maxRetries < |script|
    && (forall i :: 0 <= i < n ==> Transient(script[i].outcome))
    && (n < maxRetries ==> !Transient(script[n].outcome))
  }

  /** The waits after rate-limited responses among the first n. */
  function RetryAfterSum(script: seq<Attempt>, n: nat): nat
    requires n <= |script|
  {
    if n == 0 then 0 else RetryAfterSum(script, n - 1) + WaitFor(script[n - 1].outcome)
  }

  /** What an answer asks to wait, in seconds: five where a 429 does not give a number. */
  function SecondsAsked(o: Outcome): nat {
    if o.NetworkError? || o.status != 429 then 0
    else match o.retryAfter
         case Delay(seconds) => if seconds > 0 then seconds else 0
         case _ => 5
  }

  function SecondsSum(script: seq<Attempt>, n: nat): nat
    requires n <= |script|
  {
    if n == 0 then 0 else SecondsSum(script, n - 1) + SecondsAsked(script[n - 1].outcome)
  }

  /** A number of seconds whose nanoseconds fit int64; a larger one wraps around. */
  predicate DelayFits(o: Outcome) {
    o.Response? && o.retryAfter.Delay? ==> -9223372036 <= o.retryAfter.seconds <= 9223372036
  }

  lemma {:induction false} AskedIsWaited(script: seq<Attempt>, n: nat)
    requires n <= |script| && forall i :: 0 <= i < n ==> DelayFits(script[i].outcome)
    ensures RetryAfterSum(script, n) == SecondsSum(script, n) * 1_000_000_000
  {
    if n > 0 {
      AskedIsWaited(script, n - 1);
    }
  }

  function BackoffSum(n: nat): nat {
    if n == 0 then 0 else BackoffSum(n - 1) + Waits(BackoffBefore(n))
  }

  function ResultAt(script: seq<Attempt>, n: nat): Result
    requires n < |script|
  {
    if script[n].outcome.Response? then Returned(n) else RequestFailed(n)
  }

  lemma {:induction false} UndisturbedFrom(script: seq<Attempt>, maxRetries: nat, n: nat, attempt: nat, done: Report)
    requires Undisturbed(script) && LeadingRetriable(script, maxRetries, n) && attempt <= n
    requires done.sent == attempt
    requires done.waited == RetryAfterSum(script, attempt) + (if attempt == 0 then 0 else BackoffSum(attempt - 1))
    ensures var r := ExpectedFrom(script, maxRetries, attempt, done);
            && r.sent == n + 1 && r.result == ResultAt(script, n)
            && r.waited == RetryAfterSum(script, n) + BackoffSum(n)
    decreases n - attempt
  {
    hide BackoffBefore, Waits, WaitFor;
    if attempt < n {
      UndisturbedFrom(script, maxRetries, n, attempt + 1,
                      Retried(script[attempt].outcome, attempt, Sent(attempt, done)));
    }
  }

  lemma {:induction false} Pow2Grows(a: nat, b: nat)
    requires a <= b
    ensures Pow2(a) <= Pow2(b)
    decreases b
  {
    if a < b {
      Pow2Grows(a, b - 1);
    }
  }

  lemma Pow2Thirty()
    ensures Pow2(33) == 8589934592 && Pow2(34) == 17179869184
  {
    assert Pow2(8) == 256;
    assert Pow2(16) == 65536;
    assert Pow2(24) == 16777216;
    assert Pow2(32) == 4294967296;
  }

  /** The backoff before a retry is a power of two of seconds up to the 34th; then int64 overflows. */
  lemma BackoffIsAPower(attempt: nat)
    requires attempt > 0
    ensures BackoffBefore(attempt) == Pow2(attempt - 1) * SECOND <==> attempt <= 34
  {
    Pow2Thirty();
    if attempt <= 34 {
      Pow2Grows(attempt - 1, 33);
    } else {
      Pow2Grows(34, attempt - 1);
    }
  }

  lemma {:induction false} BackoffsDouble(n: nat)
    requires n <= 34
    ensures BackoffSum(n) == (Pow2(n) - 1) * SECOND
  {
    if n > 0 {
      BackoffsDouble(n - 1);
      BackoffIsAPower(n);
      assert Pow2(n) == 2 * Pow2(n - 1);
    }
  }

  /** Left alone, the loop sends one request and one more for each leading retriable outcome, up to
      maxRetries, and gives back the outcome it stopped at.  It waits 2^n - 1 seconds for n retries (while
      the powers fit int64), plus the Retry-After of each retried 429. */
  lemma UndisturbedRun(script: seq<Attempt>, maxRetries: nat, n: nat)
    requires Undisturbed(script) && LeadingRetriable(script, maxRetries, n)
    ensures var r := Expected(script, maxRetries);
            && r.sent == n + 1 && r.result == ResultAt(script, n)
            && r.waited == BackoffSum(n) + RetryAfterSum(script, n)
    ensures n <= 34 ==> BackoffSum(n) == (Pow2(n) - 1) * 1_000_000_000
    ensures (forall i :: 0 <= i < n ==> DelayFits(script[i].outcome)) ==>
              RetryAfterSum(script, n) == SecondsSum(script, n) * 1_000_000_000
  {
    if forall i :: 0 <= i < n ==> DelayFits(script[i].outcome) {
      AskedIsWaited(script, n);
    }
    UndisturbedFrom(script, maxRetries, n, 0, Report(Cancelled, 0, 0, []));
    if n <= 34 {
      BackoffsDouble(n);
    }
  }

  /** There is such an n for every script. */
  lemma {:induction false} LeadingRunExists(script: seq<Attempt>, maxRetries: nat) returns (n: nat)
    requires maxRetries < |script|
    ensures LeadingRetriable(script, maxRetries, n)
  {
    n := 0;
    while n < maxRetries && Transient(script[n].outcome)
      invariant n <= maxRetries
      invariant forall i :: 0 <= i < n ==> Transient(script[i].outcome)
    {
      n := n + 1;
    }
  }

  // ---- Every run, disturbed or not ----

  /** The attempt was made, went wrong in a way worth another try, and its wait was not cut short. */
  predicate WasRetried(a: Attempt, i: nat) {
    && (i > 0 ==> !a.cancelledInBackoff) && !a.buildFails && Transient(a.outcome)
    && (a.outcome.Response? && a.outcome.status == 429 ==> !a.cancelledInWait)
  }

  /** How a run ends at attempt i, what has been sent by then, and for how long it has backed off. */
  predicate EndsAt(a: Attempt, i: nat, maxRetries: nat, retryAfters: nat, r: Report) {
    if i > 0 && a.cancelledInBackoff then
      r.result == Cancelled && r.sent == i && r.waited == BackoffSum(i - 1) + retryAfters
    else
      && r.waited == BackoffSum(i) + retryAfters
      && (if a.buildFails then r.result == NotBuilt && r.sent == i
          else
            && r.sent == i + 1
            && (if i < maxRetries && Transient(a.outcome) then
                  r.result == Cancelled && a.outcome.Response? && a.outcome.status == 429 && a.cancelledInWait
                else if a.outcome.NetworkError? then r.result == RequestFailed(i)
                else r.result == Returned(i)))
  }

  lemma {:induction false} RunFrom(script: seq<Attempt>, maxRetries: nat, attempt: nat, done: Report) returns (i: nat)
    requires attempt <= maxRetries < |script| && done.sent == attempt
    requires done.waited == RetryAfterSum(script, attempt) + (if attempt == 0 then 0 else BackoffSum(attempt - 1))
    requires done.result == Cancelled
    ensures attempt <= i <= maxRetries && forall j :: attempt <= j < i ==> WasRetried(script[j], j)
    ensures EndsAt(script[i], i, maxRetries, RetryAfterSum(script, i), ExpectedFrom(script, maxRetries, attempt, done))
    decreases maxRetries - attempt
  {
    hide BackoffBefore, Waits, WaitFor;
    var a := script[attempt];
    if !(attempt > 0 && a.cancelledInBackoff) && Continues(a, attempt == maxRetries) {
      i := RunFrom(script, maxRetries, attempt + 1, Retried(a.outcome, attempt, Sent(attempt, done)));
    } else {
      i := attempt;
    }
  }

  /** Every run, cancelled at whatever point, retries exactly at transient outcomes and stops at the first
      attempt that is not retried; it reports that attempt's outcome, or why there was none. */
  lemma EveryRun(script: seq<Attempt>, maxRetries: nat) returns (i: nat)
    requires maxRetries < |script|
    ensures i <= maxRetries && forall j :: 0 <= j < i ==> WasRetried(script[j], j)
    ensures EndsAt(script[i], i, maxRetries, RetryAfterSum(script, i), Expected(script, maxRetries))
  {
    i := RunFrom(script, maxRetries, 0, Report(Cancelled, 0, 0, []));
  }

  /** The bodies closed so far are those of the responses so far, each once and in order. */
  ghost predicate ClosedSoFar(script: seq<Attempt>, closed: seq<nat>, n: nat) {
    && n <= |script|
    && (forall j, k :: 0 <= j < k < |closed| ==> closed[j] < closed[k])
    && (forall i: nat :: i in closed <==> i < n && script[i].outcome.Response?)
  }

  lemma ClosedMore(script: seq<Attempt>, closed: seq<nat>, n: nat)
    requires ClosedSoFar(script, closed, n) && n < |script|
    ensures ClosedSoFar(script, if script[n].outcome.Response? then closed + [n] else closed, n + 1)
  {
    assert forall k :: 0 <= k < |closed| ==> closed[k] in closed;
  }

  lemma {:induction false} BodiesFrom(script: seq<Attempt>, maxRetries: nat, attempt: nat, done: Report)
    requires attempt <= maxRetries < |script|
    requires done.sent == attempt && ClosedSoFar(script, done.closed, attempt)
    ensures var r := ExpectedFrom(script, maxRetries, attempt, done);
            && r.sent <= |script| && !r.result.MaxRetriesExceeded?
            && (r.result.Returned? ==> r.result.index + 1 == r.sent && script[r.result.index].outcome.Response?)
            && ClosedSoFar(script, r.closed, if r.result.Returned? then r.result.index else r.sent)
    decreases maxRetries - attempt
  {
    hide BackoffBefore, Waits, WaitFor, IsRetriableStatusCode, ClosedSoFar;
    var a := script[attempt];
    ClosedMore(script, done.closed, attempt);
    if !(attempt > 0 && a.cancelledInBackoff) && Continues(a, attempt == maxRetries) {
      BodiesFrom(script, maxRetries, attempt + 1, Retried(a.outcome, attempt, Sent(attempt, done)));
    }
  }

  /** On every path, cancelled or not, the body of each response that came in is closed exactly once, but
      for the one that is returned, which is left open; and the statement after the loop is not reached. */
  lemma BodiesClosedOnce(script: seq<Attempt>, maxRetries: nat)
    requires maxRetries < |script|
    ensures var r := Expected(script, maxRetries);
            && !r.result.MaxRetriesExceeded?
            && (forall j, k :: 0 <= j < k < |r.closed| ==> r.closed[j] != r.closed[k])
            && (forall i: nat :: i in r.closed <==>
                  i < r.sent && i < |script| && script[i].outcome.Response? && r.result != Returned(i))
            && (r.result.Returned? ==> r.result.index + 1 == r.sent)
  {
    BodiesFrom(script, maxRetries, 0, Report(Cancelled, 0, 0, []));
  }
}
