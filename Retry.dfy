/** The request layer: one HTTP call retried on rate limits, server errors and dropped connections,
    with a single credential refresh after a 401. */
module Retry {

  /** How many backoffs one call may spend before it gives up. */
  const MaxRetries: nat := 5

  function Pow2(n: nat): (r: nat)
    ensures r >= 1
  {
    if n == 0 then 1 else 2 * Pow2(n - 1)
  }

  /** The deterministic part of `_sleep_backoff`, in milliseconds: `min(8000, 500 * 2^attempt)`.
      The random jitter of up to 250 ms that the source adds is not part of the model. */
  function BackoffMs(attempt: nat): (ms: nat)
    ensures ms <= 8000
    ensures ms == 8000 || ms == 500 * Pow2(attempt)
  {
    if 500 * Pow2(attempt) < 8000 then 500 * Pow2(attempt) else 8000
  }

  lemma {:induction false} Pow2Grows(a: nat, b: nat)
    requires a <= b
    ensures Pow2(a) <= Pow2(b)
    decreases b
  {
    if a < b {
      Pow2Grows(a, b - 1);
    }
  }

  /** Later attempts never wait less. */
  lemma BackoffNonDecreasing(a: nat, b: nat)
    requires a <= b
    ensures BackoffMs(a) <= BackoffMs(b)
  {
    Pow2Grows(a, b);
  }

  /** The wait doubles from half a second and stays at eight seconds from the fifth attempt on. */
  lemma BackoffSchedule(a: nat)
    ensures BackoffMs(0) == 500 && BackoffMs(1) == 1000 && BackoffMs(2) == 2000 && BackoffMs(3) == 4000
    ensures a >= 4 ==> BackoffMs(a) == 8000
  {
    assert Pow2(4) == 16;
    if a >= 4 {
      Pow2Grows(4, a);
    }
  }

  /** What one HTTP attempt gives back. */
  datatype Reply =
    | Response(status: int)
    | ConnectionFailed   // a connection error or a timeout
    | OtherFailure       // any other exception raised by the transport

  /** `raise_for_status` lets the response through. */
  predicate Passes(r: Reply) {
    r.Response? && !(400 <= r.status < 600)
  }

  /** Failures the call backs off from and tries again. */
  predicate Retryable(r: Reply) {
    r.ConnectionFailed? || (r.Response? && (r.status == 429 || 500 <= r.status < 600))
  }

  datatype Outcome = Success(status: int) | Raised(last: Reply)

  /** `_request`. `replies(n)` is what the n-th HTTP attempt of this call gives back, and
      `refreshOk` whether the credential refresh succeeds when it is tried. */
  method Request(replies: nat -> Reply, refreshOk: bool)
    returns (outcome: Outcome, tries: nat, delays: seq<nat>, refreshed: bool)
    ensures 1 <= tries <= 2 + MaxRetries
    ensures tries == 1 + |delays| + (if refreshed then 1 else 0)
    ensures |delays| <= MaxRetries && forall i :: 0 <= i < |delays| ==> delays[i] == BackoffMs(i)
    ensures refreshed ==> refreshOk
    // the headers are refreshed exactly when an earlier attempt got a 401, and that happens at most once
    ensures refreshed <==> exists j :: 0 <= j < tries - 1 && replies(j) == Response(401)
    ensures forall j, k :: 0 <= j < k < tries - 1 && replies(j) == Response(401) ==> replies(k) != Response(401)
    // a 401 that cannot be answered by a refresh (a failed one, or a second 401) ends the call
    ensures replies(tries - 1) == Response(401) ==> outcome.Raised? && (refreshed || !refreshOk)
    // every attempt before the last one failed in a way that warrants another try
    ensures forall j :: 0 <= j < tries - 1 ==> Retryable(replies(j)) || replies(j) == Response(401)
    // the call returns the first response that passes
    ensures outcome.Success? <==> Passes(replies(tries - 1))
    ensures outcome.Success? ==> outcome.status == replies(tries - 1).status
    // otherwise it raises the last failure: one it does not retry, or a retryable one once the backoffs are spent
    ensures outcome.Raised? ==> outcome.last == replies(tries - 1)
    ensures outcome.Raised? && Retryable(outcome.last) ==> |delays| == MaxRetries
  {
    var attempt: nat := 0;
    refreshed := false;
    tries := 0;
    delays := [];
    while true
      invariant attempt == |delays| <= MaxRetries
      invariant tries == |delays| + (if refreshed then 1 else 0)
      invariant forall i :: 0 <= i < |delays| ==> delays[i] == BackoffMs(i)
      invariant refreshed ==> refreshOk
      invariant forall j :: 0 <= j < tries ==> Retryable(replies(j)) || replies(j) == Response(401)
      invariant refreshed <==> exists j :: 0 <= j < tries && replies(j) == Response(401)
      invariant forall j, k :: 0 <= j < k < tries && replies(j) == Response(401) ==> replies(k) != Response(401)
      decreases 2 * (MaxRetries - attempt) + (if refreshed then 0 else 1)
    {
      var r := replies(tries);
      tries := tries + 1;
      if Passes(r) {
        return Success(r.status), tries, delays, refreshed;
      }
      if r.Response? && r.status == 401 && !refreshed {
        refreshed := refreshOk;
        if refreshed {
          continue;
        }
      }
      if Retryable(r) {
        if attempt >= MaxRetries {
          return Raised(r), tries, delays, refreshed;
        }
        delays := delays + [BackoffMs(attempt)];
        attempt := attempt + 1;
        continue;
      }
      return Raised(r), tries, delays, refreshed;
    }
  }
}
