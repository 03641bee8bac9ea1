/** Retry delays of a failed stage, in seconds, and how they space consecutive failures. */
module Backoff {
  import opened Options

  const MAX_RETRY_AFTER := 86400

  function Min(a: int, b: int): int { if a < b then a else b }
  function Max(a: int, b: int): int { if a < b then b else a }

  function Pow2(n: nat): nat {
    if n == 0 then 1 else 2 * Pow2(n - 1)
  }

  // 1 << min(max(attempt, 0) + 1, 8), for an attempt counter that fits the INTEGER column.
  function RetryDelay(attempt: int): nat {
    Pow2(Min(Max(attempt, 0) + 1, 8))
  }

  // retryAfter is the rate-limit hint of a Telegram error, None for any other failure.
  function RetryAfter(hint: Option<int>, attempt: int): nat {
    match hint
    case None => RetryDelay(attempt)
    case Some(seconds) => Max(RetryDelay(attempt), Min(Max(seconds, 0), MAX_RETRY_AFTER))
  }

  lemma {:induction false} Pow2Monotone(a: nat, b: nat)
    requires a <= b
    ensures Pow2(a) <= Pow2(b)
    decreases b
  {
    if a < b {
      Pow2Monotone(a, b - 1);
    }
  }

  lemma DelayRange(attempt: int)
    ensures 2 <= RetryDelay(attempt) <= 256
    ensures attempt >= 7 ==> RetryDelay(attempt) == 256
    ensures RetryDelay(attempt) <= RetryDelay(attempt + 1)
    ensures attempt <= 0 ==> RetryDelay(attempt) == 2
    ensures 0 <= attempt < 7 ==> RetryDelay(attempt + 1) == 2 * RetryDelay(attempt)
  {
    var e := Min(Max(attempt, 0) + 1, 8);
    assert Pow2(1) == 2;
    Pow2At8();
    Pow2Monotone(1, e);
    Pow2Monotone(e, 8);
    Pow2Monotone(e, Min(Max(attempt + 1, 0) + 1, 8));
  }

  lemma Pow2At8()
    ensures Pow2(8) == 256
  {
    assert Pow2(2) == 4;
    assert Pow2(4) == 16;
    assert Pow2(6) == 64;
  }

  /** Without a hint the delay never shrinks as attempts grow; a hint only lengthens it, up to a day. */
  lemma {:induction false} RetryBounds(hint: Option<int>, attempt: int, later: int)
    requires attempt <= later
    ensures 2 <= RetryAfter(hint, attempt) <= MAX_RETRY_AFTER
    ensures RetryAfter(None, attempt) <= RetryAfter(None, later) <= 256
    ensures RetryDelay(attempt) <= RetryAfter(hint, attempt) <= RetryAfter(hint, later)
    ensures hint.Some? ==> RetryAfter(hint, attempt) >= Min(hint.value, MAX_RETRY_AFTER)
    decreases later - attempt
  {
    DelayRange(attempt);
    DelayRange(later);
    if attempt < later {
      RetryBounds(hint, attempt, later - 1);
      DelayRange(later - 1);
    }
  }

  /** A hint counts only when it is longer than the backoff, and then it is the delay, up to a day. */
  lemma HintCountsWhenLonger(hint: int, attempt: int)
    ensures RetryAfter(None, attempt) == RetryDelay(attempt)
    ensures hint <= RetryDelay(attempt) ==> RetryAfter(Some(hint), attempt) == RetryDelay(attempt)
    ensures RetryDelay(attempt) < hint <= 86400 ==> RetryAfter(Some(hint), attempt) == hint
    ensures hint > 86400 ==> RetryAfter(Some(hint), attempt) == 86400
  {
    DelayRange(attempt);
  }

  /** Total wait enforced before failure number n + 1 when none of the first n carried a hint. */
  function TotalDelay(n: nat): nat {
    if n == 0 then 0 else TotalDelay(n - 1) + RetryDelay(n - 1)
  }

  lemma {:induction false} TotalDelayClosedForm(n: nat)
    ensures n <= 8 ==> TotalDelay(n) == Pow2(n + 1) - 2
    ensures n >= 8 ==> TotalDelay(n) == 510 + 256 * (n - 8)
  {
    Pow2At8();
    if n > 0 {
      TotalDelayClosedForm(n - 1);
      DelayRange(n - 1);
    }
  }
}
