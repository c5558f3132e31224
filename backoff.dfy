/**
 * The reconnect delay and the keepalive decision.
 *
 * The client computes the delay as `2^connectionTries * 1000` in floating
 * point and converts it to a Long. The product is an exact double (1000 is
 * 125 * 2^3) until it passes the largest double, from about exponent 1014
 * on, where it is infinity. The conversion saturates at Long.MAX_VALUE for
 * every value above it, infinity included, so in both ranges the delay is
 * the integer product capped at Long.MAX_VALUE.
 */
module Backoff {
  /** Kotlin's Long.MAX_VALUE. */
  const LongMax: nat := 9223372036854775807

  function Pow2(n: nat): (r: nat)
    ensures r >= 1
  {
    if n == 0 then 1 else 2 * Pow2(n - 1)
  }

  /** The delay, in milliseconds, before reconnecting after `tries` connection attempts. */
  function ReconnectDelay(tries: nat): (ms: nat)
    ensures ms <= LongMax
    ensures ms >= 1000 || ms == LongMax
  {
    var exact := Pow2(tries) * 1000;
    if exact <= LongMax then exact else LongMax
  }

  /** The first reconnects wait 2, 4 and 8 seconds. */
  lemma FirstDelays()
    ensures ReconnectDelay(1) == 2000
    ensures ReconnectDelay(2) == 4000
    ensures ReconnectDelay(3) == 8000
    ensures ReconnectDelay(4) == 16000
  {
    assert Pow2(1) == 2;
    assert Pow2(2) == 4;
    assert Pow2(3) == 8;
    assert Pow2(4) == 16;
  }

  /** Until it reaches the cap, each further attempt doubles the delay. */
  lemma DelayDoubles(tries: nat)
    requires ReconnectDelay(tries + 1) < LongMax
    ensures ReconnectDelay(tries + 1) == 2 * ReconnectDelay(tries)
  {
  }

  lemma {:induction false} Pow2Monotone(a: nat, b: nat)
    requires a <= b
    ensures Pow2(a) <= Pow2(b)
    decreases b
  {
    if a < b {
      Pow2Monotone(a, b - 1);
    }
  }

  /** More attempts never mean a shorter wait. */
  lemma DelayMonotone(a: nat, b: nat)
    requires a <= b
    ensures ReconnectDelay(a) <= ReconnectDelay(b)
  {
    Pow2Monotone(a, b);
  }

  /** From 54 attempts on, the delay is pinned at Long.MAX_VALUE. */
  lemma DelaySaturates(tries: nat)
    requires tries >= 54
    ensures ReconnectDelay(tries) == LongMax
  {
    assert Pow2(54) == 18014398509481984 by {
      Pow2Value54();
    }
    Pow2Monotone(54, tries);
  }

  lemma Pow2Value54()
    ensures Pow2(54) == 18014398509481984
  {
    assert Pow2(10) == 1024;
    assert Pow2(20) == 1048576 by { Pow2Add(10, 10); }
    assert Pow2(40) == 1099511627776 by { Pow2Add(20, 20); }
    assert Pow2(54) == 18014398509481984 by { Pow2Add(40, 14); assert Pow2(14) == 16384; }
  }

  lemma {:induction false} Pow2Add(a: nat, b: nat)
    ensures Pow2(a + b) == Pow2(a) * Pow2(b)
    decreases b
  {
    if b > 0 {
      Pow2Add(a, b - 1);
    }
  }

  /** The keepalive watchdog's test: the last ping is older than the allowed interval. */
  predicate PingOverdue(now: int, lastPing: int, pingInterval: int)
  {
    now - lastPing > pingInterval
  }
}
