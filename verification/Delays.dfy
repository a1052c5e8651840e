/** The delay before contact work is retried, in seconds. */
module Delays {
  function Doubled(n: nat): (d: nat)
    ensures d >= 1
  {
    if n == 0 then 1 else 2 * Doubled(n - 1)
  }

  /** `LEAST(3600, 30 * power(2, LEAST(attempt_count, 7)))`. */
  function RetryDelay(attempts: nat): (delay: nat)
    ensures 30 <= delay <= 3600
  {
    var wait := 30 * Doubled(if attempts < 7 then attempts else 7);
    if wait < 3600 then wait else 3600
  }

  /** Half a minute, doubled with every attempt, up to an hour. */
  lemma DelaysDouble(attempts: nat)
    ensures RetryDelay(0) == 30 && RetryDelay(1) == 60 && RetryDelay(2) == 120 && RetryDelay(3) == 240
    ensures RetryDelay(4) == 480 && RetryDelay(5) == 960 && RetryDelay(6) == 1920
    ensures attempts >= 7 ==> RetryDelay(attempts) == 3600
  {
    assert Doubled(3) == 8 && Doubled(5) == 32;
    assert Doubled(7) == 4 * Doubled(5);
  }
}
