/** The reminder series of a report (packages/shared/src/reminders.ts). */
module Reminders {

  /** t, t + interval, t + 2 * interval, .. while below the timeout. */
  function DelaysFrom(t: int, interval: int, timeout: int): seq<int>
    requires interval > 0
    decreases timeout - t
  {
    if t < timeout then [t] + DelaysFrom(t + interval, interval, timeout) else []
  }

  function ReminderDelays(interval: int, timeout: int): seq<int> {
    if interval <= 0 then [] else DelaysFrom(interval, interval, timeout)
  }

  method ComputeReminderDelays(intervalMs: int, timeoutMs: int) returns (out: seq<int>)
    ensures out == ReminderDelays(intervalMs, timeoutMs)
  {
    out := [];
    if intervalMs <= 0 {
      return;
    }
    var t := intervalMs;
    while t < timeoutMs
      invariant out + DelaysFrom(t, intervalMs, timeoutMs) == ReminderDelays(intervalMs, timeoutMs)
      decreases timeoutMs - t
    {
      assert out + DelaysFrom(t, intervalMs, timeoutMs)
          == out + [t] + DelaysFrom(t + intervalMs, intervalMs, timeoutMs);
      out := out + [t];
      t := t + intervalMs;
    }
  }

  lemma {:induction false} DelaysFromMeaning(t: int, interval: int, timeout: int)
    requires interval > 0
    ensures var d := DelaysFrom(t, interval, timeout);
            && (forall i :: 0 <= i < |d| ==> d[i] == t + i * interval && d[i] < timeout)
            && t + |d| * interval >= timeout
    decreases timeout - t
  {
    if t < timeout {
      DelaysFromMeaning(t + interval, interval, timeout);
      var d := DelaysFrom(t, interval, timeout);
      var rest := DelaysFrom(t + interval, interval, timeout);
      assert |d| == |rest| + 1;
      assert |d| * interval == |rest| * interval + interval;
      forall i | 0 <= i < |d| ensures d[i] == t + i * interval && d[i] < timeout {
        if i > 0 {
          assert d[i] == rest[i - 1];
          assert (i - 1) * interval + interval == i * interval;
        }
      }
    }
  }

  lemma StepsBeyond(k: nat, n: nat, interval: int)
    requires interval > 0
    ensures k > n ==> k * interval >= interval + n * interval
  {
    if k > n {
      assert (k - n - 1) * interval >= 0;
      assert k * interval == (k - n - 1) * interval + n * interval + interval;
    }
  }

  /** A longer interval gives no more reminders. */
  lemma LongerIsFewer(interval: int, longer: int, timeout: int)
    requires 0 < interval && (longer <= 0 || interval <= longer)
    ensures |ReminderDelays(longer, timeout)| <= |ReminderDelays(interval, timeout)|
  {
    var n := |ReminderDelays(longer, timeout)|;
    if n > 0 {
      DelaysFromMeaning(interval, interval, timeout);
      StepsBeyond(n, |ReminderDelays(interval, timeout)|, interval);
      LastDelay(longer, timeout);
      Scale(n, interval, longer);
    }
  }

  lemma LastDelay(interval: int, timeout: int)
    requires ReminderDelays(interval, timeout) != []
    ensures |ReminderDelays(interval, timeout)| * interval < timeout
  {
    LastFrom(interval, interval, timeout);
  }

  lemma {:induction false} LastFrom(t: int, interval: int, timeout: int)
    requires interval > 0 && t < timeout
    ensures t + |DelaysFrom(t, interval, timeout)| * interval < timeout + interval
    decreases timeout - t
  {
    var n := |DelaysFrom(t + interval, interval, timeout)|;
    assert |DelaysFrom(t, interval, timeout)| == n + 1;
    assert (n + 1) * interval == n * interval + interval;
    if t + interval < timeout {
      LastFrom(t + interval, interval, timeout);
    }
  }

  lemma Scale(n: nat, a: int, b: int)
    requires a <= b
    ensures n * a <= n * b
  {
  }

  /** The delays are exactly the positive multiples of the interval below the timeout, in order. */
  lemma DelaysAreMultiples(interval: int, timeout: int)
    ensures var d := ReminderDelays(interval, timeout);
            if interval <= 0 then d == []
            else
              && (forall i :: 0 <= i < |d| ==> d[i] == (i + 1) * interval && d[i] < timeout)
              && (forall k: nat :: k >= 1 && k * interval < timeout ==> k <= |d| && d[k - 1] == k * interval)
  {
    if interval > 0 {
      DelaysFromMeaning(interval, interval, timeout);
      var d := ReminderDelays(interval, timeout);
      forall i | 0 <= i < |d| ensures d[i] == (i + 1) * interval && d[i] < timeout {
        assert (i + 1) * interval == interval + i * interval;
      }
      forall k: nat | k >= 1 && k * interval < timeout ensures k <= |d| && d[k - 1] == k * interval {
        StepsBeyond(k, |d|, interval);
      }
    }
  }
}
