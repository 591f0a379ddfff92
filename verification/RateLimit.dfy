/**
 The sliding-window limiter: a sorted set of call times with an expiry, pruned, extended and counted
 on every call. Refused calls are recorded too.
 */
module RateLimit {
  import opened Common

  /** Call times above `cutoff`; the removal range is inclusive. */
  function Live(times: seq<real>, cutoff: real): seq<real> {
    if times == [] then []
    else
      var n := |times| - 1;
      Live(times[..n], cutoff) + if times[n] > cutoff then [times[n]] else []
  }

  /** No call is later than the last one. */
  predicate LastIsLatest(times: seq<real>) {
    forall i :: 0 <= i < |times| ==> times[i] <= times[|times| - 1]
  }

  /** The answer to the last call of `times`, all calls counted, as if the key never expired and
      nothing was ever removed. */
  predicate Allowed(times: seq<real>, limit: int, window: real)
    requires times != []
  {
    |Live(times, times[|times| - 1] - window)| <= limit
  }

  class SlidingWindow {
    var entries: seq<real>          // the sorted set, by score
    var expiresAt: Option<real>     // the key's expiry; none when the key does not exist
    const limit: int
    const window: real
    ghost var calls: seq<real>

    /** Whatever has been dropped from the key would be dropped again at any later call. */
    ghost predicate Valid() reads this {
      && window > 0.0 && LastIsLatest(calls)
      && (calls == [] ==> entries == [] && expiresAt.None?)
      && (calls != [] ==>
            && expiresAt == Some(calls[|calls| - 1] + window)
            && entries == Live(calls, calls[|calls| - 1] - window))
    }

    constructor (limit: int, window: real)
      requires window > 0.0
      ensures Valid() && calls == [] && this.limit == limit && this.window == window
    {
      this.limit, this.window := limit, window;
      entries, expiresAt, calls := [], None, [];
    }

    method Allow(now: real) returns (allowed: bool)
      requires Valid() && now >= 0.0 && (calls != [] ==> calls[|calls| - 1] <= now)
      modifies this
      ensures Valid() && calls == old(calls) + [now]
      ensures allowed == Allowed(calls, limit, window)
    {
      hide Live;
      var cutoff := now - window;
      LiveNothing(cutoff);
      if calls != [] {
        ExpiryIsInvisible(calls, window, now);
      }
      if expiresAt.Some? && expiresAt.value <= now {
        entries := [];                                  // the key is gone
      }
      entries := Live(entries, cutoff);
      assert entries == Live(calls, cutoff);
      LiveExtend(calls, now, cutoff);
      entries := entries + [now];
      expiresAt := Some(now + window);
      allowed := |entries| <= limit;
      calls := calls + [now];
    }
  }

  lemma LiveNothing(cutoff: real)
    ensures Live([], cutoff) == []
  {}

  lemma LiveExtend(times: seq<real>, t: real, cutoff: real)
    ensures Live(times + [t], cutoff) == Live(times, cutoff) + if t > cutoff then [t] else []
  {
    assert (times + [t])[..|times|] == times;
  }

  /** Pruning what the key still holds, or finding it expired, leaves what pruning the whole history
      would leave. */
  lemma ExpiryIsInvisible(calls: seq<real>, window: real, now: real)
    requires calls != [] && LastIsLatest(calls) && calls[|calls| - 1] <= now
    ensures Live(Live(calls, calls[|calls| - 1] - window), now - window) == Live(calls, now - window)
    ensures calls[|calls| - 1] + window <= now ==> Live(calls, now - window) == []
  {
    LiveAgain(calls, calls[|calls| - 1] - window, now - window);
    if calls[|calls| - 1] + window <= now {
      NoneLive(calls, now - window);
    }
  }

  lemma {:induction false} LiveAgain(times: seq<real>, a: real, b: real)
    requires a <= b
    ensures Live(Live(times, a), b) == Live(times, b)
  {
    if times != [] {
      var n := |times| - 1;
      LiveAgain(times[..n], a, b);
      var kept := Live(times[..n], a);
      if times[n] > a {
        assert (kept + [times[n]])[..|kept|] == kept;
      } else {
        assert kept + [] == kept;
      }
    }
  }

  lemma {:induction false} NoneLive(times: seq<real>, cutoff: real)
    requires forall i :: 0 <= i < |times| ==> times[i] <= cutoff
    ensures Live(times, cutoff) == []
  {
    if times != [] {
      NoneLive(times[..|times| - 1], cutoff);
    }
  }

  // ----- what the answers guarantee -----------------------------------------------------------

  /** How many calls in `(lo, hi]` were allowed. */
  function AllowedIn(times: seq<real>, limit: int, window: real, lo: real, hi: real): (n: nat) {
    if times == [] then 0
    else
      var last := times[|times| - 1];
      AllowedIn(times[..|times| - 1], limit, window, lo, hi)
      + if lo < last <= hi && Allowed(times, limit, window) then 1 else 0
  }

  lemma {:induction false} AllowedAreLive(times: seq<real>, limit: int, window: real, lo: real, hi: real, cutoff: real)
    requires cutoff <= lo
    ensures AllowedIn(times, limit, window, lo, hi) <= |Live(times, cutoff)|
  {
    if times != [] {
      AllowedAreLive(times[..|times| - 1], limit, window, lo, hi, cutoff);
    }
  }

  /** Every half-open window of the configured length holds at most `limit` allowed calls. */
  lemma {:induction false} WindowHoldsLimit(times: seq<real>, limit: nat, window: real, lo: real)
    ensures AllowedIn(times, limit, window, lo, lo + window) <= limit
  {
    if times != [] {
      var last := times[|times| - 1];
      if lo < last <= lo + window && Allowed(times, limit, window) {
        AllowedAreLive(times, limit, window, lo, lo + window, last - window);
      } else {
        WindowHoldsLimit(times[..|times| - 1], limit, window, lo);
      }
    }
  }

  /** The same count over the closed window `[lo, hi]`. */
  function AllowedFrom(times: seq<real>, limit: int, window: real, lo: real, hi: real): (n: nat) {
    if times == [] then 0
    else
      var last := times[|times| - 1];
      AllowedFrom(times[..|times| - 1], limit, window, lo, hi)
      + if lo <= last <= hi && Allowed(times, limit, window) then 1 else 0
  }

  lemma {:induction false} ClosedSplits(times: seq<real>, limit: int, window: real, lo: real, hi: real)
    requires window > 0.0
    ensures AllowedFrom(times, limit, window, lo, hi)
            <= AllowedIn(times, limit, window, lo - window, lo) + AllowedIn(times, limit, window, lo, hi)
  {
    if times != [] {
      ClosedSplits(times[..|times| - 1], limit, window, lo, hi);
    }
  }

  /** `n` calls at time zero followed by `m` calls exactly one window later. */
  function Bursts(n: nat, m: nat, window: real): (r: seq<real>)
    ensures |r| == n + m
  {
    seq(n, _ => 0.0) + seq(m, _ => window)
  }

  lemma BurstsGrow(n: nat, m: nat, window: real)
    ensures Bursts(n, m + 1, window) == Bursts(n, m, window) + [window]
    ensures Bursts(n + 1, 0, window) == Bursts(n, 0, window) + [0.0]
  {}

  lemma AllowedExtend(times: seq<real>, t: real, limit: int, window: real, lo: real, hi: real)
    requires lo <= t <= hi && |Live(times + [t], t - window)| <= limit
    ensures AllowedFrom(times + [t], limit, window, lo, hi) == AllowedFrom(times, limit, window, lo, hi) + 1
  {
    hide Live;
    assert (times + [t])[..|times|] == times;
  }

  lemma {:induction false} BurstsLive(n: nat, m: nat, window: real)
    requires window > 0.0
    ensures |Live(Bursts(n, m, window), 0.0)| == m
    ensures |Live(Bursts(n, 0, window), 0.0 - window)| == n
    decreases n + m
  {
    if m > 0 {
      BurstsLive(n, m - 1, window);
      BurstsGrow(n, m - 1, window);
      LiveExtend(Bursts(n, m - 1, window), window, 0.0);
    } else if n > 0 {
      BurstsLive(n - 1, 0, window);
      BurstsGrow(n - 1, 0, window);
      LiveExtend(Bursts(n - 1, 0, window), 0.0, 0.0);
      LiveExtend(Bursts(n - 1, 0, window), 0.0, 0.0 - window);
    }
  }

  lemma {:induction false} BurstsAllAllowed(n: nat, m: nat, limit: nat, window: real)
    requires n <= limit && m <= limit && window > 0.0
    ensures AllowedFrom(Bursts(n, m, window), limit, window, 0.0, window) == n + m
    decreases n + m
  {
    hide Live, Bursts;
    BurstsLive(n, m, window);
    if m > 0 {
      BurstsAllAllowed(n, m - 1, limit, window);
      BurstsGrow(n, m - 1, window);
      assert window - window == 0.0;
      AllowedExtend(Bursts(n, m - 1, window), window, limit, window, 0.0, window);
    } else if n > 0 {
      BurstsAllAllowed(n - 1, 0, limit, window);
      BurstsGrow(n - 1, 0, window);
      AllowedExtend(Bursts(n - 1, 0, window), 0.0, limit, window, 0.0, window);
    }
  }

  /** A window that includes both its ends may hold twice the limit, and never more: calls made exactly
      one window apart do not see each other. */
  lemma ClosedWindowIsTwiceLimit(times: seq<real>, limit: nat, window: real, lo: real)
    requires window > 0.0
    ensures AllowedFrom(times, limit, window, lo, lo + window) <= 2 * limit
    ensures AllowedFrom(Bursts(limit, limit, window), limit, window, 0.0, window) == 2 * limit
  {
    ClosedSplits(times, limit, window, lo, lo + window);
    WindowHoldsLimit(times, limit, window, lo - window);
    WindowHoldsLimit(times, limit, window, lo);
    assert lo - window + window == lo;
    BurstsAllAllowed(limit, limit, limit, window);
  }
}
