/**
 * The sliding-window rate limiter of the API client: a queue of request
 * timestamps against which each request waits until issuing it would not put
 * more than `maxRequests` requests in a trailing window of `timeWindow` seconds.
 *
 * Time is an integer clock passed in by the caller; `time.sleep(d)` advances
 * it by `d`. The lock around the critical section is not modelled: each call
 * is one sequential step.
 */
module RateLimiting {

  function Last(s: seq<int>): int
    requires s != []
  {
    s[|s| - 1]
  }

  predicate Sorted(s: seq<int>) {
    forall i, j :: 0 <= i < j < |s| ==> s[i] <= s[j]
  }

  /** How many timestamps of `s` fall in the window (lo, hi]. */
  function CountIn(s: seq<int>, lo: int, hi: int): (n: nat)
    ensures n <= |s|
    decreases |s|
  {
    if s == [] then 0 else (if lo < s[0] <= hi then 1 else 0) + CountIn(s[1..], lo, hi)
  }

  /** How many timestamps of `s` fall in the trailing window of `w` seconds ending at `x`. */
  function InWindow(s: seq<int>, x: int, w: int): nat {
    CountIn(s, x - w, x)
  }

  /** No trailing window of `w` seconds, ending anywhere, holds more than `n` of the timestamps. */
  ghost predicate WithinQuota(s: seq<int>, n: int, w: int) {
    forall x :: InWindow(s, x, w) <= n
  }

  /** The queue after the eviction loop: the leading timestamps `<= now - w` are gone, the rest kept. */
  function Evict(q: seq<int>, now: int, w: int): (r: seq<int>)
    decreases |q|
  {
    if q != [] && q[0] <= now - w then Evict(q[1..], now, w) else q
  }

  /**
   * Eviction keeps a suffix of the queue: the dropped entries are all at or
   * before `now - w`, and the first kept one, if any, is after it.
   */
  lemma {:induction false} EvictShape(q: seq<int>, now: int, w: int)
    ensures var r := Evict(q, now, w);
      && |r| <= |q| && r == q[|q| - |r|..]
      && (r != [] ==> r[0] > now - w)
      && (forall i :: 0 <= i < |q| - |r| ==> q[i] <= now - w)
    decreases |q|
  {
    if q != [] && q[0] <= now - w {
      EvictShape(q[1..], now, w);
      var r := Evict(q, now, w);
      assert q[1..][|q| - 1 - |r|..] == q[|q| - |r|..];
      forall i | 0 <= i < |q| - |r|
        ensures q[i] <= now - w
      {
        if i > 0 {
          assert q[i] == q[1..][i - 1];
        }
      }
    }
  }

  /** The queue after one admitted request, and the clock reading appended to it. */
  datatype Admission = Admission(queue: seq<int>, stamp: int)

  /** One call of `wait_if_needed` at clock reading `now`. */
  function Admit(q: seq<int>, now: int, n: int, w: int): Admission
    requires n >= 1
  {
    var e := Evict(q, now, w);
    if |e| >= n then
      var pause := w - (now - e[0]);
      var t := if pause > 0 then now + pause else now;
      Admission(e[1..] + [t], t)
    else
      Admission(e + [now], now)
  }

  /**
   * What one call does to the queue: it evicts, drops at most one more entry
   * (the oldest, exactly when the window is still full), and appends the
   * clock reading taken after the pause. When the window is full the pause
   * is always positive and ends when the oldest entry leaves the window.
   */
  lemma AdmitShape(q: seq<int>, now: int, n: int, w: int)
    requires n >= 1
    ensures var a, e := Admit(q, now, n, w), Evict(q, now, w);
      && a.stamp >= now
      && (|e| >= n ==> a.queue == e[1..] + [a.stamp] && a.stamp == e[0] + w && a.stamp > now)
      && (|e| < n ==> a.queue == e + [a.stamp] && a.stamp == now)
      && |a.queue| == (if |e| >= n then |e| else |e| + 1)
  {
    EvictShape(q, now, w);
  }

  /** The limiter's invariant over the timestamps `h` appended so far and the queue `q`. */
  ghost predicate Inv(h: seq<int>, q: seq<int>, n: int, w: int) {
    && n >= 1
    && |q| <= n
    && |q| <= |h| && q == h[|h| - |q|..]
    && (forall i :: 0 <= i < |h| - |q| ==> h[i] + w <= h[|h| - 1])
    && WithinQuota(h, n, w)
  }

  lemma {:induction false} CountInAppend(a: seq<int>, b: seq<int>, lo: int, hi: int)
    ensures CountIn(a + b, lo, hi) == CountIn(a, lo, hi) + CountIn(b, lo, hi)
    decreases |a|
  {
    if a == [] {
      assert a + b == b;
    } else {
      assert (a + b)[0] == a[0];
      assert (a + b)[1..] == a[1..] + b;
      CountInAppend(a[1..], b, lo, hi);
    }
  }

  lemma {:induction false} CountInNone(a: seq<int>, lo: int, hi: int)
    requires forall i :: 0 <= i < |a| ==> a[i] <= lo
    ensures CountIn(a, lo, hi) == 0
    decreases |a|
  {
    if a != [] {
      CountInNone(a[1..], lo, hi);
    }
  }

  /** A suffix of a suffix is a suffix. */
  lemma SuffixOfSuffix(h: seq<int>, q: seq<int>, e: seq<int>)
    requires |q| <= |h| && q == h[|h| - |q|..]
    requires |e| <= |q| && e == q[|q| - |e|..]
    ensures e == h[|h| - |e|..]
  {
    assert forall i :: 0 <= i < |e| ==> e[i] == q[|q| - |e| + i] == h[|h| - |e| + i];
  }

  /** Extending both a sequence and one of its suffixes by `t` (the suffix possibly shortened by its head). */
  lemma SuffixAppend(h: seq<int>, e: seq<int>, d: nat, t: int)
    requires |e| <= |h| && e == h[|h| - |e|..] && d <= |e|
    ensures e[d..] + [t] == (h + [t])[|h| - |e| + d..]
  {
    var l, r := e[d..] + [t], (h + [t])[|h| - |e| + d..];
    assert |l| == |r|;
    forall i | 0 <= i < |l|
      ensures l[i] == r[i]
    {
      if i < |e| - d {
        assert l[i] == e[d + i] == h[|h| - |e| + d + i];
      }
    }
  }

  /** The queue after a call is the suffix of the extended history that starts at its first kept entry. */
  lemma AdmitQueueIsSuffix(h: seq<int>, q: seq<int>, now: int, n: int, w: int)
    requires n >= 1 && |q| <= |h| && q == h[|h| - |q|..]
    ensures var a := Admit(q, now, n, w);
      && |a.queue| <= |h| + 1 && a.queue == (h + [a.stamp])[|h| + 1 - |a.queue|..]
      && (|q| <= n ==> |a.queue| <= n)
  {
    var a, e := Admit(q, now, n, w), Evict(q, now, w);
    AdmitShape(q, now, n, w);
    EvictShape(q, now, w);
    SuffixOfSuffix(h, q, e);
    if |e| >= n {
      SuffixAppend(h, e, 1, a.stamp);
    } else {
      SuffixAppend(h, e, 0, a.stamp);
      assert e[0..] == e;
    }
  }

  /** Every timestamp that leaves the queue in a call lies at least `w` before the appended one. */
  lemma AdmitRemovesOnlyOld(h: seq<int>, q: seq<int>, now: int, n: int, w: int)
    requires n >= 1 && |q| <= |h| && q == h[|h| - |q|..]
    requires forall i :: 0 <= i < |h| - |q| ==> h[i] + w <= now
    ensures var a := Admit(q, now, n, w);
      forall i :: 0 <= i < |h| + 1 - |a.queue| ==> (h + [a.stamp])[i] + w <= a.stamp
  {
    var a, e := Admit(q, now, n, w), Evict(q, now, w);
    AdmitShape(q, now, n, w);
    EvictShape(q, now, w);
    AdmitQueueIsSuffix(h, q, now, n, w);
    var h' := h + [a.stamp];
    var m, k := |h| - |q|, |q| - |e|;
    forall i | 0 <= i < |h'| - |a.queue|
      ensures h'[i] + w <= a.stamp
    {
      if i < m {
        assert h'[i] == h[i];
      } else if i < m + k {
        assert h'[i] == q[i - m];
      } else {
        assert h'[i] == e[0];
      }
    }
  }

  /** Appending `t`, when every entry outside the queue lies `w` before it, keeps the quota. */
  lemma AppendKeepsQuota(h: seq<int>, q': seq<int>, t: int, n: int, w: int)
    requires WithinQuota(h, n, w)
    requires |q'| <= n && |q'| <= |h| + 1 && q' == (h + [t])[|h| + 1 - |q'|..]
    requires forall i :: 0 <= i < |h| + 1 - |q'| ==> (h + [t])[i] + w <= t
    ensures WithinQuota(h + [t], n, w)
  {
    var h' := h + [t];
    var r := |h'| - |q'|;
    forall x
      ensures InWindow(h', x, w) <= n
    {
      assert InWindow(h, x, w) <= n;
      CountInAppend(h, [t], x - w, x);
      if x >= t {
        assert h' == h'[..r] + q';
        CountInAppend(h'[..r], q', x - w, x);
        CountInNone(h'[..r], x - w, x);
      }
    }
  }

  /** One admitted request preserves the invariant, and with it the quota over all appended timestamps. */
  lemma AdmitKeepsQuota(h: seq<int>, q: seq<int>, now: int, n: int, w: int)
    requires Inv(h, q, n, w)
    requires h != [] ==> Last(h) <= now
    ensures Inv(h + [Admit(q, now, n, w).stamp], Admit(q, now, n, w).queue, n, w)
  {
    var a := Admit(q, now, n, w);
    AdmitQueueIsSuffix(h, q, now, n, w);
    assert forall i :: 0 <= i < |h| - |q| ==> h[i] + w <= now by {
      forall i | 0 <= i < |h| - |q| ensures h[i] + w <= now {
        assert h[i] + w <= h[|h| - 1];
      }
    }
    AdmitRemovesOnlyOld(h, q, now, n, w);
    AppendKeepsQuota(h, a.queue, a.stamp, n, w);
  }

  /** The limiter's state as seen from outside: every timestamp appended, the deque, and the clock. */
  datatype Trace = Trace(stamps: seq<int>, queue: seq<int>, clock: int)

  /** One call at clock reading `now`. */
  function Step(t: Trace, now: int, n: int, w: int): Trace
    requires n >= 1
  {
    var a := Admit(t.queue, now, n, w);
    Trace(t.stamps + [a.stamp], a.queue, a.stamp)
  }

  /** The clock reading `gap` seconds after the previous call returned. */
  function Later(t: Trace, gap: nat): int {
    t.clock + gap
  }

  /** Successive calls, the i-th made `gaps[i]` seconds after the previous one returned. */
  function Replay(t: Trace, gaps: seq<nat>, n: int, w: int): Trace
    requires n >= 1
    decreases |gaps|
  {
    if gaps == [] then t else Replay(Step(t, Later(t, gaps[0]), n, w), gaps[1..], n, w)
  }

  /** The invariant over a trace: that of the limiter, with the clock not behind the last timestamp. */
  ghost predicate TraceInv(t: Trace, n: int, w: int) {
    Inv(t.stamps, t.queue, n, w) && (t.stamps != [] ==> Last(t.stamps) <= t.clock)
  }

  lemma StepKeepsInv(t: Trace, now: int, n: int, w: int)
    requires TraceInv(t, n, w) && t.clock <= now
    ensures TraceInv(Step(t, now, n, w), n, w)
  {
    AdmitKeepsQuota(t.stamps, t.queue, now, n, w);
  }

  lemma {:induction false} ReplayKeepsInv(t: Trace, gaps: seq<nat>, n: int, w: int)
    requires TraceInv(t, n, w)
    ensures TraceInv(Replay(t, gaps, n, w), n, w)
    decreases |gaps|
  {
    if gaps != [] {
      StepKeepsInv(t, Later(t, gaps[0]), n, w);
      ReplayKeepsInv(Step(t, Later(t, gaps[0]), n, w), gaps[1..], n, w);
    }
  }

  /**
   * Starting from an empty deque, whatever the pauses between calls, no
   * trailing window of `w` seconds ever holds more than `n` admitted requests.
   */
  lemma QuotaNeverExceeded(start: int, gaps: seq<nat>, n: int, w: int)
    requires n >= 1
    ensures WithinQuota(Replay(Trace([], [], start), gaps, n, w).stamps, n, w)
  {
    ReplayKeepsInv(Trace([], [], start), gaps, n, w);
  }

  /** Appending a timestamp no earlier than the last one keeps a sequence sorted. */
  lemma AppendSorted(s: seq<int>, t: int)
    requires Sorted(s) && (s != [] ==> Last(s) <= t)
    ensures Sorted(s + [t])
  {
    var s' := s + [t];
    forall i, j | 0 <= i < j < |s'| ensures s'[i] <= s'[j] {
      if j == |s| {
        assert s'[i] == s[i] <= s[|s| - 1];
      } else {
        assert s'[i] == s[i] && s'[j] == s[j];
      }
    }
  }

  /** The queue after a call is a suffix of the old queue followed by the new timestamp. */
  lemma AdmitKeepsTail(q: seq<int>, now: int, n: int, w: int) returns (kept: seq<int>)
    requires n >= 1
    ensures var a := Admit(q, now, n, w);
      |kept| <= |q| && kept == q[|q| - |kept|..] && a.queue == kept + [a.stamp] && a.stamp >= now
  {
    var e := Evict(q, now, w);
    AdmitShape(q, now, n, w);
    EvictShape(q, now, w);
    kept := if |e| >= n then e[1..] else e;
  }

  lemma SortedSuffix(q: seq<int>, k: nat)
    requires Sorted(q) && k <= |q|
    ensures Sorted(q[k..])
  {
  }

  /** With a clock that has not run back behind the queue, a call keeps the queue sorted. */
  lemma AdmitKeepsSorted(q: seq<int>, now: int, n: int, w: int)
    requires n >= 1 && Sorted(q) && (q != [] ==> Last(q) <= now)
    ensures Sorted(Admit(q, now, n, w).queue)
  {
    var kept := AdmitKeepsTail(q, now, n, w);
    SortedSuffix(q, |q| - |kept|);
    assert kept != [] ==> Last(kept) == Last(q);
    AppendSorted(kept, Admit(q, now, n, w).stamp);
  }

  /** Both the appended timestamps and the deque are in order, and neither is ahead of the clock. */
  ghost predicate Ordered(t: Trace) {
    && Sorted(t.stamps) && Sorted(t.queue)
    && (t.stamps != [] ==> Last(t.stamps) <= t.clock)
    && (t.queue != [] ==> Last(t.queue) <= t.clock)
  }

  lemma StepKeepsOrder(t: Trace, now: int, n: int, w: int)
    requires n >= 1 && Ordered(t) && t.clock <= now
    ensures Ordered(Step(t, now, n, w)) && Step(t, now, n, w).clock >= now
  {
    var kept := AdmitKeepsTail(t.queue, now, n, w);
    AppendSorted(t.stamps, Admit(t.queue, now, n, w).stamp);
    AdmitKeepsSorted(t.queue, now, n, w);
  }

  /** Successive calls append non-decreasing timestamps, and the deque stays in order. */
  lemma {:induction false} ReplayKeepsOrder(t: Trace, gaps: seq<nat>, n: int, w: int)
    requires n >= 1 && Ordered(t)
    ensures Ordered(Replay(t, gaps, n, w)) && Replay(t, gaps, n, w).clock >= t.clock
    decreases |gaps|
  {
    if gaps != [] {
      StepKeepsOrder(t, Later(t, gaps[0]), n, w);
      ReplayKeepsOrder(Step(t, Later(t, gaps[0]), n, w), gaps[1..], n, w);
    }
  }

  lemma LastAppend(h: seq<int>, t: int)
    ensures Last(h + [t]) == t
  {
  }

  /** The invariant and the clock condition carried over one call, in terms of the call's results. */
  lemma AdmittedKeepsInv(h: seq<int>, q: seq<int>, now: int, n: int, w: int, q': seq<int>, t: int)
    requires Inv(h, q, n, w) && (h != [] ==> Last(h) <= now)
    requires q' == Admit(q, now, n, w).queue && t == Admit(q, now, n, w).stamp
    ensures Inv(h + [t], q', n, w) && t >= now && Last(h + [t]) == t
  {
    AdmitKeepsQuota(h, q, now, n, w);
    AdmitShape(q, now, n, w);
    LastAppend(h, t);
  }

  class RateLimiter {
    const maxRequests: int
    const timeWindow: int
    /** The deque of request timestamps, oldest first. */
    var requests: seq<int>
    /** Every timestamp appended since construction or the last reset. */
    ghost var history: seq<int>

    ghost predicate Valid()
      reads this
    {
      Inv(history, requests, maxRequests, timeWindow)
    }

    /** The caller's clock has not run back behind the last appended timestamp. */
    ghost predicate ClockNotBehind(now: int)
      reads this
    {
      history == [] || Last(history) <= now
    }

    /** A limiter with `maxRequests` at least 1; with 0, the first call would index an empty deque. */
    constructor (maxRequests: int := 10, timeWindow: int := 10)
      requires maxRequests >= 1
      ensures Valid()
      ensures this.maxRequests == maxRequests && this.timeWindow == timeWindow
      ensures requests == [] && history == []
    {
      this.maxRequests := maxRequests;
      this.timeWindow := timeWindow;
      requests := [];
      history := [];
    }

    /**
     * `wait_if_needed()` at clock reading `now`; returns the clock reading
     * after any pause, which is the timestamp appended.
     */
    method WaitIfNeeded(now: int) returns (t: int)
      requires Valid() && ClockNotBehind(now)
      modifies this
      ensures Valid() && ClockNotBehind(t) && t >= now
      ensures requests == Admit(old(requests), now, maxRequests, timeWindow).queue
      ensures t == Admit(old(requests), now, maxRequests, timeWindow).stamp
      ensures history == old(history) + [t]
      ensures WithinQuota(history, maxRequests, timeWindow)
    {
      ghost var h, q := history, requests;
      t := Admitting(now);
      history := h + [t];
      AdmittedKeepsInv(h, q, now, maxRequests, timeWindow, requests, t);
    }

    /** The body of `wait_if_needed()` under the lock: evict, pause while the window is full, append. */
    method Admitting(now: int) returns (t: int)
      requires maxRequests >= 1
      modifies this
      ensures requests == Admit(old(requests), now, maxRequests, timeWindow).queue
      ensures t == Admit(old(requests), now, maxRequests, timeWindow).stamp
      ensures t >= now && history == old(history)
    {
      AdmitShape(requests, now, maxRequests, timeWindow);
      while requests != [] && requests[0] <= now - timeWindow
        invariant Evict(requests, now, timeWindow) == Evict(old(requests), now, timeWindow)
        invariant history == old(history)
        decreases |requests|
      {
        requests := requests[1..];
      }
      assert requests == Evict(old(requests), now, timeWindow);
      if |requests| >= maxRequests {
        var sleepTime := timeWindow - (now - requests[0]);
        t := now;
        if sleepTime > 0 {
          t := now + sleepTime;
        }
        requests := requests[1..];
      } else {
        t := now;
      }
      requests := requests + [t];
    }

    /** `reset()`: forget every recorded timestamp; the quota settings are constants. */
    method Reset()
      requires Valid()
      modifies this
      ensures Valid()
      ensures requests == [] && history == []
    {
      requests := [];
      history := [];
    }
  }
}
