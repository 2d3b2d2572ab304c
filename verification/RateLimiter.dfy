/** The in-memory sliding-window rate limiter, against the full history of what it accepted. */
module RateLimiter {

  type Key = string

  /** `(allowed, limit, remaining, reset)`. */
  datatype Verdict = Verdict(allowed: bool, limit: int, remaining: int, reset: int)

  /** The timestamps strictly after the cutoff, in order: the list comprehension of `_cleanup`. */
  function After(ts: seq<real>, cutoff: real): (r: seq<real>)
    ensures |r| <= |ts|
  {
    if ts == [] then []
    else
      var rest := After(ts[..|ts| - 1], cutoff);
      var last := ts[|ts| - 1];
      if last > cutoff then rest + [last] else rest
  }

  /** Python's `int()` of a float: truncation toward zero. */
  function Truncate(x: real): int {
    if x >= 0.0 then x.Floor else -((-x).Floor)
  }

  function Max(a: int, b: int): int {
    if a >= b then a else b
  }

  /** `check` on the timestamps of one key. */
  function CheckKey(ts: seq<real>, now: real, max: int, window: int): (seq<real>, Verdict) {
    var live := After(ts, now - window as real);
    if |live| >= max then
      var oldest := if live != [] then live[0] else now;
      (live, Verdict(false, max, 0, Truncate(oldest + window as real - now) + 1))
    else
      (live + [now], Verdict(true, max, Max(0, max - |live| - 1), window))
  }

  // ----- Facts about the window -----

  predicate Sorted(ts: seq<real>) {
    forall j, k :: 0 <= j < k < |ts| ==> ts[j] <= ts[k]
  }

  lemma {:induction false} AfterAppend(ts: seq<real>, t: real, cutoff: real)
    ensures After(ts + [t], cutoff) == if t > cutoff then After(ts, cutoff) + [t] else After(ts, cutoff)
  {
    assert (ts + [t])[..|ts|] == ts;
  }

  /** Pruning early loses nothing that a later cutoff keeps. */
  lemma {:induction false} AfterAfter(ts: seq<real>, early: real, late: real)
    requires early <= late
    ensures After(After(ts, early), late) == After(ts, late)
  {
    if ts != [] {
      var n := |ts| - 1;
      AfterAfter(ts[..n], early, late);
      if ts[n] > early { AfterAppend(After(ts[..n], early), ts[n], late); }
    }
  }

  lemma {:induction false} AfterShrinks(ts: seq<real>, early: real, late: real)
    requires early <= late
    ensures |After(ts, late)| <= |After(ts, early)|
  {
    AfterAfter(ts, early, late);
  }

  /** Recorded on a nondecreasing clock that has reached `now`. */
  predicate Clocked(ts: seq<real>, now: real) {
    Sorted(ts) && forall k :: 0 <= k < |ts| ==> ts[k] <= now
  }

  lemma {:induction false} AfterClocked(ts: seq<real>, cutoff: real, now: real)
    requires Clocked(ts, now)
    ensures Clocked(After(ts, cutoff), now)
    ensures forall k :: 0 <= k < |After(ts, cutoff)| ==> After(ts, cutoff)[k] > cutoff
  {
    if ts != [] {
      var n := |ts| - 1;
      assert Clocked(ts[..n], ts[n]);
      AfterClocked(ts[..n], cutoff, ts[n]);
    }
  }

  /** A sorted list whose head has expired keeps fewer entries than it has. */
  lemma {:induction false} ExpiredHead(ts: seq<real>, cutoff: real)
    requires ts != [] && ts[0] <= cutoff
    ensures |After(ts, cutoff)| < |ts|
  {
    if |ts| > 1 { ExpiredHead(ts[..|ts| - 1], cutoff); }
  }

  /** The number of entries in the half-open interval `(from, to]`. */
  function Count(ts: seq<real>, from: real, to: real): nat {
    if ts == [] then 0
    else Count(ts[..|ts| - 1], from, to) + if from < ts[|ts| - 1] <= to then 1 else 0
  }

  /** The number of entries in `(x, x + window]`. */
  function InWindow(ts: seq<real>, x: real, window: int): nat {
    Count(ts, x, x + window as real)
  }

  lemma {:induction false} CountIsAfter(ts: seq<real>, from: real, to: real)
    requires forall k :: 0 <= k < |ts| ==> ts[k] <= to
    ensures Count(ts, from, to) == |After(ts, from)|
  {
    if ts != [] { CountIsAfter(ts[..|ts| - 1], from, to); }
  }

  // ----- Runs of one key -----

  /** The limiter's list and the full acceptance history after requests at the given times. */
  datatype Track = Track(ts: seq<real>, accepted: seq<real>)

  function Request(t: Track, now: real, max: int, window: int): Track {
    var (ts', v) := CheckKey(t.ts, now, max, window);
    Track(ts', if v.allowed then t.accepted + [now] else t.accepted)
  }

  function Replay(times: seq<real>, max: int, window: int): Track {
    if times == [] then Track([], []) else Request(Replay(times[..|times| - 1], max, window), times[|times| - 1], max, window)
  }

  /** The pruned list agrees with the history on everything a request at `now` (and hence later) can still see. */
  ghost predicate Tracks(t: Track, now: real, window: int) {
    && Clocked(t.accepted, now) && Clocked(t.ts, now)
    && After(t.ts, now - window as real) == After(t.accepted, now - window as real)
  }

  ghost predicate WithinLimit(accepted: seq<real>, max: int, window: int) {
    forall x :: InWindow(accepted, x, window) <= Max(0, max)
  }

  lemma {:induction false} ClockedAppend(ts: seq<real>, before: real, now: real)
    requires Clocked(ts, before) && before <= now
    ensures Clocked(ts, now) && Clocked(ts + [now], now)
  {
  }

  lemma {:induction false} LaterAgrees(ts: seq<real>, accepted: seq<real>, early: real, late: real)
    requires early <= late && After(ts, early) == After(accepted, early)
    ensures After(ts, late) == After(accepted, late)
  {
    AfterAfter(ts, early, late);
    AfterAfter(accepted, early, late);
  }

  lemma {:induction false} AppendAgrees(ts: seq<real>, accepted: seq<real>, now: real, cut: real)
    requires After(ts, cut) == After(accepted, cut)
    ensures After(ts + [now], cut) == After(accepted + [now], cut)
  {
    AfterAppend(ts, now, cut);
    AfterAppend(accepted, now, cut);
  }

  lemma {:induction false} RequestAgrees(t: Track, now: real, max: int, window: int)
    requires After(t.ts, now - window as real) == After(t.accepted, now - window as real)
    ensures var t' := Request(t, now, max, window);
      After(t'.ts, now - window as real) == After(t'.accepted, now - window as real)
  {
    RequestIs(t, now, max, window);
    PrunedAgrees(t.ts, t.accepted, now, now - window as real);
  }

  /** What a request does to the two lists. */
  lemma {:induction false} RequestIs(t: Track, now: real, max: int, window: int)
    ensures var live := After(t.ts, now - window as real);
      Request(t, now, max, window)
      == if |live| >= max then Track(live, t.accepted) else Track(live + [now], t.accepted + [now])
  {
  }

  /** Pruning at the cutoff, and appending after it, keeps the agreement. */
  lemma {:induction false} PrunedAgrees(ts: seq<real>, accepted: seq<real>, now: real, cut: real)
    requires After(ts, cut) == After(accepted, cut)
    ensures After(After(ts, cut), cut) == After(accepted, cut)
    ensures After(After(ts, cut) + [now], cut) == After(accepted + [now], cut)
  {
    AfterAfter(ts, cut, cut);
    AppendAgrees(After(ts, cut), accepted, now, cut);
  }

  lemma {:induction false} RequestClocked(t: Track, before: real, now: real, max: int, window: int)
    requires Clocked(t.accepted, before) && Clocked(t.ts, before) && before <= now
    ensures var t' := Request(t, now, max, window); Clocked(t'.accepted, now) && Clocked(t'.ts, now)
  {
    var live := After(t.ts, now - window as real);
    AfterClocked(t.ts, now - window as real, before);
    ClockedAppend(live, before, now);
    ClockedAppend(t.accepted, before, now);
  }

  lemma {:induction false} RequestTracks(t: Track, before: real, now: real, max: int, window: int)
    requires Tracks(t, before, window) && before <= now
    ensures Tracks(Request(t, now, max, window), now, window)
  {
    TrackedLater(t, before, now, window);
    RequestAgrees(t, now, max, window);
    RequestClocked(t, before, now, max, window);
  }

  lemma {:induction false} TrackedLater(t: Track, before: real, now: real, window: int)
    requires Tracks(t, before, window) && before <= now
    ensures After(t.ts, now - window as real) == After(t.accepted, now - window as real)
  {
    LaterAgrees(t.ts, t.accepted, before - window as real, now - window as real);
  }

  lemma {:induction false} CountAppend(ts: seq<real>, t: real, from: real, to: real)
    ensures Count(ts + [t], from, to) == Count(ts, from, to) + if from < t <= to then 1 else 0
  {
    assert (ts + [t])[..|ts|] == ts;
  }

  lemma {:induction false} RequestWithinLimit(t: Track, before: real, now: real, max: int, window: int)
    requires Tracks(t, before, window) && before <= now && WithinLimit(t.accepted, max, window)
    ensures WithinLimit(Request(t, now, max, window).accepted, max, window)
  {
    TrackedLater(t, before, now, window);
    if CheckKey(t.ts, now, max, window).1.allowed {
      forall x ensures InWindow(t.accepted + [now], x, window) <= Max(0, max) {
        assert InWindow(t.accepted, x, window) <= Max(0, max);
        RoomForOne(t.accepted, x, now, max, window as real);
      }
    }
  }

  /** With room in the window that ends at `now`, one more entry overfills no window of that length. */
  lemma {:induction false} RoomForOne(ts: seq<real>, x: real, now: real, max: int, w: real)
    requires forall k :: 0 <= k < |ts| ==> ts[k] <= now
    requires |After(ts, now - w)| < max && Count(ts, x, x + w) <= max
    ensures Count(ts + [now], x, x + w) <= max
  {
    CountAppend(ts, now, x, x + w);
    if x < now <= x + w {
      CountIsAfter(ts, x, x + w);
      AfterShrinks(ts, now - w, x);
    }
  }

  predicate Nondecreasing(times: seq<real>) {
    Sorted(times)
  }

  function LastTime(times: seq<real>): real {
    if times == [] then 0.0 else times[|times| - 1]
  }

  lemma {:induction false} ReplayInvariant(times: seq<real>, max: int, window: int)
    requires Nondecreasing(times)
    ensures WithinLimit(Replay(times, max, window).accepted, max, window)
    ensures times != [] ==> Tracks(Replay(times, max, window), LastTime(times), window)
    ensures times == [] ==> forall now :: Tracks(Replay(times, max, window), now, window)
  {
    if times != [] {
      var n := |times| - 1;
      ReplayInvariant(times[..n], max, window);
      var t := Replay(times[..n], max, window);
      var before := if n == 0 then times[n] else times[n - 1];
      assert Tracks(t, before, window);
      RequestTracks(t, before, times[n], max, window);
      RequestWithinLimit(t, before, times[n], max, window);
    }
  }

  lemma {:induction false} BeforeRequest(times: seq<real>, now: real, max: int, window: int) returns (before: real)
    requires Nondecreasing(times + [now])
    ensures Nondecreasing(times) && before <= now && Tracks(Replay(times, max, window), before, window)
  {
    forall j, k | 0 <= j < k < |times| ensures times[j] <= times[k] {
      assert (times + [now])[j] == times[j] && (times + [now])[k] == times[k];
    }
    ReplayInvariant(times, max, window);
    before := if times == [] then now else LastTime(times);
    if times != [] {
      assert (times + [now])[|times| - 1] == LastTime(times) && (times + [now])[|times|] == now;
    }
  }

  /** Refinement: on a nondecreasing clock the pruned list accepts a request exactly when the full acceptance history
      has fewer than `max` entries in the window that ends at it. */
  lemma {:induction false} PrunedListIsEnough(times: seq<real>, now: real, max: int, window: int)
    requires Nondecreasing(times + [now])
    ensures var t := Replay(times, max, window);
      CheckKey(t.ts, now, max, window).1.allowed <==> Count(t.accepted, now - window as real, now) < max
  {
    var t := Replay(times, max, window);
    HistoryAgrees(times, now, max, window);
    AgreeDecides(t.ts, t.accepted, now, max, window);
  }

  lemma {:induction false} AgreeDecides(ts: seq<real>, accepted: seq<real>, now: real, max: int, window: int)
    requires After(ts, now - window as real) == After(accepted, now - window as real)
    requires forall k :: 0 <= k < |accepted| ==> accepted[k] <= now
    ensures CheckKey(ts, now, max, window).1.allowed <==> Count(accepted, now - window as real, now) < max
  {
    CountIsAfter(accepted, now - window as real, now);
  }

  lemma {:induction false} HistoryAgrees(times: seq<real>, now: real, max: int, window: int)
    requires Nondecreasing(times + [now])
    ensures var t := Replay(times, max, window);
      && After(t.ts, now - window as real) == After(t.accepted, now - window as real)
      && forall k :: 0 <= k < |t.accepted| ==> t.accepted[k] <= now
  {
    var before := BeforeRequest(times, now, max, window);
    TrackedLater(Replay(times, max, window), before, now, window);
    ClockedLater(Replay(times, max, window).accepted, before, now);
  }

  lemma {:induction false} ClockedLater(ts: seq<real>, before: real, now: real)
    requires Clocked(ts, before) && before <= now
    ensures forall k :: 0 <= k < |ts| ==> ts[k] <= now
  {
  }

  /** In any run on a nondecreasing clock, no half-open interval as long as the window holds more than `max`
      acceptances. */
  lemma {:induction false} WindowBound(times: seq<real>, max: int, window: int, x: real)
    requires Nondecreasing(times)
    ensures InWindow(Replay(times, max, window).accepted, x, window) <= Max(0, max)
  {
    ReplayInvariant(times, max, window);
  }

  // ----- The retry hint -----

  /** On the list itself: a full list that rejects at `now` gives a hint between 1 and window + 1, and has room once
      the hint has passed. */
  lemma {:induction false} FullListExpires(live: seq<real>, now: real, later: real, max: int, window: int)
    requires |live| == max >= 1 && now - window as real < live[0] <= now
    requires later >= now + (Truncate(live[0] + window as real - now) + 1) as real
    ensures 1 <= Truncate(live[0] + window as real - now) + 1 <= window + 1
    ensures CheckKey(live, later, max, window).1.allowed
  {
    ExpiredHead(live, later - window as real);
  }

  /** A rejection's reset is between 1 and window + 1, and a request that waits that long is accepted. */
  lemma {:induction false} RetryHintSuffices(times: seq<real>, now: real, later: real, max: int, window: int)
    requires Nondecreasing(times + [now]) && max >= 1
    requires !CheckKey(Replay(times, max, window).ts, now, max, window).1.allowed
    requires later >= now + CheckKey(Replay(times, max, window).ts, now, max, window).1.reset as real
    ensures 1 <= CheckKey(Replay(times, max, window).ts, now, max, window).1.reset <= window + 1
    ensures CheckKey(Replay(times + [now], max, window).ts, later, max, window).1.allowed
  {
    var ts := Replay(times, max, window).ts;
    LiveBounds(times, now, max, window);
    RejectionSays(ts, now, max, window);
    RejectedReplay(times, now, max, window);
    FullListExpires(After(ts, now - window as real), now, later, max, window);
  }

  /** A rejection of a list that is not over the limit: it is full, and the hint is about its oldest entry. */
  lemma {:induction false} RejectionSays(ts: seq<real>, now: real, max: int, window: int)
    requires max >= 1 && |After(ts, now - window as real)| <= max && !CheckKey(ts, now, max, window).1.allowed
    ensures var live := After(ts, now - window as real);
      |live| == max && CheckKey(ts, now, max, window).1.reset == Truncate(live[0] + window as real - now) + 1
  {
  }

  /** A rejected request leaves the pruned list behind. */
  lemma {:induction false} RejectedReplay(times: seq<real>, now: real, max: int, window: int)
    requires !CheckKey(Replay(times, max, window).ts, now, max, window).1.allowed
    ensures Replay(times + [now], max, window).ts == After(Replay(times, max, window).ts, now - window as real)
  {
    assert (times + [now])[..|times|] == times;
  }

  lemma {:induction false} LiveBounds(times: seq<real>, now: real, max: int, window: int)
    requires Nondecreasing(times + [now])
    ensures var live := After(Replay(times, max, window).ts, now - window as real);
      && |live| <= Max(0, max)
      && (live != [] ==> now - window as real < live[0] <= now)
  {
    var before := BeforeRequest(times, now, max, window);
    AfterClocked(Replay(times, max, window).ts, now - window as real, before);
    ReplayLength(times, max, window);
  }

  /** The list never grows past the limit. */
  lemma {:induction false} ReplayLength(times: seq<real>, max: int, window: int)
    ensures |Replay(times, max, window).ts| <= Max(0, max)
  {
    if times != [] { ReplayLength(times[..|times| - 1], max, window); }
  }

  /** The hint is tight to the second: a request more than one second earlier is rejected as well. */
  lemma {:induction false} RetryHintIsTight(times: seq<real>, now: real, earlier: real, max: int, window: int)
    requires Nondecreasing(times + [now]) && max >= 1 && now <= earlier
    requires !CheckKey(Replay(times, max, window).ts, now, max, window).1.allowed
    requires earlier < now + (CheckKey(Replay(times, max, window).ts, now, max, window).1.reset - 1) as real
    ensures !CheckKey(Replay(times + [now], max, window).ts, earlier, max, window).1.allowed
  {
    LiveBounds(times, now, max, window);
    LiveSorted(times, now, max, window);
    RejectedReplay(times, now, max, window);
    TightOnList(Replay(times, max, window).ts, now, earlier, max, window);
  }

  lemma {:induction false} TightOnList(ts: seq<real>, now: real, earlier: real, max: int, window: int)
    requires var live := After(ts, now - window as real);
      |live| <= max && Sorted(live) && (live != [] ==> now - window as real < live[0])
    requires max >= 1 && !CheckKey(ts, now, max, window).1.allowed
    requires earlier < now + (CheckKey(ts, now, max, window).1.reset - 1) as real
    ensures !CheckKey(After(ts, now - window as real), earlier, max, window).1.allowed
  {
    RejectionSays(ts, now, max, window);
    FullListStays(After(ts, now - window as real), now, earlier, max, window);
  }

  lemma {:induction false} LiveSorted(times: seq<real>, now: real, max: int, window: int)
    requires Nondecreasing(times + [now])
    ensures Sorted(After(Replay(times, max, window).ts, now - window as real))
  {
    var before := BeforeRequest(times, now, max, window);
    AfterClocked(Replay(times, max, window).ts, now - window as real, before);
  }

  lemma {:induction false} FullListStays(live: seq<real>, now: real, earlier: real, max: int, window: int)
    requires |live| == max >= 1 && now - window as real < live[0] && Sorted(live)
    requires earlier < now + Truncate(live[0] + window as real - now) as real
    ensures !CheckKey(live, earlier, max, window).1.allowed
  {
    StillFull(live, earlier - window as real);
  }

  lemma {:induction false} StillFull(live: seq<real>, cutoff: real)
    requires Sorted(live)
    ensures live != [] && live[0] > cutoff ==> After(live, cutoff) == live
  {
    if |live| > 1 {
      var n := |live| - 1;
      StillFull(live[..n], cutoff);
      assert live == live[..n] + [live[n]];
    }
  }

  /** What a verdict says, in terms of the full acceptance history: on acceptance the room that was left in the window, less
      this request, and the window itself; on rejection that there is none. */
  lemma {:induction false} VerdictSays(times: seq<real>, now: real, max: int, window: int)
    requires Nondecreasing(times + [now])
    ensures var v := CheckKey(Replay(times, max, window).ts, now, max, window).1;
      var used := Count(Replay(times, max, window).accepted, now - window as real, now);
      && v.limit == max
      && (v.allowed ==> v.reset == window && v.remaining == max - used - 1 >= 0)
      && (!v.allowed ==> v.remaining == 0)
  {
    HistoryAgrees(times, now, max, window);
    CountIsAfter(Replay(times, max, window).accepted, now - window as real, now);
  }

  // ----- Runs of all keys -----

  datatype Arrival = Arrival(key: Key, now: real)

  function ListOf(m: map<Key, seq<real>>, key: Key): seq<real> {
    if key in m then m[key] else []
  }

  function RunAll(arrivals: seq<Arrival>, max: int, window: int): map<Key, seq<real>> {
    if arrivals == [] then map[]
    else
      var m, a := RunAll(arrivals[..|arrivals| - 1], max, window), arrivals[|arrivals| - 1];
      m[a.key := CheckKey(ListOf(m, a.key), a.now, max, window).0]
  }

  function TimesOf(arrivals: seq<Arrival>, key: Key): seq<real> {
    if arrivals == [] then []
    else
      var before, a := TimesOf(arrivals[..|arrivals| - 1], key), arrivals[|arrivals| - 1];
      if a.key == key then before + [a.now] else before
  }

  /** However the requests of different keys interleave, each key is limited as if it were alone. */
  lemma {:induction false} KeysAreIndependent(arrivals: seq<Arrival>, key: Key, max: int, window: int)
    ensures ListOf(RunAll(arrivals, max, window), key) == Replay(TimesOf(arrivals, key), max, window).ts
  {
    if arrivals != [] {
      var n := |arrivals| - 1;
      KeysAreIndependent(arrivals[..n], key, max, window);
      var before, a := TimesOf(arrivals[..n], key), arrivals[n];
      if a.key == key { assert (before + [a.now])[..|before|] == before; }
    }
  }

  // ----- The object -----

  class SlidingWindowRateLimiter {
    const maxRequests: int
    const windowSeconds: int
    /** A `defaultdict`: a key that was never used reads as the empty list. */
    var requests: map<Key, seq<real>>

    constructor (maxRequests: int, windowSeconds: int)
      ensures this.maxRequests == maxRequests && this.windowSeconds == windowSeconds && requests == map[]
    {
      this.maxRequests, this.windowSeconds := maxRequests, windowSeconds;
      requests := map[];
    }

    function Of(key: Key): seq<real>
      reads this
    {
      ListOf(requests, key)
    }

    method Cleanup(key: Key, now: real)
      modifies this`requests
      ensures requests == old(requests)[key := After(old(Of(key)), now - windowSeconds as real)]
    {
      var cutoff := now - windowSeconds as real;
      var ts := Of(key);
      var kept: seq<real> := [];
      for k := 0 to |ts|
        invariant kept == After(ts[..k], cutoff)
      {
        assert ts[..k + 1][..k] == ts[..k];
        if ts[k] > cutoff {
          kept := kept + [ts[k]];
        }
      }
      assert ts[..|ts|] == ts;
      requests := requests[key := kept];
    }

    /** Decides one request and leaves every other key alone. */
    method Check(key: Key, now: real) returns (v: Verdict)
      modifies this`requests
      ensures v == CheckKey(old(Of(key)), now, maxRequests, windowSeconds).1
      ensures requests == old(requests)[key := CheckKey(old(Of(key)), now, maxRequests, windowSeconds).0]
      ensures forall other :: other != key ==> Of(other) == old(Of(other))
    {
      Cleanup(key, now);
      var currentCount := |requests[key]|;
      if currentCount >= maxRequests {
        var oldest := if requests[key] != [] then requests[key][0] else now;
        var resetAt := Truncate(oldest + windowSeconds as real - now) + 1;
        return Verdict(false, maxRequests, 0, resetAt);
      }
      requests := requests[key := requests[key] + [now]];
      var remaining := Max(0, maxRequests - currentCount - 1);
      return Verdict(true, maxRequests, remaining, windowSeconds);
    }
  }
}
