/** The sliding-window rate limiter: a pruned deque that decides like the full history. */
module AbuseLimiter {
  import opened Domain

  datatype Key = Key(user: int, action: string)

  /** `limit or default`: a missing limit and zero both mean the default. */
  function EffectiveLimit(limit: Option<nat>, default: nat): nat {
    if limit.Some? && limit.value != 0 then limit.value else default
  }

  /** The deque after popping every leading timestamp up to the cutoff. */
  function Prune(events: seq<real>, cutoff: real): seq<real> {
    if events != [] && events[0] <= cutoff then Prune(events[1..], cutoff) else events
  }

  function Decide(queue: seq<real>, now: real, window: real, limit: nat): (seq<real>, bool) {
    var kept := Prune(queue, now - window);
    if |kept| >= limit then (kept, false) else (kept + [now], true)
  }

  // ---------------------------------------------------------------- against the full history

  /** How many of the times lie after `low` and not after `high`. */
  function Count(times: seq<real>, low: real, high: real): nat {
    if times == [] then 0
    else
      var last := times[|times| - 1];
      Count(times[..|times| - 1], low, high) + (if low < last <= high then 1 else 0)
  }

  /** One request for the key, with the limit that applies to it. */
  datatype Request = Request(now: real, limit: nat)

  /** The deque of the key and, for comparison, every admission there ever was. */
  datatype State = State(queue: seq<real>, history: seq<real>, clock: real)

  function Step(window: real, s: State, request: Request): State {
    if request.now < s.clock then s
    else
      var (kept, verdict) := Decide(s.queue, request.now, window, request.limit);
      State(kept, if verdict then s.history + [request.now] else s.history, request.now)
  }

  function Run(window: real, start: real, requests: seq<Request>): State {
    if requests == [] then State([], [], start)
    else Step(window, Run(window, start, requests[..|requests| - 1]), requests[|requests| - 1])
  }

  predicate Ascending(times: seq<real>) {
    forall i, j :: 0 <= i < j < |times| ==> times[i] <= times[j]
  }

  predicate IsSuffix(part: seq<real>, times: seq<real>) {
    |part| <= |times| && part == times[|times| - |part|..]
  }

  predicate FirstUpTo(times: seq<real>, n: nat, bound: real) {
    n <= |times| && forall i :: 0 <= i < n ==> times[i] <= bound
  }

  predicate RestAfter(times: seq<real>, n: nat, bound: real) {
    n <= |times| && forall i :: n <= i < |times| ==> times[i] > bound
  }

  /** The deque is the end of the history; what was popped had left the window already. */
  predicate Faithful(window: real, s: State) {
    && IsSuffix(s.queue, s.history) && Ascending(s.history)
    && FirstUpTo(s.history, |s.history|, s.clock) && FirstUpTo(s.history, |s.history| - |s.queue|, s.clock - window)
  }

  lemma {:induction false} PruneIsSuffix(times: seq<real>, cutoff: real)
    requires Ascending(times)
    ensures
      var kept := Prune(times, cutoff);
      && IsSuffix(kept, times)
      && FirstUpTo(times, |times| - |kept|, cutoff) && RestAfter(times, |times| - |kept|, cutoff)
  {
    if times != [] && times[0] <= cutoff {
      PruneIsSuffix(times[1..], cutoff);
      var kept := Prune(times, cutoff);
      forall i | 0 <= i < |times| - |kept| ensures times[i] <= cutoff {
        if i > 0 { assert times[i] == times[1..][i - 1]; }
      }
    }
  }

  /** Counting a history whose last `k` times, and no others, lie in the interval. */
  lemma {:induction false} CountSuffix(times: seq<real>, k: nat, low: real, high: real)
    requires k <= |times| && FirstUpTo(times, |times| - k, low) && RestAfter(times, |times| - k, low)
    requires FirstUpTo(times, |times|, high)
    ensures Count(times, low, high) == k
  {
    if times != [] {
      CountSuffix(times[..|times| - 1], if k == 0 then 0 else k - 1, low, high);
    }
  }

  lemma {:induction false} CountShrinks(times: seq<real>, low: real, high: real, lower: real, higher: real)
    requires lower <= low && forall i :: 0 <= i < |times| ==> times[i] <= higher
    ensures Count(times, low, high) <= Count(times, lower, higher)
  {
    if times != [] { CountShrinks(times[..|times| - 1], low, high, lower, higher); }
  }

  lemma SuffixOfSuffix(history: seq<real>, queue: seq<real>, kept: seq<real>)
    requires IsSuffix(queue, history) && IsSuffix(kept, queue)
    ensures IsSuffix(kept, history)
  {
  }

  /** What a deque says of its times holds of the end of the history that it is. */
  lemma SplitOfSuffix(history: seq<real>, queue: seq<real>, n: nat, cutoff: real)
    requires IsSuffix(queue, history) && FirstUpTo(history, |history| - |queue|, cutoff)
    requires FirstUpTo(queue, n, cutoff) && RestAfter(queue, n, cutoff)
    ensures FirstUpTo(history, |history| - |queue| + n, cutoff) && RestAfter(history, |history| - |queue| + n, cutoff)
  {
    var offset := |history| - |queue|;
    assert forall i :: offset <= i < |history| ==> history[i] == queue[i - offset];
  }

  lemma QueueAscends(history: seq<real>, queue: seq<real>)
    requires IsSuffix(queue, history) && Ascending(history)
    ensures Ascending(queue)
  {
    var offset := |history| - |queue|;
    assert forall i :: 0 <= i < |queue| ==> queue[i] == history[offset + i];
  }

  lemma BoundRises(times: seq<real>, n: nat, bound: real, higher: real)
    requires FirstUpTo(times, n, bound) && bound <= higher
    ensures FirstUpTo(times, n, higher)
  {
  }

  /** What pruning keeps is still the end of the history, and everything before it has left the window. */
  lemma KeptIsSuffix(window: real, s: State, now: real)
    requires Faithful(window, s) && now >= s.clock
    ensures
      var kept, n := Prune(s.queue, now - window), |s.history|;
      && IsSuffix(kept, s.history) && |kept| <= n && FirstUpTo(s.history, n, now)
      && FirstUpTo(s.history, n - |kept|, now - window) && RestAfter(s.history, n - |kept|, now - window)
  {
    var kept, n, cutoff := Prune(s.queue, now - window), |s.history|, now - window;
    assert |s.queue| <= n;
    hide Prune, Ascending, IsSuffix, FirstUpTo, RestAfter;
    QueueAscends(s.history, s.queue);
    PruneIsSuffix(s.queue, cutoff);
    assert |kept| <= |s.queue| by { SuffixIsShorter(kept, s.queue); }
    BoundRises(s.history, n, s.clock, now);
    BoundRises(s.history, n - |s.queue|, s.clock - window, cutoff);
    SuffixOfSuffix(s.history, s.queue, kept);
    SplitOfSuffix(s.history, s.queue, |s.queue| - |kept|, cutoff);
    assert n - |s.queue| + (|s.queue| - |kept|) == n - |kept|;
  }

  lemma SuffixIsShorter(part: seq<real>, times: seq<real>)
    requires IsSuffix(part, times)
    ensures |part| <= |times|
  {
  }

  lemma AdmissionIsFaithful(window: real, s: State, now: real)
    requires Faithful(window, s) && now >= s.clock
    ensures Faithful(window, State(s.queue + [now], s.history + [now], now))
  {
    var n, k := |s.history|, |s.queue|;
    assert (s.history + [now])[n - k..] == s.history[n - k..] + [now];
  }

  lemma StepIsFaithful(window: real, s: State, request: Request)
    requires Faithful(window, s)
    ensures Faithful(window, Step(window, s, request))
  {
    if request.now >= s.clock {
      KeptIsSuffix(window, s, request.now);
      hide Prune;
      var pruned := State(Prune(s.queue, request.now - window), s.history, request.now);
      assert Faithful(window, pruned);
      AdmissionIsFaithful(window, pruned, request.now);
      hide Faithful;
    }
  }

  lemma {:induction false} RunIsFaithful(window: real, start: real, requests: seq<Request>)
    requires window >= 0.0
    ensures Faithful(window, Run(window, start, requests))
  {
    if requests != [] {
      RunIsFaithful(window, start, requests[..|requests| - 1]);
      StepIsFaithful(window, Run(window, start, requests[..|requests| - 1]), requests[|requests| - 1]);
    }
  }

  lemma KeptCounts(window: real, s: State, now: real)
    requires Faithful(window, s) && now >= s.clock
    ensures |Prune(s.queue, now - window)| == Count(s.history, now - window, now)
  {
    KeptIsSuffix(window, s, now);
    hide Prune, Faithful, Count;
    CountSuffix(s.history, |Prune(s.queue, now - window)|, now - window, now);
  }

  /** On clocks that do not go back, the deque admits exactly when the full history has room in the window. */
  lemma DecidesLikeHistory(window: real, start: real, requests: seq<Request>, now: real, limit: nat)
    requires window >= 0.0 && now >= Run(window, start, requests).clock
    ensures
      var s := Run(window, start, requests);
      Decide(s.queue, now, window, limit).1 <==> Count(s.history, now - window, now) < limit
  {
    hide Prune, Faithful, Count;
    RunIsFaithful(window, start, requests);
    KeptCounts(window, Run(window, start, requests), now);
  }

  /** With a fixed limit no window of the configured length, ending at any time, holds more admissions than that. */
  lemma {:induction false} NoWindowOverflows(window: real, start: real, requests: seq<Request>, limit: nat, end: real)
    requires window >= 0.0 && forall i :: 0 <= i < |requests| ==> requests[i].limit == limit
    ensures Count(Run(window, start, requests).history, end - window, end) <= limit
  {
    if requests != [] {
      var earlier, last := requests[..|requests| - 1], requests[|requests| - 1];
      var s := Run(window, start, earlier);
      NoWindowOverflows(window, start, earlier, limit, end);
      var after := Run(window, start, requests);
      if after.history != s.history {
        assert after.history[..|after.history| - 1] == s.history;
        DecidesLikeHistory(window, start, earlier, last.now, limit);
        RunIsFaithful(window, start, earlier);
        if last.now <= end { CountShrinks(s.history, end - window, end, last.now - window, last.now); }
      }
    }
  }

  /** No stretch of time as long as the window, wherever it ends, holds more than `limit` of these times. */
  ghost predicate Fits(times: seq<real>, window: real, limit: nat) {
    forall end, low :: low == end - window ==> Count(times, low, end) <= limit
  }

  lemma AdmissionFits(window: real, s: State, limit: nat, now: real)
    requires window >= 0.0 && Faithful(window, s) && now >= s.clock
    requires Fits(s.history, window, limit) && Count(s.history, now - window, now) < limit
    ensures Fits(s.history + [now], window, limit)
  {
    var times := s.history;
    forall end, low | low == end - window ensures Count(times + [now], low, end) <= limit {
      assert (times + [now])[..|times|] == times;
      if now <= end { CountShrinks(times, low, end, now - window, now); }
    }
  }

  /** The guard counts every admission in the half-open window, each once. */
  lemma {:induction false} CountIsCardinality(times: seq<real>, low: real, high: real)
    ensures Count(times, low, high) == |set i | 0 <= i < |times| && low < times[i] <= high|
  {
    if times != [] {
      var n := |times| - 1;
      CountIsCardinality(times[..n], low, high);
      var all, earlier := set i | 0 <= i < |times| && low < times[i] <= high, set i | 0 <= i < n && low < times[..n][i] <= high;
      assert all == earlier + if low < times[n] <= high then {n} else {};
    }
  }

  /** What the pruned deque tells about the whole history, and what becomes of both. */
  lemma PrunedDecides(window: real, s: State, queue: seq<real>, limit: nat, now: real)
    requires Faithful(window, s) && now >= s.clock && queue == Prune(s.queue, now - window)
    ensures |queue| == Count(s.history, now - window, now)
    ensures |queue| >= limit ==> Faithful(window, State(queue, s.history, now))
    ensures |queue| < limit ==> Faithful(window, State(queue + [now], s.history + [now], now))
    ensures |queue| < limit && window >= 0.0 && Fits(s.history, window, limit) ==> Fits(s.history + [now], window, limit)
  {
    KeptCounts(window, s, now);
    StepIsFaithful(window, s, Request(now, limit));
    if |queue| < limit && window >= 0.0 && Fits(s.history, window, limit) { AdmissionFits(window, s, limit, now); }
    hide Prune, Faithful, Count, Fits;
  }

  /** The times of a key, none for a key that was never seen. */
  function Past(admitted: map<Key, seq<real>>, key: Key): seq<real> {
    if key in admitted then admitted[key] else []
  }

  /** Each deque still holds every admission that lies in the window. */
  ghost predicate AllFaithful(window: real, events: map<Key, seq<real>>, admitted: map<Key, seq<real>>, clock: real) {
    forall key :: Faithful(window, State(Past(events, key), Past(admitted, key), clock))
  }

  lemma FaithfulAt(window: real, events: map<Key, seq<real>>, admitted: map<Key, seq<real>>, clock: real, key: Key)
    requires AllFaithful(window, events, admitted, clock)
    ensures Faithful(window, State(Past(events, key), Past(admitted, key), clock))
  {
    hide Faithful;
  }

  /** Time takes nothing out of the other deques that is still in the window. */
  lemma UpdateStaysFaithful(window: real, events: map<Key, seq<real>>, admitted: map<Key, seq<real>>, clock: real, key: Key,
                            queue: seq<real>, after: map<Key, seq<real>>, now: real)
    requires AllFaithful(window, events, admitted, clock) && now >= clock
    requires Faithful(window, State(queue, Past(after, key), now)) && forall k :: k != key ==> Past(after, k) == Past(admitted, k)
    ensures AllFaithful(window, events[key := queue], after, now)
  {
    hide Faithful;
    forall k ensures Faithful(window, State(Past(events[key := queue], k), Past(after, k), now)) {
      if k != key {
        assert Past(after, k) == Past(admitted, k) && Past(events[key := queue], k) == Past(events, k);
        TimePasses(window, Past(events, k), Past(admitted, k), clock, now);
      }
    }
  }

  lemma TimePasses(window: real, queue: seq<real>, history: seq<real>, clock: real, now: real)
    requires Faithful(window, State(queue, history, clock)) && now >= clock
    ensures Faithful(window, State(queue, history, now))
  {
  }

  function Admit(admitted: map<Key, seq<real>>, key: Key, now: real): map<Key, seq<real>> {
    admitted[key := Past(admitted, key) + [now]]
  }

  lemma AdmitExtendsOne(admitted: map<Key, seq<real>>, key: Key, now: real)
    ensures Past(Admit(admitted, key, now), key) == Past(admitted, key) + [now]
    ensures forall k :: k != key ==> Past(Admit(admitted, key, now), k) == Past(admitted, k)
  {
  }

  /** What one request does to the deques and to the history, in terms of the history. */
  lemma AllowDecides(window: real, events: map<Key, seq<real>>, admitted: map<Key, seq<real>>, clock: real, key: Key, limit: nat,
                     now: real)
    requires AllFaithful(window, events, admitted, clock) && now >= clock
    ensures
      var kept := Prune(Past(events, key), now - window);
      && |kept| == Count(Past(admitted, key), now - window, now)
      && (|kept| >= limit ==> AllFaithful(window, events[key := kept], admitted, now))
      && (|kept| < limit ==> AllFaithful(window, events[key := kept + [now]], Admit(admitted, key, now), now))
      && (|kept| < limit && window >= 0.0 && Fits(Past(admitted, key), window, limit) ==>
            Fits(Past(admitted, key) + [now], window, limit))
  {
    hide Prune, Faithful, Count, Fits, AllFaithful, Admit, Past;
    var s := State(Past(events, key), Past(admitted, key), clock);
    var kept := Prune(s.queue, now - window);
    FaithfulAt(window, events, admitted, clock, key);
    PrunedDecides(window, s, kept, limit, now);
    AdmitExtendsOne(admitted, key, now);
    if |kept| >= limit { UpdateStaysFaithful(window, events, admitted, clock, key, kept, admitted, now); }
    else { UpdateStaysFaithful(window, events, admitted, clock, key, kept + [now], Admit(admitted, key, now), now); }
  }

  /** The guard of the bot; what it admitted so far is history and stored nowhere. */
  class AbuseGuard {
    const defaultLimit: nat
    const windowSeconds: real
    var events: map<Key, seq<real>>
    ghost var admitted: map<Key, seq<real>>
    ghost var clock: real

    ghost predicate Valid()
      reads this
    {
      AllFaithful(windowSeconds, events, admitted, clock)
    }

    constructor (defaultLimit: nat, windowSeconds: real, ghost start: real)
      ensures this.defaultLimit == defaultLimit && this.windowSeconds == windowSeconds && events == map[]
      ensures Valid() && clock == start && admitted == map[]
    {
      this.defaultLimit := defaultLimit;
      this.windowSeconds := windowSeconds;
      events := map[];
      admitted := map[];
      clock := start;
    }

    /**
     The clock is monotonic. A request is admitted exactly when fewer than the limit were admitted for the same user and
     action in the window that ends now; a missing limit and zero both mean the default.
     */
    method Allow(user: int, action: string, limit: Option<nat>, now: real) returns (allowed: bool)
      requires Valid() && now >= clock
      modifies this
      ensures Valid() && clock == now
      ensures
        var most := if limit.Some? && limit.value != 0 then limit.value else defaultLimit;
        allowed <==> Count(Past(old(admitted), Key(user, action)), now - windowSeconds, now) < most
      ensures Past(admitted, Key(user, action)) == Past(old(admitted), Key(user, action)) + (if allowed then [now] else [])
      ensures forall key :: key != Key(user, action) ==> Past(admitted, key) == Past(old(admitted), key)
      ensures
        var most := if limit.Some? && limit.value != 0 then limit.value else defaultLimit;
        windowSeconds >= 0.0 && Fits(Past(old(admitted), Key(user, action)), windowSeconds, most) ==>
          Fits(Past(admitted, Key(user, action)), windowSeconds, most)
    {
      hide AllFaithful, Faithful, Count, Fits, Past, Admit;
      var key := Key(user, action);
      var cutoff := now - windowSeconds;
      var queue := Past(events, key);
      ghost var stored := queue;
      while queue != [] && queue[0] <= cutoff
        invariant Prune(queue, cutoff) == Prune(stored, cutoff)
        decreases |queue|
      {
        queue := queue[1..];
      }
      var effectiveLimit := EffectiveLimit(limit, defaultLimit);
      assert Prune(stored, cutoff) == queue;
      AllowDecides(windowSeconds, events, admitted, clock, key, effectiveLimit, now);
      AdmitExtendsOne(admitted, key, now);
      hide Prune;
      clock := now;
      if |queue| >= effectiveLimit {
        events := events[key := queue];
        return false;
      }
      events := events[key := queue + [now]];
      admitted := Admit(admitted, key, now);
      return true;
    }
  }
}
