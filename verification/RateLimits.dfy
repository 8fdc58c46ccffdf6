/** How far the limiter's promises reach: the exact condition of the rate bound, and what
    happens to a client that waits as long as it was told. */
module RateLimits {
  import opened RateLimiter

  // ------------------------------------------------- a window beyond the eviction horizon

  const K := Key("k")
  const OTHER := Key("x")

  /** The run, and then the same request `n` times. */
  function Repeat(run: seq<Request>, r: Request, n: nat): seq<Request> {
    if n == 0 then run else Repeat(run, r, n - 1) + [r]
  }

  lemma AdmittedOn(l: Limits, run: seq<Request>, r: Request, k: Key)
    ensures AdmittedOf(Play(l, run + [r]), k) == AdmittedOf(Enter(l, Play(l, run), r.key, r.now), k)
  {
    assert (run + [r])[..|run|] == run;
  }

  predicate TimedUpTo(run: seq<Request>, t: real) {
    Timed(run) && forall i :: 0 <= i < |run| ==> run[i].now <= t
  }

  lemma {:induction false} RepeatTimed(run: seq<Request>, r: Request, n: nat)
    requires TimedUpTo(run, r.now)
    ensures TimedUpTo(Repeat(run, r, n), r.now)
  {
    if n > 0 {
      RepeatTimed(run, r, n - 1);
    }
  }

  lemma CountAppended(acc: seq<real>, x: real, from: real, to: real)
    ensures CountWithin(acc + [x], from, to) == CountWithin(acc, from, to) + if from <= x <= to then 1 else 0
    ensures CountSince(acc + [x], from) == CountSince(acc, from) + if from <= x then 1 else 0
  {
    assert (acc + [x])[..|acc|] == acc;
  }

  /** K is in the book with `n` recorded timestamps since 1.0, `n` admissions between t and
      `to`, its last access at `at`, and `count` requests seen. */
  predicate Tally(b: Book, t: real, to: real, n: nat, at: real, count: nat) {
    && K in b.histories && K in b.lastAccess && b.lastAccess[K] == at && b.count == count
    && CountSince(b.histories[K], 1.0) == n && CountWithin(AdmittedOf(b, K), t, to) == n
  }

  lemma TallyOn(l: Limits, run: seq<Request>, r: Request, t: real, to: real, n: nat, at: real, count: nat)
    requires Tally(Enter(l, Play(l, run), r.key, r.now), t, to, n, at, count)
    ensures Tally(Play(l, run + [r]), t, to, n, at, count)
  {
    assert (run + [r])[..|run|] == run;
  }

  lemma EnterAdmits(l: Limits, b: Book, now: real)
    requires !Rejects(l, HistoryOf(BookCounted(l, b, now), K, now), now)
    ensures var h, b' := HistoryOf(BookCounted(l, b, now), K, now), Enter(l, b, K, now);
            && K in b'.histories && b'.histories[K] == h + [now] && K in b'.lastAccess && b'.lastAccess[K] == now
            && b'.count == b.count + 1 && AdmittedOf(b', K) == AdmittedOf(b, K) + [now]
  {
  }

  lemma FreshNotRejected(l: Limits, now: real)
    requires l.maxRequests >= 2
    ensures !Rejects(l, [now - 1.0], now)
  {
    CountSorted([now - 1.0], now - l.window, l.maxRequests);
  }

  /** The very first request of a run is admitted. */
  lemma FirstAdmitted(l: Limits, t: real, to: real)
    requires l.maxRequests >= 2 && l.window > 0.0 && t > 0.0
    ensures Tally(Enter(l, BLANK, K, 0.0), t, to, 0, 0.0, 1)
  {
    FreshNotRejected(l, 0.0);
    CountedAt(l, BLANK, 0.0, K);
    EnterAdmits(l, BLANK, 0.0);
    CountAppended([0.0 - 1.0], 0.0, 1.0, 1.0);
    CountAppended([], 0.0 - 1.0, 1.0, 1.0);
    assert [] + [0.0 - 1.0] == [0.0 - 1.0];
    CountAppended([], 0.0, t, to);
  }

  /** One more request of the burst is admitted. */
  lemma BurstStep(l: Limits, b: Book, t: real, to: real, n: nat, at: real, count: nat)
    requires n < l.maxRequests && l.window > 300.0 && t == l.window + 1.0 && t <= to
    requires Tally(b, t, to, n, at, count) && (at == t || (count + 1) % 1000 != 0)
    ensures Tally(Enter(l, b, K, t), t, to, n + 1, t, count + 1)
  {
    CountedAt(l, b, t, K);
    EnterAdmits(l, b, t);
    CountAppended(b.histories[K], t, 1.0, 1.0);
    CountAppended(AdmittedOf(b, K), t, t, to);
  }

  lemma {:induction false} BurstTally(l: Limits, run: seq<Request>, t: real, to: real, n: nat)
    requires l.maxRequests >= 2 && n <= l.maxRequests && l.window > 300.0 && t == l.window + 1.0 && t <= to
    requires Tally(Play(l, run), t, to, 0, 0.0, 1)
    ensures Tally(Play(l, Repeat(run, Request(K, t), n)), t, to, n, if n == 0 then 0.0 else t, n + 1)
  {
    if n > 0 {
      var before := Repeat(run, Request(K, t), n - 1);
      BurstTally(l, run, t, to, n - 1);
      BurstStep(l, Play(l, before), t, to, n - 1, if n == 1 then 0.0 else t, n);
      TallyOn(l, before, Request(K, t), t, to, n, t, n + 1);
    }
  }

  lemma OtherKeepsTally(l: Limits, b: Book, t: real, to: real, n: nat, count: nat)
    requires Tally(b, t, to, n, t, count)
    ensures Tally(Enter(l, b, OTHER, t), t, to, n, t, count + 1)
  {
    CountedAt(l, b, t, K);
  }

  lemma {:induction false} OthersKeepTally(l: Limits, run: seq<Request>, t: real, to: real, n: nat, k: nat, count: nat)
    requires Tally(Play(l, run), t, to, n, t, count)
    ensures Tally(Play(l, Repeat(run, Request(OTHER, t), k)), t, to, n, t, count + k)
  {
    if k > 0 {
      var before := Repeat(run, Request(OTHER, t), k - 1);
      OthersKeepTally(l, run, t, to, n, k - 1, count);
      OtherKeepsTally(l, Play(l, before), t, to, n, count + k - 1);
      TallyOn(l, before, Request(OTHER, t), t, to, n, t, count + k);
    }
  }

  /** Requests that bring `count` to the last one before a sweep. */
  function Padding(count: nat): (p: nat)
    ensures (count + p + 1) % 1000 == 0
  {
    (999 - count) % 1000
  }

  /** A first request, a burst, and requests of another key up to the next sweep. */
  function UpToSweep(t: real, n: nat): seq<Request> {
    Repeat(Repeat([Request(K, 0.0)], Request(K, t), n), Request(OTHER, t), Padding(n + 1))
  }

  lemma UpToSweepTimed(t: real, n: nat)
    requires t >= 0.0
    ensures TimedUpTo(UpToSweep(t, n), t)
  {
    RepeatTimed([Request(K, 0.0)], Request(K, t), n);
    RepeatTimed(Repeat([Request(K, 0.0)], Request(K, t), n), Request(OTHER, t), Padding(n + 1));
  }

  lemma SweepTally(l: Limits, t: real, to: real, n: nat)
    requires n == l.maxRequests && n >= 2 && l.window > 300.0 && t == l.window + 1.0 && t <= to
    ensures Tally(Play(l, UpToSweep(t, n)), t, to, n, t, n + 1 + Padding(n + 1))
  {
    var first := Request(K, 0.0);
    FirstAdmitted(l, t, to);
    TallyOn(l, [], first, t, to, 0, 0.0, 1);
    assert [] + [first] == [first];
    BurstTally(l, [first], t, to, n);
    OthersKeepTally(l, Repeat([first], Request(K, t), n), t, to, n, Padding(n + 1), n + 1);
  }

  /** The sweep evicts K, and its new history admits it at once: one too many. */
  lemma EvictedReturns(l: Limits, b: Book, t: real, to: real, n: nat, count: nat)
    requires l.maxRequests >= 2 && l.maxKeys == 0 && to - t > 300.0
    requires Tally(b, t, to, n, t, count) && (count + 1) % 1000 == 0
    ensures CountWithin(AdmittedOf(Enter(l, b, K, to), K), t, to) == n + 1
  {
    assert |b.histories| > 0;
    CountedAt(l, b, to, K);
    FreshNotRejected(l, to);
    EnterAdmits(l, b, to);
    CountAppended(AdmittedOf(b, K), to, t, to);
  }

  /** The closed interval holds no more admissions of the key than the limit. */
  predicate IntervalFits(l: Limits, run: seq<Request>, key: Key, from: real, to: real) {
    CountWithin(AdmittedOf(Play(l, run), key), from, to) <= l.maxRequests
  }

  lemma OneTooMany(l: Limits, before: seq<Request>, t: real, to: real, count: nat)
    requires l.maxRequests >= 2 && l.maxKeys == 0 && to - t > 300.0
    requires Tally(Play(l, before), t, to, l.maxRequests, t, count) && (count + 1) % 1000 == 0
    ensures !IntervalFits(l, before + [Request(K, to)], K, t, to)
  {
    EvictedReturns(l, Play(l, before), t, to, l.maxRequests, count);
    AdmittedOn(l, before, Request(K, to), K);
  }

  lemma TimedOn(run: seq<Request>, t: real, r: Request)
    requires TimedUpTo(run, t) && t <= r.now
    ensures Timed(run + [r])
  {
  }

  /** With a window above 300 seconds and at least two requests allowed, a key that is evicted
      and recreated admits more than maxRequests requests within one window. */
  lemma WindowBeyondHorizon(l: Limits, t: real, to: real) returns (run: seq<Request>)
    requires l.maxRequests >= 2 && l.window > 300.0 && l.maxKeys == 0 && t == l.window + 1.0 && to == t + l.window
    ensures Timed(run) && !IntervalFits(l, run, K, t, to)
  {
    var before, count: nat := UpToSweep(t, l.maxRequests), l.maxRequests + 1 + Padding(l.maxRequests + 1);
    SweepTally(l, t, to, l.maxRequests);
    OneTooMany(l, before, t, to, count);
    UpToSweepTimed(t, l.maxRequests);
    TimedOn(before, t, Request(K, to));
    run := before + [Request(K, to)];
  }

  ghost predicate BoundHolds(l: Limits) {
    forall run, key, from, to :: Timed(run) && to - from <= l.window ==> IntervalFits(l, run, key, from, to)
  }

  /** The rate bound holds for every run and every number of keys if and only if the window
      is at most the fixed eviction horizon, or a single request is allowed. */
  lemma RateBoundExact(maxRequests: int, window: real)
    requires maxRequests >= 1
    ensures (forall maxKeys :: BoundHolds(Limits(maxRequests, window, maxKeys)))
            <==> window <= 300.0 || maxRequests == 1
  {
    if window <= 300.0 || maxRequests == 1 {
      forall maxKeys: int, run: seq<Request>, key: Key, from: real, to: real | Timed(run) && to - from <= window
        ensures IntervalFits(Limits(maxRequests, window, maxKeys), run, key, from, to)
      {
        RateBound(Limits(maxRequests, window, maxKeys), run, key, from, to);
      }
    } else {
      var l := Limits(maxRequests, window, 0);
      var run := WindowBeyondHorizon(l, window + 1.0, window + 1.0 + window);
      assert !BoundHolds(l);
    }
  }

  // ------------------------------------------------- waiting as told

  function ServeFrom(l: Limits, s: State, run: seq<Request>): (s': State)
    requires Filled(l, s)
    ensures Filled(l, s')
    decreases run
  {
    if run == [] then s
    else
      FilledAfter(l, s, run[0].key, run[0].now);
      ServeFrom(l, Arrive(l, s, run[0].key, run[0].now).0, run[1..])
  }

  lemma CountedKeeps(l: Limits, s: State, key: Key, now: real)
    ensures var c := Counted(l, s, now);
            && (key in c.deques ==> key in s.deques && c.deques[key] == s.deques[key])
            && (key in c.lastAccess ==> key in s.lastAccess && c.lastAccess[key] == s.lastAccess[key])
            && (key in s.deques && key in s.lastAccess && s.lastAccess[key] >= now - EVICTION_HORIZON ==>
                  key in c.deques && key in c.lastAccess)
  {
  }

  /** Traffic of other keys leaves a key's deque as it is, or evicts it; and it cannot evict
      it within the horizon. */
  lemma {:induction false} OthersKeep(l: Limits, s: State, others: seq<Request>, key: Key, dq: seq<real>, at: real,
                                      until: real)
    requires Filled(l, s) && forall i :: 0 <= i < |others| ==> others[i].key != key && others[i].now <= until
    requires key in s.deques ==> s.deques[key] == dq
    ensures var s' := ServeFrom(l, s, others);
            && (key in s'.deques ==> s'.deques[key] == dq)
            && (key in s.deques && key in s.lastAccess && s.lastAccess[key] == at && until - at <= EVICTION_HORIZON ==>
                  key in s'.deques && key in s'.lastAccess && s'.lastAccess[key] == at)
    decreases others
  {
    if others != [] {
      var r := others[0];
      CountedKeeps(l, s, key, r.now);
      FilledAfter(l, s, r.key, r.now);
      OthersKeep(l, Arrive(l, s, r.key, r.now).0, others[1..], key, dq, at, until);
    }
  }

  /** A rejected client that comes back after retry_after, with no other traffic on its key,
      is admitted if and only if its key was not evicted meanwhile, or a new key's sentinel
      leaves room for a request. */
  lemma RetryAdmitted(l: Limits, s: State, key: Key, now: real, others: seq<Request>, later: real)
    requires Filled(l, s) && Arrive(l, s, key, now).1.TooMany?
    requires forall i :: 0 <= i < |others| ==> others[i].key != key && others[i].now <= later
    requires later >= now + Arrive(l, s, key, now).1.retryAfter as real
    ensures Filled(l, Arrive(l, s, key, now).0)
    ensures var s' := ServeFrom(l, Arrive(l, s, key, now).0, others);
            Arrive(l, s', key, later).1.Admitted?
            <==> key in Counted(l, s', later).deques || l.maxRequests >= 2 || l.window < 1.0
  {
    var rejected := Arrive(l, s, key, now);
    var dq := DequeOf(Counted(l, s, now), key, now);
    FilledAfter(l, s, key, now);
    OthersKeep(l, rejected.0, others, key, dq, now, later);
    var s' := ServeFrom(l, rejected.0, others);
    CountedKeeps(l, s', key, later);
    var wait := dq[0] + l.window - now;
    assert wait.Floor as real <= wait < wait.Floor as real + 1.0;
  }

  lemma WholeSeconds(wait: real)
    requires wait < 300.0
    ensures wait.Floor + 1 <= 300 && (wait.Floor + 1) as real <= 300.0
  {
    assert wait.Floor as real <= wait;
  }

  /** With a window below 300 seconds nobody is told to wait longer than that. */
  lemma ShortWait(l: Limits, s: State, key: Key, now: real)
    requires Filled(l, s) && Arrive(l, s, key, now).1.TooMany? && l.window < 300.0
    requires DequeOf(Counted(l, s, now), key, now)[0] <= now
    ensures Arrive(l, s, key, now).1.retryAfter as real <= 300.0
  {
    WholeSeconds(DequeOf(Counted(l, s, now), key, now)[0] + l.window - now);
  }

  /** A rejected client that comes back within the horizon finds its deque again. */
  lemma BackWithinHorizon(l: Limits, s: State, key: Key, now: real, others: seq<Request>, later: real)
    requires Filled(l, s) && Arrive(l, s, key, now).1.TooMany? && later - now <= EVICTION_HORIZON
    requires forall i :: 0 <= i < |others| ==> others[i].key != key && others[i].now <= later
    ensures Filled(l, Arrive(l, s, key, now).0)
    ensures key in Counted(l, ServeFrom(l, Arrive(l, s, key, now).0, others), later).deques
  {
    var s1 := Arrive(l, s, key, now).0;
    FilledAfter(l, s, key, now);
    OthersKeep(l, s1, others, key, s1.deques[key], now, later);
    CountedKeeps(l, ServeFrom(l, s1, others), key, later);
  }

  /** With a window below 300 seconds, or two requests or more allowed, waiting exactly
      retry_after is enough. */
  lemma RetryAfterSuffices(l: Limits, s: State, key: Key, now: real, others: seq<Request>)
    requires Filled(l, s) && Arrive(l, s, key, now).1.TooMany?
    requires DequeOf(Counted(l, s, now), key, now)[0] <= now
    requires l.window < 300.0 || l.maxRequests >= 2
    requires var later := now + Arrive(l, s, key, now).1.retryAfter as real;
             forall i :: 0 <= i < |others| ==> others[i].key != key && others[i].now <= later
    ensures Filled(l, Arrive(l, s, key, now).0)
    ensures var later := now + Arrive(l, s, key, now).1.retryAfter as real;
            Arrive(l, ServeFrom(l, Arrive(l, s, key, now).0, others), key, later).1.Admitted?
  {
    var later := now + Arrive(l, s, key, now).1.retryAfter as real;
    RetryAdmitted(l, s, key, now, others, later);
    if l.maxRequests < 2 {
      ShortWait(l, s, key, now);
      BackWithinHorizon(l, s, key, now, others, later);
    }
  }

  // ------------------------------------------------- when waiting as told is enough

  /** A client is rejected after a run, and comes back after retry_after; in between only
      other keys are served. */
  predicate Returns(l: Limits, run: seq<Request>, key: Key, now: real, others: seq<Request>)
    requires l.maxRequests >= 1
  {
    && Timed(run) && (run != [] ==> run[|run| - 1].now <= now)
    && var answer := Arrive(l, Serve(l, run), key, now).1;
    && answer.TooMany? && Timed(others)
    && forall i :: 0 <= i < |others| ==> others[i].key != key && now <= others[i].now <= now + answer.retryAfter as real
  }

  function SecondAnswer(l: Limits, run: seq<Request>, key: Key, now: real, others: seq<Request>): Answer
    requires l.maxRequests >= 1 && Returns(l, run, key, now, others)
  {
    FilledAfter(l, Serve(l, run), key, now);
    var first := Arrive(l, Serve(l, run), key, now);
    Arrive(l, ServeFrom(l, first.0, others), key, now + first.1.retryAfter as real).1
  }

  ghost predicate WaitingSuffices(l: Limits)
    requires l.maxRequests >= 1
  {
    forall run, key, now, others :: Returns(l, run, key, now, others) ==>
      SecondAnswer(l, run, key, now, others).Admitted?
  }

  /** The oldest entry of a key's deque is not ahead of the clock. */
  lemma DequeBehindClock(l: Limits, run: seq<Request>, key: Key, now: real)
    requires l.maxRequests >= 1 && Timed(run) && (run != [] ==> run[|run| - 1].now <= now)
    ensures DequeOf(Counted(l, Serve(l, run), now), key, now)[0] <= now
  {
    var s := Serve(l, run);
    CountedKeeps(l, s, key, now);
    if key in s.deques {
      RejectionExact(l, run, key, now);
      HistorySorted(l, run, key, now);
      TailStarts(s.deques[key], Play(l, run).histories[key], l.maxRequests, now);
    }
  }

  lemma TailStarts(dq: seq<real>, h: seq<real>, n: int, now: real)
    requires Tail(dq, h, n) && UpTo(h, now)
    ensures dq != [] && dq[0] <= now
  {
  }

  /** The client's own key has the single entry `at`, and `count` requests have been seen. */
  predicate Holding(s: State, at: real, count: nat) {
    K in s.deques && s.deques[K] == [at] && K in s.lastAccess && s.lastAccess[K] == at && s.count == count
  }

  lemma ServeOn(l: Limits, run: seq<Request>, r: Request)
    requires l.maxRequests >= 1
    ensures Serve(l, run + [r]) == Arrive(l, Serve(l, run), r.key, r.now).0
  {
    assert (run + [r])[..|run|] == run;
  }

  lemma {:induction false} OthersLeaveHolding(l: Limits, run: seq<Request>, at: real, k: nat, count: nat)
    requires l.maxRequests >= 1 && count + k < 1000 && Holding(Serve(l, run), at, count)
    ensures Holding(Serve(l, Repeat(run, Request(OTHER, at), k)), at, count + k)
  {
    if k > 0 {
      OthersLeaveHolding(l, run, at, k - 1, count);
      ServeOn(l, Repeat(run, Request(OTHER, at), k - 1), Request(OTHER, at));
    }
  }

  /** A first request, rejected by its own sentinel, and a second one, which is admitted. */
  lemma HoldingAfterTwo(l: Limits)
    requires l.maxRequests == 1 && l.window >= 300.0
    ensures Holding(Serve(l, [Request(K, 0.0), Request(K, l.window)]), l.window, 2)
  {
    var first, second := Request(K, 0.0), Request(K, l.window);
    ServeOn(l, [], first);
    assert [] + [first] == [first];
    assert Counted(l, EMPTY, 0.0) == EMPTY.(count := 1) && DequeOf(EMPTY.(count := 1), K, 0.0) == [0.0 - 1.0];
    assert Arrive(l, EMPTY, K, 0.0).0.deques[K] == [0.0 - 1.0];
    assert [first] + [second] == [first, second];
    ServeOn(l, [first], second);
  }

  /** Traffic that brings the client's rejection to the last request before a sweep. */
  function BeforeSweep(window: real): seq<Request> {
    Repeat([Request(K, 0.0), Request(K, window)], Request(OTHER, window), 996)
  }

  /** With a single request allowed and a window of 300 seconds or more, a client that waits
      as long as it was told can be rejected again: its key is swept on its return. */
  lemma WaitingCanFail(l: Limits)
    requires l.maxRequests == 1 && l.window >= 300.0 && l.maxKeys == 0
    ensures Returns(l, BeforeSweep(l.window), K, l.window, [])
    ensures SecondAnswer(l, BeforeSweep(l.window), K, l.window, []).TooMany?
  {
    var now := l.window;
    var two := [Request(K, 0.0), Request(K, now)];
    assert TimedUpTo(two, now);
    RepeatTimed(two, Request(OTHER, now), 996);
    HoldingAfterTwo(l);
    OthersLeaveHolding(l, two, now, 996, 2);
    HoldingFails(l, Serve(l, BeforeSweep(now)), now);
  }

  lemma HoldingFails(l: Limits, s: State, now: real)
    requires l.maxRequests == 1 && l.window >= 300.0 && l.maxKeys == 0 && now == l.window
    requires Filled(l, s) && Holding(s, now, 998)
    ensures var first := Arrive(l, s, K, now);
            && first.1.TooMany? && Filled(l, first.0)
            && Arrive(l, first.0, K, now + first.1.retryAfter as real).1.TooMany?
  {
    FilledAfter(l, s, K, now);
    var first := Arrive(l, s, K, now);
    assert first.1 == TooMany(l.window.Floor + 1);
    var later := now + first.1.retryAfter as real;
    assert K in first.0.deques && |first.0.deques| > 0 && first.0.count == 999;
    assert later - now > 300.0 && K in Stale(first.0.lastAccess, later);
    assert DequeOf(Counted(l, first.0, later), K, later) == [later - 1.0];
  }

  lemma ReturnsAdmitted(l: Limits, run: seq<Request>, key: Key, now: real, others: seq<Request>)
    requires l.maxRequests >= 1 && (l.window < 300.0 || l.maxRequests >= 2)
    requires Returns(l, run, key, now, others)
    ensures SecondAnswer(l, run, key, now, others).Admitted?
  {
    DequeBehindClock(l, run, key, now);
    RetryAfterSuffices(l, Serve(l, run), key, now, others);
  }

  /** Waiting as long as told is enough in every run and for every number of keys if and only
      if the window is below the fixed eviction horizon, or two requests are allowed. */
  lemma WaitingSufficesExactly(maxRequests: int, window: real)
    requires maxRequests >= 1
    ensures (forall maxKeys :: WaitingSuffices(Limits(maxRequests, window, maxKeys)))
            <==> window < 300.0 || maxRequests >= 2
  {
    if window < 300.0 || maxRequests >= 2 {
      forall maxKeys: int, run: seq<Request>, key: Key, now: real, others: seq<Request>
        | Returns(Limits(maxRequests, window, maxKeys), run, key, now, others)
        ensures SecondAnswer(Limits(maxRequests, window, maxKeys), run, key, now, others).Admitted?
      {
        ReturnsAdmitted(Limits(maxRequests, window, maxKeys), run, key, now, others);
      }
    } else {
      var l := Limits(maxRequests, window, 0);
      WaitingCanFail(l);
      assert !WaitingSuffices(l);
    }
  }

  /** After any run, a rejected client is told the least number of whole seconds after which the
      oldest timestamp that keeps it out has left the window. */
  lemma RetryAfterExact(l: Limits, run: seq<Request>, key: Key, now: real)
    requires l.maxRequests >= 1 && Timed(run) && (run != [] ==> run[|run| - 1].now <= now)
    requires Arrive(l, Serve(l, run), key, now).1.TooMany?
    ensures var h := HistoryOf(BookCounted(l, Play(l, run), now), key, now);
            var r := Arrive(l, Serve(l, run), key, now).1.retryAfter as real;
            && |h| >= l.maxRequests && h[|h| - l.maxRequests] >= now - l.window
            && r >= 1.0 && h[|h| - l.maxRequests] < now + r - l.window <= h[|h| - l.maxRequests] + 1.0
  {
    RejectionExact(l, run, key, now);
    var b, s := Play(l, run), Serve(l, run);
    CountedRefines(l, s, b, now);
    var c, d := Counted(l, s, now), BookCounted(l, b, now);
    var dq, h := DequeOf(c, key, now), HistoryOf(d, key, now);
    assert Tail(dq, h, l.maxRequests);
    assert |dq| == l.maxRequests && dq[0] == h[|h| - l.maxRequests];
  }

  // ------------------------------------------------- few keys

  function KeysOf(run: seq<Request>): set<Key> {
    set r | r in run :: r.key
  }

  lemma KeysGrow(run: seq<Request>, r: Request)
    ensures KeysOf(run + [r]) == KeysOf(run) + {r.key} && |KeysOf(run)| <= |KeysOf(run + [r])|
  {
    assert forall x :: x in run + [r] <==> x in run || x == r;
    assert forall k :: k in KeysOf(run + [r]) <==> k in KeysOf(run) || k == r.key;
    CardinalityGrows(KeysOf(run), KeysOf(run + [r]));
  }

  lemma CardinalityGrows(a: set<Key>, b: set<Key>)
    requires a <= b
    ensures |a| <= |b|
  {
    assert b == a + (b - a);
  }

  /** The key has its whole history, of which the admissions are all but the sentinel. */
  ghost predicate Whole(l: Limits, b: Book, k: Key) {
    && Spaced(l, AdmittedOf(b, k)) && Sorted(AdmittedOf(b, k))
    && (if k in b.histories then b.histories[k] != [] && AdmittedOf(b, k) == b.histories[k][1..]
        else AdmittedOf(b, k) == [])
  }

  lemma OneMoreSpaced(l: Limits, acc: seq<real>, h: seq<real>, now: real)
    requires l.maxRequests >= 1 && Spaced(l, acc) && Sorted(acc) && UpTo(h, now) && acc == h[1..]
    requires !Rejects(l, h, now)
    ensures Spaced(l, acc + [now]) && Sorted(acc + [now]) && acc + [now] == (h + [now])[1..]
  {
    CountSorted(h, now - l.window, l.maxRequests);
    assert |acc| >= l.maxRequests ==> acc[|acc| - l.maxRequests] == h[|h| - l.maxRequests];
  }

  lemma WholeStaysWhole(l: Limits, b: Book, key: Key, now: real, k: Key)
    requires l.maxRequests >= 1 && Whole(l, b, k) && |b.histories| <= l.maxKeys
    requires k in b.histories ==> UpTo(b.histories[k], now)
    ensures Whole(l, Enter(l, b, key, now), k)
  {
    CountedAt(l, b, now, k);
    EnteredAt(l, b, key, now, k);
    var h := HistoryOf(BookCounted(l, b, now), k, now);
    if k == key && !Rejects(l, h, now) {
      OneMoreSpaced(l, AdmittedOf(b, k), h, now);
    }
  }

  lemma NothingEvicted(l: Limits, b: Book, r: Request)
    requires |b.histories| <= l.maxKeys
    ensures Enter(l, b, r.key, r.now).histories.Keys == b.histories.Keys + {r.key}
  {
    forall x
      ensures x in Enter(l, b, r.key, r.now).histories <==> x in b.histories || x == r.key
    {
      CountedAt(l, b, r.now, x);
      EnteredAt(l, b, r.key, r.now, x);
    }
  }

  lemma {:induction false} FewKeys(l: Limits, run: seq<Request>)
    requires |KeysOf(run)| <= l.maxKeys
    ensures Play(l, run).histories.Keys == KeysOf(run) && |Play(l, run).histories| <= l.maxKeys
    decreases |run|
  {
    if run != [] {
      var rest, r := run[..|run| - 1], run[|run| - 1];
      assert run == rest + [r];
      KeysGrow(rest, r);
      FewKeys(l, rest);
      NothingEvicted(l, Play(l, rest), r);
    }
    assert |Play(l, run).histories| == |Play(l, run).histories.Keys|;
  }

  /** With no more keys than the limit, no key is ever forgotten. */
  lemma {:induction false} FewKeysStay(l: Limits, run: seq<Request>, k: Key)
    requires l.maxRequests >= 1 && Timed(run) && |KeysOf(run)| <= l.maxKeys
    ensures Play(l, run).histories.Keys == KeysOf(run) && Whole(l, Play(l, run), k)
    decreases |run|
  {
    FewKeys(l, run);
    if run != [] {
      var rest, r := run[..|run| - 1], run[|run| - 1];
      assert run == rest + [r];
      KeysGrow(rest, r);
      FewKeys(l, rest);
      FewKeysStay(l, rest, k);
      HistorySorted(l, rest, k, r.now);
      WholeStaysWhole(l, Play(l, rest), r.key, r.now, k);
    }
  }

  /** So then the rate bound holds for windows of any length. */
  lemma FewKeysBound(l: Limits, run: seq<Request>, key: Key, from: real, to: real)
    requires l.maxRequests >= 1 && Timed(run) && |KeysOf(run)| <= l.maxKeys && to - from <= l.window
    ensures CountWithin(AdmittedOf(Play(l, run), key), from, to) <= l.maxRequests
  {
    FewKeysStay(l, run, key);
    var acc := AdmittedOf(Play(l, run), key);
    var lo, hi := WithinIsSlice(acc, from, to);
    if lo + l.maxRequests < |acc| {
      assert acc[lo + l.maxRequests] - acc[lo] > l.window;
    }
  }
}
