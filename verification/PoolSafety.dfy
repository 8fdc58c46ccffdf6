/** No instance leaks, and none is closed under an endpoint list that still hands it out. */
module PoolSafety {
  import opened ProviderPool

  // ------------------------------------------------- where an instance is

  predicate InCache(s: Pool, x: nat) {
    exists k :: k in s.cache && s.cache[k].instance == x
  }

  predicate Among(jobs: seq<Job>, x: nat) {
    exists i :: 0 <= i < |jobs| && jobs[i].instance == x
  }

  predicate Scheduled(s: Pool, x: nat) {
    Among(s.jobs, x)
  }

  /** The number of places that know of `x`. */
  function Places(s: Pool, x: nat): nat {
    (if InCache(s, x) then 1 else 0) + (if x in s.pending then 1 else 0)
    + (if Scheduled(s, x) then 1 else 0) + (if x in s.closed then 1 else 0)
  }

  /** No place knows of an instance twice. */
  predicate NoRepeats(s: Pool) {
    && (forall k, l :: k in s.cache && l in s.cache && s.cache[k].instance == s.cache[l].instance ==> k == l)
    && Distinct(s.pending)
    && (forall i, j :: 0 <= i < j < |s.jobs| ==> s.jobs[i].instance != s.jobs[j].instance)
  }

  /** Every instance ever created is in exactly one place, except those in `hands`. */
  ghost predicate Settled(s: Pool, hands: set<nat>) {
    && NoRepeats(s)
    && forall x: nat :: Places(s, x) == if x < s.created && x !in hands then 1 else 0
  }

  // ------------------------------------------------- what a list may rely on

  /** `x` was in use at `since`: it is not closed before a full grace period from then. */
  predicate HeldSince(s: Pool, x: nat, since: real, now: real) {
    && since <= now && x < s.created
    && (forall i :: 0 <= i < |s.jobs| && s.jobs[i].instance == x ==> s.jobs[i].due >= since + CLOSE_GRACE)
    && (x in s.closed ==> now >= since + CLOSE_GRACE)
  }

  predicate AllHeld(s: Pool, xs: seq<nat>, since: real, now: real) {
    since <= now && forall i :: 0 <= i < |xs| ==> HeldSince(s, xs[i], since, now)
  }

  predicate ListsHeld(s: Pool, now: real) {
    && (forall g :: g in s.listings ==> AllHeld(s, s.listings[g].instances, s.listings[g].since, now))
    && (forall i :: 0 <= i < |s.loads| ==> AllHeld(s, s.loads[i].got, s.loads[i].since, now))
  }

  ghost predicate Inv(s: Pool, now: real) {
    Settled(s, {}) && ListsHeld(s, now)
  }

  // ------------------------------------------------- the moves of an instance

  /** Out of the cache into someone's hands. */
  lemma Taken(s: Pool, key: Key)
    requires Settled(s, {}) && key in s.cache
    ensures Settled(s.(cache := Without(s.cache, key)), {s.cache[key].instance})
  {
    var x, s' := s.cache[key].instance, s.(cache := Without(s.cache, key));
    assert InCache(s, x);
    forall y: nat
      ensures InCache(s', y) <==> InCache(s, y) && y != x
    {
      if InCache(s, y) && y != x {
        var k :| k in s.cache && s.cache[k].instance == y;
        assert k in s'.cache;
      }
    }
    forall y: nat
      ensures Places(s', y) == if y < s'.created && y != x then 1 else 0
    {
      assert Places(s, y) == if y < s.created then 1 else 0;
      assert Scheduled(s', y) == Scheduled(s, y);
    }
  }

  /** Out of someone's hands into the pending list or to the close tasks. */
  lemma RetiredSettles(s: Pool, x: nat, now: real, inLoop: bool)
    requires Settled(s, {x}) && x < s.created
    ensures Settled(Retired(s, x, now, inLoop), {})
  {
    var s' := Retired(s, x, now, inLoop);
    assert Places(s, x) == 0;
    forall y: nat
      ensures Places(s', y) == if y < s'.created then 1 else 0
    {
      assert Places(s, y) == if y < s.created && y != x then 1 else 0;
      assert InCache(s', y) == InCache(s, y);
      if inLoop {
        JobsKnow(s.jobs, s.pending + [x], now + CLOSE_GRACE, y);
        assert Scheduled(s', y) <==> Scheduled(s, y) || y in s.pending || y == x;
      } else {
        assert Scheduled(s', y) == Scheduled(s, y);
      }
    }
    forall y | y in s.pending
      ensures !Scheduled(s, y)
    {
      assert Places(s, y) <= 1;
    }
    RetiredNoRepeats(s, x, now, inLoop);
  }

  lemma JobsKnow(jobs: seq<Job>, xs: seq<nat>, due: real, y: nat)
    ensures Among(jobs + Jobs(xs, due), y) <==> Among(jobs, y) || y in xs
  {
    var all := jobs + Jobs(xs, due);
    if Among(all, y) {
      var i :| 0 <= i < |all| && all[i].instance == y;
      assert if i < |jobs| then jobs[i].instance == y else xs[i - |jobs|] == y;
    }
    if Among(jobs, y) {
      var i :| 0 <= i < |jobs| && jobs[i].instance == y;
      assert all[i].instance == y;
    }
    if y in xs {
      var i :| 0 <= i < |xs| && xs[i] == y;
      assert all[|jobs| + i].instance == y;
    }
  }

  lemma RetiredNoRepeats(s: Pool, x: nat, now: real, inLoop: bool)
    requires NoRepeats(s) && !Scheduled(s, x) && x !in s.pending
    requires forall y :: y in s.pending ==> !Scheduled(s, y)
    ensures NoRepeats(Retired(s, x, now, inLoop))
  {
    var s' := Retired(s, x, now, inLoop);
    if inLoop && x !in s.closed {
      var xs := s.pending + [x];
      forall i, j | 0 <= i < j < |s'.jobs|
        ensures s'.jobs[i].instance != s'.jobs[j].instance
      {
        if i < |s.jobs| <= j {
          assert xs[j - |s.jobs|] in xs;
        }
      }
    }
  }

  /** A new instance into the cache, under a key that the cache does not have. */
  lemma CreatedSettles(s: Pool, key: Key, now: real)
    requires Settled(s, {}) && key !in s.cache
    ensures Settled(s.(cache := s.cache[key := Cached(s.created, now)], created := s.created + 1), {})
  {
    var x, s' := s.created, s.(cache := s.cache[key := Cached(s.created, now)], created := s.created + 1);
    assert Places(s, x) == 0;
    assert s'.cache[key].instance == x;
    forall y: nat
      ensures InCache(s', y) <==> InCache(s, y) || y == x
    {
      if InCache(s, y) {
        var k :| k in s.cache && s.cache[k].instance == y;
        assert k in s'.cache && s'.cache[k].instance == y;
      }
    }
    forall y: nat
      ensures Places(s', y) == if y < s'.created then 1 else 0
    {
      assert Places(s, y) == if y < s.created then 1 else 0;
      assert Scheduled(s', y) == Scheduled(s, y);
    }
    forall k | k in s.cache
      ensures s.cache[k].instance != x
    {
      assert s.cache[k].instance == x ==> InCache(s, x);
    }
  }

  /** Out of the close tasks: closed. */
  lemma ClosedSettles(s: Pool, j: nat)
    requires Settled(s, {}) && j < |s.jobs|
    ensures Settled(s.(jobs := s.jobs[..j] + s.jobs[j + 1..], closed := s.closed + {s.jobs[j].instance}), {})
  {
    var x := s.jobs[j].instance;
    var s' := s.(jobs := s.jobs[..j] + s.jobs[j + 1..], closed := s.closed + {x});
    forall y: nat
      ensures Scheduled(s', y) <==> Scheduled(s, y) && y != x
    {
      if Scheduled(s, y) && y != x {
        var i :| 0 <= i < |s.jobs| && s.jobs[i].instance == y;
        assert s'.jobs[if i < j then i else i - 1].instance == y;
      }
    }
    forall y: nat
      ensures Places(s', y) == if y < s'.created then 1 else 0
    {
      assert Places(s, y) == if y < s.created then 1 else 0;
      assert InCache(s', y) == InCache(s, y);
    }
  }

  // ------------------------------------------------- the operations

  /** Only new close tasks, each with a full grace period ahead of it. */
  predicate Grows(s: Pool, s': Pool, now: real) {
    && s'.closed == s.closed && s'.created >= s.created
    && forall i :: 0 <= i < |s'.jobs| ==> s'.jobs[i] in s.jobs || s'.jobs[i].due >= now + CLOSE_GRACE
  }

  lemma {:induction false} DropSettles(s: Pool, order: seq<Key>, now: real, inLoop: bool)
    requires Settled(s, {}) && Distinct(order) && forall k :: k in order ==> k in s.cache
    ensures var s' := Dropped(s, order, now, inLoop);
            && Settled(s', {}) && Grows(s, s', now) && s'.listings == s.listings && s'.loads == s.loads
            && s'.created == s.created && (forall k :: k in s'.cache <==> k in s.cache && k !in order)
            && (forall k :: k in s'.cache ==> s'.cache[k] == s.cache[k])
    decreases |order|
  {
    if order != [] {
      var x := s.cache[order[0]].instance;
      var taken := s.(cache := Without(s.cache, order[0]));
      assert InCache(s, x);
      assert Places(s, x) > 0;
      Taken(s, order[0]);
      RetiredSettles(taken, x, now, inLoop);
      DropSettles(Retired(taken, x, now, inLoop), order[1..], now, inLoop);
    }
  }

  lemma ProvidedSettles(s: Pool, key: Key, buildable: bool, now: real, inLoop: bool)
    requires Settled(s, {})
    ensures var s', got := Provided(s, key, buildable, now, inLoop), Handed(s, key, buildable, now);
            && Settled(s', {}) && Grows(s, s', now) && s'.listings == s.listings && s'.loads == s.loads
            && (got.Some? ==> InCache(s', got.value))
  {
    if !FreshAt(s, key, now) && buildable {
      var cleared := s;
      if key in s.cache {
        DropSettles(s, [key], now, inLoop);
        assert [key][1..] == [];
        cleared := Dropped(s, [key], now, inLoop);
      }
      CreatedSettles(cleared, key, now);
      assert cleared.cache[key := Cached(s.created, now)] == s.cache[key := Cached(s.created, now)];
      assert Replaced(s, key, now, inLoop).cache[key].instance == s.created;
    }
  }

  lemma InUse(s: Pool, x: nat, since: real, now: real)
    requires Settled(s, {}) && InCache(s, x) && since <= now
    ensures HeldSince(s, x, since, now)
  {
    assert Places(s, x) <= 1;
  }

  lemma StillHeld(s: Pool, s': Pool, earlier: real, now: real)
    requires Grows(s, s', now) && earlier <= now && ListsHeld(s, earlier)
    requires s'.loads == s.loads && forall g :: g in s'.listings ==> g in s.listings && s'.listings[g] == s.listings[g]
    ensures ListsHeld(s', now)
  {
  }

  lemma CloseKeepsInv(s: Pool, j: nat, earlier: real, now: real)
    requires Inv(s, earlier) && earlier <= now && Possible(s, Close(j), now)
    ensures Inv(Apply(s, Close(j), now), now)
  {
    ClosedSettles(s, j);
    var s' := Apply(s, Close(j), now);
    assert forall i :: 0 <= i < |s'.jobs| ==> s'.jobs[i] == s.jobs[if i < j then i else i + 1];
  }

  lemma FetchKeepsInv(s: Pool, i: nat, key: Key, buildable: bool, earlier: real, now: real)
    requires Inv(s, earlier) && earlier <= now && LiveLoad(s, i)
    ensures Inv(Apply(s, Fetch(i, key, buildable), now), now)
  {
    ProvidedSettles(s, key, buildable, now, true);
    var s', got := Provided(s, key, buildable, now, true), Handed(s, key, buildable, now);
    StillHeld(s, s', earlier, now);
    if got.Some? {
      InUse(s', got.value, s.loads[i].since, now);
    }
    Relabel(s', Fetched(s, i, key, buildable, now), {});
  }

  lemma InvalidateKeepsInv(s: Pool, scope: Scope, order: seq<Key>, inLoop: bool, earlier: real, now: real)
    requires Inv(s, earlier) && earlier <= now && Enumerates(s, scope, order)
    ensures Inv(Apply(s, Invalidate(scope, order, inLoop), now), now)
  {
    var s0 := if scope.Everything? then s.(listings := map[]) else s;
    Relabel(s, s0, {});
    DropSettles(s0, order, now, inLoop);
    StillHeld(s0, Apply(s, Invalidate(scope, order, inLoop), now), earlier, now);
  }

  /** Where the instances are does not depend on the lists. */
  lemma Relabel(s: Pool, s': Pool, hands: set<nat>)
    requires Settled(s, hands) && s' == s.(listings := s'.listings, loads := s'.loads)
    ensures Settled(s', hands)
  {
    forall x: nat
      ensures Places(s', x) == Places(s, x)
    {
      assert InCache(s', x) == InCache(s, x) && Scheduled(s', x) == Scheduled(s, x);
    }
  }

  /** Every step keeps both halves of the invariant. */
  lemma StepKeepsInv(s: Pool, step: Step, earlier: real, now: real)
    requires Inv(s, earlier) && earlier <= now && Possible(s, step, now)
    ensures Inv(Apply(s, step, now), now)
  {
    match step {
      case Fetch(i, key, buildable) =>
        FetchKeepsInv(s, i, key, buildable, earlier, now);
      case Close(j) =>
        CloseKeepsInv(s, j, earlier, now);
      case Invalidate(scope, order, inLoop) =>
        InvalidateKeepsInv(s, scope, order, inLoop, earlier, now);
      case _ =>
        Relabel(s, Apply(s, step, now), {});
    }
  }

  // ------------------------------------------------- whole runs

  /** A step and the moment it is done. */
  datatype Event = Event(step: Step, at: real)

  predicate Legal(s: Pool, now: real, events: seq<Event>)
    decreases |events|
  {
    events != [] ==>
      && now <= events[0].at && Possible(s, events[0].step, events[0].at)
      && Legal(Apply(s, events[0].step, events[0].at), events[0].at, events[1..])
  }

  function End(s: Pool, now: real, events: seq<Event>): Pool
    requires Legal(s, now, events)
    decreases |events|
  {
    if events == [] then s
    else End(Apply(s, events[0].step, events[0].at), events[0].at, events[1..])
  }

  function Clock(now: real, events: seq<Event>): real {
    if events == [] then now else events[|events| - 1].at
  }

  lemma {:induction false} RunKeepsInv(s: Pool, now: real, events: seq<Event>)
    requires Inv(s, now) && Legal(s, now, events)
    ensures Inv(End(s, now, events), Clock(now, events))
    decreases |events|
  {
    if events != [] {
      StepKeepsInv(s, events[0].step, now, events[0].at);
      RunKeepsInv(Apply(s, events[0].step, events[0].at), events[0].at, events[1..]);
    }
  }

  lemma EmptyIsSettled()
    ensures Inv(EMPTY, 0.0)
  {
    forall x: nat
      ensures Places(EMPTY, x) == 0
    {
    }
  }

  /** In any run, with any interleaving of loads, expiries and invalidations: no instance
      leaks, since each one ever created is in exactly one of the instance cache, the pending
      list, the close tasks and the closed ones; and a list served from the cache, or one whose
      load began less than a grace period ago, holds no closed instance. */
  lemma NothingLeaksNothingClosed(events: seq<Event>, now: real)
    requires Legal(EMPTY, 0.0, events) && Clock(0.0, events) <= now
    ensures var s := End(EMPTY, 0.0, events);
            && (forall x: nat :: Places(s, x) == if x < s.created then 1 else 0)
            && (forall g, i :: Serves(s, g, now) && 0 <= i < |s.listings[g].instances| ==>
                  s.listings[g].instances[i] !in s.closed)
            && (forall l, i ::
                  0 <= l < |s.loads| && now - s.loads[l].since < 300.0 && 0 <= i < |s.loads[l].got| ==>
                    s.loads[l].got[i] !in s.closed)
  {
    EmptyIsSettled();
    RunKeepsInv(EMPTY, 0.0, events);
    var s := End(EMPTY, 0.0, events);
    forall g, i | Serves(s, g, now) && 0 <= i < |s.listings[g].instances|
      ensures s.listings[g].instances[i] !in s.closed
    {
      assert HeldSince(s, s.listings[g].instances[i], s.listings[g].since, Clock(0.0, events));
    }
    forall l, i | 0 <= l < |s.loads| && now - s.loads[l].since < 300.0 && 0 <= i < |s.loads[l].got|
      ensures s.loads[l].got[i] !in s.closed
    {
      assert HeldSince(s, s.loads[l].got[i], s.loads[l].since, Clock(0.0, events));
    }
  }

  const KEY := Key(1, "openai", "")

  /** The only instance is fetched, and its provider is then invalidated. */
  lemma Overtaken(s: Pool)
    requires s.cache == map[KEY := Cached(0, 0.0)] && s.pending == [] && s.jobs == [] && s.closed == {}
    ensures Enumerates(s, Everything, [KEY])
    ensures var s' := Apply(s, Invalidate(Everything, [KEY], true), 0.0);
            s'.cache == map[] && s'.jobs == [Job(0, 300.0)] && s'.closed == {} && s'.loads == s.loads
  {
    var s0 := s.(listings := map[]);
    assert [KEY][1..] == [] && [] + [0] == [0] && [0][1..] == [];
    assert Dropped(s0, [KEY], 0.0, true) == Retired(s0.(cache := Without(s0.cache, KEY)), 0, 0.0, true);
  }

  const LOADING := EMPTY.(loads := [Load(0, 0.0, [], true)])

  const LOADED := Pool(map[KEY := Cached(0, 0.0)], [], [], {}, 1, map[], [Load(0, 0.0, [0], true)])

  lemma FirstLoad()
    ensures Possible(EMPTY, Begin(0), 0.0) && Apply(EMPTY, Begin(0), 0.0) == LOADING
    ensures Possible(LOADING, Fetch(0, KEY, true), 0.0) && Apply(LOADING, Fetch(0, KEY, true), 0.0) == LOADED
  {
    assert [] + [0] == [0] && LOADING.loads[0 := Load(0, 0.0, [0], true)] == LOADED.loads;
  }

  /** A load that takes a grace period or longer can return an instance that was closed in the
      meantime. */
  lemma SlowLoadCanBeStale(d: real) returns (events: seq<Event>)
    requires d >= 300.0
    ensures Legal(EMPTY, 0.0, events) && FinishesAfter(events, 0, d)
    ensures var s := End(EMPTY, 0.0, events);
            s.loads == [Load(0, 0.0, [0], false)] && 0 in s.closed
  {
    FirstLoad();
    Overtaken(LOADED);
    var s3 := Apply(LOADED, Invalidate(Everything, [KEY], true), 0.0);
    var s4 := Apply(s3, Close(0), d);
    var s5 := Apply(s4, Finish(0), d);
    assert s5.loads == [Load(0, 0.0, [0], false)] && 0 in s5.closed;
    var e1, e2 := Event(Begin(0), 0.0), Event(Fetch(0, KEY, true), 0.0);
    var e3, e4, e5 := Event(Invalidate(Everything, [KEY], true), 0.0), Event(Close(0), d), Event(Finish(0), d);
    events := [e5];
    events := Prepend(s3, 0.0, e4, events);
    events := Prepend(LOADED, 0.0, e3, events);
    events := Prepend(LOADING, 0.0, e2, events);
    events := Prepend(EMPTY, 0.0, e1, events);
  }

  /** The run ends with the load finishing, `d` seconds after it began. */
  predicate FinishesAfter(events: seq<Event>, load: nat, d: real)
    requires Legal(EMPTY, 0.0, events)
  {
    && events != [] && events[|events| - 1].step == Finish(load)
    && var s := End(EMPTY, 0.0, events);
       load < |s.loads| && Clock(0.0, events) - s.loads[load].since == d
  }

  /** Whatever else happens, a load of this duration returns only instances that are open. */
  ghost predicate LoadsAreSafe(d: real) {
    forall events, load :: Legal(EMPTY, 0.0, events) && FinishesAfter(events, load, d) ==>
      ReturnsOpen(End(EMPTY, 0.0, events), load)
  }

  predicate ReturnsOpen(s: Pool, load: nat) {
    load < |s.loads| && forall i :: 0 <= i < |s.loads[load].got| ==> s.loads[load].got[i] !in s.closed
  }

  /** A load returns only open instances in every run if and only if it takes less than the
      grace period. */
  lemma LoadsAreSafeExactly(d: real)
    ensures LoadsAreSafe(d) <==> d < 300.0
  {
    if d < 300.0 {
      forall events, load | Legal(EMPTY, 0.0, events) && FinishesAfter(events, load, d)
        ensures ReturnsOpen(End(EMPTY, 0.0, events), load)
      {
        NothingLeaksNothingClosed(events, Clock(0.0, events));
      }
    } else {
      var events := SlowLoadCanBeStale(d);
      var s := End(EMPTY, 0.0, events);
      assert s.loads[0].got[0] in s.closed && !ReturnsOpen(s, 0);
    }
  }

  /** A load that an invalidation overtakes still publishes what it had gathered: a list of
      retired instances is served until the list expires. They are not closed by then. */
  lemma OvertakenLoadIsServed() returns (events: seq<Event>)
    ensures Legal(EMPTY, 0.0, events) && Clock(0.0, events) == 0.0
    ensures var s := End(EMPTY, 0.0, events);
            Serves(s, 0, 0.0) && s.listings[0].instances == [0] && !InCache(s, 0)
  {
    FirstLoad();
    Overtaken(LOADED);
    var s3 := Apply(LOADED, Invalidate(Everything, [KEY], true), 0.0);
    var e1, e2 := Event(Begin(0), 0.0), Event(Fetch(0, KEY, true), 0.0);
    var e3 := Event(Invalidate(Everything, [KEY], true), 0.0);
    events := [Event(Finish(0), 0.0)];
    events := Prepend(LOADED, 0.0, e3, events);
    events := Prepend(LOADING, 0.0, e2, events);
    events := Prepend(EMPTY, 0.0, e1, events);
  }

  lemma Prepend(s: Pool, now: real, e: Event, rest: seq<Event>) returns (events: seq<Event>)
    requires now <= e.at && Possible(s, e.step, e.at) && Legal(Apply(s, e.step, e.at), e.at, rest)
    ensures events == [e] + rest && Legal(s, now, events)
    ensures End(s, now, events) == End(Apply(s, e.step, e.at), e.at, rest)
    ensures Clock(now, events) == Clock(e.at, rest)
  {
    events := [e] + rest;
    assert events[1..] == rest;
  }

  // ------------------------------------------------- what an invalidation achieves

  /** What the cache holds in this scope was created as number `n` or later. */
  predicate OnlyNew(s: Pool, scope: Scope, n: nat) {
    n <= s.created && forall k :: k in s.cache && Covers(scope, k) ==> s.cache[k].instance >= n
  }

  lemma {:induction false} OnlyNewStays(s: Pool, scope: Scope, n: nat, now: real, events: seq<Event>)
    requires Settled(s, {}) && OnlyNew(s, scope, n) && Legal(s, now, events)
    ensures OnlyNew(End(s, now, events), scope, n)
    decreases |events|
  {
    if events != [] {
      var e := events[0];
      StepKeepsOnlyNew(s, scope, n, e.step, e.at);
      OnlyNewStays(Apply(s, e.step, e.at), scope, n, e.at, events[1..]);
    }
  }

  lemma StepKeepsOnlyNew(s: Pool, scope: Scope, n: nat, step: Step, now: real)
    requires Settled(s, {}) && OnlyNew(s, scope, n) && Possible(s, step, now)
    ensures Settled(Apply(s, step, now), {}) && OnlyNew(Apply(s, step, now), scope, n)
  {
    var s' := Apply(s, step, now);
    match step {
      case Fetch(i, key, buildable) =>
        ProvidedSettles(s, key, buildable, now, true);
        Relabel(Provided(s, key, buildable, now, true), s', {});
      case Close(j) =>
        ClosedSettles(s, j);
      case Invalidate(what, order, inLoop) =>
        var s0 := if what.Everything? then s.(listings := map[]) else s;
        Relabel(s, s0, {});
        DropSettles(s0, order, now, inLoop);
      case _ =>
        Relabel(s, s', {});
    }
  }

  /** Once a scope is invalidated, no instance of it that existed before is ever handed out
      again by the instance cache, whatever happens afterwards. */
  lemma InvalidationTakesEffect(s: Pool, scope: Scope, order: seq<Key>, inLoop: bool, at: real,
                                events: seq<Event>, key: Key, buildable: bool, now: real)
    requires Settled(s, {}) && Enumerates(s, scope, order) && Covers(scope, key)
    requires Legal(Apply(s, Invalidate(scope, order, inLoop), at), at, events)
    ensures var s' := End(Apply(s, Invalidate(scope, order, inLoop), at), at, events);
            var got := Handed(s', key, buildable, now);
            got.Some? ==> got.value >= s.created
  {
    var s0 := if scope.Everything? then s.(listings := map[]) else s;
    Relabel(s, s0, {});
    DropSettles(s0, order, at, inLoop);
    OnlyNewStays(Apply(s, Invalidate(scope, order, inLoop), at), scope, s.created, at, events);
  }

  // ------------------------------------------------- what an invalidation does to the lists

  /** Whatever the cache, the lists and the loads under way hold was created as number `n` or
      later. */
  ghost predicate NewThroughout(s: Pool, n: nat) {
    && OnlyNew(s, Everything, n) && ListsNew(s, n)
    && forall l: nat :: LiveLoad(s, l) ==> AllNew(s.loads[l].got, n)
  }

  predicate AllNew(xs: seq<nat>, n: nat) {
    forall i :: 0 <= i < |xs| ==> xs[i] >= n
  }

  predicate ListsNew(s: Pool, n: nat) {
    forall g :: g in s.listings ==> AllNew(s.listings[g].instances, n)
  }

  lemma StepKeepsNew(s: Pool, n: nat, step: Step, now: real)
    requires Settled(s, {}) && NewThroughout(s, n) && Possible(s, step, now)
    ensures Settled(Apply(s, step, now), {}) && NewThroughout(Apply(s, step, now), n)
  {
    StepKeepsOnlyNew(s, Everything, n, step, now);
    match step {
      case Fetch(i, key, buildable) =>
        ProvidedSettles(s, key, buildable, now, true);
      case Invalidate(what, order, inLoop) =>
        var s0 := if what.Everything? then s.(listings := map[]) else s;
        Relabel(s, s0, {});
        DropSettles(s0, order, now, inLoop);
      case _ =>
    }
  }

  lemma {:induction false} NewStays(s: Pool, n: nat, now: real, events: seq<Event>)
    requires Settled(s, {}) && NewThroughout(s, n) && Legal(s, now, events)
    ensures ListsNew(End(s, now, events), n)
    decreases |events|
  {
    if events != [] {
      StepKeepsNew(s, n, events[0].step, events[0].at);
      NewStays(Apply(s, events[0].step, events[0].at), n, events[0].at, events[1..]);
    }
  }

  /** Every continuation publishes only lists of instances numbered `n` or later. */
  ghost predicate OnlyNewPublished(s: Pool, now: real, n: nat) {
    forall events :: Legal(s, now, events) ==> ListsNew(End(s, now, events), n)
  }

  lemma FinishPublishes(s: Pool, load: nat, now: real, n: nat)
    requires LiveLoad(s, load) && s.loads[load].got != [] && s.loads[load].got[0] < n
    ensures !OnlyNewPublished(s, now, n)
  {
    var events := Prepend(s, now, Event(Finish(load), now), []);
    var s' := Apply(s, Finish(load), now);
    assert End(s, now, events) == s';
    assert s'.listings[s.loads[load].group].instances == s.loads[load].got;
    assert !AllNew(s.loads[load].got, n) && !ListsNew(s', n);
  }

  /** After invalidate_all_caches, no list with an instance from before is ever served again,
      whatever happens, if and only if no load under way has already gathered one. */
  lemma InvalidationReachesLists(s: Pool, order: seq<Key>, inLoop: bool, earlier: real, at: real)
    requires Inv(s, earlier) && earlier <= at && Enumerates(s, Everything, order)
    ensures OnlyNewPublished(Apply(s, Invalidate(Everything, order, inLoop), at), at, s.created)
            <==> forall l: nat :: LiveLoad(s, l) ==> s.loads[l].got == []
  {
    var s0, s1 := s.(listings := map[]), Apply(s, Invalidate(Everything, order, inLoop), at);
    Relabel(s, s0, {});
    DropSettles(s0, order, at, inLoop);
    if l: nat :| LiveLoad(s, l) && s.loads[l].got != [] {
      assert HeldSince(s, s.loads[l].got[0], s.loads[l].since, earlier);
      FinishPublishes(s1, l, at, s.created);
    } else {
      forall events | Legal(s1, at, events)
        ensures ListsNew(End(s1, at, events), s.created)
      {
        NewStays(s1, s.created, at, events);
      }
    }
  }
}
