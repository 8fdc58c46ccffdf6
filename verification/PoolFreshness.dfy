/** For how long an instance and an endpoint list are handed out again, and what an invalidation
    removes. */
module PoolFreshness {
  import opened Options
  import opened ProviderPool
  import opened PoolSafety

  // ------------------------------------------------- one fetch

  /** The instance waits to be closed: without a due time yet, or at `due` at the earliest. */
  predicate Leaving(s: Pool, x: nat, due: real) {
    x in s.pending || exists i :: 0 <= i < |s.jobs| && s.jobs[i] == Job(x, due)
  }

  lemma RetiredLeaves(s: Pool, x: nat, now: real, inLoop: bool)
    requires x !in s.closed
    ensures Leaving(Retired(s, x, now, inLoop), x, now + 300.0)
  {
    var s' := Retired(s, x, now, inLoop);
    if inLoop {
      assert s'.jobs[|s.jobs| + |s.pending|] == Job(x, now + 300.0);
    }
  }

  /** A cached instance is handed out again exactly while it is younger than 300 seconds, and
      nothing changes then. Later it is replaced by a new one, dated now, and leaves; unless no
      instance of that kind can be made, when nothing is handed out and nothing changes. */
  lemma FetchedExactly(s: Pool, key: Key, buildable: bool, now: real, inLoop: bool)
    requires Settled(s, {}) && key in s.cache
    ensures var entry, got := s.cache[key], Handed(s, key, buildable, now);
            var s' := Provided(s, key, buildable, now, inLoop);
            && (got == Some(entry.instance) <==> now - entry.born < 300.0)
            && (now - entry.born < 300.0 || !buildable ==> s' == s)
            && (now - entry.born >= 300.0 ==> got == if buildable then Some(s.created) else None)
            && (now - entry.born >= 300.0 && buildable ==>
                  && s'.cache == s.cache[key := Cached(s.created, now)] && s'.created == s.created + 1
                  && Leaving(s', entry.instance, now + 300.0))
  {
    var entry := s.cache[key];
    assert InCache(s, entry.instance);
    assert Places(s, entry.instance) == if entry.instance < s.created then 1 else 0;
    if now - entry.born >= 300.0 && buildable {
      RetiredLeaves(s.(cache := Without(s.cache, key)), entry.instance, now, inLoop);
    }
  }

  /** A key that is not cached gets a new instance, dated now. */
  lemma FirstFetch(s: Pool, key: Key, buildable: bool, now: real, inLoop: bool)
    requires key !in s.cache
    ensures Handed(s, key, buildable, now) == if buildable then Some(s.created) else None
    ensures Provided(s, key, buildable, now, inLoop)
            == if buildable then s.(cache := s.cache[key := Cached(s.created, now)], created := s.created + 1) else s
  {
  }

  // ------------------------------------------------- over runs

  /** An invalidation that concerns a key. */
  predicate Hits(step: Step, key: Key) {
    step.Invalidate? && match step.scope
                        case OfProvider(id) => id == key.providerId
                        case AllProviders => true
                        case Everything => true
  }

  /** The key still has its entry, or has got a newer instance since the entry was 300 seconds
      old. */
  predicate KeptOrRenewed(s: Pool, key: Key, entry: Cached, n: nat, now: real) {
    && key in s.cache && n <= s.created
    && (s.cache[key] == entry || (s.cache[key].instance >= n && now - entry.born >= 300.0))
  }

  lemma InvalidationKeepsEntry(s: Pool, key: Key, step: Step, now: real)
    requires Settled(s, {}) && key in s.cache && step.Invalidate? && Possible(s, step, now) && !Hits(step, key)
    ensures var s' := Apply(s, step, now);
            Settled(s', {}) && key in s'.cache && s'.cache[key] == s.cache[key] && s'.created == s.created
  {
    var s0 := if step.scope.Everything? then s.(listings := map[]) else s;
    Relabel(s, s0, {});
    DropSettles(s0, step.order, now, step.inLoop);
  }

  lemma FetchKeepsEntry(s: Pool, key: Key, entry: Cached, n: nat, step: Step, now: real)
    requires Settled(s, {}) && KeptOrRenewed(s, key, entry, n, now) && entry.instance < n
    requires step.Fetch? && Possible(s, step, now)
    ensures var s' := Apply(s, step, now);
            Settled(s', {}) && KeptOrRenewed(s', key, entry, n, now)
  {
    var provided := Provided(s, step.key, step.buildable, now, true);
    ProvidedSettles(s, step.key, step.buildable, now, true);
    Relabel(provided, Apply(s, step, now), {});
    if step.key in s.cache {
      FetchedExactly(s, step.key, step.buildable, now, true);
    } else {
      FirstFetch(s, step.key, step.buildable, now, true);
    }
  }

  lemma StepKeepsEntry(s: Pool, key: Key, entry: Cached, n: nat, step: Step, earlier: real, now: real)
    requires Settled(s, {}) && KeptOrRenewed(s, key, entry, n, earlier) && entry.instance < n && earlier <= now
    requires Possible(s, step, now) && !Hits(step, key)
    ensures var s' := Apply(s, step, now);
            Settled(s', {}) && KeptOrRenewed(s', key, entry, n, now)
  {
    match step {
      case Fetch(_, _, _) =>
        FetchKeepsEntry(s, key, entry, n, step, now);
      case Close(j) =>
        ClosedSettles(s, j);
      case Invalidate(_, _, _) =>
        InvalidationKeepsEntry(s, key, step, now);
      case _ =>
        Relabel(s, Apply(s, step, now), {});
    }
  }

  lemma {:induction false} RunKeepsEntry(s: Pool, key: Key, entry: Cached, n: nat, earlier: real, events: seq<Event>)
    requires Settled(s, {}) && KeptOrRenewed(s, key, entry, n, earlier) && entry.instance < n
    requires Legal(s, earlier, events) && forall i :: 0 <= i < |events| ==> !Hits(events[i].step, key)
    ensures Settled(End(s, earlier, events), {})
    ensures KeptOrRenewed(End(s, earlier, events), key, entry, n, Clock(earlier, events))
    decreases |events|
  {
    if events != [] {
      var e := events[0];
      StepKeepsEntry(s, key, entry, n, e.step, earlier, e.at);
      RunKeepsEntry(Apply(s, e.step, e.at), key, entry, n, e.at, events[1..]);
    }
  }

  /** In any run without an invalidation in its scope, two fetches of a key hand out the same
      instance if and only if the later one comes less than 300 seconds after the instance was
      made. */
  lemma SameInstanceExactly(s: Pool, key: Key, earlier: real, events: seq<Event>, buildable: bool, now: real)
    requires Settled(s, {}) && key in s.cache && Legal(s, earlier, events) && Clock(earlier, events) <= now
    requires forall i :: 0 <= i < |events| ==> !Hits(events[i].step, key)
    ensures Handed(End(s, earlier, events), key, buildable, now) == Some(s.cache[key].instance)
            <==> now - s.cache[key].born < 300.0
  {
    var entry, s' := s.cache[key], End(s, earlier, events);
    assert InCache(s, entry.instance);
    assert Places(s, entry.instance) == if entry.instance < s.created then 1 else 0;
    RunKeepsEntry(s, key, entry, s.created, earlier, events);
    FetchedExactly(s', key, buildable, now, true);
  }

  // ------------------------------------------------- what an invalidation removes

  /** An invalidation removes exactly the instances in its scope, which leave, and keeps the
      others as they are; only that of everything forgets the lists. */
  lemma InvalidationIsScoped(s: Pool, scope: Scope, order: seq<Key>, inLoop: bool, now: real)
    requires Settled(s, {}) && Enumerates(s, scope, order)
    ensures var s' := Apply(s, Invalidate(scope, order, inLoop), now);
            && (forall key :: key in s'.cache <==> key in s.cache && scope.OfProvider? && key.providerId != scope.id)
            && (forall key :: key in s'.cache ==> s'.cache[key] == s.cache[key])
            && (forall key :: key in s.cache && key !in s'.cache ==>
                  var x := s.cache[key].instance; x in s'.pending || Scheduled(s', x))
            && s'.listings == if scope.Everything? then map[] else s.listings
  {
    var s0 := if scope.Everything? then s.(listings := map[]) else s;
    Relabel(s, s0, {});
    DropSettles(s0, order, now, inLoop);
    var s' := Apply(s, Invalidate(scope, order, inLoop), now);
    forall key | key in s.cache && key !in s'.cache
      ensures s.cache[key].instance in s'.pending || Scheduled(s', s.cache[key].instance)
    {
      NowElsewhere(s, s', key);
    }
  }

  lemma NowElsewhere(s: Pool, s': Pool, key: Key)
    requires Settled(s, {}) && Settled(s', {}) && s'.closed == s.closed && s'.created == s.created
    requires key in s.cache && key !in s'.cache
    requires forall k :: k in s'.cache ==> k in s.cache && s'.cache[k] == s.cache[k]
    ensures s.cache[key].instance in s'.pending || Scheduled(s', s.cache[key].instance)
  {
    var x := s.cache[key].instance;
    assert InCache(s, x);
    assert Places(s, x) == if x < s.created then 1 else 0;
    assert Places(s', x) == if x < s'.created then 1 else 0;
    assert forall k :: k in s'.cache ==> k != key && k in s.cache && s'.cache[k] == s.cache[k];
  }

  // ------------------------------------------------- endpoint lists

  /** No event of the run replaces or forgets the group's list. */
  predicate LeavesList(s: Pool, now: real, events: seq<Event>, group: int)
    requires Legal(s, now, events)
    decreases |events|
  {
    events != [] ==>
      && (match events[0].step
          case Finish(l) => s.loads[l].group != group
          case ForgetListing(g) => g != group
          case Invalidate(scope, _, _) => !scope.Everything?
          case _ => true)
      && LeavesList(Apply(s, events[0].step, events[0].at), events[0].at, events[1..], group)
  }

  lemma {:induction false} DroppedKeepsLists(s: Pool, order: seq<Key>, now: real, inLoop: bool)
    requires Distinct(order) && forall k :: k in order ==> k in s.cache
    ensures Dropped(s, order, now, inLoop).listings == s.listings
    decreases |order|
  {
    if order != [] {
      var taken := s.(cache := Without(s.cache, order[0]));
      DroppedKeepsLists(Retired(taken, s.cache[order[0]].instance, now, inLoop), order[1..], now, inLoop);
    }
  }

  lemma StepLeavesList(s: Pool, step: Step, now: real, group: int)
    requires Possible(s, step, now) && group in s.listings
    requires match step
             case Finish(l) => s.loads[l].group != group
             case ForgetListing(g) => g != group
             case Invalidate(scope, _, _) => !scope.Everything?
             case _ => true
    ensures var s' := Apply(s, step, now);
            group in s'.listings && s'.listings[group] == s.listings[group]
  {
    if step.Invalidate? {
      DroppedKeepsLists(s, step.order, now, step.inLoop);
    }
  }

  /** In any run that neither replaces nor forgets it, a list is served if and only if its load
      began less than 60 seconds ago. */
  lemma {:induction false} ListServedExactly(s: Pool, group: int, earlier: real, events: seq<Event>, now: real)
    requires group in s.listings && Legal(s, earlier, events) && LeavesList(s, earlier, events, group)
    ensures var s' := End(s, earlier, events);
            && group in s'.listings && s'.listings[group] == s.listings[group]
            && (Serves(s', group, now) <==> now - s.listings[group].since < 60.0)
    decreases |events|
  {
    if events != [] {
      StepLeavesList(s, events[0].step, events[0].at, group);
      ListServedExactly(Apply(s, events[0].step, events[0].at), group, events[0].at, events[1..], now);
    }
  }
}
