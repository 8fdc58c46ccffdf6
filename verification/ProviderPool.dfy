/** Provider instances: the instance cache, the deferred closing of retired instances, and the
    endpoint lists that hand instances out. A coroutine runs undisturbed between two awaits, so
    each stretch between awaits is one step and steps interleave freely. */
module ProviderPool {
  import opened Options

  const PROVIDER_TTL: real := 300.0
  const CLOSE_GRACE: real := 300.0
  const LISTING_TTL: real := 60.0

  datatype Key = Key(providerId: int, kind: string, proxy: string)

  /** Instances are numbered in the order of their creation. */
  datatype Cached = Cached(instance: nat, born: real)

  /** A close task: it closes its instance at some moment not before `due`. */
  datatype Job = Job(instance: nat, due: real)

  /** An endpoint list as cached, with the moment its load began. */
  datatype Listing = Listing(instances: seq<nat>, since: real)

  /** A load_endpoints call between its awaits. */
  datatype Load = Load(group: int, since: real, got: seq<nat>, live: bool)

  datatype Pool = Pool(
    cache: map<Key, Cached>,
    pending: seq<nat>,
    jobs: seq<Job>,
    closed: set<nat>,
    created: nat,
    listings: map<int, Listing>,
    loads: seq<Load>)

  const EMPTY := Pool(map[], [], [], {}, 0, map[], [])

  // ------------------------------------------------- what each operation does

  function Without<K, V>(m: map<K, V>, k: K): map<K, V> {
    map j | j in m && j != k :: m[j]
  }

  function Jobs(instances: seq<nat>, due: real): (jobs: seq<Job>)
    ensures |jobs| == |instances|
    ensures forall i :: 0 <= i < |jobs| ==> jobs[i] == Job(instances[i], due)
  {
    if instances == [] then [] else [Job(instances[0], due)] + Jobs(instances[1..], due)
  }

  function Retired(s: Pool, x: nat, now: real, inLoop: bool): Pool {
    if x in s.closed then s
    else if !inLoop then s.(pending := s.pending + [x])
    else s.(pending := [], jobs := s.jobs + Jobs(s.pending + [x], now + CLOSE_GRACE))
  }

  lemma SpawnOne(jobs: seq<Job>, pending: seq<nat>, x: nat, due: real)
    requires pending != []
    ensures jobs + Jobs(pending + [x], due) == jobs + [Job(pending[0], due)] + Jobs(pending[1..] + [x], due)
  {
    assert (pending + [x])[1..] == pending[1..] + [x];
  }

  predicate FreshAt(s: Pool, key: Key, now: real) {
    key in s.cache && now - s.cache[key].born < PROVIDER_TTL
  }

  function Replaced(s: Pool, key: Key, now: real, inLoop: bool): Pool {
    var cleared :=
      if key in s.cache then Retired(s.(cache := Without(s.cache, key)), s.cache[key].instance, now, inLoop) else s;
    cleared.(cache := s.cache[key := Cached(s.created, now)], created := s.created + 1)
  }

  /** _get_cached_provider; `buildable` is whether an instance of that kind can be made. */
  function Provided(s: Pool, key: Key, buildable: bool, now: real, inLoop: bool): Pool {
    if FreshAt(s, key, now) || !buildable then s else Replaced(s, key, now, inLoop)
  }

  function Handed(s: Pool, key: Key, buildable: bool, now: real): Option<nat> {
    if FreshAt(s, key, now) then Some(s.cache[key].instance)
    else if buildable then Some(s.created)
    else None
  }

  predicate Distinct<T(==)>(xs: seq<T>) {
    forall i, j :: 0 <= i < j < |xs| ==> xs[i] != xs[j]
  }

  /** Pop and retire the entries of the given keys, in that order. */
  function Dropped(s: Pool, order: seq<Key>, now: real, inLoop: bool): Pool
    requires Distinct(order) && forall k :: k in order ==> k in s.cache
    decreases |order|
  {
    if order == [] then s
    else
      Dropped(Retired(s.(cache := Without(s.cache, order[0])), s.cache[order[0]].instance, now, inLoop),
              order[1..], now, inLoop)
  }

  datatype Scope = OfProvider(id: int) | AllProviders | Everything

  predicate Covers(scope: Scope, key: Key) {
    scope.OfProvider? ==> key.providerId == scope.id
  }

  /** `order` lists the cached keys in scope, each once. */
  predicate Enumerates(s: Pool, scope: Scope, order: seq<Key>) {
    && Distinct(order)
    && (forall k :: k in order ==> k in s.cache && Covers(scope, k))
    && (forall k :: k in s.cache && Covers(scope, k) ==> k in order)
  }

  predicate Serves(s: Pool, group: int, now: real) {
    group in s.listings && now - s.listings[group].since < LISTING_TTL
  }

  datatype Step =
    | Begin(group: int)
    | Fetch(load: nat, key: Key, buildable: bool)
    | Finish(load: nat)
    | GiveUp(load: nat)
    | ForgetListing(group: int)
    | Invalidate(scope: Scope, order: seq<Key>, inLoop: bool)
    | Close(job: nat)

  predicate LiveLoad(s: Pool, load: nat) {
    load < |s.loads| && s.loads[load].live
  }

  predicate Possible(s: Pool, step: Step, now: real) {
    match step
    case Begin(_) => true
    case Fetch(i, _, _) => LiveLoad(s, i)
    case Finish(i) => LiveLoad(s, i)
    case GiveUp(i) => LiveLoad(s, i)
    case ForgetListing(_) => true
    case Invalidate(scope, order, _) => Enumerates(s, scope, order)
    case Close(j) => j < |s.jobs| && s.jobs[j].due <= now
  }

  function Fetched(s: Pool, load: nat, key: Key, buildable: bool, now: real): Pool
    requires load < |s.loads|
  {
    var s', l := Provided(s, key, buildable, now, true), s.loads[load];
    var got := Handed(s, key, buildable, now);
    s'.(loads := s.loads[load := if got.Some? then l.(got := l.got + [got.value]) else l.(live := false)])
  }

  function Apply(s: Pool, step: Step, now: real): Pool
    requires Possible(s, step, now)
  {
    match step
    case Begin(g) => if Serves(s, g, now) then s else s.(loads := s.loads + [Load(g, now, [], true)])
    case Fetch(i, key, buildable) => Fetched(s, i, key, buildable, now)
    case Finish(i) =>
      var l := s.loads[i];
      s.(listings := s.listings[l.group := Listing(l.got, l.since)], loads := s.loads[i := l.(live := false)])
    case GiveUp(i) => s.(loads := s.loads[i := s.loads[i].(live := false)])
    case ForgetListing(g) => s.(listings := Without(s.listings, g))
    case Invalidate(scope, order, inLoop) =>
      Dropped(if scope.Everything? then s.(listings := map[]) else s, order, now, inLoop)
    case Close(j) =>
      s.(jobs := s.jobs[..j] + s.jobs[j + 1..], closed := s.closed + {s.jobs[j].instance})
  }

  // ------------------------------------------------- the module-level containers

  class Providers {
    var cache: map<Key, Cached>
    var pending: seq<nat>
    var jobs: seq<Job>
    var closed: set<nat>
    var created: nat
    var listings: map<int, Listing>
    var loads: seq<Load>

    ghost function Contents(): Pool
      reads this
    {
      Pool(cache, pending, jobs, closed, created, listings, loads)
    }

    constructor ()
      ensures Contents() == EMPTY
    {
      cache, pending, jobs, closed, created, listings, loads := map[], [], [], {}, 0, map[], [];
    }

    method SpawnDelayedClose(x: nat, now: real)
      modifies `jobs
      ensures jobs == old(jobs) + [Job(x, now + CLOSE_GRACE)]
    {
      jobs := jobs + [Job(x, now + CLOSE_GRACE)];
    }

    method Retire(x: nat, now: real, inLoop: bool)
      modifies `pending, `jobs
      ensures Contents() == Retired(old(Contents()), x, now, inLoop)
    {
      if x in closed {
        return;
      }
      if !inLoop {
        pending := pending + [x];
        return;
      }
      ghost var due := now + CLOSE_GRACE;
      while pending != []
        invariant jobs + Jobs(pending + [x], due) == old(jobs + Jobs(pending + [x], due))
        decreases |pending|
      {
        SpawnOne(jobs, pending, x, due);
        SpawnDelayedClose(pending[0], now);
        pending := pending[1..];
      }
      SpawnDelayedClose(x, now);
    }

    method GetCachedProvider(key: Key, buildable: bool, now: real, inLoop: bool) returns (got: Option<nat>)
      modifies `cache, `pending, `jobs, `created
      ensures got == Handed(old(Contents()), key, buildable, now)
      ensures Contents() == Provided(old(Contents()), key, buildable, now, inLoop)
    {
      if key in cache && now - cache[key].born < PROVIDER_TTL {
        return Some(cache[key].instance);
      }
      if !buildable {
        return None;
      }
      var instance := created;
      created := created + 1;
      if key in cache {
        Retire(cache[key].instance, now, inLoop);
      }
      cache := cache[key := Cached(instance, now)];
      return Some(instance);
    }

    /** load_endpoints up to its first await: the cached list, or a load that has begun. */
    method BeginLoad(group: int, now: real) returns (served: Option<seq<nat>>)
      modifies `loads
      ensures served == if Serves(old(Contents()), group, now) then Some(listings[group].instances) else None
      ensures Contents() == Apply(old(Contents()), Begin(group), now)
    {
      if group in listings && now - listings[group].since < LISTING_TTL {
        return Some(listings[group].instances);
      }
      loads := loads + [Load(group, now, [], true)];
      return None;
    }

    /** One round of load_endpoints' loop; false is the ValueError that ends the load. */
    method FetchModel(load: nat, key: Key, buildable: bool, now: real) returns (ok: bool)
      requires Possible(Contents(), Fetch(load, key, buildable), now)
      modifies this
      ensures ok <==> Handed(old(Contents()), key, buildable, now).Some?
      ensures Contents() == Apply(old(Contents()), Fetch(load, key, buildable), now)
    {
      var l := loads[load];
      var got := GetCachedProvider(key, buildable, now, true);
      ok := got.Some?;
      loads := loads[load := if ok then l.(got := l.got + [got.value]) else l.(live := false)];
    }

    method FinishLoad(load: nat, now: real) returns (endpoints: seq<nat>)
      requires Possible(Contents(), Finish(load), now)
      modifies `listings, `loads
      ensures endpoints == old(loads)[load].got
      ensures Contents() == Apply(old(Contents()), Finish(load), now)
    {
      var l := loads[load];
      endpoints := l.got;
      listings := listings[l.group := Listing(l.got, l.since)];
      loads := loads[load := l.(live := false)];
    }

    method InvalidateEndpointCache(group: int, now: real)
      modifies `listings
      ensures Contents() == Apply(old(Contents()), ForgetListing(group), now)
    {
      listings := Without(listings, group);
    }

    /** The loop of invalidate_provider_cache; the order is that of the cache's keys. */
    method DropAll(order: seq<Key>, now: real, inLoop: bool)
      requires Distinct(order) && forall k :: k in order ==> k in cache
      modifies `cache, `pending, `jobs
      ensures Contents() == Dropped(old(Contents()), order, now, inLoop)
    {
      var i := 0;
      while i < |order|
        invariant i <= |order| && forall k :: k in order[i..] ==> k in cache
        invariant Dropped(Contents(), order[i..], now, inLoop) == Dropped(old(Contents()), order, now, inLoop)
      {
        var key := order[i];
        assert key in order[i..] && order[i..][1..] == order[i + 1..];
        var instance := cache[key].instance;
        assert forall j :: i < j < |order| ==> order[j] != order[i];
        cache := Without(cache, key);
        Retire(instance, now, inLoop);
        i := i + 1;
      }
    }

    method InvalidateProviderCache(scope: Scope, order: seq<Key>, now: real, inLoop: bool)
      requires Possible(Contents(), Invalidate(scope, order, inLoop), now)
      modifies this
      ensures Contents() == Apply(old(Contents()), Invalidate(scope, order, inLoop), now)
    {
      if scope.Everything? {
        listings := map[];
      }
      DropAll(order, now, inLoop);
    }

    method CloseNow(job: nat, now: real)
      requires Possible(Contents(), Close(job), now)
      modifies `jobs, `closed
      ensures Contents() == Apply(old(Contents()), Close(job), now)
    {
      closed := closed + {jobs[job].instance};
      jobs := jobs[..job] + jobs[job + 1..];
    }
  }
}
