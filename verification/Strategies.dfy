/** The three built-in strategies: which endpoints a request may use, and in what order. */
module Strategies {
  import opened Options
  import opened Weighted
  import Routing

  /** Either a queue, or the kind of exception the strategy raises. */
  datatype Choice = Queue(endpoints: seq<Model>) | Refuses(kind: Routing.ErrorKind)

  function Awake(endpoints: seq<Model>, onCooldown: Model -> bool): seq<Model> {
    if endpoints == [] then []
    else (if onCooldown(endpoints[0]) then [] else [endpoints[0]]) + Awake(endpoints[1..], onCooldown)
  }

  /** The checks all three strategies begin with. */
  function Refusal(endpoints: seq<Model>, onCooldown: Model -> bool): Option<Routing.ErrorKind> {
    if endpoints == [] then Some(Routing.NoAvailableModel)
    else if Awake(endpoints, onCooldown) == [] then Some(Routing.AllModelsCooldown)
    else None
  }

  /** A group holds a model at most once. */
  predicate DistinctIds(models: seq<Model>) {
    forall i, j :: 0 <= i < j < |models| ==> models[i].id != models[j].id
  }

  // ------------------------------------------------- random weights

  predicate HasId(models: seq<Model>, id: int) {
    exists i :: 0 <= i < |models| && models[i].id == id
  }

  function FirstWithId(models: seq<Model>, id: int): (m: Model)
    requires HasId(models, id)
    ensures m in models && m.id == id
  {
    if models[0].id == id then models[0]
    else
      assert HasId(models[1..], id) by {
        var i :| 0 <= i < |models| && models[i].id == id;
        assert models[1..][i - 1].id == id;
      }
      FirstWithId(models[1..], id)
  }

  function WithoutId(models: seq<Model>, id: int): (rest: seq<Model>)
    ensures forall m :: m in rest ==> m in models && m.id != id
  {
    if models == [] then []
    else (if models[0].id != id then [models[0]] else []) + WithoutId(models[1..], id)
  }

  /** The endpoints of the ordered models. */
  function Resolved(ordered: seq<Model>, available: seq<Model>): seq<Model> {
    if ordered == [] then []
    else (if HasId(available, ordered[0].id) then [FirstWithId(available, ordered[0].id)] else [])
         + Resolved(ordered[1..], available)
  }

  function RandomQueue(available: seq<Model>, draws: Draws): Choice {
    if Total(available) == 0.0 || available == [] then Refuses(Routing.NoAvailableModel)
    else
      var selected := available[Picked(available, draws(0))];
      var remaining := WithoutId(available, selected.id);
      if remaining == [] then Queue([FirstWithId(available, selected.id)])
      else if Positives(remaining) == [] then Refuses(Routing.NoAvailableModel)
      else Queue([FirstWithId(available, selected.id)] + Resolved(Drawn(Positives(remaining), draws, 1), available))
  }

  function RandomWeightsChoice(endpoints: seq<Model>, onCooldown: Model -> bool, draws: Draws): Choice {
    var refusal := Refusal(endpoints, onCooldown);
    if refusal.Some? then Refuses(refusal.value) else RandomQueue(Awake(endpoints, onCooldown), draws)
  }

  method RandomWeights(endpoints: seq<Model>, onCooldown: Model -> bool, draws: Draws) returns (choice: Choice)
    ensures choice == RandomWeightsChoice(endpoints, onCooldown, draws)
  {
    if endpoints == [] {
      return Refuses(Routing.NoAvailableModel);
    }
    var available := Awake(endpoints, onCooldown);
    if available == [] {
      return Refuses(Routing.AllModelsCooldown);
    }
    var selected := WeightedRandomSelect(available, draws(0));
    if selected.None? {
      return Refuses(Routing.NoAvailableModel);
    }
    var primary := FirstWithId(available, selected.value.id);
    var remaining := WithoutId(available, selected.value.id);
    if remaining == [] {
      return Queue([primary]);
    }
    var ordered := WeightedRandomOrder(remaining, draws, 1);
    choice := if ordered.None? then Refuses(Routing.NoAvailableModel)
              else Queue([primary] + Resolved(ordered.value, available));
  }

  lemma {:induction false} FirstIsItself(models: seq<Model>, m: Model)
    requires DistinctIds(models) && m in models
    ensures HasId(models, m.id) && FirstWithId(models, m.id) == m
  {
    var i :| 0 <= i < |models| && models[i] == m;
    if i > 0 {
      assert models[1..][i - 1] == m;
      FirstIsItself(models[1..], m);
    }
  }

  lemma {:induction false} ResolvedIsItself(ordered: seq<Model>, available: seq<Model>)
    requires DistinctIds(available) && forall m :: m in ordered ==> m in available
    ensures Resolved(ordered, available) == ordered
  {
    if ordered != [] {
      FirstIsItself(available, ordered[0]);
      ResolvedIsItself(ordered[1..], available);
    }
  }

  lemma {:induction false} NothingWithout(models: seq<Model>, id: int)
    requires forall i :: 0 <= i < |models| ==> models[i].id != id
    ensures WithoutId(models, id) == models
  {
    if models != [] {
      NothingWithout(models[1..], id);
    }
  }

  lemma {:induction false} WithoutIsRemoved(models: seq<Model>, m: Model)
    requires DistinctIds(models) && m in models
    ensures WithoutId(models, m.id) == Removed(models, m)
  {
    var i :| 0 <= i < |models| && models[i] == m;
    if i == 0 {
      NothingWithout(models[1..], m.id);
    } else {
      assert models[1..][i - 1] == m;
      WithoutIsRemoved(models[1..], m);
    }
  }

  lemma {:induction false} PositivesMultiset(models: seq<Model>, m: Model)
    requires m in models && Positive(m)
    ensures multiset(Positives(models)) == multiset([m]) + multiset(Positives(Removed(models, m)))
    ensures |Positives(models)| == 1 + |Positives(Removed(models, m))|
  {
    var rest := models[1..];
    if models[0] != m {
      PositivesMultiset(rest, m);
      assert Removed(models, m)[1..] == Removed(rest, m);
    }
  }

  lemma {:induction false} NonePositive(models: seq<Model>)
    requires forall i :: 0 <= i < |models| ==> !Positive(models[i])
    ensures Positives(models) == []
  {
    if models != [] {
      NonePositive(models[1..]);
    }
  }

  lemma {:induction false} PositivesWithout(models: seq<Model>, m: Model)
    requires m in models && !Positive(m)
    ensures Positives(Removed(models, m)) == Positives(models)
  {
    if models[0] != m {
      PositivesWithout(models[1..], m);
    }
  }

  /** For every draw: the strategy raises exactly when no endpoint has a positive weight, or
      the selected one has the only positive weight and is not alone. Otherwise its queue
      begins with the selected endpoint and goes on with an order of all others that have
      positive weights. */
  lemma RandomQueueExact(available: seq<Model>, draws: Draws)
    requires available != [] && DistinctIds(available)
    ensures var choice, positive := RandomQueue(available, draws), Positives(available);
            var selected := available[Picked(available, draws(0))];
            && (choice.Refuses? <==> positive == [] || (positive == [selected] && |available| >= 2))
            && (choice.Queue? ==>
                  && choice.endpoints != [] && choice.endpoints[0] == selected
                  && multiset(choice.endpoints)
                     == if Positive(selected) then multiset(positive) else multiset([selected]) + multiset(positive))
  {
    TotalPositive(available, |available|);
    if Total(available) == 0.0 {
      NonePositive(available);
    } else {
      var selected := available[Picked(available, draws(0))];
      FirstIsItself(available, selected);
      WithoutIsRemoved(available, selected);
      RestIsOrdered(available, draws, selected);
      SomePositive(available);
      if Positive(selected) {
        SelectedAmongPositives(available, selected);
      } else {
        PositivesWithout(available, selected);
        assert selected !in Positives(available);
      }
    }
  }

  lemma SelectedAmongPositives(available: seq<Model>, selected: Model)
    requires selected in available && Positive(selected)
    ensures multiset(Positives(available)) == multiset([selected]) + multiset(Positives(Removed(available, selected)))
    ensures Positives(Removed(available, selected)) == [] <==> Positives(available) == [selected]
  {
    PositivesMultiset(available, selected);
    var positive := Positives(available);
    assert selected in positive;
    assert |positive| == 1 ==> positive == [positive[0]];
  }

  lemma SomePositive(available: seq<Model>)
    requires Total(available) > 0.0
    ensures Positives(available) != []
  {
    TotalPositive(available, |available|);
    var i :| 0 <= i < |available| && Positive(available[i]);
    assert available[i] in Positives(available);
  }

  /** A draw below the total selects an endpoint with a positive weight, so then the strategy
      raises exactly when fewer than two weights are positive, unless the one endpoint with a
      positive weight is alone. */
  lemma RaisesExactly(available: seq<Model>, draws: Draws)
    requires available != [] && DistinctIds(available)
    requires Total(available) > 0.0 ==> 0.0 <= draws(0) < Total(available)
    ensures var n := |Positives(available)|;
            RandomQueue(available, draws).Refuses? <==> n == 0 || (n == 1 && |available| >= 2)
  {
    RandomQueueExact(available, draws);
    TotalPositive(available, |available|);
    if Total(available) == 0.0 {
      NonePositive(available);
    } else {
      var selected := available[Picked(available, draws(0))];
      SelectedIsPositive(available, draws(0));
      OnlyOne(Positives(available), selected);
    }
  }

  lemma OnlyOne(models: seq<Model>, m: Model)
    requires m in models
    ensures |models| == 1 <==> models == [m]
  {
  }

  lemma RestIsOrdered(available: seq<Model>, draws: Draws, selected: Model)
    requires DistinctIds(available) && selected in available
    ensures var rest := Positives(Removed(available, selected));
            Resolved(Drawn(rest, draws, 1), available) == Drawn(rest, draws, 1)
            && multiset(Drawn(rest, draws, 1)) == multiset(rest)
            && (Removed(available, selected) == [] ==> Drawn(rest, draws, 1) == [])
  {
    var rest := Positives(Removed(available, selected));
    DrawnIsPermutation(rest, draws, 1);
    StillThere(available, selected);
    forall m | m in Drawn(rest, draws, 1)
      ensures m in available
    {
      assert m in multiset(Drawn(rest, draws, 1));
    }
    ResolvedIsItself(Drawn(rest, draws, 1), available);
  }

  /** Two endpoints of which one has weight zero are never served, whatever is drawn below
      the total. */
  lemma ZeroWeightCompanionRaises(draws: Draws)
    requires 0.0 <= draws(0) < 1.0
    ensures RandomQueue([Model(1, 1.0), Model(2, 0.0)], draws).Refuses?
  {
    var available := [Model(1, 1.0), Model(2, 0.0)];
    assert available[1..] == [Model(2, 0.0)] && available[1..][1..] == [];
    assert Positives(available[1..]) == [] && Positives(available) == [Model(1, 1.0)];
    assert Before(available, 1) == 1.0 && Total(available) == 1.0;
    RaisesExactly(available, draws);
  }

  lemma {:induction false} AllPositive(models: seq<Model>)
    requires forall i :: 0 <= i < |models| ==> Positive(models[i])
    ensures Positives(models) == models
  {
    if models != [] {
      AllPositive(models[1..]);
    }
  }

  /** When every weight is positive, every draw gives a queue that holds each available
      endpoint once, with the selected one in front. */
  lemma RandomQueueIsPermutation(available: seq<Model>, draws: Draws)
    requires available != [] && DistinctIds(available)
    requires forall i :: 0 <= i < |available| ==> Positive(available[i])
    ensures var choice := RandomQueue(available, draws);
            && choice.Queue? && multiset(choice.endpoints) == multiset(available)
            && choice.endpoints != [] && choice.endpoints[0] == available[Picked(available, draws(0))]
  {
    AllPositive(available);
    RandomQueueExact(available, draws);
  }

  // ------------------------------------------------- sorting by weight

  function Inserted(m: Model, sorted: seq<Model>): seq<Model> {
    if sorted == [] || m.weight >= sorted[0].weight then [m] + sorted
    else [sorted[0]] + Inserted(m, sorted[1..])
  }

  /** list.sort(key=weight, reverse=True). */
  function SortedDown(models: seq<Model>): (r: seq<Model>)
    ensures |r| == |models|
  {
    if models == [] then []
    else
      InsertedLength(models[0], SortedDown(models[1..]));
      Inserted(models[0], SortedDown(models[1..]))
  }

  lemma {:induction false} InsertedLength(m: Model, sorted: seq<Model>)
    ensures |Inserted(m, sorted)| == |sorted| + 1
  {
    if sorted != [] && m.weight < sorted[0].weight {
      InsertedLength(m, sorted[1..]);
    }
  }

  predicate Descending(models: seq<Model>) {
    forall i, j :: 0 <= i < j < |models| ==> models[i].weight >= models[j].weight
  }

  function OfWeight(models: seq<Model>, w: real): seq<Model> {
    if models == [] then []
    else (if models[0].weight == w then [models[0]] else []) + OfWeight(models[1..], w)
  }

  lemma {:induction false} InsertedHolds(m: Model, sorted: seq<Model>)
    ensures multiset(Inserted(m, sorted)) == multiset([m]) + multiset(sorted)
  {
    if sorted != [] && m.weight < sorted[0].weight {
      InsertedHolds(m, sorted[1..]);
      assert sorted == [sorted[0]] + sorted[1..];
    }
  }

  lemma {:induction false} InsertedDescends(m: Model, sorted: seq<Model>)
    requires Descending(sorted)
    ensures Descending(Inserted(m, sorted))
  {
    if sorted != [] && m.weight < sorted[0].weight {
      InsertedDescends(m, sorted[1..]);
      InsertedBelow(m, sorted[1..], sorted[0].weight);
    }
  }

  lemma {:induction false} InsertedKeepsTies(m: Model, sorted: seq<Model>, w: real)
    requires Descending(sorted)
    ensures OfWeight(Inserted(m, sorted), w) == (if m.weight == w then [m] else []) + OfWeight(sorted, w)
  {
    if sorted != [] && m.weight < sorted[0].weight {
      InsertedKeepsTies(m, sorted[1..], w);
      assert Inserted(m, sorted)[1..] == Inserted(m, sorted[1..]);
      assert !(m.weight == w && sorted[0].weight == w);
    } else {
      assert ([m] + sorted)[1..] == sorted;
    }
  }

  lemma {:induction false} InsertedBelow(m: Model, sorted: seq<Model>, w: real)
    requires m.weight <= w && forall x :: x in sorted ==> x.weight <= w
    ensures forall x :: x in Inserted(m, sorted) ==> x.weight <= w
  {
    if sorted != [] && m.weight < sorted[0].weight {
      InsertedBelow(m, sorted[1..], w);
    }
  }

  /** The sort orders all endpoints by falling weight and keeps the order of equal ones. */
  lemma {:induction false} SortIsStable(models: seq<Model>, w: real)
    ensures multiset(SortedDown(models)) == multiset(models)
    ensures Descending(SortedDown(models))
    ensures OfWeight(SortedDown(models), w) == OfWeight(models, w)
  {
    if models != [] {
      SortIsStable(models[1..], w);
      var rest := SortedDown(models[1..]);
      InsertedHolds(models[0], rest);
      InsertedDescends(models[0], rest);
      InsertedKeepsTies(models[0], rest, w);
      assert models == [models[0]] + models[1..];
    }
  }

  function SequentialChoice(endpoints: seq<Model>, onCooldown: Model -> bool): Choice {
    var refusal := Refusal(endpoints, onCooldown);
    if refusal.Some? then Refuses(refusal.value) else Queue(SortedDown(Awake(endpoints, onCooldown)))
  }

  method Sequential(endpoints: seq<Model>, onCooldown: Model -> bool) returns (choice: Choice)
    ensures choice == SequentialChoice(endpoints, onCooldown)
  {
    if endpoints == [] {
      return Refuses(Routing.NoAvailableModel);
    }
    var available := Awake(endpoints, onCooldown);
    if available == [] {
      return Refuses(Routing.AllModelsCooldown);
    }
    choice := Queue(SortedDown(available));
  }

  // ------------------------------------------------- round robin

  /** The queue with the endpoint at `i` in front. */
  function InFront(sorted: seq<Model>, i: nat): (queue: seq<Model>)
    requires i < |sorted|
    ensures |queue| == |sorted|
  {
    [sorted[i]] + (sorted[..i] + sorted[i + 1..])
  }

  function RoundRobinChoice(endpoints: seq<Model>, onCooldown: Model -> bool, counter: nat): Choice {
    var refusal := Refusal(endpoints, onCooldown);
    if refusal.Some? then Refuses(refusal.value)
    else
      var sorted := SortedDown(Awake(endpoints, onCooldown));
      Queue(InFront(sorted, counter % |sorted|))
  }

  function NextCounter(c: nat, n: nat): nat
    requires n > 0
  {
    (c + 1) % (n * 1000)
  }

  method AllBut(models: seq<Model>, selected: nat) returns (rest: seq<Model>)
    requires selected < |models|
    ensures rest == models[..selected] + models[selected + 1..]
  {
    rest := [];
    for i := 0 to |models|
      invariant rest == if i <= selected then models[..i] else models[..selected] + models[selected + 1..i]
    {
      if i != selected {
        rest := rest + [models[i]];
      }
    }
  }

  class RoundRobin {
    var counters: map<int, nat>

    constructor ()
      ensures counters == map[]
    {
      counters := map[];
    }

    ghost function CounterOf(group: int): nat
      reads this
    {
      if group in counters then counters[group] else 0
    }

    method Select(group: int, endpoints: seq<Model>, onCooldown: Model -> bool) returns (choice: Choice)
      modifies this
      ensures choice == RoundRobinChoice(endpoints, onCooldown, old(CounterOf(group)))
      ensures choice.Refuses? ==> counters == old(counters)
      ensures choice.Queue? ==>
                choice.endpoints != []
                && counters == old(counters)[group := NextCounter(old(CounterOf(group)), |choice.endpoints|)]
    {
      if endpoints == [] {
        return Refuses(Routing.NoAvailableModel);
      }
      var available := Awake(endpoints, onCooldown);
      if available == [] {
        return Refuses(Routing.AllModelsCooldown);
      }
      available := SortedDown(available);
      var idx: nat := if group in counters then counters[group] else 0;
      var selected := idx % |available|;
      counters := counters[group := NextCounter(idx, |available|)];
      var fallback := AllBut(available, selected);
      choice := Queue([available[selected]] + fallback);
    }
  }

  /** The counter of a group after `k` requests that each found `n` endpoints. */
  function CounterAfter(c: nat, n: nat, k: nat): nat
    requires n > 0
  {
    if k == 0 then c else NextCounter(CounterAfter(c, n, k - 1), n)
  }

  function Primary(c: nat, n: nat, k: nat): nat
    requires n > 0
  {
    CounterAfter(c, n, k) % n
  }

  lemma RemainderIs(x: int, n: int, q: int, r: int)
    requires n > 0 && x == q * n + r && 0 <= r < n
    ensures x % n == r
  {
    var d := x / n - q;
    assert d * n == r - x % n;
    assert d >= 1 ==> d * n >= n;
    assert d <= -1 ==> d * n <= -n;
  }

  /** Taking the counter modulo a multiple of `n` does not change it modulo `n`. */
  lemma WrapKeepsRemainder(x: nat, n: nat)
    requires n > 0
    ensures (x % (n * 1000)) % n == x % n
  {
    var y, m := x % (n * 1000), n * 1000;
    var q := x / m * 1000 + y / n;
    assert x == x / m * m + y && y == y / n * n + y % n;
    assert q * n == x / m * 1000 * n + y / n * n;
    RemainderIs(x, n, q, y % n);
  }

  lemma SuccessorRemainder(a: nat, b: nat, n: nat)
    requires n > 0 && a % n == b % n
    ensures (a + 1) % n == (b + 1) % n
  {
    var r := a % n;
    assert a == a / n * n + r && b == b / n * n + r;
    if r + 1 < n {
      RemainderIs(a + 1, n, a / n, r + 1);
      RemainderIs(b + 1, n, b / n, r + 1);
    } else {
      RemainderIs(a + 1, n, a / n + 1, 0);
      RemainderIs(b + 1, n, b / n + 1, 0);
    }
  }

  /** From any starting counter, and despite the wrap at 1000 rounds, request number `k` has
      endpoint (start + k) mod n in front. */
  lemma {:induction false} PrimaryIsCyclic(c: nat, n: nat, k: nat)
    requires n > 0
    ensures Primary(c, n, k) == (c + k) % n
  {
    if k > 0 {
      PrimaryIsCyclic(c, n, k - 1);
      var last := CounterAfter(c, n, k - 1);
      WrapKeepsRemainder(last + 1, n);
      SuccessorRemainder(last, c + k - 1, n);
    }
  }

  /** So among any `n` consecutive requests, exactly one has endpoint `i` in front. */
  lemma EachInFrontOnce(c: nat, n: nat, i: nat) returns (k: nat)
    requires i < n
    ensures k < n && Primary(c, n, k) == i
    ensures forall j :: 0 <= j < n && Primary(c, n, j) == i ==> j == k
  {
    var r := c % n;
    k := if i >= r then i - r else i + n - r;
    forall j: nat | j < n
      ensures Primary(c, n, j) == i <==> j == k
    {
      PrimaryIsCyclic(c, n, j);
      assert c + j == c / n * n + (r + j);
      if r + j < n {
        RemainderIs(c + j, n, c / n, r + j);
      } else {
        RemainderIs(c + j, n, c / n + 1, r + j - n);
      }
    }
  }

  // ------------------------------------------------- what all queues have in common

  /** A round-robin queue holds every available endpoint once. */
  lemma InFrontIsPermutation(sorted: seq<Model>, i: nat)
    requires i < |sorted|
    ensures multiset(InFront(sorted, i)) == multiset(sorted)
  {
    assert sorted == sorted[..i] + [sorted[i]] + sorted[i + 1..];
  }

  /** A choice that some built-in strategy can make. */
  ghost predicate BuiltIn(choice: Choice) {
    || (exists endpoints, onCooldown, draws :: choice == RandomWeightsChoice(endpoints, onCooldown, draws))
    || (exists endpoints, onCooldown :: choice == SequentialChoice(endpoints, onCooldown))
    || (exists endpoints, onCooldown, counter :: choice == RoundRobinChoice(endpoints, onCooldown, counter))
  }

  /** No built-in strategy ever hands over an empty queue, and what it raises is one of two
      exceptions. */
  lemma QueuesNeverEmpty(choice: Choice)
    requires BuiltIn(choice)
    ensures choice.Queue? ==> choice.endpoints != []
    ensures choice.Refuses? ==> choice.kind == Routing.NoAvailableModel || choice.kind == Routing.AllModelsCooldown
  {
    if endpoints, onCooldown, draws :| choice == RandomWeightsChoice(endpoints, onCooldown, draws) {
    } else if endpoints, onCooldown :| choice == SequentialChoice(endpoints, onCooldown) {
    } else {
      var endpoints, onCooldown, counter :| choice == RoundRobinChoice(endpoints, onCooldown, counter);
    }
  }
}
