/** Which endpoints each built-in strategy hands over, said from the endpoints of the group and
    their cooldowns alone. */
module Choosing {
  import opened Options
  import opened Weighted
  import opened Strategies
  import Routing

  predicate AllCooling(endpoints: seq<Model>, onCooldown: Model -> bool) {
    forall i :: 0 <= i < |endpoints| ==> onCooldown(endpoints[i])
  }

  /** The queue holds each endpoint that is not on cooldown as often as the group does, and no
      other. */
  ghost predicate HoldsAwake(queue: seq<Model>, endpoints: seq<Model>, onCooldown: Model -> bool) {
    forall m :: multiset(queue)[m] == if onCooldown(m) then 0 else multiset(endpoints)[m]
  }

  lemma {:induction false} AwakeCounts(endpoints: seq<Model>, onCooldown: Model -> bool, m: Model)
    ensures multiset(Awake(endpoints, onCooldown))[m] == if onCooldown(m) then 0 else multiset(endpoints)[m]
  {
    if endpoints != [] {
      var head: seq<Model> := if onCooldown(endpoints[0]) then [] else [endpoints[0]];
      AwakeCounts(endpoints[1..], onCooldown, m);
      assert endpoints == [endpoints[0]] + endpoints[1..];
      assert Awake(endpoints, onCooldown) == head + Awake(endpoints[1..], onCooldown);
    }
  }

  lemma {:induction false} NoneAwake(endpoints: seq<Model>, onCooldown: Model -> bool)
    ensures Awake(endpoints, onCooldown) == [] <==> AllCooling(endpoints, onCooldown)
  {
    if endpoints != [] {
      NoneAwake(endpoints[1..], onCooldown);
    }
  }

  lemma AwakeIsHeld(endpoints: seq<Model>, onCooldown: Model -> bool)
    ensures HoldsAwake(Awake(endpoints, onCooldown), endpoints, onCooldown)
    ensures Awake(endpoints, onCooldown) == [] <==> AllCooling(endpoints, onCooldown)
  {
    forall m
      ensures multiset(Awake(endpoints, onCooldown))[m] == if onCooldown(m) then 0 else multiset(endpoints)[m]
    {
      AwakeCounts(endpoints, onCooldown, m);
    }
    NoneAwake(endpoints, onCooldown);
  }

  lemma HeldIsAwake(queue: seq<Model>, endpoints: seq<Model>, onCooldown: Model -> bool)
    requires HoldsAwake(queue, endpoints, onCooldown)
    ensures forall m :: m in queue <==> m in endpoints && !onCooldown(m)
  {
    forall m
      ensures m in queue <==> m in endpoints && !onCooldown(m)
    {
      assert m in queue <==> m in multiset(queue);
      assert m in endpoints <==> m in multiset(endpoints);
    }
  }

  /** The two refusals that all strategies share. */
  predicate RefusesRightly(choice: Choice, endpoints: seq<Model>, onCooldown: Model -> bool) {
    && (endpoints == [] ==> choice == Refuses(Routing.NoAvailableModel))
    && (choice == Refuses(Routing.AllModelsCooldown) <==> endpoints != [] && AllCooling(endpoints, onCooldown))
  }

  /** The sequential strategy refuses a group without endpoints or with all on cooldown, and
      otherwise queues exactly those that are not, by falling weight. */
  lemma SequentialExactly(endpoints: seq<Model>, onCooldown: Model -> bool)
    ensures var choice := SequentialChoice(endpoints, onCooldown);
            && RefusesRightly(choice, endpoints, onCooldown)
            && (choice.Queue? <==> !AllCooling(endpoints, onCooldown))
            && (choice.Queue? ==> HoldsAwake(choice.endpoints, endpoints, onCooldown) && Descending(choice.endpoints))
  {
    AwakeIsHeld(endpoints, onCooldown);
    SortIsStable(Awake(endpoints, onCooldown), 0.0);
  }

  /** The queue with the endpoint at `i` in front, and the others behind it in their order. */
  predicate Fronted(queue: seq<Model>, sorted: seq<Model>, i: nat) {
    && i < |sorted| == |queue| && queue[0] == sorted[i]
    && (forall j :: 0 <= j < i ==> queue[j + 1] == sorted[j])
    && (forall j :: i < j < |sorted| ==> queue[j] == sorted[j])
  }

  lemma FrontedInFront(sorted: seq<Model>, i: nat)
    requires i < |sorted|
    ensures Fronted(InFront(sorted, i), sorted, i) && multiset(InFront(sorted, i)) == multiset(sorted)
  {
    InFrontIsPermutation(sorted, i);
  }

  lemma SameHeld(a: seq<Model>, b: seq<Model>, endpoints: seq<Model>, onCooldown: Model -> bool)
    requires multiset(a) == multiset(b) && HoldsAwake(a, endpoints, onCooldown)
    ensures HoldsAwake(b, endpoints, onCooldown)
  {
  }

  /** Round robin refuses alike, and otherwise takes the endpoints not on cooldown by falling
      weight and puts the one at the counter in front. */
  lemma RoundRobinExactly(endpoints: seq<Model>, onCooldown: Model -> bool, counter: nat)
    ensures var choice := RoundRobinChoice(endpoints, onCooldown, counter);
            && RefusesRightly(choice, endpoints, onCooldown)
            && (choice.Queue? <==> !AllCooling(endpoints, onCooldown))
            && (choice.Queue? ==>
                  && HoldsAwake(choice.endpoints, endpoints, onCooldown)
                  && SequentialChoice(endpoints, onCooldown).Queue?
                  && var sorted := SequentialChoice(endpoints, onCooldown).endpoints;
                  && sorted != [] && Fronted(choice.endpoints, sorted, counter % |sorted|))
  {
    SequentialExactly(endpoints, onCooldown);
    AwakeIsHeld(endpoints, onCooldown);
    if SequentialChoice(endpoints, onCooldown).Queue? {
      var sorted := SequentialChoice(endpoints, onCooldown).endpoints;
      FrontedInFront(sorted, counter % |sorted|);
      SameHeld(sorted, InFront(sorted, counter % |sorted|), endpoints, onCooldown);
    }
  }

  /** The counter of a group counts its requests, and starts again after a thousand rounds. */
  lemma CounterWraps(c: nat, n: nat)
    requires n > 0 && c < 1000 * n
    ensures NextCounter(c, n) == if c + 1 == 1000 * n then 0 else c + 1
  {
    if c + 1 == 1000 * n {
      RemainderIs(c + 1, n * 1000, 1, 0);
    } else {
      RemainderIs(c + 1, n * 1000, 0, c + 1);
    }
  }

  // ------------------------------------------------- random weights

  lemma OneMoreDistinct(m: Model, rest: seq<Model>)
    requires DistinctIds(rest) && forall i :: 0 <= i < |rest| ==> rest[i].id != m.id
    ensures DistinctIds([m] + rest)
  {
  }

  lemma AheadIsDistinct(endpoints: seq<Model>, m: Model)
    requires DistinctIds(endpoints) && endpoints != [] && m in endpoints[1..]
    ensures m.id != endpoints[0].id && DistinctIds(endpoints[1..])
  {
    var i :| 0 <= i < |endpoints[1..]| && endpoints[1..][i] == m;
    assert endpoints[i + 1] == m;
  }

  lemma {:induction false} AwakeIsDistinct(endpoints: seq<Model>, onCooldown: Model -> bool)
    requires DistinctIds(endpoints)
    ensures DistinctIds(Awake(endpoints, onCooldown))
  {
    if endpoints != [] {
      var rest := Awake(endpoints[1..], onCooldown);
      AwakeIsDistinct(endpoints[1..], onCooldown);
      AwakeIsHeld(endpoints[1..], onCooldown);
      HeldIsAwake(rest, endpoints[1..], onCooldown);
      forall i | 0 <= i < |rest|
        ensures rest[i].id != endpoints[0].id
      {
        AheadIsDistinct(endpoints, rest[i]);
      }
      OneMoreDistinct(endpoints[0], rest);
    }
  }

  /** The random strategy refuses alike, though also for lack of positive weights. It queues
      only endpoints that are not on cooldown, each once, and all that have positive weights
      too. */
  lemma RandomWeightsExactly(endpoints: seq<Model>, onCooldown: Model -> bool, draws: Draws)
    requires DistinctIds(endpoints)
    ensures var choice := RandomWeightsChoice(endpoints, onCooldown, draws);
            && RefusesRightly(choice, endpoints, onCooldown)
            && (choice.Queue? ==>
                  forall m :: && multiset(choice.endpoints)[m] <= (if onCooldown(m) then 0 else 1)
                              && (m in choice.endpoints ==> m in endpoints)
                              && (m in endpoints && !onCooldown(m) && m.weight > 0.0 ==> m in choice.endpoints))
  {
    var available := Awake(endpoints, onCooldown);
    AwakeIsHeld(endpoints, onCooldown);
    HeldIsAwake(available, endpoints, onCooldown);
    AwakeIsDistinct(endpoints, onCooldown);
    var choice := RandomWeightsChoice(endpoints, onCooldown, draws);
    if choice.Queue? {
      RandomQueueExact(available, draws);
      forall m
        ensures multiset(choice.endpoints)[m] <= (if onCooldown(m) then 0 else 1)
        ensures m in choice.endpoints ==> m in endpoints
        ensures m in endpoints && !onCooldown(m) && m.weight > 0.0 ==> m in choice.endpoints
      {
        QueuedOnce(available, draws, choice.endpoints, m);
      }
    }
  }

  lemma {:induction false} DistinctOnce(models: seq<Model>, m: Model)
    requires DistinctIds(models)
    ensures multiset(models)[m] <= 1
  {
    if models != [] {
      var rest := models[1..];
      assert models == [models[0]] + rest;
      DistinctOnce(rest, m);
      if models[0] == m {
        forall i | 0 <= i < |rest|
          ensures rest[i] != m
        {
          assert rest[i] == models[i + 1];
        }
        assert m !in rest;
      }
    }
  }

  lemma {:induction false} PositivesOnce(models: seq<Model>, m: Model)
    requires DistinctIds(models)
    ensures multiset(Positives(models))[m] <= multiset(models)[m] <= 1
  {
    DistinctOnce(models, m);
    if models != [] {
      assert models == [models[0]] + models[1..];
      PositivesOnce(models[1..], m);
    }
  }

  lemma QueuedOnce(available: seq<Model>, draws: Draws, queue: seq<Model>, m: Model)
    requires available != [] && DistinctIds(available) && RandomQueue(available, draws) == Queue(queue)
    ensures multiset(queue)[m] <= 1 && (m in queue ==> m in available)
    ensures m in available && m.weight > 0.0 ==> m in queue
  {
    var positive, selected := Positives(available), available[Picked(available, draws(0))];
    RandomQueueExact(available, draws);
    PositivesOnce(available, m);
    assert m in queue <==> m in multiset(queue);
    assert m in positive <==> m in multiset(positive);
    assert !Positive(selected) ==> selected !in positive;
  }

  // ------------------------------------------------- the order of the fallbacks

  /** What remains to be drawn after the models of `drawn`. */
  function Left(remaining: seq<Model>, drawn: seq<Model>): seq<Model>
    decreases |drawn|
  {
    if drawn == [] || drawn[0] !in remaining then remaining else Left(Removed(remaining, drawn[0]), drawn[1..])
  }

  /** Each model of an order is picked, by a draw of its own, from what the ones before it have
      left. */
  lemma {:induction false} DrawnAt(remaining: seq<Model>, draws: Draws, k: nat, j: nat)
    requires j < |Drawn(remaining, draws, k)|
    ensures var order := Drawn(remaining, draws, k);
            var left := Left(remaining, order[..j]);
            left != [] && order[j] == left[Picked(left, draws(k + j))]
    decreases j
  {
    var order := Drawn(remaining, draws, k);
    if j > 0 {
      var m := remaining[Picked(remaining, draws(k))];
      DrawnAt(Removed(remaining, m), draws, k + 1, j - 1);
      assert order[1..] == Drawn(Removed(remaining, m), draws, k + 1);
      assert order[..j][1..] == order[1..][..j - 1] && order[..j][0] == m;
    }
  }
}
