/** Weighted random selection. The random numbers are parameters, and weights are reals. */
module Weighted {
  import opened Options

  datatype Model = Model(id: int, weight: real)

  predicate Positive(m: Model) {
    m.weight > 0.0
  }

  /** The positive weights of the first `i` models, added up. */
  function Before(models: seq<Model>, i: nat): (sum: real)
    requires i <= |models|
    ensures sum >= 0.0
  {
    if i == 0 then 0.0
    else Before(models, i - 1) + if Positive(models[i - 1]) then models[i - 1].weight else 0.0
  }

  function Total(models: seq<Model>): (sum: real)
    ensures sum >= 0.0
  {
    Before(models, |models|)
  }

  /** The first model from `i` on whose cumulative weight exceeds the draw. */
  function Reached(models: seq<Model>, draw: real, i: nat): (k: nat)
    requires i <= |models|
    ensures i <= k <= |models|
    decreases |models| - i
  {
    if i == |models| || (Positive(models[i]) && draw < Before(models, i + 1)) then i else Reached(models, draw, i + 1)
  }

  function Picked(models: seq<Model>, draw: real): (k: nat)
    requires models != []
    ensures k < |models|
  {
    var k := Reached(models, draw, 0);
    if k < |models| then k else |models| - 1
  }

  method SumWeights(models: seq<Model>) returns (total: real)
    ensures total == Total(models)
  {
    total := 0.0;
    for i := 0 to |models|
      invariant total == Before(models, i)
    {
      if models[i].weight > 0.0 {
        total := total + models[i].weight;
      }
    }
  }

  /** None is NoAvailableModelError. */
  method WeightedRandomSelect(models: seq<Model>, draw: real) returns (selected: Option<Model>)
    ensures selected == if Total(models) == 0.0 then None else Some(models[Picked(models, draw)])
  {
    var total := SumWeights(models);
    if total <= 0.0 {
      return None;
    }
    var cumulative := 0.0;
    for i := 0 to |models|
      invariant cumulative == Before(models, i)
      invariant Reached(models, draw, i) == Reached(models, draw, 0)
    {
      if models[i].weight > 0.0 {
        cumulative := cumulative + models[i].weight;
        if draw < cumulative {
          return Some(models[i]);
        }
      }
    }
    return Some(models[|models| - 1]);
  }

  // ------------------------------------------------- which model a draw selects

  lemma {:induction false} BeforeGrows(models: seq<Model>, i: nat, j: nat)
    requires i <= j <= |models|
    ensures Before(models, i) <= Before(models, j)
  {
    if i < j {
      BeforeGrows(models, i, j - 1);
    }
  }

  lemma {:induction false} ReachedInterval(models: seq<Model>, draw: real, i: nat)
    requires i <= |models| && Before(models, i) <= draw
    ensures var k := Reached(models, draw, i);
            && Before(models, k) <= draw
            && (k < |models| ==> Positive(models[k]) && draw < Before(models, k + 1))
    decreases |models| - i
  {
    if i < |models| && !(Positive(models[i]) && draw < Before(models, i + 1)) {
      ReachedInterval(models, draw, i + 1);
    }
  }

  /** A model is selected exactly for the draws in its half-open cumulative interval; the last
      model is also selected for every draw from the total on, whatever its weight. */
  lemma SelectedExactly(models: seq<Model>, draw: real, k: nat)
    requires k < |models| && draw >= 0.0
    ensures Picked(models, draw) == k <==>
            || (Positive(models[k]) && Before(models, k) <= draw < Before(models, k + 1))
            || (k == |models| - 1 && draw >= Total(models))
  {
    var r := Reached(models, draw, 0);
    ReachedInterval(models, draw, 0);
    if r < k {
      BeforeGrows(models, r + 1, k);
      BeforeGrows(models, r + 1, |models|);
    } else if k < r {
      BeforeGrows(models, k + 1, r);
    }
    if r < |models| {
      BeforeGrows(models, r + 1, |models|);
    }
  }

  /** Below the total, what is selected has a positive weight. */
  lemma SelectedIsPositive(models: seq<Model>, draw: real)
    requires models != [] && 0.0 <= draw < Total(models)
    ensures Positive(models[Picked(models, draw)])
  {
    SelectedExactly(models, draw, Picked(models, draw));
  }

  // ------------------------------------------------- ordering without replacement

  function Positives(models: seq<Model>): (r: seq<Model>)
    ensures forall m :: m in r <==> m in models && Positive(m)
  {
    if models == [] then []
    else (if Positive(models[0]) then [models[0]] else []) + Positives(models[1..])
  }

  /** list.remove: the first equal element goes. */
  function Removed(models: seq<Model>, m: Model): (r: seq<Model>)
    requires m in models
    ensures |r| == |models| - 1
  {
    if models[0] == m then models[1..] else [models[0]] + Removed(models[1..], m)
  }

  type Draws = nat -> real

  /** The order in which the models are drawn from what remains, from draw number `k` on. */
  function Drawn(remaining: seq<Model>, draws: Draws, k: nat): seq<Model>
    decreases |remaining|
  {
    if remaining == [] then []
    else
      var m := remaining[Picked(remaining, draws(k))];
      [m] + Drawn(Removed(remaining, m), draws, k + 1)
  }

  lemma {:induction false} RemovedMultiset(models: seq<Model>, m: Model)
    requires m in models
    ensures multiset(models) == multiset([m]) + multiset(Removed(models, m))
  {
    var rest := models[1..];
    assert models == [models[0]] + rest;
    if models[0] != m {
      RemovedMultiset(rest, m);
    }
  }

  lemma {:induction false} TotalPositive(models: seq<Model>, i: nat)
    requires i <= |models|
    ensures Before(models, i) > 0.0 <==> exists j :: 0 <= j < i && Positive(models[j])
  {
    if i > 0 {
      TotalPositive(models, i - 1);
    }
  }

  /** Nothing is left out of an order, and nothing drawn twice. */
  lemma {:induction false} DrawnIsPermutation(remaining: seq<Model>, draws: Draws, k: nat)
    ensures multiset(Drawn(remaining, draws, k)) == multiset(remaining)
    decreases |remaining|
  {
    if remaining != [] {
      var m := remaining[Picked(remaining, draws(k))];
      RemovedMultiset(remaining, m);
      DrawnIsPermutation(Removed(remaining, m), draws, k + 1);
    }
  }

  /** One draw: what is selected, and that only models still remaining remain. */
  lemma DrawOne(remaining: seq<Model>, draws: Draws, k: nat, before: seq<Model>)
    requires remaining != [] && forall x :: x in remaining ==> Positive(x)
    ensures Total(remaining) > 0.0
    ensures var m := remaining[Picked(remaining, draws(k))];
            && before + Drawn(remaining, draws, k) == before + [m] + Drawn(Removed(remaining, m), draws, k + 1)
            && forall x :: x in Removed(remaining, m) ==> Positive(x)
  {
    assert Positive(remaining[0]);
    TotalPositive(remaining, |remaining|);
    StillThere(remaining, remaining[Picked(remaining, draws(k))]);
  }

  lemma {:induction false} StillThere(models: seq<Model>, m: Model)
    requires m in models
    ensures forall x :: x in Removed(models, m) ==> x in models
  {
    if models[0] != m {
      StillThere(models[1..], m);
    }
  }

  /** The loop of weighted_random_order. */
  method DrawAll(models: seq<Model>, draws: Draws, k: nat) returns (ordered: seq<Model>)
    requires forall m :: m in models ==> Positive(m)
    ensures ordered == Drawn(models, draws, k)
  {
    ghost var whole := Drawn(models, draws, k);
    var remaining, step: nat := models, k;
    ordered := [];
    while remaining != []
      invariant forall m :: m in remaining ==> Positive(m)
      invariant whole == ordered + Drawn(remaining, draws, step)
      decreases |remaining|
    {
      DrawOne(remaining, draws, step, ordered);
      var selected := WeightedRandomSelect(remaining, draws(step));
      remaining := Removed(remaining, selected.value);
      ordered, step := ordered + [selected.value], step + 1;
    }
  }

  method WeightedRandomOrder(models: seq<Model>, draws: Draws, k: nat) returns (ordered: Option<seq<Model>>)
    ensures ordered == if Positives(models) == [] then None else Some(Drawn(Positives(models), draws, k))
  {
    var remaining := Positives(models);
    if remaining == [] {
      return None;
    }
    var out := DrawAll(remaining, draws, k);
    return Some(out);
  }
}
