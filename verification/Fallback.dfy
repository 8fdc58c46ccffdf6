/** Group-level fallback: which groups a request visits, and in what order. The chat driver,
    the streaming driver and the legacy route() share this walk. */
module Fallback {
  import opened Options
  import opened Routing

  /** How the run of one group ends, as the driving loop sees it. */
  datatype Outcome = Settles | FallsBack | Breaks

  datatype TourEnd = Settled | Exhausted | Broken | LoadFailed(groupId: int)

  datatype Tour = Tour(tried: seq<Group>, end: TourEnd) {
    function Last(): Group
      requires tried != []
    {
      tried[|tried| - 1]
    }
  }

  const MAX_GROUPS := 3

  /** The guard of the `raise`: no backup group, a cycle, or too many groups. */
  predicate NoBackup(fallback: Option<int>, visited: set<int>) {
    fallback.None? || fallback.value in visited || |visited| >= MAX_GROUPS
  }

  /** The groups tried from `g` on, where `visited` holds every group tried so far and g. */
  function TourFrom(outcome: int -> Outcome, groups: map<int, Option<int>>, g: Group, visited: set<int>): (t: Tour)
    ensures t.tried != []
    decreases if |visited| < MAX_GROUPS then MAX_GROUPS - |visited| else 0
  {
    match outcome(g.id)
    case Settles => Tour([g], Settled)
    case Breaks => Tour([g], Broken)
    case FallsBack =>
      if NoBackup(g.fallback, visited) then
        Tour([g], Exhausted)
      else if g.fallback.value !in groups then
        Tour([g], LoadFailed(g.fallback.value))
      else
        var next := Group(g.fallback.value, groups[g.fallback.value]);
        var rest := TourFrom(outcome, groups, next, visited + {next.id});
        Tour([g] + rest.tried, rest.end)
  }

  function WholeTour(outcome: int -> Outcome, groups: map<int, Option<int>>, primary: Group): Tour {
    TourFrom(outcome, groups, primary, {primary.id})
  }

  function Ids(tried: seq<Group>): set<int> {
    set g | g in tried :: g.id
  }

  /** Consecutive groups: the first one fell back and the second is its loaded backup. */
  predicate Linked(outcome: int -> Outcome, groups: map<int, Option<int>>, a: Group, b: Group) {
    && outcome(a.id) == FallsBack && a.fallback == Some(b.id)
    && b.id in groups && b.fallback == groups[b.id]
  }

  /** Why a tour ends at its last group. */
  predicate Explains(outcome: int -> Outcome, groups: map<int, Option<int>>, last: Group, seen: set<int>,
                     end: TourEnd) {
    match end
    case Settled => outcome(last.id) == Settles
    case Broken => outcome(last.id) == Breaks
    case Exhausted => outcome(last.id) == FallsBack && NoBackup(last.fallback, seen)
    case LoadFailed(id) =>
      outcome(last.id) == FallsBack && last.fallback == Some(id) && id !in groups && !NoBackup(last.fallback, seen)
  }

  /** The groups tried after those in `visited` are new, pairwise distinct and linked, and
      the last one explains the end of the tour. */
  ghost predicate Shape(outcome: int -> Outcome, groups: map<int, Option<int>>, g: Group, visited: set<int>, t: Tour) {
    && t.tried != [] && t.tried[0] == g
    && |t.tried| + |visited| <= MAX_GROUPS + 1
    && (forall i :: 0 < i < |t.tried| ==> t.tried[i].id !in visited)
    && (forall i, j :: 0 <= i < j < |t.tried| ==> t.tried[i].id != t.tried[j].id)
    && (forall i :: 0 < i < |t.tried| ==> Linked(outcome, groups, t.tried[i - 1], t.tried[i]))
    && Explains(outcome, groups, t.Last(), visited + Ids(t.tried), t.end)
  }

  lemma ShapeExtends(outcome: int -> Outcome, groups: map<int, Option<int>>, g: Group, visited: set<int>,
                     next: Group, rest: Tour)
    requires g.id in visited && next.id !in visited && Linked(outcome, groups, g, next)
    requires Shape(outcome, groups, next, visited + {next.id}, rest)
    ensures Shape(outcome, groups, g, visited, Tour([g] + rest.tried, rest.end))
  {
    var t := Tour([g] + rest.tried, rest.end);
    forall i | 0 < i < |t.tried|
      ensures Linked(outcome, groups, t.tried[i - 1], t.tried[i])
      ensures t.tried[i].id !in visited
    {
      assert t.tried[i] == rest.tried[i - 1];
    }
    forall i, j | 0 <= i < j < |t.tried|
      ensures t.tried[i].id != t.tried[j].id
    {
      assert t.tried[j] == rest.tried[j - 1] && t.tried[j].id !in visited;
      if i > 0 {
        assert rest.tried[i - 1].id != rest.tried[j - 1].id;
      }
    }
    assert t.Last() == rest.Last();
    VisitedGrows(g, rest.tried, next, visited);
  }

  lemma {:induction false} TourHasShape(outcome: int -> Outcome, groups: map<int, Option<int>>, g: Group,
                                        visited: set<int>)
    requires g.id in visited && |visited| <= MAX_GROUPS
    ensures Shape(outcome, groups, g, visited, TourFrom(outcome, groups, g, visited))
    decreases MAX_GROUPS - |visited|
  {
    if outcome(g.id).FallsBack? && !NoBackup(g.fallback, visited) && g.fallback.value in groups {
      var next := Group(g.fallback.value, groups[g.fallback.value]);
      TourHasShape(outcome, groups, next, visited + {next.id});
      ShapeExtends(outcome, groups, g, visited, next, TourFrom(outcome, groups, next, visited + {next.id}));
    } else {
      assert visited + Ids([g]) == visited;
    }
  }

  lemma VisitedGrows(g: Group, rest: seq<Group>, next: Group, visited: set<int>)
    requires g.id in visited && next in rest
    ensures visited + Ids([g] + rest) == (visited + {next.id}) + Ids(rest)
  {
    assert forall x :: x in [g] + rest <==> x == g || x in rest;
    assert next.id in Ids(rest);
    assert forall id :: id in Ids([g] + rest) <==> id == g.id || id in Ids(rest);
  }

  /** A driving loop that has left `tried` behind and now runs `g` is on the tour `whole`. */
  ghost predicate OnTour(outcome: int -> Outcome, groups: map<int, Option<int>>, whole: Tour,
                         tried: seq<Group>, g: Group, visited: set<int>)
  {
    var rest := TourFrom(outcome, groups, g, visited);
    whole == Tour(tried + rest.tried, rest.end)
  }

  /** The decision at the end of a turn of the driving loop: stop here, or load the backup
      group and go on. */
  method Advance(groups: map<int, Option<int>>, g: Group, visited: set<int>, o: Outcome,
                 ghost outcome: int -> Outcome, ghost whole: Tour, ghost tried: seq<Group>)
    returns (end: Option<TourEnd>, next: Group, visited': set<int>)
    requires OnTour(outcome, groups, whole, tried, g, visited) && outcome(g.id) == o
    requires g.id in visited && |visited| <= MAX_GROUPS
    ensures end.Some? ==>
              whole == Tour(tried + [g], end.value) && whole.Last() == g && next == g && visited' == visited
    ensures end.None? ==>
              && OnTour(outcome, groups, whole, tried + [g], next, visited')
              && visited' == visited + {next.id} && |visited| < |visited'| <= MAX_GROUPS
  {
    next, visited' := g, visited;
    match o {
      case Settles =>
        return Some(Settled), g, visited;
      case Breaks =>
        return Some(Broken), g, visited;
      case FallsBack =>
        if NoBackup(g.fallback, visited) {
          return Some(Exhausted), g, visited;
        }
        var id := g.fallback.value;
        if id !in groups {
          return Some(LoadFailed(id)), g, visited;
        }
        next, visited' := Group(id, groups[id]), visited + {id};
        Assoc(tried, [g], TourFrom(outcome, groups, next, visited').tried);
        return None, next, visited';
    }
  }

  /** At most three groups are tried, pairwise distinct, along the backup chain of the
      primary, up to the first one that does not fall back. */
  lemma TourIsChain(outcome: int -> Outcome, groups: map<int, Option<int>>, primary: Group)
    ensures var t := WholeTour(outcome, groups, primary);
            && Shape(outcome, groups, primary, {primary.id}, t)
            && 1 <= |t.tried| <= 3
  {
    TourHasShape(outcome, groups, primary, {primary.id});
  }

  lemma {:induction false} AsManyIds(tried: seq<Group>)
    requires forall i, j :: 0 <= i < j < |tried| ==> tried[i].id != tried[j].id
    ensures |Ids(tried)| == |tried|
  {
    if tried != [] {
      var n := |tried| - 1;
      AsManyIds(tried[..n]);
      assert forall x :: x in tried <==> x in tried[..n] || x == tried[n];
      assert forall id :: id in Ids(tried) <==> id in Ids(tried[..n]) || id == tried[n].id;
      forall x | x in tried[..n]
        ensures x.id != tried[n].id
      {
        var i :| 0 <= i < n && tried[i] == x;
      }
      assert Ids(tried) == Ids(tried[..n]) + {tried[n].id};
    }
  }

  lemma TriedExactly(tried: seq<Group>, id: int)
    ensures id in Ids(tried) <==> exists i :: 0 <= i < |tried| && tried[i].id == id
  {
    if id in Ids(tried) {
      var x :| x in tried && x.id == id;
      var i :| 0 <= i < |tried| && tried[i] == x;
    }
  }

  /** A request is exhausted if and only if its last group falls back, and that group has no
      backup, or one that was tried already, or is the third one. */
  lemma ExhaustedExactly(outcome: int -> Outcome, groups: map<int, Option<int>>, primary: Group)
    ensures var t := WholeTour(outcome, groups, primary);
            t.end == Exhausted
            <==> outcome(t.Last().id) == FallsBack
                 && (t.Last().fallback.None? || |t.tried| == 3
                     || exists i :: 0 <= i < |t.tried| && t.tried[i].id == t.Last().fallback.value)
  {
    TourIsChain(outcome, groups, primary);
    var t := WholeTour(outcome, groups, primary);
    AsManyIds(t.tried);
    assert t.tried[0] == primary && primary in t.tried;
    assert {primary.id} + Ids(t.tried) == Ids(t.tried);
    if t.Last().fallback.Some? {
      TriedExactly(t.tried, t.Last().fallback.value);
    }
  }

  /** With backup groups that load and differ, two recoverable failures lead to a third group,
      and that one is the last, whatever backup it has. */
  lemma ThirdGroupIsTried(outcome: int -> Outcome, groups: map<int, Option<int>>, primary: Group, b: int, c: int)
    requires primary.id != b && primary.id != c && b != c && primary.fallback == Some(b)
    requires b in groups && groups[b] == Some(c) && c in groups
    requires outcome(primary.id) == FallsBack && outcome(b) == FallsBack
    ensures WholeTour(outcome, groups, primary).tried == [primary, Group(b, Some(c)), Group(c, groups[c])]
  {
    var second, third := Group(b, Some(c)), Group(c, groups[c]);
    assert |{primary.id}| == 1 && |{primary.id} + {b}| == 2 && |{primary.id} + {b} + {c}| == 3;
    assert TourFrom(outcome, groups, third, {primary.id} + {b} + {c}).tried == [third] by {
      TourHasShape(outcome, groups, third, {primary.id} + {b} + {c});
    }
    assert TourFrom(outcome, groups, second, {primary.id} + {b}).tried == [second] + [third];
  }

  /** Everything the tried groups contribute, in order. */
  function Gather<T>(part: int -> seq<T>, tried: seq<Group>): seq<T> {
    if tried == [] then [] else part(tried[0].id) + Gather(part, tried[1..])
  }

  lemma {:induction false} GatherAppends<T>(part: int -> seq<T>, tried: seq<Group>, g: Group)
    ensures Gather(part, tried + [g]) == Gather(part, tried) + part(g.id)
  {
    if tried == [] {
      assert tried + [g] == [g];
      assert Gather(part, [g]) == part(g.id) + Gather(part, [g][1..]);
    } else {
      GatherAppends(part, tried[1..], g);
      assert (tried + [g])[1..] == tried[1..] + [g];
    }
  }

  /** When all but the last group contribute nothing, the whole is the last one's part. */
  lemma {:induction false} GatherLast<T>(part: int -> seq<T>, tried: seq<Group>)
    requires tried != [] && forall i :: 0 <= i < |tried| - 1 ==> part(tried[i].id) == []
    ensures Gather(part, tried) == part(tried[|tried| - 1].id)
  {
    if |tried| > 1 {
      GatherLast(part, tried[1..]);
    }
  }

  // ------------------------------------------------- comparing two drivers

  /** A group that has a backup which would be loaded and tried. */
  predicate CouldGoOn(groups: map<int, Option<int>>, last: Group, seen: set<int>) {
    !NoBackup(last.fallback, seen) && last.fallback.value in groups
  }

  /** Two drivers that differ only on stray groups (where `first` breaks and `second` falls
      back) try the same groups with the same success if and only if the first one does not
      break at a stray group that could go on. */
  lemma {:induction false} ToursAgree(first: int -> Outcome, second: int -> Outcome, stray: int -> bool,
                                      groups: map<int, Option<int>>, g: Group, visited: set<int>)
    requires forall id :: if stray(id) then first(id) == Breaks && second(id) == FallsBack else first(id) == second(id)
    requires g.id in visited && |visited| <= MAX_GROUPS
    ensures var a, b := TourFrom(first, groups, g, visited), TourFrom(second, groups, g, visited);
            (a.tried == b.tried && a.end.Settled? == b.end.Settled?)
            <==> !(stray(a.Last().id) && CouldGoOn(groups, a.Last(), visited + Ids(a.tried)))
    decreases MAX_GROUPS - |visited|
  {
    var a, b := TourFrom(first, groups, g, visited), TourFrom(second, groups, g, visited);
    if |a.tried| == 1 {
      assert visited + Ids(a.tried) == visited;
    }
    if first(g.id).FallsBack? && CouldGoOn(groups, g, visited) {
      var next := Group(g.fallback.value, groups[g.fallback.value]);
      ToursAgree(first, second, stray, groups, next, visited + {next.id});
      TourHasShape(first, groups, next, visited + {next.id});
      assert a.tried[1..] == TourFrom(first, groups, next, visited + {next.id}).tried;
      assert b.tried[1..] == TourFrom(second, groups, next, visited + {next.id}).tried;
      assert a.tried == [g] + a.tried[1..] && b.tried == [g] + b.tried[1..];
      VisitedGrows(g, a.tried[1..], next, visited);
    }
  }
}
