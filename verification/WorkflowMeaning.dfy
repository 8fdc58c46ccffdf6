/** What a workflow run decides: which edge it follows, what a node comes to, and how it ends. */
module WorkflowMeaning {
  import opened Options
  import opened Workflow
  import opened WorkflowSafety

  // ------------------------------------------------- which edge is followed

  /** An edge without a condition, or whose condition occurs in the output. */
  ghost predicate Holds(edge: Edge, content: string) {
    && edge.Edge?
    && match edge.condition
       case None => true
       case Some(text) => exists i: nat :: Occurs(content, text, i)
  }

  predicate Occurs(content: string, text: string, i: nat) {
    i + |text| <= |content| && content[i..i + |text|] == text
  }

  predicate LeavesFrom(edges: seq<Edge>, source: Name, k: nat) {
    k < |edges| && edges[k].Edge? && edges[k].source == source
  }

  /** The edge that the walk follows out of a node: the only one whatever its condition, or else
      the first that holds, or else the first of all. */
  ghost predicate Follows(edges: seq<Edge>, source: Name, content: string, k: nat) {
    && LeavesFrom(edges, source, k)
    && (|| (forall j: nat :: j < |edges| && LeavesFrom(edges, source, j) ==> j == k)
        || (Holds(edges[k], content)
            && forall j: nat :: j < k && LeavesFrom(edges, source, j) ==> !Holds(edges[j], content))
        || (&& (forall j: nat :: j < k ==> !LeavesFrom(edges, source, j))
            && forall j: nat :: j < |edges| && LeavesFrom(edges, source, j) ==> !Holds(edges[j], content)))
  }

  /** The positions of the edges out of a node. */
  function Leaving(edges: seq<Edge>, source: Name): seq<nat> {
    if edges == [] then []
    else
      var n := |edges| - 1;
      Leaving(edges[..n], source) + if LeavesFrom(edges, source, n) then [n] else []
  }

  predicate Ascending(ks: seq<nat>) {
    forall i, j :: 0 <= i < j < |ks| ==> ks[i] < ks[j]
  }

  predicate Matching(edges: seq<Edge>, source: Name, ks: seq<nat>, arrows: seq<Arrow>) {
    && |ks| == |arrows|
    && forall i :: 0 <= i < |ks| ==>
         LeavesFrom(edges, source, ks[i]) && arrows[i] == Arrow(edges[ks[i]].target, edges[ks[i]].condition)
  }

  lemma {:induction false} LeavingIsComplete(edges: seq<Edge>, source: Name)
    ensures Ascending(Leaving(edges, source))
    ensures Matching(edges, source, Leaving(edges, source), ArrowsFrom(edges, source))
    ensures forall k: nat :: LeavesFrom(edges, source, k) ==> k in Leaving(edges, source)
  {
    if edges != [] {
      var n := |edges| - 1;
      LeavingIsComplete(edges[..n], source);
      assert forall k: nat :: k < n ==> (LeavesFrom(edges, source, k) <==> LeavesFrom(edges[..n], source, k));
    }
  }

  lemma HoldsExactly(edge: Edge, content: string)
    requires edge.Edge?
    ensures Matches(Arrow(edge.target, edge.condition), content) <==> Holds(edge, content)
  {
    if edge.condition.Some? {
      var text := edge.condition.value;
      assert forall i: nat :: OccursAt(content, text, i) <==> Occurs(content, text, i);
    }
  }

  /** The position of the arrow that Next takes. */
  function Taken(arrows: seq<Arrow>, content: string): (i: nat)
    requires arrows != []
    ensures i < |arrows|
  {
    var m := FirstMatch(arrows, content, 0);
    if |arrows| == 1 || m.None? then 0 else m.value
  }

  lemma RankFollows(edges: seq<Edge>, source: Name, content: string, ks: seq<nat>, t: nat)
    requires t < |ks| && Ascending(ks)
    requires forall i :: 0 <= i < |ks| ==> ks[i] < |edges| && LeavesFrom(edges, source, ks[i])
    requires forall k: nat :: LeavesFrom(edges, source, k) ==> k in ks
    requires || |ks| == 1
             || (Holds(edges[ks[t]], content) && forall i :: 0 <= i < t ==> !Holds(edges[ks[i]], content))
             || (t == 0 && forall i :: 0 <= i < |ks| ==> !Holds(edges[ks[i]], content))
    ensures Follows(edges, source, content, ks[t])
  {
    forall j: nat | LeavesFrom(edges, source, j)
      ensures exists i :: 0 <= i < |ks| && ks[i] == j && (j < ks[t] ==> i < t)
    {
      var i :| 0 <= i < |ks| && ks[i] == j;
      assert i > t ==> ks[t] < ks[i];
    }
  }

  lemma TakenFollows(edges: seq<Edge>, source: Name, content: string)
    requires ArrowsFrom(edges, source) != []
    ensures var ks, arrows := Leaving(edges, source), ArrowsFrom(edges, source);
            && |ks| == |arrows| && Follows(edges, source, content, ks[Taken(arrows, content)])
            && Next(arrows, content) == Some(edges[ks[Taken(arrows, content)]].target)
  {
    LeavingIsComplete(edges, source);
    var ks, arrows := Leaving(edges, source), ArrowsFrom(edges, source);
    forall i | 0 <= i < |ks|
      ensures Matches(arrows[i], content) <==> Holds(edges[ks[i]], content)
    {
      HoldsExactly(edges[ks[i]], content);
    }
    RankFollows(edges, source, content, ks, Taken(arrows, content));
  }

  /** The walk goes on along one of the configured edges, and ends where there is none. */
  lemma NextFollows(edges: seq<Edge>, source: Name, content: string, target: Name)
    ensures Next(ArrowsFrom(edges, source), content) == Some(target)
            ==> exists k: nat :: Follows(edges, source, content, k) && edges[k].target == target
    ensures Next(ArrowsFrom(edges, source), content).None? <==> forall k: nat :: !LeavesFrom(edges, source, k)
  {
    LeavingIsComplete(edges, source);
    var ks := Leaving(edges, source);
    if ArrowsFrom(edges, source) != [] {
      TakenFollows(edges, source, content);
      assert LeavesFrom(edges, source, ks[0]);
    }
  }

  /** Consecutive stops: the first was visited, and the second is where its output leads. */
  predicate Leads(cfg: Config, a: Stop, b: Stop) {
    a.visit.Visited? && Next(ArrowsFrom(cfg.edges, a.node), a.visit.content) == Some(b.node)
  }

  predicate Chained(cfg: Config, stops: seq<Stop>) {
    forall i :: 0 < i < |stops| ==> Leads(cfg, stops[i - 1], stops[i])
  }

  lemma ChainExtends(cfg: Config, stop: Stop, rest: seq<Stop>)
    requires Chained(cfg, rest) && (rest != [] ==> Leads(cfg, stop, rest[0]))
    ensures Chained(cfg, [stop] + rest)
  {
    var stops := [stop] + rest;
    forall i | 0 < i < |stops|
      ensures Leads(cfg, stops[i - 1], stops[i])
    {
      if i > 1 {
        assert stops[i] == rest[i - 1] && stops[i - 1] == rest[i - 2];
      }
    }
  }

  /** A walk that ends before its first visit, or with it. */
  predicate Brief(cfg: Config, act: Act, current: Option<Name>, step: nat, mem: Memory) {
    || current.None? || Stops(current.value) || step >= MAX_STEPS || !Configured(cfg, current.value)
    || act(cfg.nodes[current.value].value, step, mem).visit.Failed?
  }

  /** A walk whose first stop was visited, seen from that stop on. */
  lemma OneStop(cfg: Config, act: Act, name: Name, step: nat, mem: Memory)
    returns (next: Option<Name>, mem': Memory)
    requires Configured(cfg, name) && !Stops(name) && step < MAX_STEPS
    requires act(cfg.nodes[name].value, step, mem).visit.Visited?
    ensures mem'.last.Some?
    ensures var visit := act(cfg.nodes[name].value, step, mem).visit;
            && next == Next(ArrowsFrom(cfg.edges, name), visit.content)
            && Walk(cfg, act, Some(name), step, mem).stops
               == [Stop(name, visit)] + Walk(cfg, act, next, step + 1, mem').stops
    ensures var t, rest := Walk(cfg, act, Some(name), step, mem), Walk(cfg, act, next, step + 1, mem');
            && t.outcome == rest.outcome && |t.stops| == 1 + |rest.stops|
            && Arrival(cfg, Some(name), t.stops) == Arrival(cfg, next, rest.stops)
            && t.stops[|t.stops| - 1].visit.Visited?
               == if rest.stops == [] then true else rest.stops[|rest.stops| - 1].visit.Visited?
  {
    var Turn(visit, loaded) := act(cfg.nodes[name].value, step, mem);
    next, mem' := Next(ArrowsFrom(cfg.edges, name), visit.content), Remember(mem, name, visit, loaded);
    WalkUnfolds(cfg, act, name, step, mem, []);
    ArrivalLater(cfg, Some(name), Stop(name, visit), Walk(cfg, act, next, step + 1, mem').stops);
    LastLater(Stop(name, visit), Walk(cfg, act, next, step + 1, mem').stops);
  }

  lemma BriefIsChained(cfg: Config, act: Act, current: Option<Name>, step: nat, mem: Memory)
    requires Brief(cfg, act, current, step, mem)
    ensures Chained(cfg, Walk(cfg, act, current, step, mem).stops)
  {
    assert |Walk(cfg, act, current, step, mem).stops| <= 1;
  }

  lemma {:induction false} WalkIsChained(cfg: Config, act: Act, current: Option<Name>, step: nat, mem: Memory)
    ensures Chained(cfg, Walk(cfg, act, current, step, mem).stops)
    decreases MAX_STEPS - step
  {
    if Brief(cfg, act, current, step, mem) {
      BriefIsChained(cfg, act, current, step, mem);
    } else {
      var name := current.value;
      var next, mem' := OneStop(cfg, act, name, step, mem);
      var stop, rest := Stop(name, act(cfg.nodes[name].value, step, mem).visit), Walk(cfg, act, next, step + 1, mem');
      WalkIsChained(cfg, act, next, step + 1, mem');
      WalkStartsAt(cfg, act, next, step + 1, mem');
      ChainExtends(cfg, stop, rest.stops);
      assert Walk(cfg, act, current, step, mem).stops == [stop] + rest.stops;
    }
  }

  /** Between any two consecutive stops of a run, the walk followed the edge that the first
      one's output decides: a single edge unconditionally, the first that holds of several, and
      the first of all when none holds. */
  lemma RunFollowsEdges(cfg: Config, home: int, out: Outside, i: nat)
    requires i + 1 < |Run(cfg, home, out).stops|
    ensures var a, b := Run(cfg, home, out).stops[i], Run(cfg, home, out).stops[i + 1];
            && a.visit.Visited?
            && exists k: nat :: Follows(cfg.edges, a.node, a.visit.content, k) && cfg.edges[k].target == b.node
  {
    WalkIsChained(cfg, Acting(home, out), Some(cfg.entry), 0, BLANK);
    var a, b := Run(cfg, home, out).stops[i], Run(cfg, home, out).stops[i + 1];
    assert Leads(cfg, Run(cfg, home, out).stops[i + 1 - 1], b);
    NextFollows(cfg.edges, a.node, a.visit.content, b.node);
  }

  // ------------------------------------------------- how a walk ends

  /** The walk would go on to a node. */
  predicate GoesOn(next: Option<Name>) {
    next.Some? && next.value != Empty && next.value != End && next.value != DunderEnd
  }

  lemma ArrivalLater(cfg: Config, start: Option<Name>, stop: Stop, rest: seq<Stop>)
    requires stop.visit.Visited?
    ensures Arrival(cfg, start, [stop] + rest)
            == Arrival(cfg, Next(ArrowsFrom(cfg.edges, stop.node), stop.visit.content), rest)
  {
    var stops := [stop] + rest;
    assert rest != [] ==> stops[|stops| - 1] == rest[|rest| - 1];
  }

  lemma LastLater(stop: Stop, rest: seq<Stop>)
    ensures var stops := [stop] + rest; stops[|stops| - 1] == if rest == [] then stop else rest[|rest| - 1]
  {
  }

  lemma BriefEnds(cfg: Config, act: Act, current: Option<Name>, step: nat, mem: Memory)
    requires Brief(cfg, act, current, step, mem) && step <= 50
    ensures var t := Walk(cfg, act, current, step, mem);
            && (t.outcome == Fails(TooManySteps) <==> GoesOn(Arrival(cfg, current, t.stops)) && step + |t.stops| == 50)
            && (t.outcome.Answer? <==> !GoesOn(Arrival(cfg, current, t.stops)) && Responded(mem, t.stops))
  {
  }

  lemma {:induction false} WalkHitsLimit(cfg: Config, act: Act, current: Option<Name>, step: nat, mem: Memory)
    requires step <= 50
    ensures var t := Walk(cfg, act, current, step, mem);
            t.outcome == Fails(TooManySteps) <==> GoesOn(Arrival(cfg, current, t.stops)) && step + |t.stops| == 50
    decreases MAX_STEPS - step
  {
    if Brief(cfg, act, current, step, mem) {
      BriefEnds(cfg, act, current, step, mem);
    } else {
      var next, mem' := OneStop(cfg, act, current.value, step, mem);
      WalkHitsLimit(cfg, act, next, step + 1, mem');
    }
  }

  /** The walk has a response to answer with. */
  predicate Responded(mem: Memory, stops: seq<Stop>) {
    if stops == [] then mem.last.Some? else stops[|stops| - 1].visit.Visited?
  }

  lemma {:induction false} WalkAnswersAt(cfg: Config, act: Act, current: Option<Name>, step: nat, mem: Memory)
    requires step <= 50
    ensures var t := Walk(cfg, act, current, step, mem);
            t.outcome.Answer? <==> !GoesOn(Arrival(cfg, current, t.stops)) && Responded(mem, t.stops)
    decreases MAX_STEPS - step
  {
    if Brief(cfg, act, current, step, mem) {
      BriefEnds(cfg, act, current, step, mem);
    } else {
      var next, mem' := OneStop(cfg, act, current.value, step, mem);
      WalkAnswersAt(cfg, act, next, step + 1, mem');
    }
  }

  /** A run of an accepted configuration hits the limit if and only if 50 nodes were called and
      the last one leads on to another; and it answers if and only if its last node was visited
      and leads nowhere, or to an end marker. */
  lemma EndsExactly(cfg: Config, home: int, out: Outside)
    requires WellFormed(cfg)
    ensures var t := Run(cfg, home, out);
            var next := Arrival(cfg, Some(cfg.entry), t.stops);
            && (t.outcome == Fails(TooManySteps) <==> |t.stops| == 50 && GoesOn(next))
            && (t.outcome.Answer? <==> t.stops != [] && t.stops[|t.stops| - 1].visit.Visited? && !GoesOn(next))
  {
    AcceptsExactly(cfg);
    var act := Acting(home, out);
    assert Run(cfg, home, out) == Walk(cfg, act, Some(cfg.entry), 0, BLANK);
    WalkHitsLimit(cfg, act, Some(cfg.entry), 0, BLANK);
    WalkAnswersAt(cfg, act, Some(cfg.entry), 0, BLANK);
  }

  // ------------------------------------------------- what a node comes to

  /** The first endpoint of a group that is not on cooldown. */
  predicate FirstAwake(out: Outside, step: nat, group: int, endpoints: seq<int>, i: nat) {
    && i < |endpoints| && !out.onCooldown(step, group, endpoints[i])
    && forall j: nat :: j < i ==> out.onCooldown(step, group, endpoints[j])
  }

  lemma {:induction false} AwakeHead(out: Outside, step: nat, group: int, endpoints: seq<int>)
    returns (i: nat)
    ensures var awake := Awake(out, step, group, endpoints);
            if awake == [] then forall j :: 0 <= j < |endpoints| ==> out.onCooldown(step, group, endpoints[j])
            else FirstAwake(out, step, group, endpoints, i) && awake[0] == endpoints[i]
  {
    i := 0;
    if endpoints != [] && out.onCooldown(step, group, endpoints[0]) {
      i := AwakeHead(out, step, group, endpoints[1..]);
      assert forall j :: 0 < j < |endpoints| ==> endpoints[j] == endpoints[1..][j - 1];
      i := i + 1;
    }
  }

  /** What the call at a node comes to: its failures, or the content of the first choice, which
      is empty when there are no choices. */
  predicate CallComesTo(visit: Visit, response: Option<Response>) {
    match response
    case None => visit == Failed(CallFailed)
    case Some(r) =>
      if r.choices == [] then visit == Visited("", r)
      else
        match r.choices[0]
        case None => visit == Failed(NullContent)
        case Some(content) => visit == Visited(content, r)
  }

  /** What a node comes to, given what was put out before: its group, or the workflow's own,
      is loaded; of the endpoints the first that is not on cooldown gets the rendered prompt. */
  ghost predicate ComesTo(visit: Visit, out: Outside, group: int, node: Node, step: nat, state: map<Name, string>) {
    match out.load(group)
    case LoadRaises(message) => visit == Failed(Escapes(message))
    case Loads(endpoints) =>
      if endpoints == [] then visit == Failed(EmptyGroup(group))
      else if forall j :: 0 <= j < |endpoints| ==> out.onCooldown(step, group, endpoints[j]) then
        visit == Failed(AllOnCooldown(group))
      else
        match out.render(step, node.prompt, state)
        case UnknownKey(key) => visit == Failed(UnknownPlaceholder(key))
        case RenderRaises(message) => visit == Failed(Escapes(message))
        case Renders(prompt) =>
          exists i: nat :: FirstAwake(out, step, group, endpoints, i)
                           && CallComesTo(visit, out.call(step, endpoints[i], prompt))
  }

  lemma NodeComesTo(home: int, out: Outside, node: Node, step: nat, state: map<Name, string>)
    ensures ComesTo(Seen(home, out)(node, step, state), out, if node.group.Some? then node.group.value else home,
                    node, step, state)
  {
    var group := GroupOf(node, home);
    if out.load(group).Loads? {
      var i := AwakeHead(out, step, group, out.load(group).endpoints);
    }
  }

  /** Each stop of a run comes to what the world outside makes of its node. */
  lemma StopComesTo(cfg: Config, home: int, out: Outside, k: nat)
    requires k < |Run(cfg, home, out).stops|
    ensures var stops := Run(cfg, home, out).stops;
            && Configured(cfg, stops[k].node)
            && var node := cfg.nodes[stops[k].node].value;
               ComesTo(stops[k].visit, out, if node.group.Some? then node.group.value else home, node, k,
                       StateAfter(stops[..k]))
  {
    RunFollows(cfg, home, out, k);
    var stops := Run(cfg, home, out).stops;
    NodeComesTo(home, out, cfg.nodes[stops[k].node].value, k, StateAfter(stops[..k]));
  }

  // ------------------------------------------------- which problem is reported

  /** Nothing is wrong with an edge. */
  predicate EdgeIsSound(cfg: Config, edge: Edge) {
    && edge.Edge? && edge.source in cfg.nodes
    && (edge.target in cfg.nodes || edge.target == End || edge.target == DunderEnd)
  }

  lemma {:induction false} FirstUnsound(cfg: Config, from: nat, i: nat)
    requires from <= i < |cfg.edges| && EdgeProblem(cfg, i).Some?
    requires forall j :: from <= j < i ==> EdgeProblem(cfg, j).None?
    ensures FirstProblem(cfg, from) == EdgeProblem(cfg, i)
    decreases i - from
  {
    if from < i {
      FirstUnsound(cfg, from + 1, i);
    }
  }

  /** The reported problem is that of the nodes, then of the entry, then of the first edge that
      is not sound: its format, its source, or its target. */
  lemma ProblemExactly(cfg: Config, i: nat)
    requires i < |cfg.edges| ==> !EdgeIsSound(cfg, cfg.edges[i])
    requires forall j :: 0 <= j < i && j < |cfg.edges| ==> EdgeIsSound(cfg, cfg.edges[j])
    ensures Problem(cfg) ==
            if cfg.nodes == map[] then Some(NoNodes)
            else if cfg.entry == Empty || cfg.entry !in cfg.nodes then Some(BadEntry(cfg.entry))
            else if i >= |cfg.edges| then None
            else
              match cfg.edges[i]
              case Malformed => Some(BadFormat(i))
              case Edge(source, target, _) =>
                Some(if source !in cfg.nodes then BadSource(source) else BadTarget(target))
  {
    assert forall j :: 0 <= j < i && j < |cfg.edges| ==> EdgeProblem(cfg, j).None?;
    if i < |cfg.edges| {
      FirstUnsound(cfg, 0, i);
    }
  }
}
