/** What every workflow run does, whatever the models answer. */
module WorkflowSafety {
  import opened Options
  import opened Workflow

  // ------------------------------------------------- what is accepted

  predicate SoundEdge(cfg: Config, edge: Edge) {
    edge.Edge? && edge.source in cfg.nodes && (edge.target in cfg.nodes || Marker(edge.target))
  }

  predicate WellFormed(cfg: Config) {
    && !cfg.entry.Empty? && cfg.entry in cfg.nodes
    && forall i :: 0 <= i < |cfg.edges| ==> SoundEdge(cfg, cfg.edges[i])
  }

  /** Validation accepts exactly the well-formed configurations. */
  lemma AcceptsExactly(cfg: Config)
    ensures Problem(cfg).None? <==> WellFormed(cfg)
  {
    assert forall i :: 0 <= i < |cfg.edges| ==> (EdgeProblem(cfg, i).None? <==> SoundEdge(cfg, cfg.edges[i]));
  }

  // ------------------------------------------------- the walk follows edges

  predicate Linked(cfg: Config, a: Name, b: Name) {
    exists i :: 0 <= i < |cfg.edges| && cfg.edges[i].Edge? && cfg.edges[i].source == a && cfg.edges[i].target == b
  }

  lemma {:induction false} ArrowIsEdge(edges: seq<Edge>, source: Name, i: nat) returns (k: nat)
    requires i < |ArrowsFrom(edges, source)|
    ensures k < |edges|
    ensures edges[k]
            == Edge(source, ArrowsFrom(edges, source)[i].target, ArrowsFrom(edges, source)[i].condition)
  {
    var shorter := edges[..|edges| - 1];
    if i < |ArrowsFrom(shorter, source)| {
      k := ArrowIsEdge(shorter, source, i);
    } else {
      k := |edges| - 1;
    }
  }

  /** Where the walk may go from a node. */
  predicate Allowed(cfg: Config, current: Option<Name>) {
    current.None? || current.value in cfg.nodes || Stops(current.value)
  }

  lemma NextIsLinked(cfg: Config, source: Name, content: string)
    requires WellFormed(cfg)
    ensures var next := Next(ArrowsFrom(cfg.edges, source), content);
            Allowed(cfg, next) && (next.Some? ==> Linked(cfg, source, next.value))
  {
    var arrows := ArrowsFrom(cfg.edges, source);
    var next := Next(arrows, content);
    if next.Some? {
      var i :| 0 <= i < |arrows| && arrows[i].target == next.value;
      var k := ArrowIsEdge(cfg.edges, source, i);
      assert SoundEdge(cfg, cfg.edges[k]);
    }
  }

  /** A path in the configured graph. */
  predicate IsPath(cfg: Config, path: seq<Name>) {
    && (forall i :: 0 <= i < |path| ==> path[i] in cfg.nodes)
    && (forall i :: 0 < i < |path| ==> Linked(cfg, path[i - 1], path[i]))
  }

  function Names(stops: seq<Stop>): (names: seq<Name>)
    ensures |names| == |stops| && forall i :: 0 <= i < |stops| ==> names[i] == stops[i].node
  {
    if stops == [] then [] else [stops[0].node] + Names(stops[1..])
  }

  /** A node that passes validation, its name being there, but has null for a configuration. */
  predicate NullNode(cfg: Config, name: Name) {
    name in cfg.nodes && cfg.nodes[name].None?
  }

  /** Only the last node of a run can have failed. */
  predicate AllButLastVisited(stops: seq<Stop>) {
    forall i :: 0 <= i < |stops| - 1 ==> stops[i].visit.Visited?
  }

  lemma PathExtends(cfg: Config, name: Name, path: seq<Name>)
    requires name in cfg.nodes && IsPath(cfg, path) && (path != [] ==> Linked(cfg, name, path[0]))
    ensures IsPath(cfg, [name] + path)
  {
    var longer := [name] + path;
    forall i | 0 < i < |longer|
      ensures Linked(cfg, longer[i - 1], longer[i])
    {
      if i > 1 {
        assert longer[i] == path[i - 1] && longer[i - 1] == path[i - 2];
      }
    }
  }

  lemma WalkStartsAt(cfg: Config, act: Act, current: Option<Name>, step: nat, mem: Memory)
    ensures var stops := Walk(cfg, act, current, step, mem).stops; stops != [] ==> Some(stops[0].node) == current
  {
  }

  lemma StopExtends(cfg: Config, stop: Stop, rest: seq<Stop>)
    requires stop.node in cfg.nodes && IsPath(cfg, Names(rest))
    requires rest != [] ==> Linked(cfg, stop.node, rest[0].node)
    ensures IsPath(cfg, Names([stop] + rest))
  {
    PathExtends(cfg, stop.node, Names(rest));
    assert ([stop] + rest)[1..] == rest;
    assert Names([stop] + rest) == [stop.node] + Names(rest);
  }

  lemma {:induction false} WalkIsPath(cfg: Config, act: Act, current: Option<Name>, step: nat, mem: Memory)
    requires WellFormed(cfg) && Allowed(cfg, current)
    ensures IsPath(cfg, Names(Walk(cfg, act, current, step, mem).stops))
    decreases MAX_STEPS - step
  {
    if current.Some? && !Stops(current.value) && step < MAX_STEPS && Configured(cfg, current.value) {
      var name := current.value;
      var Turn(visit, loaded) := act(cfg.nodes[name].value, step, mem);
      var rest: seq<Stop> := [];
      if visit.Visited? {
        var next, mem' := Next(ArrowsFrom(cfg.edges, name), visit.content), Remember(mem, name, visit, loaded);
        NextIsLinked(cfg, name, visit.content);
        WalkIsPath(cfg, act, next, step + 1, mem');
        WalkStartsAt(cfg, act, next, step + 1, mem');
        rest := Walk(cfg, act, next, step + 1, mem').stops;
      }
      StopExtends(cfg, Stop(name, visit), rest);
    }
  }

  lemma {:induction false} WalkIsBounded(cfg: Config, act: Act, current: Option<Name>, step: nat, mem: Memory)
    requires WellFormed(cfg) && Allowed(cfg, current) && step <= MAX_STEPS
    ensures var t := Walk(cfg, act, current, step, mem);
            && AllButLastVisited(t.stops) && |t.stops| <= MAX_STEPS - step
            && (t.outcome.Fails? && t.outcome.failure.NodeNotFound? ==> NullNode(cfg, t.outcome.failure.node))
    decreases MAX_STEPS - step
  {
    if current.Some? && !Stops(current.value) && step < MAX_STEPS && Configured(cfg, current.value) {
      var name := current.value;
      var Turn(visit, loaded) := act(cfg.nodes[name].value, step, mem);
      if visit.Visited? {
        NextIsLinked(cfg, name, visit.content);
        WalkIsBounded(cfg, act, Next(ArrowsFrom(cfg.edges, name), visit.content), step + 1,
                      Remember(mem, name, visit, loaded));
      }
    }
  }

  /** In every run the nodes on which execution begins form a path from the entry along
      configured edges, at most 50 calls are made, and only a node whose configuration is null
      is ever not found. */
  lemma RunIsPath(cfg: Config, home: int, out: Outside)
    ensures var t := Run(cfg, home, out);
            && IsPath(cfg, Names(t.stops)) && AllButLastVisited(t.stops) && |t.stops| <= 50
            && (t.stops != [] ==> t.stops[0].node == cfg.entry)
            && (t.outcome.Fails? && t.outcome.failure.NodeNotFound? ==> NullNode(cfg, t.outcome.failure.node))
  {
    AcceptsExactly(cfg);
    if WellFormed(cfg) {
      WalkIsPath(cfg, Acting(home, out), Some(cfg.entry), 0, BLANK);
      WalkStartsAt(cfg, Acting(home, out), Some(cfg.entry), 0, BLANK);
      WalkIsBounded(cfg, Acting(home, out), Some(cfg.entry), 0, BLANK);
    } else {
      ProblemKinds(cfg, 0);
    }
  }

  lemma {:induction false} ProblemKinds(cfg: Config, i: nat)
    requires i <= |cfg.edges|
    ensures var p := FirstProblem(cfg, i);
            p.Some? ==>
              && !p.value.NodeNotFound? && !p.value.TooManySteps?
              && !p.value.NoResponse? && !p.value.NodeFailed?
    decreases |cfg.edges| - i
  {
    if i < |cfg.edges| {
      ProblemKinds(cfg, i + 1);
    }
  }

  // ------------------------------------------------- nodes that are not found

  /** Where a walk that began at `start` arrives after some stops; nowhere when a node failed. */
  function Arrival(cfg: Config, start: Option<Name>, stops: seq<Stop>): Option<Name> {
    if stops == [] then start
    else
      var last := stops[|stops| - 1];
      if last.visit.Visited? then Next(ArrowsFrom(cfg.edges, last.node), last.visit.content) else None
  }

  /** A walk arrives, within the step limit, at a node whose configuration is null. */
  predicate ArrivesAtNull(cfg: Config, start: Option<Name>, step: nat, stops: seq<Stop>, name: Name) {
    && step + |stops| < MAX_STEPS && Arrival(cfg, start, stops) == Some(name)
    && !Stops(name) && NullNode(cfg, name)
  }

  lemma ArrivesLater(cfg: Config, start: Option<Name>, step: nat, stop: Stop, rest: seq<Stop>, name: Name)
    requires stop.visit.Visited?
    ensures ArrivesAtNull(cfg, start, step, [stop] + rest, name) <==>
              ArrivesAtNull(cfg, Next(ArrowsFrom(cfg.edges, stop.node), stop.visit.content), step + 1, rest, name)
  {
    var longer := [stop] + rest;
    assert rest != [] ==> longer[|longer| - 1] == rest[|rest| - 1];
  }

  lemma {:induction false} WalkNotFound(cfg: Config, act: Act, current: Option<Name>, step: nat, mem: Memory,
                                        name: Name)
    requires WellFormed(cfg) && Allowed(cfg, current)
    ensures var t := Walk(cfg, act, current, step, mem);
            t.outcome == Fails(NodeNotFound(name)) <==> ArrivesAtNull(cfg, current, step, t.stops, name)
    decreases MAX_STEPS - step
  {
    if current.Some? && !Stops(current.value) && step < MAX_STEPS && Configured(cfg, current.value) {
      var here := current.value;
      var Turn(visit, loaded) := act(cfg.nodes[here].value, step, mem);
      if visit.Visited? {
        var next, mem' := Next(ArrowsFrom(cfg.edges, here), visit.content), Remember(mem, here, visit, loaded);
        NextIsLinked(cfg, here, visit.content);
        WalkNotFound(cfg, act, next, step + 1, mem', name);
        ArrivesLater(cfg, current, step, Stop(here, visit), Walk(cfg, act, next, step + 1, mem').stops, name);
      }
    }
  }

  /** A run ends in "node not found" if and only if it passes validation and the walk arrives,
      within the step limit, at a node whose configuration is null. So it never does when every
      node is configured. */
  lemma NotFoundExactly(cfg: Config, home: int, out: Outside, name: Name)
    ensures var t := Run(cfg, home, out);
            t.outcome == Fails(NodeNotFound(name))
            <==> WellFormed(cfg) && ArrivesAtNull(cfg, Some(cfg.entry), 0, t.stops, name)
    ensures Run(cfg, home, out).outcome == Fails(NodeNotFound(name)) ==> !Configured(cfg, name)
  {
    AcceptsExactly(cfg);
    if WellFormed(cfg) {
      WalkNotFound(cfg, Acting(home, out), Some(cfg.entry), 0, BLANK, name);
    } else {
      ProblemKinds(cfg, 0);
    }
  }

  /** A configuration that validation accepts and whose entry is then not found. */
  lemma NodeCanBeMissing(home: int, out: Outside)
    ensures var cfg := Config(map[ASK := None], [], ASK, None);
            Problem(cfg).None? && Run(cfg, home, out) == Trail([], Fails(NodeNotFound(ASK)))
  {
    var cfg := Config(map[ASK := None], [], ASK, None);
    AcceptsExactly(cfg);
  }

  // ------------------------------------------------- the step limit

  /** The walk that ran into the limit, with the node it could not enter any more. */
  lemma {:induction false} LongWalk(cfg: Config, act: Act, current: Option<Name>, step: nat, mem: Memory)
    returns (path: seq<Name>)
    requires WellFormed(cfg) && Allowed(cfg, current) && step <= MAX_STEPS
    requires Walk(cfg, act, current, step, mem).outcome == Fails(TooManySteps)
    ensures IsPath(cfg, path) && |path| == MAX_STEPS - step + 1 && Some(path[0]) == current
    decreases MAX_STEPS - step
  {
    assert current.Some? && !Stops(current.value) by {
      assert Conclusion(cfg, mem) != Fails(TooManySteps);
    }
    path := [current.value];
    if step < MAX_STEPS {
      var name := current.value;
      var Turn(visit, loaded) := act(cfg.nodes[name].value, step, mem);
      NextIsLinked(cfg, name, visit.content);
      var rest := LongWalk(cfg, act, Next(ArrowsFrom(cfg.edges, name), visit.content), step + 1,
                           Remember(mem, name, visit, loaded));
      path := path + rest;
    }
  }

  lemma {:induction false} Pigeonhole(path: seq<Name>, names: set<Name>) returns (i: nat, j: nat)
    requires |path| > |names| && forall k :: 0 <= k < |path| ==> path[k] in names
    ensures i < j < |path| && path[i] == path[j]
  {
    var head := path[0];
    if k :| 0 < k < |path| && path[k] == head {
      i, j := 0, k;
    } else {
      i, j := Pigeonhole(path[1..], names - {head});
      i, j := i + 1, j + 1;
    }
  }

  /** A path longer than the number of nodes comes back to a node. */
  lemma CycleWithin(cfg: Config, path: seq<Name>) returns (cycle: seq<Name>)
    requires IsPath(cfg, path) && |path| > |cfg.nodes.Keys|
    ensures IsPath(cfg, cycle) && |cycle| >= 2 && cycle[0] == cycle[|cycle| - 1]
  {
    var i, j := Pigeonhole(path, cfg.nodes.Keys);
    cycle := path[i..j + 1];
    forall k | 0 < k < |cycle|
      ensures Linked(cfg, cycle[k - 1], cycle[k])
    {
      assert cycle[k - 1] == path[i + k - 1] && cycle[k] == path[i + k];
    }
  }

  /** A run into the step limit on at most 50 nodes has walked a cycle. */
  lemma LimitShowsCycle(cfg: Config, home: int, out: Outside) returns (cycle: seq<Name>)
    requires |cfg.nodes.Keys| <= 50 && Run(cfg, home, out).outcome == Fails(TooManySteps)
    ensures IsPath(cfg, cycle) && |cycle| >= 2 && cycle[0] == cycle[|cycle| - 1]
  {
    AcceptsExactly(cfg);
    if !WellFormed(cfg) {
      ProblemKinds(cfg, 0);
    }
    var path := LongWalk(cfg, Acting(home, out), Some(cfg.entry), 0, BLANK);
    cycle := CycleWithin(cfg, path);
  }

  /** No path leads from a node back to itself. */
  ghost predicate Acyclic(cfg: Config) {
    forall path :: IsPath(cfg, path) && |path| >= 2 ==> path[0] != path[|path| - 1]
  }

  /** An acyclic workflow of at most 50 nodes never runs into the step limit. */
  lemma AcyclicStaysWithinLimit(cfg: Config, home: int, out: Outside)
    requires Acyclic(cfg) && |cfg.nodes.Keys| <= 50
    ensures Run(cfg, home, out).outcome != Fails(TooManySteps)
  {
    if Run(cfg, home, out).outcome == Fails(TooManySteps) {
      var cycle := LimitShowsCycle(cfg, home, out);
    }
  }

  // ------------------------------------------------- the answer

  /** The content of the last visit to a node. */
  function LastContent(stops: seq<Stop>, name: Name): Option<string> {
    if stops == [] then None
    else
      var last := stops[|stops| - 1];
      if last.node == name && last.visit.Visited? then Some(last.visit.content)
      else LastContent(stops[..|stops| - 1], name)
  }

  function LastResponse(stops: seq<Stop>): Option<Response> {
    if stops == [] || stops[|stops| - 1].visit.Failed? then None else Some(stops[|stops| - 1].visit.response)
  }

  /** The answer that a run of the given stops should give. */
  function Expected(final: Option<Name>, stops: seq<Stop>): Option<Response> {
    var last := LastResponse(stops);
    if last.Some? && final.Some? && !final.value.Empty? && LastContent(stops, final.value).Some? then
      Some(WithContent(last.value, LastContent(stops, final.value).value))
    else last
  }

  /** The memory after some stops. */
  predicate Remembers(mem: Memory, stops: seq<Stop>) {
    && mem.last == LastResponse(stops)
    && (stops != [] ==> mem.last.Some?)
    && (forall n :: n in mem.state ==> LastContent(stops, n) == Some(mem.state[n]))
    && (forall i :: 0 <= i < |stops| ==> stops[i].visit.Visited? && stops[i].node in mem.state)
  }

  lemma {:induction false} Unvisited(stops: seq<Stop>, name: Name)
    requires forall i :: 0 <= i < |stops| ==> stops[i].node != name
    ensures LastContent(stops, name).None?
  {
    if stops != [] {
      Unvisited(stops[..|stops| - 1], name);
    }
  }

  lemma RemembersMore(name: Name, mem: Memory, visit: Visit, loaded: map<int, seq<int>>, stops: seq<Stop>)
    requires visit.Visited? && Remembers(mem, stops)
    ensures Remembers(Remember(mem, name, visit, loaded), stops + [Stop(name, visit)])
  {
    var longer := stops + [Stop(name, visit)];
    assert longer[..|longer| - 1] == stops;
  }

  lemma ConclusionIsExpected(cfg: Config, mem: Memory, stops: seq<Stop>)
    requires Remembers(mem, stops)
    ensures Conclusion(cfg, mem).Answer? ==> Expected(cfg.final, stops) == Some(Conclusion(cfg, mem).response)
    ensures Conclusion(cfg, mem) == Fails(NoResponse) ==> stops == []
  {
    if cfg.final.Some? && cfg.final.value !in mem.state {
      Unvisited(stops, cfg.final.value);
    }
  }

  /** What the end of a walk means, given the stops before it. */
  predicate Explained(cfg: Config, outcome: Outcome, stops: seq<Stop>) {
    && (outcome.Answer? ==> Expected(cfg.final, stops) == Some(outcome.response))
    && (outcome == Fails(NoResponse) ==> stops == [])
  }

  lemma {:induction false} WalkAnswers(cfg: Config, act: Act, current: Option<Name>, step: nat, mem: Memory,
                                       before: seq<Stop>)
    requires Remembers(mem, before)
    ensures var t := Walk(cfg, act, current, step, mem); Explained(cfg, t.outcome, before + t.stops)
    decreases MAX_STEPS - step
  {
    if current.None? || Stops(current.value) {
      assert before + [] == before;
      ConclusionIsExpected(cfg, mem, before);
    } else if step < MAX_STEPS && Configured(cfg, current.value) {
      WalkUnfolds(cfg, act, current.value, step, mem, before);
      var Turn(visit, loaded) := act(cfg.nodes[current.value].value, step, mem);
      if visit.Visited? {
        RoundAnswers(cfg, act, current.value, step, mem, before, visit, loaded);
      }
    }
  }

  lemma {:induction false} RoundAnswers(cfg: Config, act: Act, name: Name, step: nat, mem: Memory, before: seq<Stop>,
                                        visit: Visit, loaded: map<int, seq<int>>)
    requires Remembers(mem, before) && visit.Visited? && step < MAX_STEPS
    ensures var rest := Walk(cfg, act, Next(ArrowsFrom(cfg.edges, name), visit.content), step + 1,
                             Remember(mem, name, visit, loaded));
            Explained(cfg, rest.outcome, before + [Stop(name, visit)] + rest.stops)
    decreases MAX_STEPS - step, 0
  {
    RemembersMore(name, mem, visit, loaded, before);
    WalkAnswers(cfg, act, Next(ArrowsFrom(cfg.edges, name), visit.content), step + 1,
                Remember(mem, name, visit, loaded), before + [Stop(name, visit)]);
  }

  /** A run that answers gives the last response, its first choice replaced by what the final
      node produced at its last visit, when a final node is named and was visited. The
      "no response" error comes exactly when the entry is itself named like an end marker. */
  lemma RunAnswers(cfg: Config, home: int, out: Outside)
    ensures var t := Run(cfg, home, out);
            && (t.outcome.Answer? ==> Expected(cfg.final, t.stops) == Some(t.outcome.response))
            && (t.outcome == Fails(NoResponse) <==> WellFormed(cfg) && Marker(cfg.entry))
  {
    AcceptsExactly(cfg);
    if !WellFormed(cfg) {
      ProblemKinds(cfg, 0);
    } else {
      WalkAnswers(cfg, Acting(home, out), Some(cfg.entry), 0, BLANK, []);
      var t := Run(cfg, home, out);
      assert [] + t.stops == t.stops;
      if !Marker(cfg.entry) {
        assert t.stops != [] || t.outcome == Fails(NodeNotFound(cfg.entry));
      }
    }
  }

  /** When the final node was visited, its last output is what the answer says, unless the last
      response has no choices: then the output is lost, whatever it was. */
  lemma FinalOutputInAnswer(cfg: Config, home: int, out: Outside, name: Name)
    requires cfg.final == Some(name) && !name.Empty?
    requires Run(cfg, home, out).outcome.Answer? && LastContent(Run(cfg, home, out).stops, name).Some?
    ensures var t := Run(cfg, home, out);
            var last, content := LastResponse(t.stops), LastContent(t.stops, name).value;
            && last.Some?
            && (ContentOf(t.outcome.response) == Some(content) <==> last.value.choices != [] || content == "")
            && t.outcome.response.id == last.value.id && |t.outcome.response.choices| == |last.value.choices|
            && forall i :: 0 < i < |last.value.choices| ==> t.outcome.response.choices[i] == last.value.choices[i]
  {
    RunAnswers(cfg, home, out);
  }

  const ASK := Named("ask")

  /** A response without choices. */
  const SILENT := Response("r2", [])

  /** A workflow of two nodes whose second model answers without choices, so that the first
      one's output, which is to be the answer, is lost. */
  lemma FinalOutputCanBeLost()
    ensures var cfg := Config(map[ASK := Some(Node("", None)), Named("check") := Some(Node("", None))],
                              [Edge(ASK, Named("check"), None)], ASK, Some(ASK));
            var out := Outside(group => Loads([1]), (step, group, ep) => false, (step, template, state) => Renders(""),
                               (step, ep, prompt) => Some(if step == 0 then Response("r1", [Some("yes")]) else SILENT));
            var t := Run(cfg, 0, out);
            t.outcome == Answer(SILENT) && LastContent(t.stops, ASK) == Some("yes")
  {
    var check := Named("check");
    var edges := [Edge(ASK, check, None)];
    var cfg := Config(map[ASK := Some(Node("", None)), check := Some(Node("", None))], edges, ASK, Some(ASK));
    var out := Outside(group => Loads([1]), (step, group, ep) => false, (step, template, state) => Renders(""),
                       (step, ep, prompt) => Some(if step == 0 then Response("r1", [Some("yes")]) else SILENT));
    var act := Acting(0, out);
    AcceptsExactly(cfg);
    assert Awake(out, 0, 0, [1][1..]) == [] && Awake(out, 1, 0, [1][1..]) == [];
    assert ArrowsFrom(edges[..0], ASK) == [] && ArrowsFrom(edges, ASK) == [Arrow(check, None)];
    assert ArrowsFrom(edges[..0], check) == [] && ArrowsFrom(edges, check) == [];
    var one := act(cfg.nodes[ASK].value, 0, BLANK);
    assert one.visit == Visited("yes", Response("r1", [Some("yes")]));
    var mem := Remember(BLANK, ASK, one.visit, one.loaded);
    var two := act(cfg.nodes[check].value, 1, mem);
    assert two.visit == Visited("", SILENT);
    WalkUnfolds(cfg, act, ASK, 0, BLANK, []);
    WalkUnfolds(cfg, act, check, 1, mem, []);
    var end := Remember(mem, check, two.visit, two.loaded);
    assert Walk(cfg, act, None, 2, end) == Trail([], Conclusion(cfg, end));
    var stops := [Stop(ASK, one.visit), Stop(check, two.visit)];
    assert Run(cfg, 0, out).stops == stops;
    assert stops[..1] == [Stop(ASK, one.visit)] && LastContent(stops[..1], ASK) == Some("yes");
  }

  // ------------------------------------------------- failing nodes

  /** A trail ends in this failure of a node exactly when that is how its last stop ended. */
  predicate Accounts(t: Trail, name: Name, cause: Cause) {
    t.outcome == Fails(NodeFailed(name, cause))
    <==> t.stops != [] && t.stops[|t.stops| - 1] == Stop(name, Failed(cause))
  }

  lemma AccountsBefore(stop: Stop, t: Trail, name: Name, cause: Cause)
    requires stop.visit.Visited? && Accounts(t, name, cause)
    ensures Accounts(Trail([stop] + t.stops, t.outcome), name, cause)
  {
    var longer := [stop] + t.stops;
    assert t.stops != [] ==> longer[|longer| - 1] == t.stops[|t.stops| - 1];
  }

  lemma {:induction false} WalkFails(cfg: Config, act: Act, current: Option<Name>, step: nat, mem: Memory,
                                     name: Name, cause: Cause)
    ensures Accounts(Walk(cfg, act, current, step, mem), name, cause)
    decreases MAX_STEPS - step
  {
    if current.Some? && !Stops(current.value) && step < MAX_STEPS && Configured(cfg, current.value) {
      var here := current.value;
      var Turn(visit, loaded) := act(cfg.nodes[here].value, step, mem);
      if visit.Visited? {
        var next, mem' := Next(ArrowsFrom(cfg.edges, here), visit.content), Remember(mem, here, visit, loaded);
        WalkFails(cfg, act, next, step + 1, mem', name, cause);
        AccountsBefore(Stop(here, visit), Walk(cfg, act, next, step + 1, mem'), name, cause);
      }
    }
  }

  /** A run fails because of a node if and only if that node is the last one and failed so. */
  lemma RunFailsAtNode(cfg: Config, home: int, out: Outside, name: Name, cause: Cause)
    ensures var t := Run(cfg, home, out);
            t.outcome == Fails(NodeFailed(name, cause))
            <==> t.stops != [] && t.stops[|t.stops| - 1] == Stop(name, Failed(cause))
  {
    if Problem(cfg).None? {
      WalkFails(cfg, Acting(home, out), Some(cfg.entry), 0, BLANK, name, cause);
    } else {
      ProblemKinds(cfg, 0);
    }
  }

  /** What the nodes have put out after some stops. */
  function StateAfter(stops: seq<Stop>): map<Name, string> {
    if stops == [] then map[]
    else
      var last, before := stops[|stops| - 1], StateAfter(stops[..|stops| - 1]);
      Updated(before, last)
  }

  /** What a node does at a step, given what was put out before. */
  type Sight = (Node, nat, map<Name, string>) -> Visit

  function Seen(home: int, out: Outside): Sight {
    (node: Node, step: nat, state: map<Name, string>) => TurnAt(home, out, node, step, Memory(state, map[], None)).visit
  }

  /** The loaded groups are as they loaded. */
  predicate Loaded(out: Outside, loaded: map<int, seq<int>>) {
    forall group :: group in loaded ==> loaded[group] != [] && out.load(group) == Loads(loaded[group])
  }

  /** It does not matter which groups a run has loaded already. */
  ghost predicate Plays(act: Act, sight: Sight, out: Outside) {
    forall node: Node, step: nat, mem: Memory :: Loaded(out, mem.loaded) ==> PlaysAt(act, sight, out, node, step, mem)
  }

  predicate PlaysAt(act: Act, sight: Sight, out: Outside, node: Node, step: nat, mem: Memory) {
    act(node, step, mem).visit == sight(node, step, mem.state) && Loaded(out, act(node, step, mem).loaded)
  }

  lemma ActingPlays(home: int, out: Outside)
    ensures Plays(Acting(home, out), Seen(home, out), out)
  {
    forall node: Node, step: nat, mem: Memory | Loaded(out, mem.loaded)
      ensures PlaysAt(Acting(home, out), Seen(home, out), out, node, step, mem)
    {
      TurnFollows(home, out, node, step, mem);
    }
  }

  lemma TurnFollows(home: int, out: Outside, node: Node, step: nat, mem: Memory)
    requires Loaded(out, mem.loaded)
    ensures var turn := TurnAt(home, out, node, step, mem);
            && turn.visit == TurnAt(home, out, node, step, Memory(mem.state, map[], None)).visit
            && Loaded(out, turn.loaded)
  {
  }

  /** The stop at `k` is what its node does with what was put out before. */
  predicate Follows(cfg: Config, sight: Sight, stops: seq<Stop>, k: nat) {
    && k < |stops| && Configured(cfg, stops[k].node)
    && stops[k].visit == sight(cfg.nodes[stops[k].node].value, k, StateAfter(stops[..k]))
  }

  function Updated(state: map<Name, string>, stop: Stop): map<Name, string> {
    if stop.visit.Visited? then state[stop.node := stop.visit.content] else state
  }

  /** Stop by stop, from a step and a state on, each is what its node does. */
  predicate Coherent(cfg: Config, sight: Sight, state: map<Name, string>, step: nat, stops: seq<Stop>)
    decreases |stops|
  {
    stops == [] ||
    (&& Configured(cfg, stops[0].node)
     && stops[0].visit == sight(cfg.nodes[stops[0].node].value, step, state)
     && Coherent(cfg, sight, Updated(state, stops[0]), step + 1, stops[1..]))
  }

  lemma {:induction false} WalkIsCoherent(cfg: Config, act: Act, sight: Sight, out: Outside, current: Option<Name>,
                                          step: nat, mem: Memory)
    requires Plays(act, sight, out) && Loaded(out, mem.loaded)
    ensures Coherent(cfg, sight, mem.state, step, Walk(cfg, act, current, step, mem).stops)
    decreases MAX_STEPS - step
  {
    if current.Some? && !Stops(current.value) && step < MAX_STEPS && Configured(cfg, current.value) {
      var name := current.value;
      var Turn(visit, loaded) := act(cfg.nodes[name].value, step, mem);
      assert PlaysAt(act, sight, out, cfg.nodes[name].value, step, mem);
      if visit.Visited? {
        var next, mem' := Next(ArrowsFrom(cfg.edges, name), visit.content), Remember(mem, name, visit, loaded);
        WalkIsCoherent(cfg, act, sight, out, next, step + 1, mem');
        var rest := Walk(cfg, act, next, step + 1, mem').stops;
        assert ([Stop(name, visit)] + rest)[1..] == rest;
      }
    }
  }

  lemma {:induction false} CoherentFollows(cfg: Config, sight: Sight, before: seq<Stop>, stops: seq<Stop>, k: nat)
    requires Coherent(cfg, sight, StateAfter(before), |before|, stops) && |before| <= k < |before| + |stops|
    ensures Follows(cfg, sight, before + stops, k)
    decreases |stops|
  {
    var all, longer := before + stops, before + [stops[0]];
    assert all == longer + stops[1..] && longer[..|before|] == before;
    if k == |before| {
      assert all[..k] == before && all[k] == stops[0];
    } else {
      CoherentFollows(cfg, sight, longer, stops[1..], k);
    }
  }

  /** Every stop of a run is what its node does at that step with what the nodes before it have
      put out. */
  lemma RunFollows(cfg: Config, home: int, out: Outside, k: nat)
    requires k < |Run(cfg, home, out).stops|
    ensures Follows(cfg, Seen(home, out), Run(cfg, home, out).stops, k)
  {
    ActingPlays(home, out);
    WalkIsCoherent(cfg, Acting(home, out), Seen(home, out), out, Some(cfg.entry), 0, BLANK);
    CoherentFollows(cfg, Seen(home, out), [], Run(cfg, home, out).stops, k);
    var stops := Run(cfg, home, out).stops;
    assert [] + stops == stops;
  }

  /** The group loads, a model is awake, the template renders, and the model replies with null
      for the content of its first choice, as in a reply of tool calls only. */
  predicate RepliesNull(cfg: Config, home: int, out: Outside, name: Name, step: nat, state: map<Name, string>)
    requires Configured(cfg, name)
  {
    var node := cfg.nodes[name].value;
    var group := GroupOf(node, home);
    && out.load(group).Loads?
    && var awake := Awake(out, step, group, out.load(group).endpoints);
    && awake != [] && out.render(step, node.prompt, state).Renders?
    && var reply := out.call(step, awake[0], out.render(step, node.prompt, state).prompt);
    && reply.Some? && reply.value.choices != [] && reply.value.choices[0].None?
  }

  /** A run fails for null content if and only if the model called at its last stop replies
      with null content. */
  lemma NullContentExactly(cfg: Config, home: int, out: Outside, name: Name)
    ensures var t := Run(cfg, home, out);
            t.outcome == Fails(NodeFailed(name, NullContent)) <==>
              && t.stops != []
              && var k := |t.stops| - 1;
              && t.stops[k].node == name && Configured(cfg, name)
              && RepliesNull(cfg, home, out, name, k, StateAfter(t.stops[..k]))
  {
    var t := Run(cfg, home, out);
    RunFailsAtNode(cfg, home, out, name, NullContent);
    if t.stops != [] {
      var k := |t.stops| - 1;
      RunFollows(cfg, home, out, k);
      if t.stops[k].node == name {
        NullVisitExactly(cfg, home, out, name, k, StateAfter(t.stops[..k]));
      }
    }
  }

  lemma NullVisitExactly(cfg: Config, home: int, out: Outside, name: Name, step: nat, state: map<Name, string>)
    requires Configured(cfg, name)
    ensures Seen(home, out)(cfg.nodes[name].value, step, state) == Failed(NullContent)
            <==> RepliesNull(cfg, home, out, name, step, state)
  {
  }
}
