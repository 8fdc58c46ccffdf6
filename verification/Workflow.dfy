/** The workflow strategy: a walk over a configured graph with one model call per node. */
module Workflow {
  import opened Options

  /** A node name. The empty one and the end markers "END" and "__end__" are constructors of
      their own; Named stands for every other text. */
  datatype Name = Empty | End | DunderEnd | Named(text: string)

  datatype Node = Node(prompt: string, group: Option<int>)

  /** An entry of the configured edge list. */
  datatype Edge = Malformed | Edge(source: Name, target: Name, condition: Option<string>)

  /** A workflow configuration. A node may be configured as null: validation only looks at the
      node names. */
  datatype Config = Config(nodes: map<Name, Option<Node>>, edges: seq<Edge>, entry: Name, final: Option<Name>)

  /** A model's response: an identity, and the content of each choice, None when null. */
  datatype Response = Response(id: string, choices: seq<Option<string>>)

  datatype Loading = Loads(endpoints: seq<int>) | LoadRaises(message: string)

  datatype Rendering = Renders(prompt: string) | UnknownKey(key: string) | RenderRaises(message: string)

  /** The world outside: what the groups hold, which models are on cooldown at a step, how a
      template renders, and what a call with all its retries returns. */
  datatype Outside = Outside(
    load: int -> Loading,
    onCooldown: (nat, int, int) -> bool,
    render: (nat, string, map<Name, string>) -> Rendering,
    call: (nat, int, string) -> Option<Response>)

  datatype Failure =
    | NoNodes
    | BadEntry(entry: Name)
    | BadFormat(index: nat)
    | BadSource(source: Name)
    | BadTarget(target: Name)
    | TooManySteps
    | NodeNotFound(node: Name)
    | NodeFailed(node: Name, cause: Cause)
    | NoResponse

  /** How a node can fail. */
  datatype Cause =
    | EmptyGroup(group: int)
    | AllOnCooldown(group: int)
    | UnknownPlaceholder(key: string)
    | CallFailed
    | NullContent
    | Escapes(message: string)

  datatype Outcome = Answer(response: Response) | Fails(failure: Failure)

  const MAX_STEPS := 50

  /** The node has a configuration, and not null. */
  predicate Configured(cfg: Config, name: Name) {
    name in cfg.nodes && cfg.nodes[name].Some?
  }

  /** The walk stops at a falsy name and at the two end markers. */
  predicate Stops(name: Name) {
    name.Empty? || Marker(name)
  }

  predicate Marker(name: Name) {
    name.DunderEnd? || name.End?
  }

  // ------------------------------------------------- validation

  datatype Arrow = Arrow(target: Name, condition: Option<string>)

  function EdgeProblem(cfg: Config, index: nat): Option<Failure>
    requires index < |cfg.edges|
  {
    match cfg.edges[index]
    case Malformed => Some(BadFormat(index))
    case Edge(source, target, _) =>
      if source !in cfg.nodes then Some(BadSource(source))
      else if target !in cfg.nodes && !Marker(target) then Some(BadTarget(target))
      else None
  }

  function FirstProblem(cfg: Config, index: nat): (p: Option<Failure>)
    requires index <= |cfg.edges|
    ensures p.None? <==> forall i :: index <= i < |cfg.edges| ==> EdgeProblem(cfg, i).None?
    decreases |cfg.edges| - index
  {
    if index == |cfg.edges| then None
    else if EdgeProblem(cfg, index).Some? then EdgeProblem(cfg, index)
    else FirstProblem(cfg, index + 1)
  }

  function Problem(cfg: Config): Option<Failure> {
    if cfg.nodes == map[] then Some(NoNodes)
    else if cfg.entry.Empty? || cfg.entry !in cfg.nodes then Some(BadEntry(cfg.entry))
    else FirstProblem(cfg, 0)
  }

  /** The edges out of a node, in configured order. */
  function ArrowsFrom(edges: seq<Edge>, source: Name): seq<Arrow> {
    if edges == [] then []
    else
      var last := edges[|edges| - 1];
      ArrowsFrom(edges[..|edges| - 1], source)
      + if last.Edge? && last.source == source then [Arrow(last.target, last.condition)] else []
  }

  type Adjacency = map<Name, seq<Arrow>>

  ghost predicate Reflects(adjacency: Adjacency, cfg: Config, edges: seq<Edge>) {
    && (forall n :: n in adjacency <==> n in cfg.nodes)
    && (forall n :: n in adjacency ==> adjacency[n] == ArrowsFrom(edges, n))
  }

  lemma ReflectsOneMore(adjacency: Adjacency, cfg: Config, i: nat)
    requires i < |cfg.edges| && cfg.edges[i].Edge? && cfg.edges[i].source in cfg.nodes
    requires Reflects(adjacency, cfg, cfg.edges[..i])
    ensures var Edge(source, target, condition) := cfg.edges[i];
            Reflects(adjacency[source := adjacency[source] + [Arrow(target, condition)]], cfg, cfg.edges[..i + 1])
  {
    assert cfg.edges[..i + 1][..i] == cfg.edges[..i];
  }

  method BuildAdjacency(cfg: Config) returns (problem: Option<Failure>, adjacency: Adjacency)
    ensures problem == FirstProblem(cfg, 0)
    ensures problem.None? ==> Reflects(adjacency, cfg, cfg.edges)
  {
    adjacency := map n | n in cfg.nodes :: [];
    problem := None;
    var i := 0;
    while i < |cfg.edges|
      invariant i <= |cfg.edges|
      invariant FirstProblem(cfg, i) == FirstProblem(cfg, 0)
      invariant Reflects(adjacency, cfg, cfg.edges[..i])
    {
      var edge := cfg.edges[i];
      if edge.Malformed? {
        return Some(BadFormat(i)), adjacency;
      }
      if edge.source !in cfg.nodes {
        return Some(BadSource(edge.source)), adjacency;
      }
      if edge.target !in cfg.nodes && !Marker(edge.target) {
        return Some(BadTarget(edge.target)), adjacency;
      }
      ReflectsOneMore(adjacency, cfg, i);
      adjacency := adjacency[edge.source := adjacency[edge.source] + [Arrow(edge.target, edge.condition)]];
      i := i + 1;
    }
    assert cfg.edges[..i] == cfg.edges;
  }

  // ------------------------------------------------- one step of the walk

  predicate OccursAt(text: string, part: string, i: nat) {
    i + |part| <= |text| && text[i..i + |part|] == part
  }

  predicate Contains(text: string, part: string) {
    exists i: nat :: i <= |text| && OccursAt(text, part, i)
  }

  predicate Matches(arrow: Arrow, content: string) {
    arrow.condition.None? || Contains(content, arrow.condition.value)
  }

  /** The first arrow from `i` on whose condition matches. */
  function FirstMatch(arrows: seq<Arrow>, content: string, i: nat): (m: Option<nat>)
    requires i <= |arrows|
    ensures m.Some? ==> i <= m.value < |arrows| && Matches(arrows[m.value], content)
    ensures forall j :: i <= j < (if m.Some? then m.value else |arrows|) ==> !Matches(arrows[j], content)
    decreases |arrows| - i
  {
    if i == |arrows| then None
    else if Matches(arrows[i], content) then Some(i)
    else FirstMatch(arrows, content, i + 1)
  }

  /** A single arrow is followed whatever its condition; of several, the first that matches,
      and the first of all when none does. */
  function Next(arrows: seq<Arrow>, content: string): (next: Option<Name>)
    ensures next.None? <==> arrows == []
    ensures next.Some? ==> exists i :: 0 <= i < |arrows| && arrows[i].target == next.value
  {
    if arrows == [] then None
    else if |arrows| == 1 then Some(arrows[0].target)
    else
      var m := FirstMatch(arrows, content, 0);
      Some(arrows[if m.Some? then m.value else 0].target)
  }

  method ChooseNext(arrows: seq<Arrow>, content: string) returns (next: Option<Name>)
    ensures next == Next(arrows, content)
  {
    if |arrows| == 0 {
      return None;
    }
    if |arrows| == 1 {
      return Some(arrows[0].target);
    }
    for i := 0 to |arrows|
      invariant FirstMatch(arrows, content, i) == FirstMatch(arrows, content, 0)
    {
      if Matches(arrows[i], content) {
        return Some(arrows[i].target);
      }
    }
    return Some(arrows[0].target);
  }

  function Awake(out: Outside, step: nat, group: int, endpoints: seq<int>): seq<int> {
    if endpoints == [] then []
    else (if out.onCooldown(step, group, endpoints[0]) then [] else [endpoints[0]])
         + Awake(out, step, group, endpoints[1..])
  }

  function ContentOf(response: Response): Option<string> {
    if response.choices == [] then Some("") else response.choices[0]
  }

  /** What the walk remembers: the nodes' outputs, the endpoints of groups already loaded, and
      the last response. */
  datatype Memory = Memory(state: map<Name, string>, loaded: map<int, seq<int>>, last: Option<Response>)

  const BLANK := Memory(map[], map[], None)

  /** What became of a node: the text it produced, or how it failed. */
  datatype Visit = Visited(content: string, response: Response) | Failed(cause: Cause)

  function GroupOf(node: Node, home: int): int {
    if node.group.Some? then node.group.value else home
  }

  /** The call at a node whose group has loaded. */
  function Called(out: Outside, group: int, node: Node, step: nat, state: map<Name, string>,
                  endpoints: seq<int>): Visit {
    var awake := Awake(out, step, group, endpoints);
    if awake == [] then Failed(AllOnCooldown(group))
    else
      match out.render(step, node.prompt, state)
      case UnknownKey(key) => Failed(UnknownPlaceholder(key))
      case RenderRaises(message) => Failed(Escapes(message))
      case Renders(prompt) =>
        var response := out.call(step, awake[0], prompt);
        if response.None? then Failed(CallFailed)
        else if ContentOf(response.value).None? then Failed(NullContent)
        else Visited(ContentOf(response.value).value, response.value)
  }

  /** A visit, and the groups loaded after it. A group is loaded once per execution. */
  datatype Turn = Turn(visit: Visit, loaded: map<int, seq<int>>)

  function TurnAt(home: int, out: Outside, node: Node, step: nat, mem: Memory): Turn {
    var group := GroupOf(node, home);
    if group in mem.loaded then
      Turn(Called(out, group, node, step, mem.state, mem.loaded[group]), mem.loaded)
    else
      match out.load(group)
      case LoadRaises(message) => Turn(Failed(Escapes(message)), mem.loaded)
      case Loads(endpoints) =>
        if endpoints == [] then Turn(Failed(EmptyGroup(group)), mem.loaded)
        else Turn(Called(out, group, node, step, mem.state, endpoints), mem.loaded[group := endpoints])
  }

  method RunNode(home: int, out: Outside, node: Node, step: nat, mem: Memory)
    returns (visit: Visit, loaded: map<int, seq<int>>)
    ensures Turn(visit, loaded) == TurnAt(home, out, node, step, mem)
  {
    loaded := mem.loaded;
    var group := if node.group.Some? then node.group.value else home;
    if group !in loaded {
      match out.load(group) {
        case LoadRaises(message) =>
          return Failed(Escapes(message)), loaded;
        case Loads(endpoints) =>
          if endpoints == [] {
            return Failed(EmptyGroup(group)), loaded;
          }
          loaded := loaded[group := endpoints];
      }
    }
    var available := Awake(out, step, group, loaded[group]);
    if available == [] {
      return Failed(AllOnCooldown(group)), loaded;
    }
    match out.render(step, node.prompt, mem.state) {
      case UnknownKey(key) =>
        visit := Failed(UnknownPlaceholder(key));
      case RenderRaises(message) =>
        visit := Failed(Escapes(message));
      case Renders(prompt) =>
        var response := out.call(step, available[0], prompt);
        if response.None? {
          return Failed(CallFailed), loaded;
        }
        var content := ContentOf(response.value);
        visit := if content.None? then Failed(NullContent) else Visited(content.value, response.value);
    }
  }

  // ------------------------------------------------- the walk

  function WithContent(response: Response, content: string): Response {
    if response.choices == [] then response
    else response.(choices := [Some(content)] + response.choices[1..])
  }

  /** The answer at the end of the walk. */
  function Conclusion(cfg: Config, mem: Memory): Outcome {
    if mem.last.None? then Fails(NoResponse)
    else if cfg.final.Some? && !cfg.final.value.Empty? && cfg.final.value in mem.state then
      Answer(WithContent(mem.last.value, mem.state[cfg.final.value]))
    else Answer(mem.last.value)
  }

  /** A node on which execution began, and what became of it. */
  datatype Stop = Stop(node: Name, visit: Visit)

  datatype Trail = Trail(stops: seq<Stop>, outcome: Outcome)

  /** What visiting a node does; the walk itself does not depend on it. */
  type Act = (Node, nat, Memory) -> Turn

  function Acting(home: int, out: Outside): Act {
    (node: Node, step: nat, mem: Memory) => TurnAt(home, out, node, step, mem)
  }

  function Remember(mem: Memory, name: Name, visit: Visit, loaded: map<int, seq<int>>): Memory
    requires visit.Visited?
  {
    Memory(mem.state[name := visit.content], loaded, Some(visit.response))
  }

  function Walk(cfg: Config, act: Act, current: Option<Name>, step: nat, mem: Memory): Trail
    decreases MAX_STEPS - step
  {
    if current.None? || Stops(current.value) then Trail([], Conclusion(cfg, mem))
    else if step >= MAX_STEPS then Trail([], Fails(TooManySteps))
    else if !Configured(cfg, current.value) then Trail([], Fails(NodeNotFound(current.value)))
    else
      var name := current.value;
      var turn := act(cfg.nodes[name].value, step, mem);
      match turn.visit
      case Failed(cause) => Trail([Stop(name, turn.visit)], Fails(NodeFailed(name, cause)))
      case Visited(content, _) =>
        var rest := Walk(cfg, act, Next(ArrowsFrom(cfg.edges, name), content), step + 1,
                         Remember(mem, name, turn.visit, turn.loaded));
        Trail([Stop(name, turn.visit)] + rest.stops, rest.outcome)
  }

  /** One round of the walk, seen from the stops before it. */
  lemma WalkUnfolds(cfg: Config, act: Act, name: Name, step: nat, mem: Memory, before: seq<Stop>)
    requires Configured(cfg, name) && !Stops(name) && step < MAX_STEPS
    ensures var t, Turn(visit, loaded) := Walk(cfg, act, Some(name), step, mem), act(cfg.nodes[name].value, step, mem);
            match visit
            case Failed(cause) => t == Trail([Stop(name, visit)], Fails(NodeFailed(name, cause)))
            case Visited(content, _) =>
              var rest := Walk(cfg, act, Next(ArrowsFrom(cfg.edges, name), content), step + 1,
                               Remember(mem, name, visit, loaded));
              && t.stops == [Stop(name, visit)] + rest.stops && t.outcome == rest.outcome
              && before + t.stops == before + [Stop(name, visit)] + rest.stops
  {
  }

  function Run(cfg: Config, home: int, out: Outside): Trail {
    var problem := Problem(cfg);
    if problem.Some? then Trail([], Fails(problem.value))
    else Walk(cfg, Acting(home, out), Some(cfg.entry), 0, BLANK)
  }

  method Validate(cfg: Config) returns (problem: Option<Failure>, adjacency: Adjacency)
    ensures problem == Problem(cfg)
    ensures problem.None? ==> Reflects(adjacency, cfg, cfg.edges)
  {
    adjacency := map[];
    if cfg.nodes == map[] {
      return Some(NoNodes), adjacency;
    }
    if cfg.entry.Empty? || cfg.entry !in cfg.nodes {
      return Some(BadEntry(cfg.entry)), adjacency;
    }
    problem, adjacency := BuildAdjacency(cfg);
  }

  /** A visited node, and the next one chosen. */
  method VisitNode(cfg: Config, home: int, out: Outside, adjacency: Adjacency, name: Name, step: nat, mem: Memory,
               ghost before: seq<Stop>)
    returns (stop: Stop, next: Option<Name>, mem': Memory)
    requires Configured(cfg, name) && !Stops(name) && step < MAX_STEPS && Reflects(adjacency, cfg, cfg.edges)
    ensures stop.node == name
    ensures var t := Walk(cfg, Acting(home, out), Some(name), step, mem);
            match stop.visit
            case Failed(cause) => t == Trail([stop], Fails(NodeFailed(name, cause)))
            case Visited(_, _) =>
              var rest := Walk(cfg, Acting(home, out), next, step + 1, mem');
              && mem'.last.Some? && t.outcome == rest.outcome && before + t.stops == before + [stop] + rest.stops
  {
    WalkUnfolds(cfg, Acting(home, out), name, step, mem, before);
    var visit, loaded := RunNode(home, out, cfg.nodes[name].value, step, mem);
    stop, next, mem' := Stop(name, visit), None, mem;
    if visit.Visited? {
      mem' := Memory(mem.state[name := visit.content], loaded, Some(visit.response));
      next := ChooseNext(adjacency[name], visit.content);
    }
  }

  /** The body of the loop: the checks, a visit, and how the walk ends if it ends here. */
  method Round(cfg: Config, home: int, out: Outside, adjacency: Adjacency, name: Name, step: nat, mem: Memory,
               stops: seq<Stop>)
    returns (ended: Option<Outcome>, stops': seq<Stop>, next: Option<Name>, mem': Memory)
    requires !Stops(name) && step <= MAX_STEPS && Reflects(adjacency, cfg, cfg.edges)
    ensures var t := Walk(cfg, Acting(home, out), Some(name), step, mem);
            if ended.Some? then stops + t.stops == stops' && t.outcome == ended.value
            else
              var rest := Walk(cfg, Acting(home, out), next, step + 1, mem');
              && step < MAX_STEPS && mem'.last.Some?
              && t.outcome == rest.outcome && stops + t.stops == stops' + rest.stops
  {
    ended, stops', next, mem' := None, stops, None, mem;
    if step >= MAX_STEPS {
      ended := Some(Fails(TooManySteps));
    } else if name !in cfg.nodes || cfg.nodes[name].None? {
      ended := Some(Fails(NodeNotFound(name)));
    } else {
      var stop;
      stop, next, mem' := VisitNode(cfg, home, out, adjacency, name, step, mem, stops);
      stops' := stops + [stop];
      if stop.visit.Failed? {
        ended := Some(Fails(NodeFailed(name, stop.visit.cause)));
      }
    }
  }

  method WalkNodes(cfg: Config, home: int, out: Outside, adjacency: Adjacency)
    returns (outcome: Outcome, stops: seq<Stop>)
    requires Reflects(adjacency, cfg, cfg.edges)
    ensures Trail(stops, outcome) == Walk(cfg, Acting(home, out), Some(cfg.entry), 0, BLANK)
  {
    stops := [];
    ghost var whole := Walk(cfg, Acting(home, out), Some(cfg.entry), 0, BLANK);
    var current, visited, mem := Some(cfg.entry), 0, BLANK;
    while current.Some? && !Stops(current.value)
      invariant 0 <= visited <= MAX_STEPS && (mem == BLANK || mem.last.Some?)
      invariant var rest := Walk(cfg, Acting(home, out), current, visited, mem);
                whole.stops == stops + rest.stops && whole.outcome == rest.outcome
      decreases MAX_STEPS - visited
    {
      var ended;
      ended, stops, current, mem := Round(cfg, home, out, adjacency, current.value, visited, mem, stops);
      if ended.Some? {
        return ended.value, stops;
      }
      visited := visited + 1;
    }
    outcome := Conclude(cfg, mem);
  }

  method Execute(cfg: Config, home: int, out: Outside) returns (outcome: Outcome, stops: seq<Stop>)
    ensures Trail(stops, outcome) == Run(cfg, home, out)
  {
    var problem, adjacency := Validate(cfg);
    if problem.Some? {
      return Fails(problem.value), [];
    }
    outcome, stops := WalkNodes(cfg, home, out, adjacency);
  }

  method Conclude(cfg: Config, mem: Memory) returns (outcome: Outcome)
    requires mem == BLANK || mem.last.Some?
    ensures outcome == Conclusion(cfg, mem)
  {
    if cfg.final.Some? && !cfg.final.value.Empty? && cfg.final.value in mem.state {
      return Answer(WithContent(mem.last.value, mem.state[cfg.final.value]));
    }
    outcome := if mem.last.Some? then Answer(mem.last.value) else Fails(NoResponse);
  }
}
