/** The slim routing graph: its nodes, its two conditional edges, the key-wise state merge,
    and the engine's two ways of running it. */
module RouteGraph {
  import opened Options
  import opened Routing
  import opened Upstream
  import opened Chatting
  import opened Streaming

  /** state["error"] is an exception object or a plain message. */
  datatype RawError = Exception(error: Error) | Text(message: string)

  datatype GraphResult =
    | Answer(reply: Reply, modelId: int, providerId: int)
    | StreamOk
    | ErrorBody(message: string)

  datatype RouteState = RouteState(
    groupId: int,
    messages: seq<Message>,
    params: Params, stream: bool,
    endpoints: seq<Endpoint>,
    currentIdx: nat,
    truncated: seq<Message>,
    attempts: seq<AttemptRow>,
    result: Option<GraphResult>,
    error: Option<RawError>,
    recoverable: Option<bool>,
    usedModelId: Option<int>,
    usedProviderId: Option<int>,
    streamStarted: bool)

  /** A node returns the keys it writes; None stands for a key it leaves alone. */
  datatype Update = Update(
    endpoints: Option<seq<Endpoint>>,
    currentIdx: Option<nat>,
    truncated: Option<seq<Message>>,
    attempts: Option<seq<AttemptRow>>,
    result: Option<GraphResult>,
    error: Option<Option<RawError>>,
    recoverable: Option<bool>,
    usedModelId: Option<Option<int>>,
    usedProviderId: Option<Option<int>>,
    streamStarted: Option<bool>)

  const UNTOUCHED := Update(None, None, None, None, None, None, None, None, None, None)

  function Or<T>(update: Option<T>, current: T): T {
    if update.Some? then update.value else current
  }

  function Merge(s: RouteState, u: Update): RouteState {
    s.(endpoints := Or(u.endpoints, s.endpoints),
       currentIdx := Or(u.currentIdx, s.currentIdx),
       truncated := Or(u.truncated, s.truncated),
       attempts := Or(u.attempts, s.attempts),
       result := if u.result.Some? then u.result else s.result,
       error := Or(u.error, s.error),
       recoverable := if u.recoverable.Some? then u.recoverable else s.recoverable,
       usedModelId := Or(u.usedModelId, s.usedModelId),
       usedProviderId := Or(u.usedProviderId, s.usedProviderId),
       streamStarted := Or(u.streamStarted, s.streamStarted))
  }

  // ---------------------------------------------------------------- nodes

  function SelectEndpoints(env: Env, s: RouteState): Update {
    if s.endpoints != [] then
      UNTOUCHED
    else
      match env.select(s.groupId)
      case Refused(e) =>
        UNTOUCHED.(error := Some(Some(Exception(e))), recoverable := Some(e.Recoverable()))
      case Selected(result) =>
        UNTOUCHED.(endpoints := Some(result.endpoints), currentIdx := Some(0), truncated := Some(result.messages))
  }

  function FinalizeError(s: RouteState): Update {
    var message := match s.error
      case Some(Exception(e)) => e.message
      case Some(Text(m)) => if m != "" then m else "Routing failed"
      case None => "Routing failed";
    UNTOUCHED.(result := Some(ErrorBody(message)))
  }

  /** The keys a node writes when every endpoint has failed. */
  function Cleared(attempts: seq<AttemptRow>, modelId: Option<int>, providerId: Option<int>): Update {
    UNTOUCHED.(endpoints := Some([]), currentIdx := Some(0), attempts := Some(attempts),
               usedModelId := Some(modelId), usedProviderId := Some(providerId))
  }

  function Start(s: RouteState): nat {
    if s.currentIdx <= |s.endpoints| then s.currentIdx else |s.endpoints|
  }

  function CallsOf(env: Env, s: RouteState): ChatWalk {
    WalkCalls(env, s.groupId, s.endpoints, s.truncated, s.params, Start(s))
  }

  function TryCallUpdate(env: Env, s: RouteState): Update {
    var walk := CallsOf(env, s);
    CallWinner(env, s.groupId, s.endpoints, s.truncated, s.params, Start(s));
    var rows := s.attempts + walk.rows;
    match walk.winner
    case Some(pos) =>
      var ep := s.endpoints[pos];
      UNTOUCHED.(result := Some(Answer(walk.reply.value, ep.modelId, ep.providerId)),
                 error := Some(None), recoverable := Some(false),
                 usedModelId := Some(Some(ep.modelId)), usedProviderId := Some(Some(ep.providerId)),
                 endpoints := Some([]), currentIdx := Some(0), attempts := Some(rows))
    case None =>
      var failed := if Start(s) < |s.endpoints|
                    then Cleared(rows, Model(LastTried(s.endpoints)), Provider(LastTried(s.endpoints)))
                    else Cleared(rows, s.usedModelId, s.usedProviderId);
      if s.error.Some? then
        failed.(error := Some(s.error), recoverable := Some(Or(s.recoverable, true)))
      else
        failed.(error := Some(Some(Text(ALL_FAILED))), recoverable := Some(true))
  }

  /** One round of the try_call loop: the reply, or one more row. */
  method CallNext(world: World, env: Env, s: RouteState, idx: nat, attempts: seq<AttemptRow>)
    returns (reply: Option<Reply>, attempts': seq<AttemptRow>)
    requires idx < |s.endpoints|
    modifies world`trace
    ensures var walk := WalkCalls(env, s.groupId, s.endpoints, s.truncated, s.params, idx);
            if reply.Some? then
              && attempts' == attempts + walk.rows && walk.winner == Some(idx) && walk.reply == reply
              && world.trace == old(world.trace) + walk.effects
            else
              var rest := WalkCalls(env, s.groupId, s.endpoints, s.truncated, s.params, idx + 1);
              && walk.winner == rest.winner && walk.reply == rest.reply
              && attempts + walk.rows == attempts' + rest.rows
              && old(world.trace) + walk.effects == world.trace + rest.effects
  {
    var ep := s.endpoints[idx];
    ghost var before, call := world.trace, CallOf(env, s.groupId, idx, ep, s.truncated, s.params);
    var error;
    reply, error := CallLlm(world, env, s.groupId, idx, ep, s.truncated, s.params);
    attempts' := attempts;
    if reply.None? {
      var row := CallRow(s.groupId, idx, ep, error);
      ghost var later := WalkCalls(env, s.groupId, s.endpoints, s.truncated, s.params, idx + 1);
      Assoc(attempts, [row], later.rows);
      Assoc(before, call.effects, later.effects);
      attempts' := attempts + [row];
    }
  }

  /** The loop of the try_call node: the endpoint that replied, if any, and what the loop has
      gathered by then. */
  method CallQueue(world: World, env: Env, s: RouteState)
    returns (idx: nat, reply: Option<Reply>, attempts: seq<AttemptRow>, lastModelId: Option<int>,
             lastProviderId: Option<int>)
    modifies world`trace
    ensures var walk := CallsOf(env, s);
            && world.trace == old(world.trace) + walk.effects && attempts == s.attempts + walk.rows
            && reply == walk.reply && (reply.Some? ==> walk.winner == Some(idx))
    ensures reply.Some? ==> idx < |s.endpoints|
    ensures reply.None? ==>
              && lastModelId == (if Start(s) < |s.endpoints| then Model(LastTried(s.endpoints)) else s.usedModelId)
              && lastProviderId == (if Start(s) < |s.endpoints| then Provider(LastTried(s.endpoints))
                                    else s.usedProviderId)
  {
    idx, reply, attempts := s.currentIdx, None, s.attempts;
    lastModelId, lastProviderId := s.usedModelId, s.usedProviderId;
    ghost var whole := CallsOf(env, s);
    while idx < |s.endpoints|
      invariant Start(s) <= idx && reply.None?
      invariant idx <= |s.endpoints| ==>
                  var rest := WalkCalls(env, s.groupId, s.endpoints, s.truncated, s.params, idx);
                  && whole.winner == rest.winner && whole.reply == rest.reply
                  && s.attempts + whole.rows == attempts + rest.rows
                  && old(world.trace) + whole.effects == world.trace + rest.effects
      invariant idx > |s.endpoints| ==> idx == s.currentIdx && attempts == s.attempts && world.trace == old(world.trace)
      invariant lastModelId == if idx == s.currentIdx then s.usedModelId else Some(s.endpoints[idx - 1].modelId)
      invariant lastProviderId == if idx == s.currentIdx then s.usedProviderId
                else Some(s.endpoints[idx - 1].providerId)
    {
      reply, attempts := CallNext(world, env, s, idx, attempts);
      if reply.Some? {
        return;
      }
      lastModelId, lastProviderId := Some(s.endpoints[idx].modelId), Some(s.endpoints[idx].providerId);
      idx := idx + 1;
    }
  }

  /** The try_call node. */
  method TryCall(world: World, env: Env, s: RouteState) returns (update: Update)
    modifies world`trace
    ensures update == TryCallUpdate(env, s)
    ensures world.trace == old(world.trace) + CallsOf(env, s).effects
  {
    CallWinner(env, s.groupId, s.endpoints, s.truncated, s.params, Start(s));
    var idx, reply, attempts, lastModelId, lastProviderId := CallQueue(world, env, s);
    if reply.Some? {
      var ep := s.endpoints[idx];
      return UNTOUCHED.(result := Some(Answer(reply.value, ep.modelId, ep.providerId)),
                        error := Some(None), recoverable := Some(false),
                        usedModelId := Some(Some(ep.modelId)), usedProviderId := Some(Some(ep.providerId)),
                        endpoints := Some([]), currentIdx := Some(0), attempts := Some(attempts));
    }
    var failed := Cleared(attempts, lastModelId, lastProviderId);
    if s.error.Some? {
      return failed.(error := Some(s.error), recoverable := Some(Or(s.recoverable, true)));
    }
    return failed.(error := Some(Some(Text(ALL_FAILED))), recoverable := Some(true));
  }

  /** The try_call node from any state: it adds a row for each endpoint from the current one up
      to the one that replies, and empties the queue. A reply clears the error; with none, an
      earlier error stays, as does what was known of recovery and, when no endpoint was left, of
      the endpoint used. */
  lemma CallNodeExactly(env: Env, s: RouteState)
    ensures var u, walk := TryCallUpdate(env, s), CallsOf(env, s);
            && u.attempts == Some(s.attempts + walk.rows) && u.endpoints == Some([]) && u.currentIdx == Some(0)
            && u.truncated == None && u.streamStarted == None
            && (walk.winner.Some? ==>
                  && s.currentIdx <= walk.winner.value < |s.endpoints|
                  && |walk.rows| == walk.winner.value - s.currentIdx
                  && u.error == Some(None) && u.recoverable == Some(false) && u.result.Some? && u.result.value.Answer?)
            && (walk.winner.None? ==>
                  && |walk.rows| == (if s.currentIdx < |s.endpoints| then |s.endpoints| - s.currentIdx else 0)
                  && u.result == None
                  && u.error == Some(if s.error.Some? then s.error else Some(Text("All endpoints in group failed")))
                  && u.recoverable == Some(if s.error.Some? && s.recoverable.Some? then s.recoverable.value else true)
                  && (s.currentIdx >= |s.endpoints| ==>
                        u.usedModelId == Some(s.usedModelId) && u.usedProviderId == Some(s.usedProviderId)))
  {
    CallWinner(env, s.groupId, s.endpoints, s.truncated, s.params, Start(s));
  }

  function StreamWalkOf(env: Env, s: RouteState): Walk {
    WalkQueue(env, s.groupId, s.endpoints, s.truncated, s.params, 0)
  }

  /** The keys written once a stream has started, whether it completes or not. */
  function Committed(ep: Endpoint, attempts: seq<AttemptRow>, completed: bool): Update {
    UNTOUCHED.(result := if completed then Some(StreamOk) else None,
               streamStarted := Some(true), recoverable := Some(false),
               usedModelId := Some(Some(ep.modelId)), usedProviderId := Some(Some(ep.providerId)),
               attempts := Some(attempts), endpoints := Some([]), currentIdx := Some(0))
  }

  /** What the try_stream node writes, pushes through the stream writer, and causes. */
  datatype NodeRun = NodeRun(update: Update, written: seq<Chunk>, effects: seq<Effect>)

  function TryStreamRun(env: Env, s: RouteState): NodeRun {
    var queue, walk := s.endpoints, StreamWalkOf(env, s);
    var rows := s.attempts + walk.rows;
    match walk.winner
    case None =>
      var failed := if queue != [] then Cleared(rows, Model(LastTried(queue)), Provider(LastTried(queue)))
                    else Cleared(rows, s.usedModelId, s.usedProviderId);
      NodeRun(failed.(error := Some(s.error), recoverable := Some(Or(s.recoverable, true))), [], walk.effects)
    case Some(Winner(pos, attempt)) =>
      WinnerStarts(env, s.groupId, queue, s.truncated, s.params, 0);
      var out := env.stream(s.groupId, pos, attempt);
      var relay := Relay(env, s.groupId, out.chunks, out.ending, Drain, 0);
      NodeRun(Committed(queue[pos], rows, relay.exit.Ended?), relay.chunks,
              walk.effects + [Succeeded(s.groupId, queue[pos].modelId)] + [Release(queue[pos].providerId)])
  }

  /** One attempt of try_stream on an endpoint, with its three `except` clauses. */
  method Attempt(world: World, env: Env, s: RouteState, pos: nat, attempt: nat)
    returns (gen: GuardedStream?, first: Option<Chunk>, rows: seq<AttemptRow>, retry: bool)
    requires pos < |s.endpoints|
    modifies world`trace
    ensures var out, ep := env.stream(s.groupId, pos, attempt), s.endpoints[pos];
            && (Starts(out) ==>
                  && gen != null && fresh(gen) && gen.world == world && gen.Opened(ep, out)
                  && first == Some(gen.chunks[0]) && rows == [] && !retry
                  && world.trace == old(world.trace) + Opening(ep, s.truncated, s.params))
            && (!Starts(out) ==>
                  && first.None? && rows == [FailureRow(s.groupId, ep, attempt, out)]
                     && retry == TryAgain(ep, attempt, out)
                  && world.trace == old(world.trace) + FailureEffects(s.groupId, ep, s.truncated, s.params, out))
  {
    ghost var out := env.stream(s.groupId, pos, attempt);
    var ep := s.endpoints[pos];
    var pull;
    gen, pull := FirstPull(world, env, s.groupId, pos, ep, s.truncated, s.params, attempt);
    first, rows, retry := None, [], false;
    match pull {
      case Item(chunk) =>
        first := Some(chunk);
        return;
      case Stop =>
        rows := [StreamRow(s.groupId, ep, attempt, "EmptyStream", ep.modelName + " returned an empty stream")];
        world.Emit(Fails(s.groupId, ep));
      case Raised(e) =>
        if e.kind.Timeout? {
          rows := [StreamRow(s.groupId, ep, attempt, "TimeoutError",
                             ep.modelName + " timed out waiting for first chunk")];
        } else {
          rows := [StreamRow(s.groupId, ep, attempt, e.TypeName(), e.message)];
        }
        retry := (e.kind.Timeout? || e.retryable) && attempt < Tries(ep) - 1;
    }
    if gen != null {
      gen.Aclose();
    }
  }

  /** The retry loop of try_stream: up to the first chunk of one endpoint. */
  method AcquireFirst(world: World, env: Env, s: RouteState, pos: nat)
    returns (gen: GuardedStream?, first: Option<Chunk>, rows: seq<AttemptRow>)
    requires pos < |s.endpoints|
    modifies world`trace
    ensures var f := FirstChunk(env, s.groupId, pos, s.endpoints[pos], s.truncated, s.params, 0);
            && rows == f.rows && world.trace == old(world.trace) + f.effects
            && (first.Some? <==> f.winner.Some?)
            && (first.Some? ==>
                  && gen != null && fresh(gen) && gen.world == world
                  && gen.Opened(s.endpoints[pos], env.stream(s.groupId, pos, f.winner.value))
                  && first.value == gen.chunks[0])
  {
    var ep := s.endpoints[pos];
    ghost var whole := FirstChunk(env, s.groupId, pos, ep, s.truncated, s.params, 0);
    rows := [];
    var attempt: nat := 0;
    while true
      invariant attempt < Tries(ep)
      invariant var rest := FirstChunk(env, s.groupId, pos, ep, s.truncated, s.params, attempt);
                && whole.winner == rest.winner && whole.rows == rows + rest.rows
                && old(world.trace) + whole.effects == world.trace + rest.effects
      decreases Tries(ep) - attempt
    {
      ghost var before, soFar := world.trace, rows;
      var failures, retry;
      gen, first, failures, retry := Attempt(world, env, s, pos, attempt);
      rows := rows + failures;
      if !retry {
        return;
      }
      world.Emit(Backoff(attempt));
      attempt := attempt + 1;
      ghost var rest := FirstChunk(env, s.groupId, pos, ep, s.truncated, s.params, attempt);
      ghost var failed :=
        FailureEffects(s.groupId, ep, s.truncated, s.params, env.stream(s.groupId, pos, attempt - 1));
      Assoc(before, failed, [Backoff(attempt - 1)] + rest.effects);
      Assoc(before + failed, [Backoff(attempt - 1)], rest.effects);
      Assoc(soFar, failures, rest.rows);
    }
  }

  /** The `async for` of try_stream over _chain_first(first, gen), writing every chunk to
      the stream writer, with its aclose() calls and its `finally` clause. */
  method RelayToWriter(env: Env, gid: int, gen: GuardedStream, first: Chunk)
    returns (written: seq<Chunk>, exit: Exit)
    requires gen.Valid() && gen.phase == Suspended && gen.pos == 1 && first == gen.chunks[0]
    modifies gen, gen.world`trace
    ensures Relayed(written, exit) == Relay(env, gid, gen.chunks, gen.ending, Drain, 0)
    ensures gen.world.trace == old(gen.world.trace) + [Release(gen.providerId)]
  {
    ghost var whole := Relay(env, gid, gen.chunks, gen.ending, Drain, 0);
    written := [];
    var k: nat := 0;
    var pull := Item(first);
    while pull.Item?
      invariant gen.Valid()
      invariant pull.Item? ==>
                  && gen.phase == Suspended && gen.pos == k + 1
                  && k < |gen.chunks| && pull.chunk == gen.chunks[k]
      invariant !pull.Item? ==> gen.phase == Finished && k == |gen.chunks| && pull == Over(gen.ending)
      invariant gen.world.trace == old(gen.world.trace) + if pull.Item? then [] else [Release(gen.providerId)]
      invariant var rest := Relay(env, gid, gen.chunks, gen.ending, Drain, k);
                whole.chunks == written + rest.chunks && whole.exit == rest.exit
      decreases |gen.chunks| - k
    {
      match env.enginePoll(gid, k) {
        case Disconnected =>
          gen.Aclose();
          exit := ClientGone;
          gen.Aclose();
          return;
        case PollRaises(_, _) =>
          gen.Aclose();
          exit := BrokeOff;
          gen.Aclose();
          return;
        case Connected =>
          written := written + [pull.chunk];
          pull := gen.Next();
          k := k + 1;
      }
    }
    exit := if pull.Stop? then Ended else BrokeOff;
    gen.Aclose();
  }

  /** One endpoint of try_stream: its first chunk, or the rows of its failures. */
  method AcquireNext(world: World, env: Env, s: RouteState, pos: nat, attempts: seq<AttemptRow>)
    returns (gen: GuardedStream?, first: Option<Chunk>, attempts': seq<AttemptRow>)
    requires pos < |s.endpoints|
    modifies world`trace
    ensures var walk := WalkQueue(env, s.groupId, s.endpoints, s.truncated, s.params, pos);
            if first.Some? then
              && attempts' == attempts + walk.rows && world.trace == old(world.trace) + walk.effects
              && walk.winner.Some? && walk.winner.value.pos == pos
              && gen != null && fresh(gen) && gen.world == world
              && gen.Opened(s.endpoints[pos], env.stream(s.groupId, pos, walk.winner.value.attempt))
              && first.value == gen.chunks[0]
            else
              var rest := WalkQueue(env, s.groupId, s.endpoints, s.truncated, s.params, pos + 1);
              && walk.winner == rest.winner && |attempts'| > |attempts|
              && attempts + walk.rows == attempts' + rest.rows
              && old(world.trace) + walk.effects == world.trace + rest.effects
  {
    ghost var before := world.trace;
    var rows;
    gen, first, rows := AcquireFirst(world, env, s, pos);
    attempts' := attempts + rows;
    if first.None? {
      ghost var ep := s.endpoints[pos];
      FirstChunkStarts(env, s.groupId, pos, ep, s.truncated, s.params, 0);
      ghost var rest := WalkQueue(env, s.groupId, s.endpoints, s.truncated, s.params, pos + 1);
      Assoc(before, FirstChunk(env, s.groupId, pos, ep, s.truncated, s.params, 0).effects, rest.effects);
      Assoc(attempts, rows, rest.rows);
    }
  }

  /** The try_stream node. */
  method TryStream(world: World, env: Env, s: RouteState) returns (update: Update, written: seq<Chunk>)
    modifies world`trace
    ensures var run := TryStreamRun(env, s);
            update == run.update && written == run.written && world.trace == old(world.trace) + run.effects
  {
    var queue := s.endpoints;
    var attempts := s.attempts;
    var lastModelId, lastProviderId := s.usedModelId, s.usedProviderId;
    ghost var whole := StreamWalkOf(env, s);
    for pos := 0 to |queue|
      invariant var rest := WalkQueue(env, s.groupId, queue, s.truncated, s.params, pos);
                && whole.winner == rest.winner && s.attempts + whole.rows == attempts + rest.rows
                && old(world.trace) + whole.effects == world.trace + rest.effects
      invariant lastModelId == if pos == 0 then s.usedModelId else Some(queue[pos - 1].modelId)
      invariant lastProviderId == if pos == 0 then s.usedProviderId else Some(queue[pos - 1].providerId)
    {
      var before := attempts;
      var gen, first;
      gen, first, attempts := AcquireNext(world, env, s, pos, attempts);
      if attempts != before {
        lastModelId, lastProviderId := Some(queue[pos].modelId), Some(queue[pos].providerId);
      }
      if first.Some? {
        world.Emit(Succeeded(s.groupId, queue[pos].modelId));
        var exit;
        written, exit := RelayToWriter(env, s.groupId, gen, first.value);
        update := Committed(queue[pos], attempts, exit.Ended?);
        return;
      }
    }
    assert attempts == s.attempts + whole.rows;
    written := [];
    update := Cleared(attempts, lastModelId, lastProviderId).(error := Some(s.error),
                                                             recoverable := Some(Or(s.recoverable, true)));
  }

  // ---------------------------------------------------------------- edges and interpreter

  datatype Node = SelectNode | CallNode | StreamNode | ErrorNode | End

  function RouteAfterSelect(s: RouteState): Node {
    if s.error.Some? then ErrorNode else if s.stream then StreamNode else CallNode
  }

  function RouteAfterCall(s: RouteState): Node {
    if s.result.Some? then End else ErrorNode
  }

  function Remaining(node: Node): nat {
    match node
    case SelectNode => 3
    case CallNode => 2
    case StreamNode => 2
    case ErrorNode => 1
    case End => 0
  }

  datatype Trip = Trip(final: RouteState, written: seq<Chunk>, effects: seq<Effect>)

  /** The graph run from `node` in state `s`. */
  function GraphFrom(env: Env, node: Node, s: RouteState): Trip
    decreases Remaining(node)
  {
    match node
    case End => Trip(s, [], [])
    case SelectNode =>
      var s' := Merge(s, SelectEndpoints(env, s));
      GraphFrom(env, RouteAfterSelect(s'), s')
    case ErrorNode =>
      GraphFrom(env, End, Merge(s, FinalizeError(s)))
    case CallNode =>
      var s' := Merge(s, TryCallUpdate(env, s));
      var rest := GraphFrom(env, RouteAfterCall(s'), s');
      rest.(effects := CallsOf(env, s).effects + rest.effects)
    case StreamNode =>
      var run := TryStreamRun(env, s);
      var rest := GraphFrom(env, End, Merge(s, run.update));
      Trip(rest.final, run.written + rest.written, run.effects + rest.effects)
  }

  /** One node, and the edge out of it. */
  method Dispatch(world: World, env: Env, node: Node, s: RouteState)
    returns (next: Node, s': RouteState, written: seq<Chunk>)
    requires node != End
    modifies world`trace
    ensures Remaining(next) < Remaining(node)
    ensures var whole, rest := GraphFrom(env, node, s), GraphFrom(env, next, s');
            && whole.final == rest.final && whole.written == written + rest.written
            && old(world.trace) + whole.effects == world.trace + rest.effects
  {
    written := [];
    match node {
      case SelectNode =>
        s' := Merge(s, SelectEndpoints(env, s));
        next := RouteAfterSelect(s');
      case CallNode =>
        var update := TryCall(world, env, s);
        s' := Merge(s, update);
        next := RouteAfterCall(s');
      case StreamNode =>
        var update;
        update, written := TryStream(world, env, s);
        s' := Merge(s, update);
        next := End;
      case ErrorNode =>
        s' := Merge(s, FinalizeError(s));
        next := End;
    }
  }

  /** The graph interpreter: run a node, merge what it returns, follow the edge. */
  method RunGraph(world: World, env: Env, initial: RouteState) returns (final: RouteState, written: seq<Chunk>)
    modifies world`trace
    ensures var trip := GraphFrom(env, SelectNode, initial);
            final == trip.final && written == trip.written && world.trace == old(world.trace) + trip.effects
  {
    ghost var whole := GraphFrom(env, SelectNode, initial);
    final, written := initial, [];
    var node := SelectNode;
    while node != End
      invariant var rest := GraphFrom(env, node, final);
                && whole.final == rest.final && whole.written == written + rest.written
                && old(world.trace) + whole.effects == world.trace + rest.effects
      decreases Remaining(node)
    {
      var chunks;
      node, final, chunks := Dispatch(world, env, node, final);
      written := written + chunks;
    }
  }

  // ---------------------------------------------------------------- engine entry points

  /** _initial_state. */
  function Initial(gid: int, messages: seq<Message>, stream: bool, params: Params,
                   preselected: Option<RouteResult>): RouteState {
    RouteState(gid, messages, params, stream,
               if preselected.Some? then preselected.value.endpoints else [], 0,
               if preselected.Some? then preselected.value.messages else [],
               [], None, None, None, None, None, false)
  }

  /** _error_message. */
  function ErrorMessage(raw: Option<RawError>): string {
    var message := match raw
      case Some(Exception(e)) => e.message
      case Some(Text(m)) => m
      case None => "";
    if message != "" then message else "no result"
  }

  /** _raise_routing_error: BotflowErrors keep their type, anything else becomes a ProviderError. */
  function Reraised(raw: Option<RawError>): Error {
    match raw
    case Some(Exception(e)) => if e.Botflow() then e else ProviderError(ErrorMessage(raw))
    case _ => ProviderError(ErrorMessage(raw))
  }

  function ChatResult(final: RouteState): ChatRun {
    match (final.error, final.result)
    case (None, Some(Answer(reply, modelId, providerId))) => Answered(reply, modelId, providerId, final.attempts)
    case _ => Threw(Reraised(final.error), final.attempts, final.usedModelId, final.usedProviderId)
  }

  /** _run_one. */
  method RunOne(world: World, env: Env, gid: int, messages: seq<Message>, params: Params,
                preselected: Option<RouteResult>)
    returns (run: ChatRun)
    modifies world`trace
    ensures var trip := GraphFrom(env, SelectNode, Initial(gid, messages, false, params, preselected));
            run == ChatResult(trip.final) && world.trace == old(world.trace) + trip.effects
  {
    var final, _ := RunGraph(world, env, Initial(gid, messages, false, params, preselected));
    run := ChatResult(final);
  }

  datatype StreamEnd =
    | Final(state: StreamState)
    | StreamThrew(error: Error, attempts: seq<AttemptRow>, usedModelId: Option<int>, usedProviderId: Option<int>)

  /** The keys of the final values event that the driver reads. */
  function Projected(final: RouteState): StreamState {
    StreamState(final.result == Some(StreamOk), final.streamStarted, Or(final.recoverable, false),
                final.usedModelId, final.usedProviderId, final.attempts, None)
  }

  function StreamResult(final: RouteState): StreamEnd {
    if final.error.Some? then
      StreamThrew(Reraised(final.error), final.attempts, final.usedModelId, final.usedProviderId)
    else
      Final(Projected(final))
  }

  /** _run_stream, consumed to the end. */
  method RunStream(world: World, env: Env, gid: int, messages: seq<Message>, params: Params,
                   preselected: Option<RouteResult>)
    returns (chunks: seq<Chunk>, end: StreamEnd)
    modifies world`trace
    ensures var trip := GraphFrom(env, SelectNode, Initial(gid, messages, true, params, preselected));
            chunks == trip.written && end == StreamResult(trip.final) && world.trace == old(world.trace) + trip.effects
  {
    var final;
    final, chunks := RunGraph(world, env, Initial(gid, messages, true, params, preselected));
    end := StreamResult(final);
  }
}
