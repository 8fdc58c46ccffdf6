/** The direct execution of a selected queue, without the graph dispatcher. */
module FastPath {
  import opened Options
  import opened Routing
  import opened Upstream
  import opened Chatting
  import opened Streaming

  // ---------------------------------------------------------------- chat

  /** _run_one_fast. */
  method RunOneFast(world: World, env: Env, gid: int, params: Params, preselected: RouteResult)
    returns (run: ChatRun)
    modifies world`trace
    ensures run == ChatSpec(env, gid, preselected, params)
    ensures world.trace == old(world.trace) + ChatEffects(env, gid, preselected, params)
  {
    var queue := preselected.endpoints;
    var attempts: seq<AttemptRow> := [];
    var lastModelId: Option<int> := None;
    var lastProviderId: Option<int> := None;
    ghost var whole := WalkCalls(env, gid, queue, preselected.messages, params, 0);
    for idx := 0 to |queue|
      invariant var rest := WalkCalls(env, gid, queue, preselected.messages, params, idx);
                && whole.winner == rest.winner && whole.reply == rest.reply
                && whole.rows == attempts + rest.rows
                && old(world.trace) + whole.effects == world.trace + rest.effects
      invariant lastModelId == if idx == 0 then None else Some(queue[idx - 1].modelId)
      invariant lastProviderId == if idx == 0 then None else Some(queue[idx - 1].providerId)
    {
      var ep := queue[idx];
      ghost var before, call := world.trace, CallOf(env, gid, idx, ep, preselected.messages, params);
      var reply, error := CallLlm(world, env, gid, idx, ep, preselected.messages, params);
      if reply.Some? {
        return Answered(reply.value, ep.modelId, ep.providerId, attempts);
      }
      lastModelId, lastProviderId := Some(ep.modelId), Some(ep.providerId);
      ghost var later := WalkCalls(env, gid, queue, preselected.messages, params, idx + 1);
      Assoc(attempts, [CallRow(gid, idx, ep, error)], later.rows);
      Assoc(before, call.effects, later.effects);
      attempts := attempts + [CallRow(gid, idx, ep, error)];
    }
    return Threw(ProviderError(ALL_FAILED), attempts, lastModelId, lastProviderId);
  }

  // ---------------------------------------------------------------- streaming

  /** One attempt of _run_stream_fast on an endpoint, with its three `except` clauses: the
      first chunk, or the row of the failure and whether to try again. */
  method Attempt(world: World, env: Env, gid: int, pos: nat, ep: Endpoint, messages: seq<Message>,
                 params: Params, attempt: nat)
    returns (gen: GuardedStream?, first: Option<Chunk>, rows: seq<AttemptRow>, retry: bool)
    modifies world`trace
    ensures var out := env.stream(gid, pos, attempt);
            && (Starts(out) ==>
                  && gen != null && fresh(gen) && gen.world == world && gen.Opened(ep, out)
                  && first == Some(gen.chunks[0]) && rows == [] && !retry
                  && world.trace == old(world.trace) + Opening(ep, messages, params))
            && (!Starts(out) ==>
                  && first.None? && rows == [FailureRow(gid, ep, attempt, out)] && retry == TryAgain(ep, attempt, out)
                  && world.trace == old(world.trace) + FailureEffects(gid, ep, messages, params, out))
  {
    ghost var out := env.stream(gid, pos, attempt);
    var pull;
    gen, pull := FirstPull(world, env, gid, pos, ep, messages, params, attempt);
    first, rows, retry := None, [], false;
    match pull {
      case Item(chunk) =>
        first := Some(chunk);
        return;
      case Stop =>
        rows := [StreamRow(gid, ep, attempt, "EmptyStream", ep.modelName + " returned an empty stream")];
        world.Emit(Fails(gid, ep));
      case Raised(e) =>
        if e.kind.Timeout? {
          rows := [StreamRow(gid, ep, attempt, "TimeoutError", ep.modelName + " timed out waiting for first chunk")];
        } else {
          rows := [StreamRow(gid, ep, attempt, e.TypeName(), e.message)];
        }
        retry := (e.kind.Timeout? || e.retryable) && attempt < Tries(ep) - 1;
    }
    if gen != null {
      gen.Aclose();
    }
  }

  /** The retry loop of _run_stream_fast: up to the first chunk of one endpoint. */
  method AcquireFirst(world: World, env: Env, gid: int, pos: nat, ep: Endpoint, messages: seq<Message>, params: Params)
    returns (gen: GuardedStream?, first: Option<Chunk>, rows: seq<AttemptRow>)
    modifies world`trace
    ensures var f := FirstChunk(env, gid, pos, ep, messages, params, 0);
            && rows == f.rows && world.trace == old(world.trace) + f.effects
            && (first.Some? <==> f.winner.Some?)
            && (first.Some? ==>
                  && gen != null && fresh(gen) && gen.world == world
                  && gen.Opened(ep, env.stream(gid, pos, f.winner.value)) && first.value == gen.chunks[0])
  {
    ghost var whole := FirstChunk(env, gid, pos, ep, messages, params, 0);
    rows := [];
    var attempt: nat := 0;
    while true
      invariant attempt < Tries(ep)
      invariant var rest := FirstChunk(env, gid, pos, ep, messages, params, attempt);
                && whole.winner == rest.winner && whole.rows == rows + rest.rows
                && old(world.trace) + whole.effects == world.trace + rest.effects
      decreases Tries(ep) - attempt
    {
      ghost var before, soFar := world.trace, rows;
      var failures, retry;
      gen, first, failures, retry := Attempt(world, env, gid, pos, ep, messages, params, attempt);
      rows := rows + failures;
      if !retry {
        return;
      }
      world.Emit(Backoff(attempt));
      attempt := attempt + 1;
      ghost var rest := FirstChunk(env, gid, pos, ep, messages, params, attempt);
      ghost var failed := FailureEffects(gid, ep, messages, params, env.stream(gid, pos, attempt - 1));
      Assoc(before, failed, [Backoff(attempt - 1)] + rest.effects);
      Assoc(before + failed, [Backoff(attempt - 1)], rest.effects);
      Assoc(soFar, failures, rest.rows);
    }
  }

  /** The relay loop of _run_stream_fast over _chain_first(first, gen), with the explicit
      aclose() calls and the `finally` clause. */
  method RelayToConsumer(env: Env, gid: int, gen: GuardedStream, first: Chunk, consumer: Consumer)
    returns (chunks: seq<Chunk>, exit: Exit)
    requires gen.Valid() && gen.phase == Suspended && gen.pos == 1 && first == gen.chunks[0]
    modifies gen, gen.world`trace
    ensures Relayed(chunks, exit) == Relay(env, gid, gen.chunks, gen.ending, consumer, 0)
    ensures gen.world.trace == old(gen.world.trace) + if exit.Abandoned? then [] else [Release(gen.providerId)]
  {
    ghost var whole := Relay(env, gid, gen.chunks, gen.ending, consumer, 0);
    chunks := [];
    var k: nat := 0;
    var pull := Item(first);
    while pull.Item?
      invariant gen.Valid()
      invariant pull.Item? ==>
                  && gen.phase == Suspended && gen.pos == k + 1
                  && k < |gen.chunks| && pull.chunk == gen.chunks[k]
      invariant !pull.Item? ==>
                  && gen.phase == Finished && k == |gen.chunks|
                  && pull == Over(gen.ending)
      invariant gen.world.trace == old(gen.world.trace) + if pull.Item? then [] else [Release(gen.providerId)]
      invariant var rest := Relay(env, gid, gen.chunks, gen.ending, consumer, k);
                whole.chunks == chunks + rest.chunks && whole.exit == rest.exit
      decreases |gen.chunks| - k
    {
      match env.enginePoll(gid, k) {
        case Disconnected =>
          gen.Aclose();
          exit := ClientGone;
          gen.Aclose();
          return;
        case PollRaises(_, _) =>
          gen.Aclose();
          exit := BrokeOff;
          gen.Aclose();
          return;
        case Connected =>
          chunks := chunks + [pull.chunk];
          match consumer(k, ChunkEvent(pull.chunk)) {
            case Close =>
              gen.Aclose();
              return chunks, Closed;
            case Abandon =>
              return chunks, Abandoned;
            case Continue =>
          }
          pull := gen.Next();
          k := k + 1;
      }
    }
    exit := if pull.Stop? then Ended else BrokeOff;
    gen.Aclose();
  }

  /** One endpoint of _run_stream_fast: its first chunk, or the rows of its failures. */
  method AcquireNext(world: World, env: Env, gid: int, queue: seq<Endpoint>, messages: seq<Message>, params: Params,
                     pos: nat, attempts: seq<AttemptRow>)
    returns (gen: GuardedStream?, first: Option<Chunk>, attempts': seq<AttemptRow>)
    requires pos < |queue|
    modifies world`trace
    ensures var walk := WalkQueue(env, gid, queue, messages, params, pos);
            if first.Some? then
              && attempts' == attempts + walk.rows && world.trace == old(world.trace) + walk.effects
              && walk.winner.Some? && walk.winner.value.pos == pos
              && gen != null && fresh(gen) && gen.world == world
              && gen.Opened(queue[pos], env.stream(gid, pos, walk.winner.value.attempt)) && first.value == gen.chunks[0]
            else
              var rest := WalkQueue(env, gid, queue, messages, params, pos + 1);
              && walk.winner == rest.winner && |attempts'| > |attempts|
              && attempts + walk.rows == attempts' + rest.rows
              && old(world.trace) + walk.effects == world.trace + rest.effects
  {
    var ep := queue[pos];
    ghost var before := world.trace;
    var rows;
    gen, first, rows := AcquireFirst(world, env, gid, pos, ep, messages, params);
    attempts' := attempts + rows;
    if first.None? {
      FirstChunkStarts(env, gid, pos, ep, messages, params, 0);
      ghost var rest := WalkQueue(env, gid, queue, messages, params, pos + 1);
      Assoc(before, FirstChunk(env, gid, pos, ep, messages, params, 0).effects, rest.effects);
      Assoc(attempts, rows, rest.rows);
    }
  }

  /** The endpoint loop of _run_stream_fast, up to the first chunk of the group. */
  method AcquireStream(world: World, env: Env, gid: int, params: Params, preselected: RouteResult)
    returns (gen: GuardedStream?, pos: nat, first: Option<Chunk>, attempts: seq<AttemptRow>,
             lastModelId: Option<int>, lastProviderId: Option<int>)
    modifies world`trace
    ensures var queue := preselected.endpoints;
            var walk := WalkQueue(env, gid, queue, preselected.messages, params, 0);
            && attempts == walk.rows && world.trace == old(world.trace) + walk.effects
            && (first.Some? <==> walk.winner.Some?)
            && (first.Some? ==>
                  && pos == walk.winner.value.pos < |queue|
                  && gen != null && fresh(gen) && gen.world == world
                  && gen.Opened(queue[pos], env.stream(gid, pos, walk.winner.value.attempt))
                     && first.value == gen.chunks[0])
            && (first.None? ==> lastModelId == Model(LastTried(queue)) && lastProviderId == Provider(LastTried(queue)))
  {
    var queue, messages := preselected.endpoints, preselected.messages;
    attempts, lastModelId, lastProviderId := [], None, None;
    pos, first, gen := 0, None, null;
    ghost var whole := WalkQueue(env, gid, queue, messages, params, 0);
    while pos < |queue|
      invariant pos <= |queue| && first.None?
      invariant var rest := WalkQueue(env, gid, queue, messages, params, pos);
                && whole.winner == rest.winner && whole.rows == attempts + rest.rows
                && old(world.trace) + whole.effects == world.trace + rest.effects
      invariant lastModelId == if pos == 0 then None else Some(queue[pos - 1].modelId)
      invariant lastProviderId == if pos == 0 then None else Some(queue[pos - 1].providerId)
    {
      var before := attempts;
      gen, first, attempts := AcquireNext(world, env, gid, queue, messages, params, pos, attempts);
      if attempts != before {
        lastModelId, lastProviderId := Some(queue[pos].modelId), Some(queue[pos].providerId);
      }
      if first.Some? {
        return;
      }
      pos := pos + 1;
    }
  }

  /** _run_stream_fast, driven by `consumer`: the chunks it hands out and, unless the
      consumer stopped it first, the final state. */
  method RunStreamFast(world: World, env: Env, gid: int, params: Params, preselected: RouteResult, consumer: Consumer)
    returns (chunks: seq<Chunk>, state: Option<StreamState>)
    modifies world`trace
    ensures var run := RunGroup(env, gid, preselected, params, consumer);
            chunks == run.chunks && state == run.state && world.trace == old(world.trace) + run.effects
  {
    var gen, pos, first, attempts, lastModelId, lastProviderId := AcquireStream(world, env, gid, params, preselected);
    if first.None? {
      return [], Some(StreamState(false, false, true, lastModelId, lastProviderId, attempts, None));
    }
    var ep := preselected.endpoints[pos];
    world.Emit(Succeeded(gid, ep.modelId));
    var exit;
    chunks, exit := RelayToConsumer(env, gid, gen, first.value, consumer);
    state := if exit.Closed? || exit.Abandoned? then None else Some(StartedState(ep, attempts, exit.Ended?));
  }
}
