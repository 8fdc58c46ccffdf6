/** What a non-streaming group run is meant to do, independently of the graph node and of
    the inlined loop that both implement it. */
module Chatting {
  import opened Options
  import opened Routing
  import opened Upstream

  /** What a chat run of one group returns or raises. */
  datatype ChatRun =
    | Answered(reply: Reply, modelId: int, providerId: int, attempts: seq<AttemptRow>)
    | Threw(error: Error, attempts: seq<AttemptRow>, usedModelId: Option<int>, usedProviderId: Option<int>)

  function CallRow(gid: int, pos: nat, ep: Endpoint, error: Option<Error>): AttemptRow {
    AttemptRow(gid, Some(ep.modelId), Some(ep.providerId), "call", pos, ep.maxRetries,
               if error.Some? then error.value.TypeName() else "UnknownError",
               if error.Some? then error.value.message else "All retries exhausted")
  }

  /** The calls made from queue position `pos` on: one row for each failed endpoint, up to
      the first endpoint that replies. */
  datatype ChatWalk = ChatWalk(rows: seq<AttemptRow>, effects: seq<Effect>, winner: Option<nat>, reply: Option<Reply>)

  function WalkCalls(env: Env, gid: int, queue: seq<Endpoint>, messages: seq<Message>, params: Params,
                     pos: nat): ChatWalk
    requires pos <= |queue|
    decreases |queue| - pos
  {
    if pos == |queue| then
      ChatWalk([], [], None, None)
    else
      var call := CallOf(env, gid, pos, queue[pos], messages, params);
      if call.reply.Some? then
        ChatWalk([], call.effects, Some(pos), call.reply)
      else
        var rest := WalkCalls(env, gid, queue, messages, params, pos + 1);
        ChatWalk([CallRow(gid, pos, queue[pos], call.error)] + rest.rows, call.effects + rest.effects,
                 rest.winner, rest.reply)
  }

  lemma {:induction false} CallWinner(env: Env, gid: int, queue: seq<Endpoint>, messages: seq<Message>,
                                      params: Params, pos: nat)
    requires pos <= |queue|
    ensures var w := WalkCalls(env, gid, queue, messages, params, pos);
            && (w.winner.Some? <==> w.reply.Some?)
            && (w.winner.Some? ==> pos <= w.winner.value < |queue| && |w.rows| == w.winner.value - pos)
            && (w.winner.None? ==> |w.rows| == |queue| - pos)
    decreases |queue| - pos
  {
    if pos < |queue| {
      CallWinner(env, gid, queue, messages, params, pos + 1);
    }
  }

  const ALL_FAILED := "All endpoints in group failed"

  function ChatSpec(env: Env, gid: int, selected: RouteResult, params: Params): ChatRun {
    var queue := selected.endpoints;
    var walk := WalkCalls(env, gid, queue, selected.messages, params, 0);
    CallWinner(env, gid, queue, selected.messages, params, 0);
    match walk.winner
    case Some(pos) => Answered(walk.reply.value, queue[pos].modelId, queue[pos].providerId, walk.rows)
    case None =>
      Threw(ProviderError(ALL_FAILED), walk.rows, Model(LastTried(queue)), Provider(LastTried(queue)))
  }

  function ChatEffects(env: Env, gid: int, selected: RouteResult, params: Params): seq<Effect> {
    WalkCalls(env, gid, selected.endpoints, selected.messages, params, 0).effects
  }

  /** The endpoint a failed run is attributed to. */
  function LastTried(queue: seq<Endpoint>): Option<Endpoint> {
    if queue == [] then None else Some(queue[|queue| - 1])
  }

  function Model(ep: Option<Endpoint>): Option<int> {
    if ep.Some? then Some(ep.value.modelId) else None
  }

  function Provider(ep: Option<Endpoint>): Option<int> {
    if ep.Some? then Some(ep.value.providerId) else None
  }
}
