/** The direct paths and the graph are the same function of the oracles. */
module PathEquivalence {
  import opened Options
  import opened Routing
  import opened Upstream
  import opened Chatting
  import opened Streaming
  import opened RouteGraph
  import opened Samples

  // ---------------------------------------------------------------- streaming

  /** What a drained event stream shows: the chunks, how it ends, and every effect. */
  datatype StreamRun = StreamRun(chunks: seq<Chunk>, end: StreamEnd, effects: seq<Effect>)

  function GraphStream(env: Env, gid: int, messages: seq<Message>, params: Params, selected: RouteResult): StreamRun {
    var trip := GraphFrom(env, SelectNode, Initial(gid, messages, true, params, Some(selected)));
    StreamRun(trip.written, StreamResult(trip.final), trip.effects)
  }

  function FastStream(env: Env, gid: int, params: Params, selected: RouteResult): StreamRun {
    DrainReachesState(env, gid, selected, params);
    var run := RunGroup(env, gid, selected, params, Drain);
    StreamRun(run.chunks, Final(run.state.value), run.effects)
  }

  lemma {:induction false} DrainNeverStops(env: Env, gid: int, chunks: seq<Chunk>, ending: Ending, k: nat)
    requires k <= |chunks|
    ensures var r := Relay(env, gid, chunks, ending, Drain, k); !r.exit.Closed? && !r.exit.Abandoned?
    decreases |chunks| - k
  {
    if k < |chunks| {
      DrainNeverStops(env, gid, chunks, ending, k + 1);
    }
  }

  lemma DrainReachesState(env: Env, gid: int, selected: RouteResult, params: Params)
    ensures RunGroup(env, gid, selected, params, Drain).state.Some?
  {
    var walk := WalkQueue(env, gid, selected.endpoints, selected.messages, params, 0);
    if walk.winner.Some? {
      WinnerStarts(env, gid, selected.endpoints, selected.messages, params, 0);
      var out := env.stream(gid, walk.winner.value.pos, walk.winner.value.attempt);
      DrainNeverStops(env, gid, out.chunks, out.ending, 0);
    }
  }

  lemma StreamNodeIsRunGroup(env: Env, gid: int, messages: seq<Message>, params: Params, selected: RouteResult)
    requires selected.endpoints != []
    ensures GraphStream(env, gid, messages, params, selected) == FastStream(env, gid, params, selected)
  {
    var s := Initial(gid, messages, true, params, Some(selected));
    var s' := Merge(s, SelectEndpoints(env, s));
    assert s' == s;
    var node := TryStreamRun(env, s);
    var run := RunGroup(env, gid, selected, params, Drain);
    DrainReachesState(env, gid, selected, params);
    var walk := StreamWalkOf(env, s);
    assert s.attempts + walk.rows == walk.rows;
    var rest := GraphFrom(env, End, Merge(s, node.update));
    assert node.written + rest.written == node.written && node.effects + rest.effects == node.effects;
    if walk.winner.Some? {
      WinnerStarts(env, gid, selected.endpoints, selected.messages, params, 0);
    }
  }

  /** A walk over a queue shows: it has effects, or a row. */
  lemma WalkShows(env: Env, gid: int, queue: seq<Endpoint>, messages: seq<Message>, params: Params)
    requires queue != []
    ensures var walk := WalkQueue(env, gid, queue, messages, params, 0); walk.effects != [] || walk.rows != []
  {
    var first := FirstChunk(env, gid, 0, queue[0], messages, params, 0);
    assert first.effects != [] || first.rows != [];
  }

  /** The direct streaming path shows exactly what the graph shows (chunks, final state,
      effects in order) if and only if the queue is not empty, or the graph's second
      selection returns an empty queue as well. */
  lemma StreamPathsAgree(env: Env, gid: int, messages: seq<Message>, params: Params, selected: RouteResult)
    ensures GraphStream(env, gid, messages, params, selected) == FastStream(env, gid, params, selected)
            <==> (selected.endpoints != []
                  || (env.select(gid).Selected? && env.select(gid).result.endpoints == []))
  {
    if selected.endpoints != [] {
      StreamNodeIsRunGroup(env, gid, messages, params, selected);
    } else {
      var s := Initial(gid, messages, true, params, Some(selected));
      var s' := Merge(s, SelectEndpoints(env, s));
      assert FastStream(env, gid, params, selected).effects == [];
      match env.select(gid) {
        case Refused(e) =>
          assert GraphFrom(env, SelectNode, s).final.error == Some(Exception(e));
        case Selected(again) =>
          var node := TryStreamRun(env, s');
          var rest := GraphFrom(env, End, Merge(s', node.update));
          assert node.written + rest.written == node.written && node.effects + rest.effects == node.effects;
          if again.endpoints != [] {
            WalkShows(env, gid, again.endpoints, again.messages, params);
            assert s'.attempts == [];
          }
      }
    }
  }

  // ---------------------------------------------------------------- chat

  datatype CallRun = CallRun(run: ChatRun, effects: seq<Effect>)

  function GraphChat(env: Env, gid: int, messages: seq<Message>, params: Params,
                     preselected: Option<RouteResult>): CallRun {
    var trip := GraphFrom(env, SelectNode, Initial(gid, messages, false, params, preselected));
    CallRun(ChatResult(trip.final), trip.effects)
  }

  function FastChat(env: Env, gid: int, params: Params, selected: RouteResult): CallRun {
    CallRun(ChatSpec(env, gid, selected, params), ChatEffects(env, gid, selected, params))
  }

  /** What follows the call node changes nothing of what the run returns or raises. */
  lemma NothingAfterCall(env: Env, s: RouteState)
    ensures var trip := GraphFrom(env, RouteAfterCall(s), s);
            trip.effects == [] && ChatResult(trip.final) == ChatResult(s)
  {
  }

  lemma CallsFromStart(env: Env, gid: int, messages: seq<Message>, params: Params, selected: RouteResult, s: RouteState)
    requires s == Initial(gid, messages, false, params, Some(selected))
    ensures CallsOf(env, s) == WalkCalls(env, gid, selected.endpoints, selected.messages, params, 0)
    ensures s.attempts + CallsOf(env, s).rows == CallsOf(env, s).rows
  {
  }

  lemma CallNodeResult(env: Env, gid: int, messages: seq<Message>, params: Params, selected: RouteResult, s: RouteState)
    requires s == Initial(gid, messages, false, params, Some(selected))
    ensures ChatResult(Merge(s, TryCallUpdate(env, s))) == ChatSpec(env, gid, selected, params)
  {
    CallsFromStart(env, gid, messages, params, selected, s);
    var queue, walk := selected.endpoints, CallsOf(env, s);
    CallWinner(env, gid, queue, selected.messages, params, 0);
    var result := ChatResult(Merge(s, TryCallUpdate(env, s)));
    match walk.winner {
      case Some(pos) =>
        assert result == Answered(walk.reply.value, queue[pos].modelId, queue[pos].providerId, walk.rows);
      case None =>
        assert result == Threw(ProviderError(ALL_FAILED), walk.rows, Model(LastTried(queue)),
                               Provider(LastTried(queue)));
    }
  }

  /** From a state whose queue is settled, the call branch of the graph is the direct walk. */
  lemma CallBranch(env: Env, gid: int, messages: seq<Message>, params: Params, selected: RouteResult, s: RouteState)
    requires s == Initial(gid, messages, false, params, Some(selected))
    ensures var trip := GraphFrom(env, CallNode, s);
            CallRun(ChatResult(trip.final), trip.effects) == FastChat(env, gid, params, selected)
  {
    CallsFromStart(env, gid, messages, params, selected, s);
    CallNodeResult(env, gid, messages, params, selected, s);
    NothingAfterCall(env, Merge(s, TryCallUpdate(env, s)));
    assert CallsOf(env, s).effects + [] == CallsOf(env, s).effects;
  }

  /** Without a preselected queue the graph selects once and then does what the direct path
      does; a refused selection is raised, re-typed unless it is a BotflowError. */
  lemma GraphSelectsThenCalls(env: Env, gid: int, messages: seq<Message>, params: Params)
    ensures GraphChat(env, gid, messages, params, None)
            == match env.select(gid)
               case Refused(e) => CallRun(Threw(Reraised(Some(Exception(e))), [], None, None), [])
               case Selected(result) => FastChat(env, gid, params, result)
  {
    var s := Initial(gid, messages, false, params, None);
    var s' := Merge(s, SelectEndpoints(env, s));
    match env.select(gid) {
      case Refused(e) =>
      case Selected(result) =>
        assert s' == Initial(gid, messages, false, params, Some(result));
        CallBranch(env, gid, messages, params, result, s');
    }
  }

  lemma {:induction false} CallsHaveEffects(env: Env, gid: int, queue: seq<Endpoint>, messages: seq<Message>,
                                            params: Params)
    requires queue != []
    ensures WalkCalls(env, gid, queue, messages, params, 0).effects != []
  {
    var call := CallOf(env, gid, 0, queue[0], messages, params);
    assert call.effects != [];
  }

  /** The direct chat path returns or raises exactly what the graph does, with the same
      effects, if and only if the queue is not empty, or the graph's second selection gives
      an empty queue too or a refusal that is raised as the same error. */
  lemma ChatPathsAgree(env: Env, gid: int, messages: seq<Message>, params: Params, selected: RouteResult)
    ensures GraphChat(env, gid, messages, params, Some(selected)) == FastChat(env, gid, params, selected)
            <==> (selected.endpoints != []
                  || match env.select(gid)
                     case Selected(again) => again.endpoints == []
                     case Refused(e) => Reraised(Some(Exception(e))) == ProviderError(ALL_FAILED))
  {
    var s := Initial(gid, messages, false, params, Some(selected));
    if selected.endpoints != [] {
      assert Merge(s, SelectEndpoints(env, s)) == s;
      CallBranch(env, gid, messages, params, selected, s);
    } else {
      var s' := Merge(s, SelectEndpoints(env, s));
      assert FastChat(env, gid, params, selected) == CallRun(Threw(ProviderError(ALL_FAILED), [], None, None), []);
      match env.select(gid) {
        case Refused(e) =>
        case Selected(again) =>
          assert s' == Initial(gid, messages, false, params, Some(again));
          CallBranch(env, gid, messages, params, again, s');
          if again.endpoints != [] {
            CallsHaveEffects(env, gid, again.endpoints, again.messages, params);
          }
      }
    }
  }

  /** An input on which both pairs of paths differ: the queue handed over is empty. */
  lemma EmptyQueueSeparatesPaths(gid: int, messages: seq<Message>, params: Params)
    ensures var env, nothing := SampleEnv(), RouteResult([], []);
            && GraphStream(env, gid, messages, params, nothing) != FastStream(env, gid, params, nothing)
            && GraphChat(env, gid, messages, params, Some(nothing)) != FastChat(env, gid, params, nothing)
  {
    var env, nothing := SampleEnv(), RouteResult([], []);
    assert env.select(gid) == Selected(RouteResult([SAMPLE_ENDPOINT], []));
    StreamPathsAgree(env, gid, messages, params, nothing);
    ChatPathsAgree(env, gid, messages, params, nothing);
  }
}
