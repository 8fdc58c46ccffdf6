/** What one group's run returns, said over what the providers and the polls do. */
module GroupMeaning {
  import opened Options
  import opened Routing
  import opened Upstream
  import opened Chatting
  import opened Streaming
  import opened WalkMeaning

  /** The endpoint that a failed run is attributed to. */
  predicate IsLast(queue: seq<Endpoint>, modelId: Option<int>, providerId: Option<int>) {
    if queue == [] then modelId == None && providerId == None
    else modelId == Some(queue[|queue| - 1].modelId) && providerId == Some(queue[|queue| - 1].providerId)
  }

  // ------------------------------------------------- chat

  /** A chat run returns the reply of the first endpoint that answers, at its first attempt that
      replies, with that endpoint's ids. */
  lemma AnsweredExactly(env: Env, gid: int, selected: RouteResult, params: Params, p: nat, a: nat)
    requires FirstToAnswer(env, gid, selected.endpoints, 0, p) && RepliesAt(env, gid, p, selected.endpoints[p], a)
    ensures var run, ep := ChatSpec(env, gid, selected, params), selected.endpoints[p];
            && run.Answered? && run.reply == env.chat(gid, p, a).reply
            && run.modelId == ep.modelId && run.providerId == ep.providerId
  {
    var queue, messages := selected.endpoints, selected.messages;
    ChatWalkMeaning(env, gid, queue, messages, params, 0, p);
    assert CallEnds(env, gid, p, queue[p], a);
    WinnersReply(env, gid, queue, messages, params, 0, p, a);
  }

  lemma {:induction false} WinnersReply(env: Env, gid: int, queue: seq<Endpoint>, messages: seq<Message>,
                                        params: Params, pos: nat, p: nat, a: nat)
    requires pos <= p < |queue| && FirstToAnswer(env, gid, queue, pos, p) && RepliesAt(env, gid, p, queue[p], a)
    ensures WalkCalls(env, gid, queue, messages, params, pos).reply == Some(env.chat(gid, p, a).reply)
    decreases p - pos
  {
    AnswersExactly(env, gid, pos, queue[pos], messages, params);
    if pos < p {
      FirstToAnswerSteps(env, gid, queue, pos, p);
      WinnersReply(env, gid, queue, messages, params, pos + 1, p, a);
    } else {
      assert CallEnds(env, gid, p, queue[p], a);
      CallMeaning(env, gid, p, queue[p], messages, params, a);
    }
  }

  lemma {:induction false} SomeoneAnswers(env: Env, gid: int, queue: seq<Endpoint>, pos: nat) returns (p: nat)
    requires pos <= |queue| && exists q: nat :: pos <= q < |queue| && Answers(env, gid, q, queue[q])
    ensures FirstToAnswer(env, gid, queue, pos, p)
    decreases |queue| - pos
  {
    p := pos;
    if !Answers(env, gid, pos, queue[pos]) {
      p := SomeoneAnswers(env, gid, queue, pos + 1);
      FirstToAnswerSteps(env, gid, queue, pos, p);
    }
  }

  /** When no endpoint answers, a chat run raises one fixed error, attributed to the last
      endpoint. */
  lemma UnansweredExactly(env: Env, gid: int, selected: RouteResult, params: Params)
    requires forall q: nat :: q < |selected.endpoints| ==> !Answers(env, gid, q, selected.endpoints[q])
    ensures var run := ChatSpec(env, gid, selected, params);
            && run.Threw? && run.error == Error(ProviderFailure, "All endpoints in group failed", false)
            && IsLast(selected.endpoints, run.usedModelId, run.usedProviderId)
  {
    var queue, messages := selected.endpoints, selected.messages;
    CallWinner(env, gid, queue, messages, params, 0);
    var w := WalkCalls(env, gid, queue, messages, params, 0);
    if w.winner.Some? {
      ChatWalkMeaning(env, gid, queue, messages, params, 0, w.winner.value);
      assert false;
    }
  }

  lemma {:induction false} RowAt(gid: int, queue: seq<Endpoint>, errors: nat -> Option<Error>, pos: nat, end: nat,
                                 p: nat)
    requires pos <= end <= |queue|
    ensures var rows := RowsBetween(gid, queue, errors, pos, end);
            |rows| == end - pos && (pos <= p < end ==> rows[p - pos] == CallRow(gid, p, queue[p], errors(p)))
    decreases end - pos
  {
    if pos < end {
      RowAt(gid, queue, errors, pos + 1, end, p);
      if pos < p < end {
        Behind(CallRow(gid, pos, queue[pos], errors(pos)), RowsBetween(gid, queue, errors, pos + 1, end), p - pos);
      }
    }
  }

  lemma Behind<T>(x: T, rest: seq<T>, i: nat)
    requires 0 < i <= |rest|
    ensures ([x] + rest)[i] == rest[i - 1]
  {
  }

  /** What the row of a chat call tells of the error, if there was one. */
  predicate TellsCall(row: AttemptRow, gid: int, p: nat, ep: Endpoint, error: Option<Error>) {
    && row.groupId == gid && row.modelId == Some(ep.modelId) && row.providerId == Some(ep.providerId)
    && row.stage == "call" && row.endpointIdx == p && row.attemptNo == ep.maxRetries
    && match error
       case None => row.errorType == "UnknownError" && row.errorMessage == "All retries exhausted"
       case Some(e) => Names(row.errorType, e.kind) && row.errorMessage == e.message
  }

  lemma CallRowTells(gid: int, p: nat, ep: Endpoint, error: Option<Error>)
    ensures TellsCall(CallRow(gid, p, ep, error), gid, p, ep, error)
  {
  }

  /** The row of an endpoint before the one that answers tells the error of its last attempt,
      `a`, or that it was allowed none. */
  lemma ChatRowTells(env: Env, gid: int, queue: seq<Endpoint>, messages: seq<Message>, params: Params, p: nat, a: nat)
    requires p < |WalkCalls(env, gid, queue, messages, params, 0).rows| <= |queue|
    requires queue[p].maxRetries <= 0 || CallEnds(env, gid, p, queue[p], a)
    ensures var row := WalkCalls(env, gid, queue, messages, params, 0).rows[p];
            if queue[p].maxRetries <= 0 then TellsCall(row, gid, p, queue[p], None)
            else env.chat(gid, p, a).ChatFails? && TellsCall(row, gid, p, queue[p], Some(env.chat(gid, p, a).error))
  {
    RowIs(env, gid, queue, messages, params, p);
    NotAnswered(env, gid, queue, messages, params, p);
    CallMeaning(env, gid, p, queue[p], messages, params, a);
    CallRowTells(gid, p, queue[p], CallOf(env, gid, p, queue[p], messages, params).error);
  }

  lemma RowIs(env: Env, gid: int, queue: seq<Endpoint>, messages: seq<Message>, params: Params, p: nat)
    requires p < |WalkCalls(env, gid, queue, messages, params, 0).rows| <= |queue|
    ensures WalkCalls(env, gid, queue, messages, params, 0).rows[p]
            == CallRow(gid, p, queue[p], CallOf(env, gid, p, queue[p], messages, params).error)
  {
    RowsAre(env, gid, queue, messages, params);
    RowAt(gid, queue, LastErrors(env, gid, queue, messages, params), 0,
          |WalkCalls(env, gid, queue, messages, params, 0).rows|, p);
  }

  lemma RowsAre(env: Env, gid: int, queue: seq<Endpoint>, messages: seq<Message>, params: Params)
    ensures var rows := WalkCalls(env, gid, queue, messages, params, 0).rows;
            && |rows| <= |queue|
            && rows == RowsBetween(gid, queue, LastErrors(env, gid, queue, messages, params), 0, |rows|)
  {
    CallWinner(env, gid, queue, messages, params, 0);
    ChatRowsMeaning(env, gid, queue, messages, params, 0);
  }

  /** The endpoints with a row did not answer. */
  lemma NotAnswered(env: Env, gid: int, queue: seq<Endpoint>, messages: seq<Message>, params: Params, p: nat)
    requires p < |WalkCalls(env, gid, queue, messages, params, 0).rows| <= |queue|
    ensures CallOf(env, gid, p, queue[p], messages, params).reply == None
  {
    var w := WalkCalls(env, gid, queue, messages, params, 0);
    CallWinner(env, gid, queue, messages, params, 0);
    AnswersExactly(env, gid, p, queue[p], messages, params);
    if w.winner.Some? {
      ChatWalkMeaning(env, gid, queue, messages, params, 0, w.winner.value);
    } else if Answers(env, gid, p, queue[p]) {
      var q := SomeoneAnswers(env, gid, queue, 0);
      ChatWalkMeaning(env, gid, queue, messages, params, 0, q);
    }
  }

  // ------------------------------------------------- streaming

  /** A relay goes on while the engine's polls find the client connected, and counts as complete
      if and only if every chunk was handed out and the upstream completed. */
  lemma {:induction false} RelayExactly(env: Env, gid: int, chunks: seq<Chunk>, ending: Ending, consumer: Consumer,
                                        k: nat)
    requires k <= |chunks|
    ensures var r := Relay(env, gid, chunks, ending, consumer, k);
            var n, stopped := |r.chunks|, r.exit.Closed? || r.exit.Abandoned?;
            && k + n <= |chunks|
            && (forall i: nat :: k <= i < k + n ==> env.enginePoll(gid, i).Connected?)
            && (!stopped && k + n < |chunks| ==> !env.enginePoll(gid, k + n).Connected?)
            && (r.exit.Ended? <==> !stopped && k + n == |chunks| && ending.Completes?)
    decreases |chunks| - k
  {
    if k < |chunks| {
      RelayExactly(env, gid, chunks, ending, consumer, k + 1);
    }
  }

  /** The final state of a group whose stream started: its endpoint's ids, no way back, and
      completeness. */
  lemma StartedStateExactly(env: Env, gid: int, selected: RouteResult, params: Params, consumer: Consumer,
                            p: nat, a: nat)
    requires p < |selected.endpoints| && StartsAt(env, gid, p, selected.endpoints[p], a)
    requires forall q: nat :: q < p ==> !Streams(env, gid, q, selected.endpoints[q])
    ensures var run, out, ep := RunGroup(env, gid, selected, params, consumer), env.stream(gid, p, a),
                                selected.endpoints[p];
            run.state.Some? ==>
              var s := run.state.value;
              && s.started && !s.recoverable && s.error == None
              && s.usedModelId == Some(ep.modelId) && s.usedProviderId == Some(ep.providerId)
              && (s.completed <==> |run.chunks| == |out.chunks| && out.ending.Completes?)
              && (|run.chunks| < |out.chunks| ==> !env.enginePoll(gid, |run.chunks|).Connected?)
  {
    StreamWalkMeaning(env, gid, selected.endpoints, selected.messages, params, 0, p, a);
    var out := env.stream(gid, p, a);
    RelayExactly(env, gid, out.chunks, out.ending, consumer, 0);
  }

  /** The final state of a group whose endpoints all failed: the driver may fall back, and the
      failure is attributed to the last endpoint. */
  lemma ExhaustedStateExactly(env: Env, gid: int, selected: RouteResult, params: Params, consumer: Consumer)
    requires forall q: nat :: q < |selected.endpoints| ==> !Streams(env, gid, q, selected.endpoints[q])
    ensures var run := RunGroup(env, gid, selected, params, consumer);
            && run.chunks == [] && run.state.Some?
            && var s := run.state.value;
               !s.started && s.recoverable && !s.completed && s.error == None
               && IsLast(selected.endpoints, s.usedModelId, s.usedProviderId)
  {
    NoWinnerExactly(env, gid, selected.endpoints, selected.messages, params, 0);
  }
}
