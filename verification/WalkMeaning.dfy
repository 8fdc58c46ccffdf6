/** Who wins a walk over an endpoint queue, said about the oracles alone. */
module WalkMeaning {
  import opened Options
  import opened Routing
  import opened Upstream
  import opened Chatting
  import opened Streaming

  // ---------------------------------------------------------------- chat

  predicate WorthRetrying(outcome: ChatOutcome) {
    outcome.ChatFails? && outcome.error.retryable
  }

  /** All attempts before `a` failed with errors worth retrying. */
  predicate CallReaches(env: Env, gid: int, pos: nat, ep: Endpoint, a: nat) {
    a < ep.maxRetries && forall b: nat :: b < a ==> WorthRetrying(env.chat(gid, pos, b))
  }

  /** Attempt `a` is the last one made. */
  predicate CallEnds(env: Env, gid: int, pos: nat, ep: Endpoint, a: nat) {
    CallReaches(env, gid, pos, ep, a) && (!WorthRetrying(env.chat(gid, pos, a)) || a == ep.maxRetries - 1)
  }

  lemma {:induction false} CallFromEnd(env: Env, gid: int, pos: nat, ep: Endpoint, messages: seq<Message>,
                                       params: Params, attempt: nat, last: Option<Error>, a: nat)
    requires attempt <= a && CallEnds(env, gid, pos, ep, a)
    ensures var c := CallFrom(env, gid, pos, ep, messages, params, attempt, last);
            match env.chat(gid, pos, a)
            case Replies(reply) => c.reply == Some(reply)
            case ChatFails(e) => c.reply == None && c.error == Some(e)
    decreases a - attempt
  {
    if attempt < a {
      assert WorthRetrying(env.chat(gid, pos, attempt));
      CallFromEnd(env, gid, pos, ep, messages, params, attempt + 1, Some(env.chat(gid, pos, attempt).error), a);
    }
  }

  /** call_llm stops at the first attempt that replies or fails for good, and returns that
      attempt's reply or error; with no attempts allowed it returns neither. */
  lemma CallMeaning(env: Env, gid: int, pos: nat, ep: Endpoint, messages: seq<Message>, params: Params, a: nat)
    requires ep.maxRetries <= 0 || CallEnds(env, gid, pos, ep, a)
    ensures var c := CallOf(env, gid, pos, ep, messages, params);
            if ep.maxRetries <= 0 then c.reply == None && c.error == None
            else match env.chat(gid, pos, a)
                 case Replies(reply) => c.reply == Some(reply)
                 case ChatFails(e) => c.reply == None && c.error == Some(e)
  {
    if ep.maxRetries > 0 {
      CallFromEnd(env, gid, pos, ep, messages, params, 0, None, a);
    }
  }

  lemma {:induction false} SomeCallEnds(env: Env, gid: int, pos: nat, ep: Endpoint, attempt: nat) returns (a: nat)
    requires CallReaches(env, gid, pos, ep, attempt)
    ensures CallEnds(env, gid, pos, ep, a)
    decreases ep.maxRetries - attempt
  {
    if WorthRetrying(env.chat(gid, pos, attempt)) && attempt < ep.maxRetries - 1 {
      a := SomeCallEnds(env, gid, pos, ep, attempt + 1);
    } else {
      a := attempt;
    }
  }

  /** Attempt `a` replies, after failures worth retrying only. */
  predicate RepliesAt(env: Env, gid: int, pos: nat, ep: Endpoint, a: nat) {
    CallReaches(env, gid, pos, ep, a) && env.chat(gid, pos, a).Replies?
  }

  predicate Answers(env: Env, gid: int, pos: nat, ep: Endpoint) {
    exists a: nat :: a < ep.maxRetries && RepliesAt(env, gid, pos, ep, a)
  }

  lemma AnswersExactly(env: Env, gid: int, pos: nat, ep: Endpoint, messages: seq<Message>, params: Params)
    ensures CallOf(env, gid, pos, ep, messages, params).reply.Some? <==> Answers(env, gid, pos, ep)
  {
    if ep.maxRetries > 0 {
      var a := SomeCallEnds(env, gid, pos, ep, 0);
      CallMeaning(env, gid, pos, ep, messages, params, a);
      if b: nat :| b < ep.maxRetries && RepliesAt(env, gid, pos, ep, b) {
        assert CallEnds(env, gid, pos, ep, b);
        CallMeaning(env, gid, pos, ep, messages, params, b);
      }
      if env.chat(gid, pos, a).Replies? {
        assert RepliesAt(env, gid, pos, ep, a);
      }
    }
  }

  /** `p` is the first position from `pos` on whose endpoint answers. */
  predicate FirstToAnswer(env: Env, gid: int, queue: seq<Endpoint>, pos: nat, p: nat) {
    && pos <= p < |queue| && Answers(env, gid, p, queue[p])
    && forall q: nat :: pos <= q < p ==> !Answers(env, gid, q, queue[q])
  }

  lemma FirstToAnswerSteps(env: Env, gid: int, queue: seq<Endpoint>, pos: nat, p: nat)
    requires pos < |queue|
    ensures FirstToAnswer(env, gid, queue, pos, p)
            <==> if Answers(env, gid, pos, queue[pos]) then p == pos else FirstToAnswer(env, gid, queue, pos + 1, p)
  {
  }

  /** The reply of a group run is that of the first endpoint of the queue that answers. */
  lemma {:induction false} ChatWalkMeaning(env: Env, gid: int, queue: seq<Endpoint>, messages: seq<Message>,
                                           params: Params, pos: nat, p: nat)
    requires pos <= |queue|
    ensures WalkCalls(env, gid, queue, messages, params, pos).winner == Some(p)
            <==> FirstToAnswer(env, gid, queue, pos, p)
    decreases |queue| - pos
  {
    if pos < |queue| {
      AnswersExactly(env, gid, pos, queue[pos], messages, params);
      FirstToAnswerSteps(env, gid, queue, pos, p);
      ChatWalkMeaning(env, gid, queue, messages, params, pos + 1, p);
    }
  }

  /** The error that the call of each endpoint ends with. */
  function LastErrors(env: Env, gid: int, queue: seq<Endpoint>, messages: seq<Message>, params: Params)
    : nat -> Option<Error>
  {
    (p: nat) => if p < |queue| then CallOf(env, gid, p, queue[p], messages, params).error else None
  }

  /** One row for each endpoint from `pos` up to `end`, in queue order. */
  function RowsBetween(gid: int, queue: seq<Endpoint>, errors: nat -> Option<Error>, pos: nat, end: nat)
    : seq<AttemptRow>
    requires end <= |queue|
    decreases end - pos
  {
    if pos >= end then []
    else [CallRow(gid, pos, queue[pos], errors(pos))] + RowsBetween(gid, queue, errors, pos + 1, end)
  }

  /** The endpoints before the one that answers have left exactly one row each. */
  lemma {:induction false} ChatRowsMeaning(env: Env, gid: int, queue: seq<Endpoint>, messages: seq<Message>,
                                           params: Params, pos: nat)
    requires pos <= |queue|
    ensures var w := WalkCalls(env, gid, queue, messages, params, pos);
            && (w.winner.Some? ==> pos <= w.winner.value < |queue|)
            && w.rows == RowsBetween(gid, queue, LastErrors(env, gid, queue, messages, params), pos,
                                     if w.winner.Some? then w.winner.value else |queue|)
    decreases |queue| - pos
  {
    if pos < |queue| {
      ChatRowsMeaning(env, gid, queue, messages, params, pos + 1);
    }
  }

  // ---------------------------------------------------------------- streaming

  /** A failure before the first chunk after which another attempt makes sense: a timeout, or
      an error worth retrying, whether the provider refused or its stream raised. */
  predicate FailsForNow(out: StreamOutcome) {
    match out
    case Rejects(e) => e.kind.Timeout? || e.retryable
    case Stream(chunks, Raises(e)) => chunks == [] && (e.kind.Timeout? || e.retryable)
    case Stream(_, Completes) => false
  }

  /** Attempt `a` brings a first chunk: the first attempt, or one of max_retries, after
      failures worth retrying only. */
  predicate StartsAt(env: Env, gid: int, pos: nat, ep: Endpoint, a: nat) {
    && (a == 0 || a < ep.maxRetries)
    && env.stream(gid, pos, a).Stream? && env.stream(gid, pos, a).chunks != []
    && forall b: nat :: b < a ==> FailsForNow(env.stream(gid, pos, b))
  }

  ghost predicate Streams(env: Env, gid: int, pos: nat, ep: Endpoint) {
    exists a: nat :: StartsAt(env, gid, pos, ep, a)
  }

  lemma {:induction false} FirstChunkFrom(env: Env, gid: int, pos: nat, ep: Endpoint, messages: seq<Message>,
                                          params: Params, attempt: nat, a: nat)
    requires attempt < Tries(ep) && forall b: nat :: b < attempt ==> FailsForNow(env.stream(gid, pos, b))
    ensures FirstChunk(env, gid, pos, ep, messages, params, attempt).winner == Some(a)
            <==> StartsAt(env, gid, pos, ep, a) && attempt <= a
    decreases Tries(ep) - attempt
  {
    var out := env.stream(gid, pos, attempt);
    if FailsForNow(out) {
      if attempt < Tries(ep) - 1 {
        FirstChunkFrom(env, gid, pos, ep, messages, params, attempt + 1, a);
      }
    } else {
      assert a > attempt ==> !StartsAt(env, gid, pos, ep, a);
    }
  }

  /** The stream of an endpoint is that of attempt `a` if and only if the attempt is allowed
      and brings a first chunk, and all before it timed out or failed with an error worth
      retrying. */
  lemma FirstChunkMeaning(env: Env, gid: int, pos: nat, ep: Endpoint, messages: seq<Message>, params: Params, a: nat)
    ensures FirstChunk(env, gid, pos, ep, messages, params, 0).winner == Some(a)
            <==> && (a == 0 || a < ep.maxRetries)
                 && env.stream(gid, pos, a).Stream? && env.stream(gid, pos, a).chunks != []
                 && forall b: nat :: b < a ==> FailsForNow(env.stream(gid, pos, b))
  {
    FirstChunkFrom(env, gid, pos, ep, messages, params, 0, a);
    assert StartsAt(env, gid, pos, ep, a) <==>
             && (a == 0 || a < ep.maxRetries)
             && env.stream(gid, pos, a).Stream? && env.stream(gid, pos, a).chunks != []
             && forall b: nat :: b < a ==> FailsForNow(env.stream(gid, pos, b));
  }

  /** The class name that a row gives for an error. */
  predicate Names(errorType: string, kind: ErrorKind) {
    match kind
    case NoAvailableModel => errorType == "NoAvailableModelError"
    case AllModelsCooldown => errorType == "AllModelsCooldownError"
    case ProviderFailure => errorType == "ProviderError"
    case Configuration => errorType == "ConfigurationError"
    case StrategyFailure => errorType == "StrategyError"
    case Timeout => errorType == "TimeoutError"
    case Unexpected(name) => errorType == name
  }

  /** What the row of a stream attempt tells of its failure. */
  predicate TellsFailure(row: AttemptRow, ep: Endpoint, out: StreamOutcome) {
    match out
    case Stream(_, Completes) =>
      row.errorType == "EmptyStream" && row.errorMessage == ep.modelName + " returned an empty stream"
    case Stream(_, Raises(e)) => TellsError(row, ep, e)
    case Rejects(e) => TellsError(row, ep, e)
  }

  predicate TellsError(row: AttemptRow, ep: Endpoint, e: Error) {
    && Names(row.errorType, e.kind)
    && row.errorMessage == if e.kind.Timeout? then ep.modelName + " timed out waiting for first chunk" else e.message
  }

  predicate TellsAttempt(row: AttemptRow, gid: int, ep: Endpoint, b: nat, out: StreamOutcome) {
    && row.groupId == gid && row.modelId == Some(ep.modelId) && row.providerId == Some(ep.providerId)
    && row.stage == "stream" && row.endpointIdx == 0 && row.attemptNo == b + 1
    && TellsFailure(row, ep, out)
  }

  lemma FailureRowTells(gid: int, ep: Endpoint, b: nat, out: StreamOutcome)
    requires !Starts(out)
    ensures TellsAttempt(FailureRow(gid, ep, b, out), gid, ep, b, out)
    ensures TryAgain(ep, b, out) <==> FailsForNow(out) && b < Tries(ep) - 1
  {
  }

  lemma {:induction false} FirstChunkRowsFrom(env: Env, gid: int, pos: nat, ep: Endpoint, messages: seq<Message>,
                                              params: Params, attempt: nat, b: nat)
    requires attempt < Tries(ep)
    ensures var f := FirstChunk(env, gid, pos, ep, messages, params, attempt);
            && attempt + |f.rows| <= Tries(ep)
            && (f.winner.Some? ==> |f.rows| == f.winner.value - attempt)
            && (f.winner.None? ==>
                  |f.rows| > 0 && (attempt + |f.rows| == Tries(ep)
                                   || !FailsForNow(env.stream(gid, pos, attempt + |f.rows| - 1))))
            && (attempt <= b < attempt + |f.rows| ==>
                  TellsAttempt(f.rows[b - attempt], gid, ep, b, env.stream(gid, pos, b)))
    decreases Tries(ep) - attempt
  {
    var out := env.stream(gid, pos, attempt);
    if !Starts(out) {
      FailureRowTells(gid, ep, attempt, out);
      if TryAgain(ep, attempt, out) {
        FirstChunkRowsFrom(env, gid, pos, ep, messages, params, attempt + 1, b);
      }
    }
  }

  /** The rows of one endpoint are its failed attempts, numbered from one, each telling its own
      failure: as many as the winning attempt's number, and with no winner max_retries many
      (but at least one), unless the last one was not worth retrying. */
  lemma FirstChunkRows(env: Env, gid: int, pos: nat, ep: Endpoint, messages: seq<Message>, params: Params, b: nat)
    ensures var f := FirstChunk(env, gid, pos, ep, messages, params, 0);
            && (f.winner.Some? ==> |f.rows| == f.winner.value)
            && (f.winner.None? ==>
                  |f.rows| > 0 && (|f.rows| == (if ep.maxRetries > 1 then ep.maxRetries else 1)
                                   || !FailsForNow(env.stream(gid, pos, |f.rows| - 1))))
            && (b < |f.rows| ==> TellsAttempt(f.rows[b], gid, ep, b, env.stream(gid, pos, b)))
  {
    FirstChunkRowsFrom(env, gid, pos, ep, messages, params, 0, b);
  }

  /** The stream of a group run is that of the first endpoint of the queue that streams, at
      its first attempt that starts. */
  lemma {:induction false} StreamWalkMeaning(env: Env, gid: int, queue: seq<Endpoint>, messages: seq<Message>,
                                             params: Params, pos: nat, p: nat, a: nat)
    requires pos <= |queue|
    ensures WalkQueue(env, gid, queue, messages, params, pos).winner == Some(Winner(p, a)) <==>
              && pos <= p < |queue| && StartsAt(env, gid, p, queue[p], a)
              && forall q: nat :: pos <= q < p ==> !Streams(env, gid, q, queue[q])
    decreases |queue| - pos
  {
    if pos < |queue| {
      StreamsExactly(env, gid, pos, queue[pos], messages, params);
      if Streams(env, gid, pos, queue[pos]) {
        FirstChunkFrom(env, gid, pos, queue[pos], messages, params, 0, a);
      } else {
        StreamWalkMeaning(env, gid, queue, messages, params, pos + 1, p, a);
        assert p == pos ==> !StartsAt(env, gid, p, queue[p], a);
      }
    }
  }

  lemma StreamsExactly(env: Env, gid: int, pos: nat, ep: Endpoint, messages: seq<Message>, params: Params)
    ensures FirstChunk(env, gid, pos, ep, messages, params, 0).winner.Some? <==> Streams(env, gid, pos, ep)
  {
    var f := FirstChunk(env, gid, pos, ep, messages, params, 0);
    if f.winner.Some? {
      FirstChunkFrom(env, gid, pos, ep, messages, params, 0, f.winner.value);
    }
    if a: nat :| StartsAt(env, gid, pos, ep, a) {
      FirstChunkFrom(env, gid, pos, ep, messages, params, 0, a);
    }
  }

  /** No stream is started exactly when no endpoint from `pos` on streams. */
  lemma {:induction false} NoWinnerExactly(env: Env, gid: int, queue: seq<Endpoint>, messages: seq<Message>,
                                           params: Params, pos: nat)
    requires pos <= |queue|
    ensures WalkQueue(env, gid, queue, messages, params, pos).winner.None?
            <==> forall q: nat :: pos <= q < |queue| ==> !Streams(env, gid, q, queue[q])
    decreases |queue| - pos
  {
    if pos < |queue| {
      StreamsExactly(env, gid, pos, queue[pos], messages, params);
      if !Streams(env, gid, pos, queue[pos]) {
        NoWinnerExactly(env, gid, queue, messages, params, pos + 1);
      }
    }
  }

  // ---------------------------------------------------------------- cooldown bookkeeping

  function FailureCount(effects: seq<Effect>): nat {
    if effects == [] then 0 else (if effects[0].Failed? then 1 else 0) + FailureCount(effects[1..])
  }

  lemma {:induction false} FailureCountAppend(a: seq<Effect>, b: seq<Effect>)
    ensures FailureCount(a + b) == FailureCount(a) + FailureCount(b)
  {
    if a == [] {
      assert a + b == b;
    } else {
      FailureCountAppend(a[1..], b);
      assert (a + b)[1..] == a[1..] + b;
    }
  }

  lemma NoFailures(effects: seq<Effect>)
    requires |effects| <= 3 && forall i :: 0 <= i < |effects| ==> !effects[i].Failed?
    ensures FailureCount(effects) == 0
  {
    if |effects| > 0 {
      assert FailureCount(effects[1..]) == 0 by {
        if |effects| > 1 {
          assert effects[1..][1..] == effects[2..];
        }
      }
    }
  }

  lemma {:induction false} AttemptsCountOnce(env: Env, gid: int, pos: nat, ep: Endpoint, messages: seq<Message>,
                                             params: Params, attempt: nat, last: Option<Error>)
    ensures var c := CallFrom(env, gid, pos, ep, messages, params, attempt, last);
            FailureCount(c.effects) == if c.reply.Some? then 0 else 1
    decreases ep.maxRetries - attempt
  {
    var once := Once(ep, messages, params);
    NoFailures(once);
    if attempt < ep.maxRetries {
      match env.chat(gid, pos, attempt) {
        case Replies(_) =>
          FailureCountAppend(once, [Succeeded(gid, ep.modelId)]);
        case ChatFails(e) =>
          if e.retryable && attempt < ep.maxRetries - 1 {
            AttemptsCountOnce(env, gid, pos, ep, messages, params, attempt + 1, Some(e));
            var rest := CallFrom(env, gid, pos, ep, messages, params, attempt + 1, Some(e)).effects;
            RetryCounts(once, attempt, rest);
          } else {
            FailureCountAppend(once, [Fails(gid, ep)]);
          }
      }
    }
  }

  /** A chat call that does not answer counts as one failure of its model, however many
      attempts it took; one that answers counts as none. */
  lemma CallCountsOnce(env: Env, gid: int, pos: nat, ep: Endpoint, messages: seq<Message>, params: Params)
    ensures var c := CallOf(env, gid, pos, ep, messages, params);
            FailureCount(c.effects) == if c.reply.Some? then 0 else 1
  {
    AttemptsCountOnce(env, gid, pos, ep, messages, params, 0, None);
    NoFailures([Look(ep.providerId)]);
    FailureCountAppend([Look(ep.providerId)], CallFrom(env, gid, pos, ep, messages, params, 0, None).effects);
  }

  /** What one failed attempt on a stream counts. */
  lemma AttemptCounts(gid: int, ep: Endpoint, messages: seq<Message>, params: Params, out: StreamOutcome)
    requires !Starts(out)
    ensures FailureCount(FailureEffects(gid, ep, messages, params, out))
            == if out == Stream([], Completes) then 1 else 0
  {
    var opening, release := Opening(ep, messages, params), [Release(ep.providerId)];
    NoFailures(opening);
    NoFailures(release);
    FailureCountAppend(opening, release);
    FailureCountAppend(opening + release, [Fails(gid, ep)]);
  }

  /** The attempts of a stream, in contrast: only an empty stream counts. Timeouts and errors
      before the first chunk never bring a model nearer to its cooldown. */
  lemma {:induction false} OnlyEmptyStreamsCount(env: Env, gid: int, pos: nat, ep: Endpoint, messages: seq<Message>,
                                                 params: Params, attempt: nat)
    requires attempt < Tries(ep)
    ensures var f := FirstChunk(env, gid, pos, ep, messages, params, attempt);
            FailureCount(f.effects)
            == if f.winner.None? && |f.rows| > 0
              && env.stream(gid, pos, attempt + |f.rows| - 1) == Stream([], Completes)
               then 1 else 0
    decreases Tries(ep) - attempt
  {
    var out := env.stream(gid, pos, attempt);
    if Starts(out) {
      NoFailures(Opening(ep, messages, params));
    } else {
      AttemptCounts(gid, ep, messages, params, out);
      if TryAgain(ep, attempt, out) {
        OnlyEmptyStreamsCount(env, gid, pos, ep, messages, params, attempt + 1);
        FirstChunkStarts(env, gid, pos, ep, messages, params, attempt + 1);
        var rest := FirstChunk(env, gid, pos, ep, messages, params, attempt + 1).effects;
        RetryCounts(FailureEffects(gid, ep, messages, params, out), attempt, rest);
      }
    }
  }

  lemma RetryCounts(failed: seq<Effect>, attempt: nat, rest: seq<Effect>)
    ensures FailureCount(failed + ([Backoff(attempt)] + rest)) == FailureCount(failed) + FailureCount(rest)
  {
    FailureCountAppend(failed, [Backoff(attempt)] + rest);
    FailureCountAppend([Backoff(attempt)], rest);
    NoFailures([Backoff(attempt)]);
  }
}
