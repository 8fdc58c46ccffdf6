/** What a group run sends and records, said over its effects alone. */
module TraceMeaning {
  import opened Options
  import opened Routing
  import opened Upstream
  import opened Chatting
  import opened Streaming
  import opened WalkMeaning

  // ------------------------------------------------- each single effect

  /** An effect of working with `ep`: a request carries the queue's messages, the endpoint's
      model and the caller's temperature, or the endpoint's own when the caller has none; a
      failure is counted with the endpoint's threshold and cooldown. */
  predicate Concerns(e: Effect, gid: int, ep: Endpoint, messages: seq<Message>, params: Params) {
    match e
    case Send(p, model, sent, with) =>
      && p == ep.providerId && model == ep.modelName && sent == messages && with.maxTokens == params.maxTokens
      && (params.temperature.Some? ==> with.temperature == params.temperature)
      && (params.temperature.None? ==> with.temperature == ep.defaultTemperature)
    case Look(p) => p == ep.providerId
    case Acquire(p) => p == ep.providerId
    case Release(p) => p == ep.providerId
    case Succeeded(g, m) => g == gid && m == ep.modelId
    case Failed(g, m, threshold, seconds) =>
      g == gid && m == ep.modelId && threshold == ep.cooldownThreshold && seconds == ep.cooldownSeconds
    case Backoff(_) => true
  }

  predicate AllConcern(effects: seq<Effect>, gid: int, ep: Endpoint, messages: seq<Message>, params: Params) {
    forall i :: 0 <= i < |effects| ==> Concerns(effects[i], gid, ep, messages, params)
  }

  /** Each effect concerns some endpoint of the queue. */
  predicate QueueConcern(effects: seq<Effect>, gid: int, queue: seq<Endpoint>, messages: seq<Message>, params: Params) {
    forall i :: 0 <= i < |effects| ==>
      exists p :: 0 <= p < |queue| && Concerns(effects[i], gid, queue[p], messages, params)
  }

  lemma {:induction false} CallConcerns(env: Env, gid: int, pos: nat, ep: Endpoint, messages: seq<Message>,
                                        params: Params, attempt: nat, last: Option<Error>)
    ensures AllConcern(CallFrom(env, gid, pos, ep, messages, params, attempt, last).effects, gid, ep, messages, params)
    decreases ep.maxRetries - attempt
  {
    if attempt < ep.maxRetries && env.chat(gid, pos, attempt).ChatFails? {
      var e := env.chat(gid, pos, attempt).error;
      if e.retryable && attempt < ep.maxRetries - 1 {
        CallConcerns(env, gid, pos, ep, messages, params, attempt + 1, Some(e));
      }
    }
  }

  lemma QueueConcernJoins(a: seq<Effect>, b: seq<Effect>, gid: int, queue: seq<Endpoint>, pos: nat,
                          messages: seq<Message>, params: Params)
    requires pos < |queue| && AllConcern(a, gid, queue[pos], messages, params)
    requires QueueConcern(b, gid, queue, messages, params)
    ensures QueueConcern(a + b, gid, queue, messages, params) && QueueConcern(a, gid, queue, messages, params)
  {
  }

  lemma {:induction false} ChatConcerns(env: Env, gid: int, queue: seq<Endpoint>, messages: seq<Message>,
                                        params: Params, pos: nat)
    requires pos <= |queue|
    ensures QueueConcern(WalkCalls(env, gid, queue, messages, params, pos).effects, gid, queue, messages, params)
    decreases |queue| - pos
  {
    if pos < |queue| {
      var call := CallOf(env, gid, pos, queue[pos], messages, params);
      CallConcerns(env, gid, pos, queue[pos], messages, params, 0, None);
      ChatConcerns(env, gid, queue, messages, params, pos + 1);
      QueueConcernJoins(call.effects, WalkCalls(env, gid, queue, messages, params, pos + 1).effects, gid, queue, pos,
                        messages, params);
    }
  }

  lemma {:induction false} FirstChunkConcerns(env: Env, gid: int, pos: nat, ep: Endpoint, messages: seq<Message>,
                                              params: Params, attempt: nat)
    requires attempt < Tries(ep)
    ensures AllConcern(FirstChunk(env, gid, pos, ep, messages, params, attempt).effects, gid, ep, messages, params)
    decreases Tries(ep) - attempt
  {
    var out := env.stream(gid, pos, attempt);
    if !Starts(out) && TryAgain(ep, attempt, out) {
      FirstChunkConcerns(env, gid, pos, ep, messages, params, attempt + 1);
    }
  }

  lemma {:induction false} StreamConcerns(env: Env, gid: int, queue: seq<Endpoint>, messages: seq<Message>,
                                          params: Params, pos: nat)
    requires pos <= |queue|
    ensures QueueConcern(WalkQueue(env, gid, queue, messages, params, pos).effects, gid, queue, messages, params)
    decreases |queue| - pos
  {
    if pos < |queue| {
      FirstChunkConcerns(env, gid, pos, queue[pos], messages, params, 0);
      StreamConcerns(env, gid, queue, messages, params, pos + 1);
      QueueConcernJoins(FirstChunk(env, gid, pos, queue[pos], messages, params, 0).effects,
                        WalkQueue(env, gid, queue, messages, params, pos + 1).effects, gid, queue, pos, messages,
                        params);
    }
  }

  /** Everything a chat or streaming run of a group sends and records is about an endpoint of
      its queue, with that endpoint's own numbers. */
  lemma RunConcernsQueue(env: Env, gid: int, selected: RouteResult, params: Params, consumer: Consumer)
    ensures QueueConcern(ChatEffects(env, gid, selected, params), gid, selected.endpoints, selected.messages, params)
    ensures QueueConcern(RunGroup(env, gid, selected, params, consumer).effects, gid, selected.endpoints,
                         selected.messages, params)
  {
    var queue, messages := selected.endpoints, selected.messages;
    ChatConcerns(env, gid, queue, messages, params, 0);
    StreamConcerns(env, gid, queue, messages, params, 0);
    var walk := WalkQueue(env, gid, queue, messages, params, 0);
    if walk.winner.Some? {
      WinnerStarts(env, gid, queue, messages, params, 0);
      var ep := queue[walk.winner.value.pos];
      assert Concerns(Succeeded(gid, ep.modelId), gid, ep, messages, params);
      assert Concerns(Release(ep.providerId), gid, ep, messages, params);
    }
  }

  // ------------------------------------------------- the trace of a chat call

  /** One request under its permit. */
  function Guarded(ep: Endpoint, messages: seq<Message>, params: Params): seq<Effect> {
    var temperature := if params.temperature.Some? then params.temperature else ep.defaultTemperature;
    [Acquire(ep.providerId), Send(ep.providerId, ep.modelName, messages, Params(temperature, params.maxTokens)),
     Release(ep.providerId)]
  }

  /** The attempts from number `b` up to `a`, each followed by its backoff. */
  function Rounds(ep: Endpoint, messages: seq<Message>, params: Params, b: nat, a: nat): seq<Effect>
    decreases a - b
  {
    if b >= a then []
    else Guarded(ep, messages, params) + ([Backoff(b)] + Rounds(ep, messages, params, b + 1, a))
  }

  /** The one update of the cooldown. */
  function Verdict(gid: int, ep: Endpoint, replied: bool): Effect {
    if replied then Succeeded(gid, ep.modelId) else Failed(gid, ep.modelId, ep.cooldownThreshold, ep.cooldownSeconds)
  }

  lemma {:induction false} CallTraceFrom(env: Env, gid: int, pos: nat, ep: Endpoint, messages: seq<Message>,
                                         params: Params, attempt: nat, last: Option<Error>, a: nat)
    requires attempt <= a && CallEnds(env, gid, pos, ep, a)
    ensures CallFrom(env, gid, pos, ep, messages, params, attempt, last).effects
            == Rounds(ep, messages, params, attempt, a)
               + (Guarded(ep, messages, params) + [Verdict(gid, ep, env.chat(gid, pos, a).Replies?)])
    decreases a - attempt
  {
    var once, end := Once(ep, messages, params), [Verdict(gid, ep, env.chat(gid, pos, a).Replies?)];
    assert once == Guarded(ep, messages, params);
    if attempt < a {
      assert WorthRetrying(env.chat(gid, pos, attempt));
      CallTraceFrom(env, gid, pos, ep, messages, params, attempt + 1, Some(env.chat(gid, pos, attempt).error), a);
      var rest := Rounds(ep, messages, params, attempt + 1, a);
      Assoc([Backoff(attempt)], rest, once + end);
      Assoc(once, [Backoff(attempt)] + rest, once + end);
    } else {
      assert [] + (once + end) == once + end;
    }
  }

  /** call_llm looks its semaphore up once, holds a permit around each request, waits between
      two attempts only, and updates the cooldown once; with no attempts allowed it counts a
      failure without sending anything. `a` is the last attempt. */
  lemma CallTrace(env: Env, gid: int, pos: nat, ep: Endpoint, messages: seq<Message>, params: Params, a: nat)
    requires ep.maxRetries <= 0 || CallEnds(env, gid, pos, ep, a)
    ensures CallOf(env, gid, pos, ep, messages, params).effects
            == [Look(ep.providerId)]
               + if ep.maxRetries <= 0 then [Verdict(gid, ep, false)]
                 else Rounds(ep, messages, params, 0, a)
                      + (Guarded(ep, messages, params) + [Verdict(gid, ep, env.chat(gid, pos, a).Replies?)])
  {
    if ep.maxRetries > 0 {
      CallTraceFrom(env, gid, pos, ep, messages, params, 0, None, a);
    }
  }

  // ------------------------------------------------- the trace of a stream's attempts

  function Sends(effects: seq<Effect>): nat {
    if effects == [] then 0 else (if effects[0].Send? then 1 else 0) + Sends(effects[1..])
  }

  /** The numbers of the backoffs, in order. */
  function Backoffs(effects: seq<Effect>): seq<nat> {
    if effects == [] then []
    else (if effects[0].Backoff? then [effects[0].attempt] else []) + Backoffs(effects[1..])
  }

  lemma {:induction false} SendsSplit(a: seq<Effect>, b: seq<Effect>)
    ensures Sends(a + b) == Sends(a) + Sends(b)
  {
    if a == [] {
      assert a + b == b;
    } else {
      SendsSplit(a[1..], b);
      assert (a + b)[1..] == a[1..] + b;
    }
  }

  lemma {:induction false} BackoffsSplit(a: seq<Effect>, b: seq<Effect>)
    ensures Backoffs(a + b) == Backoffs(a) + Backoffs(b)
  {
    if a == [] {
      assert a + b == b;
    } else {
      var head: seq<nat> := if a[0].Backoff? then [a[0].attempt] else [];
      BackoffsSplit(a[1..], b);
      assert (a + b)[1..] == a[1..] + b && (a + b)[0] == a[0];
      Assoc(head, Backoffs(a[1..]), Backoffs(b));
    }
  }

  lemma Splits(a: seq<Effect>, b: seq<Effect>)
    ensures Sends(a + b) == Sends(a) + Sends(b) && Backoffs(a + b) == Backoffs(a) + Backoffs(b)
  {
    SendsSplit(a, b);
    BackoffsSplit(a, b);
  }

  /** How many of the attempts from `attempt` up to `end` got as far as a request. */
  function Opened(env: Env, gid: int, pos: nat, attempt: nat, end: nat): nat
    decreases end - attempt
  {
    if attempt >= end then 0
    else (if env.stream(gid, pos, attempt).Stream? then 1 else 0) + Opened(env, gid, pos, attempt + 1, end)
  }

  lemma TracesOne(e: Effect)
    ensures Sends([e]) == (if e.Send? then 1 else 0) && Backoffs([e]) == if e.Backoff? then [e.attempt] else []
  {
    assert [e][1..] == [];
  }

  lemma OpeningTraces(ep: Endpoint, messages: seq<Message>, params: Params)
    ensures Sends(Opening(ep, messages, params)) == 1 && Backoffs(Opening(ep, messages, params)) == []
  {
    var look, acquire, send := Look(ep.providerId), Acquire(ep.providerId), Sending(ep, messages, params);
    TracesOne(look);
    TracesOne(acquire);
    TracesOne(send);
    Splits([look], [acquire]);
    Splits([look] + [acquire], [send]);
    assert Opening(ep, messages, params) == [look] + [acquire] + [send];
  }

  lemma AttemptTraces(gid: int, ep: Endpoint, messages: seq<Message>, params: Params, out: StreamOutcome)
    requires !Starts(out)
    ensures Sends(FailureEffects(gid, ep, messages, params, out)) == (if out.Stream? then 1 else 0)
    ensures Backoffs(FailureEffects(gid, ep, messages, params, out)) == []
  {
    var opening, release, fails := Opening(ep, messages, params), [Release(ep.providerId)], [Fails(gid, ep)];
    OpeningTraces(ep, messages, params);
    TracesOne(release[0]);
    TracesOne(fails[0]);
    Splits(opening, release);
    Splits(opening + release, fails);
  }

  function Upward(from: nat, count: nat): seq<nat>
    decreases count
  {
    if count == 0 then [] else [from] + Upward(from + 1, count - 1)
  }

  lemma {:induction false} FirstChunkTraceFrom(env: Env, gid: int, pos: nat, ep: Endpoint, messages: seq<Message>,
                                               params: Params, attempt: nat)
    requires attempt < Tries(ep)
    ensures var f := FirstChunk(env, gid, pos, ep, messages, params, attempt);
            var made := |f.rows| + if f.winner.Some? then 1 else 0;
            && made >= 1 && Sends(f.effects) == Opened(env, gid, pos, attempt, attempt + made)
            && Backoffs(f.effects) == Upward(attempt, made - 1)
    decreases Tries(ep) - attempt
  {
    var out := env.stream(gid, pos, attempt);
    if Starts(out) {
      OpeningTraces(ep, messages, params);
    } else {
      AttemptTraces(gid, ep, messages, params, out);
    }
    if !Starts(out) && TryAgain(ep, attempt, out) {
      FirstChunkTraceFrom(env, gid, pos, ep, messages, params, attempt + 1);
      RoundTraces(FailureEffects(gid, ep, messages, params, out), attempt,
                  FirstChunk(env, gid, pos, ep, messages, params, attempt + 1).effects);
    }
  }

  lemma RoundTraces(failed: seq<Effect>, attempt: nat, rest: seq<Effect>)
    ensures Sends(failed + ([Backoff(attempt)] + rest)) == Sends(failed) + Sends(rest)
    ensures Backoffs(failed + ([Backoff(attempt)] + rest)) == Backoffs(failed) + ([attempt] + Backoffs(rest))
  {
    Splits(failed, [Backoff(attempt)] + rest);
    Splits([Backoff(attempt)], rest);
    TracesOne(Backoff(attempt));
  }

  /** The attempts on a stream send one request each, save those that the provider refuses
      before there is a stream, and wait between two attempts only. */
  lemma FirstChunkTrace(env: Env, gid: int, pos: nat, ep: Endpoint, messages: seq<Message>, params: Params)
    ensures var f := FirstChunk(env, gid, pos, ep, messages, params, 0);
            var made := |f.rows| + if f.winner.Some? then 1 else 0;
            && made >= 1 && Sends(f.effects) == Opened(env, gid, pos, 0, made)
            && Backoffs(f.effects) == Upward(0, made - 1)
  {
    FirstChunkTraceFrom(env, gid, pos, ep, messages, params, 0);
  }

  // ------------------------------------------------- what the cooldowns are told

  datatype Mark = Good(modelId: int) | Bad(modelId: int)

  /** The updates of the cooldowns, in order. */
  function Marks(effects: seq<Effect>): seq<Mark> {
    if effects == [] then []
    else
      (match effects[0]
       case Succeeded(_, m) => [Good(m)]
       case Failed(_, m, _, _) => [Bad(m)]
       case _ => [])
      + Marks(effects[1..])
  }

  lemma {:induction false} MarksSplit(a: seq<Effect>, b: seq<Effect>)
    ensures Marks(a + b) == Marks(a) + Marks(b)
  {
    if a == [] {
      assert a + b == b;
    } else {
      var head: seq<Mark> := match a[0]
        case Succeeded(_, m) => [Good(m)]
        case Failed(_, m, _, _) => [Bad(m)]
        case _ => [];
      MarksSplit(a[1..], b);
      assert (a + b)[1..] == a[1..] + b && (a + b)[0] == a[0];
      Assoc(head, Marks(a[1..]), Marks(b));
    }
  }

  lemma MarksOne(e: Effect)
    ensures Marks([e])
            == match e
               case Succeeded(_, m) => [Good(m)]
               case Failed(_, m, _, _) => [Bad(m)]
               case _ => []
  {
    assert [e][1..] == [];
  }

  lemma NoMarks(a: Effect, b: Effect, c: Effect)
    requires Marks([a]) == [] && Marks([b]) == [] && Marks([c]) == []
    ensures Marks([a, b, c]) == []
  {
    MarksSplit([a], [b]);
    MarksSplit([a] + [b], [c]);
    assert [a, b, c] == [a] + [b] + [c];
  }

  lemma OnceUnmarked(ep: Endpoint, messages: seq<Message>, params: Params)
    ensures Marks(Once(ep, messages, params)) == [] && Marks(Opening(ep, messages, params)) == []
  {
    MarksOne(Look(ep.providerId));
    MarksOne(Acquire(ep.providerId));
    MarksOne(Release(ep.providerId));
    MarksOne(Sending(ep, messages, params));
    NoMarks(Acquire(ep.providerId), Sending(ep, messages, params), Release(ep.providerId));
    NoMarks(Look(ep.providerId), Acquire(ep.providerId), Sending(ep, messages, params));
  }

  lemma {:induction false} CallMarks(env: Env, gid: int, pos: nat, ep: Endpoint, messages: seq<Message>,
                                     params: Params, attempt: nat, last: Option<Error>)
    ensures var c := CallFrom(env, gid, pos, ep, messages, params, attempt, last);
            Marks(c.effects) == [if c.reply.Some? then Good(ep.modelId) else Bad(ep.modelId)]
    decreases ep.maxRetries - attempt
  {
    var once := Once(ep, messages, params);
    OnceUnmarked(ep, messages, params);
    MarksOne(Succeeded(gid, ep.modelId));
    MarksOne(Fails(gid, ep));
    MarksOne(Backoff(attempt));
    MarksSplit(once, [Succeeded(gid, ep.modelId)]);
    MarksSplit(once, [Fails(gid, ep)]);
    if attempt < ep.maxRetries && env.chat(gid, pos, attempt).ChatFails? {
      var e := env.chat(gid, pos, attempt).error;
      if e.retryable && attempt < ep.maxRetries - 1 {
        CallMarks(env, gid, pos, ep, messages, params, attempt + 1, Some(e));
        var rest := CallFrom(env, gid, pos, ep, messages, params, attempt + 1, Some(e)).effects;
        MarksSplit([Backoff(attempt)], rest);
        MarksSplit(once, [Backoff(attempt)] + rest);
      }
    }
  }

  lemma WholeCallMarks(env: Env, gid: int, pos: nat, ep: Endpoint, messages: seq<Message>, params: Params)
    ensures var c := CallOf(env, gid, pos, ep, messages, params);
            Marks(c.effects) == [if c.reply.Some? then Good(ep.modelId) else Bad(ep.modelId)]
  {
    CallMarks(env, gid, pos, ep, messages, params, 0, None);
    MarksOne(Look(ep.providerId));
    MarksSplit([Look(ep.providerId)], CallFrom(env, gid, pos, ep, messages, params, 0, None).effects);
  }

  /** A failure for each endpoint from `pos` up to `end`. */
  function AllBad(queue: seq<Endpoint>, pos: nat, end: nat): seq<Mark>
    requires end <= |queue|
    decreases end - pos
  {
    if pos >= end then [] else [Bad(queue[pos].modelId)] + AllBad(queue, pos + 1, end)
  }

  lemma {:induction false} WalkCallsMarks(env: Env, gid: int, queue: seq<Endpoint>, messages: seq<Message>,
                                          params: Params, pos: nat)
    requires pos <= |queue|
    ensures var w := WalkCalls(env, gid, queue, messages, params, pos);
            && (w.winner.Some? ==> pos <= w.winner.value < |queue|)
            && Marks(w.effects)
               == match w.winner
                  case Some(p) => AllBad(queue, pos, p) + [Good(queue[p].modelId)]
                  case None => AllBad(queue, pos, |queue|)
    decreases |queue| - pos
  {
    if pos < |queue| {
      var call := CallOf(env, gid, pos, queue[pos], messages, params);
      WholeCallMarks(env, gid, pos, queue[pos], messages, params);
      if call.reply.None? {
        WalkCallsMarks(env, gid, queue, messages, params, pos + 1);
        var rest := WalkCalls(env, gid, queue, messages, params, pos + 1);
        MarksSplit(call.effects, rest.effects);
        if rest.winner.Some? {
          Assoc([Bad(queue[pos].modelId)], AllBad(queue, pos + 1, rest.winner.value),
                [Good(queue[rest.winner.value].modelId)]);
        }
      }
    }
  }

  /** A chat run tells the cooldowns of one failure for each endpoint before the one that
      answers, and then of its success. */
  lemma ChatMarks(env: Env, gid: int, selected: RouteResult, params: Params, p: nat)
    requires p <= |selected.endpoints|
    requires if p < |selected.endpoints| then FirstToAnswer(env, gid, selected.endpoints, 0, p)
             else forall q: nat :: q < p ==> !Answers(env, gid, q, selected.endpoints[q])
    ensures Marks(ChatEffects(env, gid, selected, params))
            == AllBad(selected.endpoints, 0, p)
               + if p < |selected.endpoints| then [Good(selected.endpoints[p].modelId)] else []
  {
    var queue, messages := selected.endpoints, selected.messages;
    WalkCallsMarks(env, gid, queue, messages, params, 0);
    ChatWalkMeaning(env, gid, queue, messages, params, 0, p);
    var w := WalkCalls(env, gid, queue, messages, params, 0).winner;
    if w.Some? {
      ChatWalkMeaning(env, gid, queue, messages, params, 0, w.value);
    }
  }

  /** The attempts on an endpoint end with an empty stream. */
  ghost predicate EndsEmpty(env: Env, gid: int, pos: nat, ep: Endpoint) {
    exists a: nat :: EmptyAt(env, gid, pos, ep, a)
  }

  predicate EmptyAt(env: Env, gid: int, pos: nat, ep: Endpoint, a: nat) {
    && (a == 0 || a < ep.maxRetries) && env.stream(gid, pos, a) == Stream([], Completes)
    && forall b: nat :: b < a ==> FailsForNow(env.stream(gid, pos, b))
  }

  lemma FailureMarks(gid: int, ep: Endpoint, messages: seq<Message>, params: Params, out: StreamOutcome)
    requires !Starts(out)
    ensures Marks(FailureEffects(gid, ep, messages, params, out))
            == if out == Stream([], Completes) then [Bad(ep.modelId)] else []
  {
    var opening, release, fails := Opening(ep, messages, params), [Release(ep.providerId)], [Fails(gid, ep)];
    OnceUnmarked(ep, messages, params);
    MarksOne(release[0]);
    MarksOne(fails[0]);
    MarksSplit(opening, release);
    MarksSplit(opening + release, fails);
  }

  lemma {:induction false} FirstChunkMarks(env: Env, gid: int, pos: nat, ep: Endpoint, messages: seq<Message>,
                                           params: Params, attempt: nat)
    requires attempt < Tries(ep) && forall b: nat :: b < attempt ==> FailsForNow(env.stream(gid, pos, b))
    ensures Marks(FirstChunk(env, gid, pos, ep, messages, params, attempt).effects)
            == if EndsEmpty(env, gid, pos, ep) then [Bad(ep.modelId)] else []
    decreases Tries(ep) - attempt
  {
    var out := env.stream(gid, pos, attempt);
    OnceUnmarked(ep, messages, params);
    NoOtherEnd(env, gid, pos, ep, attempt);
    if !Starts(out) {
      FailureMarks(gid, ep, messages, params, out);
      if TryAgain(ep, attempt, out) {
        FirstChunkMarks(env, gid, pos, ep, messages, params, attempt + 1);
        var failed, rest := FailureEffects(gid, ep, messages, params, out),
                            FirstChunk(env, gid, pos, ep, messages, params, attempt + 1).effects;
        MarksOne(Backoff(attempt));
        MarksSplit([Backoff(attempt)], rest);
        MarksSplit(failed, [Backoff(attempt)] + rest);
      }
    }
  }

  /** Attempts that end here end empty exactly when this one is empty. */
  lemma NoOtherEnd(env: Env, gid: int, pos: nat, ep: Endpoint, attempt: nat)
    requires attempt < Tries(ep) && forall b: nat :: b < attempt ==> FailsForNow(env.stream(gid, pos, b))
    ensures var out := env.stream(gid, pos, attempt);
            !FailsForNow(out) || attempt == Tries(ep) - 1 ==>
              (EndsEmpty(env, gid, pos, ep) <==> out == Stream([], Completes))
  {
    var out := env.stream(gid, pos, attempt);
    if out == Stream([], Completes) {
      assert EmptyAt(env, gid, pos, ep, attempt);
    } else if !FailsForNow(out) || attempt == Tries(ep) - 1 {
      forall a: nat
        ensures !EmptyAt(env, gid, pos, ep, a)
      {
        assert a < attempt ==> FailsForNow(env.stream(gid, pos, a));
        assert a > attempt && EmptyAt(env, gid, pos, ep, a) ==> FailsForNow(env.stream(gid, pos, attempt));
      }
    }
  }

  /** A failure for each endpoint from `pos` up to `end` whose attempts end with an empty
      stream. */
  ghost function EmptyOnes(env: Env, gid: int, queue: seq<Endpoint>, pos: nat, end: nat): seq<Mark>
    requires end <= |queue|
    decreases end - pos
  {
    if pos >= end then []
    else
      (if EndsEmpty(env, gid, pos, queue[pos]) then [Bad(queue[pos].modelId)] else [])
      + EmptyOnes(env, gid, queue, pos + 1, end)
  }

  lemma {:induction false} WalkQueueMarks(env: Env, gid: int, queue: seq<Endpoint>, messages: seq<Message>,
                                          params: Params, pos: nat)
    requires pos <= |queue|
    ensures var w := WalkQueue(env, gid, queue, messages, params, pos);
            && (w.winner.Some? ==> pos <= w.winner.value.pos < |queue|)
            && Marks(w.effects)
               == EmptyOnes(env, gid, queue, pos, if w.winner.Some? then w.winner.value.pos else |queue|)
    decreases |queue| - pos
  {
    if pos < |queue| {
      var first := FirstChunk(env, gid, pos, queue[pos], messages, params, 0);
      FirstChunkMarks(env, gid, pos, queue[pos], messages, params, 0);
      if first.winner.Some? {
        FirstChunkFrom(env, gid, pos, queue[pos], messages, params, 0, first.winner.value);
        StartsNotEmpty(env, gid, pos, queue[pos], first.winner.value);
      } else {
        WalkQueueMarks(env, gid, queue, messages, params, pos + 1);
        MarksSplit(first.effects, WalkQueue(env, gid, queue, messages, params, pos + 1).effects);
      }
    }
  }

  lemma StartsNotEmpty(env: Env, gid: int, pos: nat, ep: Endpoint, a: nat)
    requires StartsAt(env, gid, pos, ep, a)
    ensures !EndsEmpty(env, gid, pos, ep)
  {
    forall b: nat
      ensures !EmptyAt(env, gid, pos, ep, b)
    {
      assert b < a ==> FailsForNow(env.stream(gid, pos, b));
      assert b > a && EmptyAt(env, gid, pos, ep, b) ==> FailsForNow(env.stream(gid, pos, a));
    }
  }

  /** A streaming run tells the cooldowns of a failure for each endpoint before the one that
      streams whose attempts end with an empty stream, and then of the success of the one that
      streams, once, however that stream ends. */
  lemma StreamMarks(env: Env, gid: int, selected: RouteResult, params: Params, consumer: Consumer, p: nat)
    requires p <= |selected.endpoints|
    requires forall q: nat :: q < p ==> !Streams(env, gid, q, selected.endpoints[q])
    requires p < |selected.endpoints| ==> Streams(env, gid, p, selected.endpoints[p])
    ensures Marks(RunGroup(env, gid, selected, params, consumer).effects)
            == EmptyOnes(env, gid, selected.endpoints, 0, p)
               + if p < |selected.endpoints| then [Good(selected.endpoints[p].modelId)] else []
  {
    var queue, messages := selected.endpoints, selected.messages;
    var walk := WalkQueue(env, gid, queue, messages, params, 0);
    WalkQueueMarks(env, gid, queue, messages, params, 0);
    NoWinnerExactly(env, gid, queue, messages, params, 0);
    if p < |queue| {
      var a: nat :| StartsAt(env, gid, p, queue[p], a);
      StreamWalkMeaning(env, gid, queue, messages, params, 0, p, a);
      var good, release := [Succeeded(gid, queue[p].modelId)], [Release(queue[p].providerId)];
      MarksOne(good[0]);
      MarksOne(release[0]);
      MarksSplit(walk.effects, good);
      MarksSplit(walk.effects + good, release);
    }
  }
}
