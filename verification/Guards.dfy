/** Every run of a group enters and leaves the semaphore guards of its providers in turn. */
module Guards {
  import opened Options
  import opened Routing
  import opened Upstream
  import opened Chatting
  import opened Streaming
  import opened Fallback
  import opened Samples
  import opened ChatDriver
  import opened StreamDriver
  import opened StreamSafety
  import opened StreamEndings

  /** Whose guard a request is inside, or else whose semaphore it has looked up last; Misused
      when a guard is entered without a lookup, nested, or left unentered. */
  datatype Guard = Free(seen: Option<int>) | Inside(providerId: int) | Misused

  const OUTSIDE := Free(None)

  function Move(g: Guard, e: Effect): Guard {
    match e
    case Look(p) => if g.Free? then Free(Some(p)) else Misused
    case Acquire(p) => if g == Free(Some(p)) then Inside(p) else Misused
    case Release(p) => if g == Inside(p) then Free(Some(p)) else Misused
    case _ => g
  }

  function After(g: Guard, effects: seq<Effect>): Guard
    decreases effects
  {
    if effects == [] then g else After(Move(g, effects[0]), effects[1..])
  }

  lemma {:induction false} AfterConcat(g: Guard, a: seq<Effect>, b: seq<Effect>)
    ensures After(g, a + b) == After(After(g, a), b)
    decreases a
  {
    if a == [] {
      assert a + b == b;
    } else {
      AfterConcat(Move(g, a[0]), a[1..], b);
      assert (a + b)[1..] == a[1..] + b;
    }
  }

  lemma AfterOne(g: Guard, e: Effect)
    ensures After(g, [e]) == Move(g, e)
  {
    assert After(Move(g, e), [e][1..]) == Move(g, e);
  }

  lemma OnceIsGuarded(ep: Endpoint, messages: seq<Message>, params: Params)
    ensures After(Free(Some(ep.providerId)), Once(ep, messages, params)) == Free(Some(ep.providerId))
  {
    var p, send := ep.providerId, Sending(ep, messages, params);
    AfterOne(Free(Some(p)), Acquire(p));
    AfterOne(Inside(p), send);
    AfterOne(Inside(p), Release(p));
    AfterConcat(Free(Some(p)), [Acquire(p)], [send]);
    AfterConcat(Free(Some(p)), [Acquire(p), send], [Release(p)]);
    assert Once(ep, messages, params) == [Acquire(p), send] + [Release(p)];
  }

  // ---------------------------------------------------------------- chat

  lemma {:induction false} AttemptsAreGuarded(env: Env, gid: int, pos: nat, ep: Endpoint, messages: seq<Message>,
                                              params: Params, attempt: nat, last: Option<Error>)
    ensures var g := Free(Some(ep.providerId));
            After(g, CallFrom(env, gid, pos, ep, messages, params, attempt, last).effects) == g
    decreases ep.maxRetries - attempt
  {
    var g := Free(Some(ep.providerId));
    AfterOne(g, Fails(gid, ep));
    if attempt < ep.maxRetries {
      var once := Once(ep, messages, params);
      OnceIsGuarded(ep, messages, params);
      match env.chat(gid, pos, attempt) {
        case Replies(_) =>
          AfterConcat(g, once, [Succeeded(gid, ep.modelId)]);
          AfterOne(g, Succeeded(gid, ep.modelId));
        case ChatFails(e) =>
          if e.retryable && attempt < ep.maxRetries - 1 {
            AttemptsAreGuarded(env, gid, pos, ep, messages, params, attempt + 1, Some(e));
            var rest := CallFrom(env, gid, pos, ep, messages, params, attempt + 1, Some(e)).effects;
            AfterConcat(g, once, [Backoff(attempt)] + rest);
            AfterConcat(g, [Backoff(attempt)], rest);
            AfterOne(g, Backoff(attempt));
          } else {
            AfterConcat(g, once, [Fails(gid, ep)]);
          }
      }
    }
  }

  lemma CallIsGuarded(env: Env, gid: int, pos: nat, ep: Endpoint, messages: seq<Message>, params: Params, g: Guard)
    requires g.Free?
    ensures After(g, CallOf(env, gid, pos, ep, messages, params).effects).Free?
  {
    var look := [Look(ep.providerId)];
    AfterOne(g, Look(ep.providerId));
    AttemptsAreGuarded(env, gid, pos, ep, messages, params, 0, None);
    AfterConcat(g, look, CallFrom(env, gid, pos, ep, messages, params, 0, None).effects);
  }

  lemma {:induction false} CallsAreGuarded(env: Env, gid: int, queue: seq<Endpoint>, messages: seq<Message>,
                                           params: Params, pos: nat, g: Guard)
    requires pos <= |queue| && g.Free?
    ensures After(g, WalkCalls(env, gid, queue, messages, params, pos).effects).Free?
    decreases |queue| - pos
  {
    if pos < |queue| {
      var call := CallOf(env, gid, pos, queue[pos], messages, params);
      CallIsGuarded(env, gid, pos, queue[pos], messages, params, g);
      if call.reply.None? {
        CallsAreGuarded(env, gid, queue, messages, params, pos + 1, After(g, call.effects));
        AfterConcat(g, call.effects, WalkCalls(env, gid, queue, messages, params, pos + 1).effects);
      }
    }
  }

  /** Where guards stand after a part, from wherever outside they stood before. */
  ghost predicate LeavesFree(effects: seq<Effect>) {
    forall g: Guard :: g.Free? ==> After(g, effects).Free?
  }

  ghost predicate EndsInside(effects: seq<Effect>) {
    forall g: Guard :: g.Free? ==> After(g, effects).Inside?
  }

  lemma {:induction false} GatherGuarded(part: int -> seq<Effect>, tried: seq<Group>, g: Guard)
    requires tried != [] && g.Free?
    requires forall i :: 0 <= i < |tried| - 1 ==> LeavesFree(part(tried[i].id))
    ensures LeavesFree(part(tried[|tried| - 1].id)) ==> After(g, Gather(part, tried)).Free?
    ensures EndsInside(part(tried[|tried| - 1].id)) ==> After(g, Gather(part, tried)).Inside?
  {
    AfterConcat(g, part(tried[0].id), Gather(part, tried[1..]));
    if |tried| > 1 {
      GatherGuarded(part, tried[1..], After(g, part(tried[0].id)));
    }
  }

  /** A whole chat request returns every permit it takes. */
  lemma ChatReturnsPermits(env: Env, req: ChatRequest)
    ensures After(OUTSIDE, Gather(DirectEffects(env, req.params), ChatTour(env, req).tried)).Free?
  {
    var effects := DirectEffects(env, req.params);
    forall gid: int
      ensures LeavesFree(effects(gid))
    {
      DirectLeavesFree(env, req.params, gid);
    }
    GatherGuarded(effects, ChatTour(env, req).tried, OUTSIDE);
  }

  lemma DirectLeavesFree(env: Env, params: Params, gid: int)
    ensures LeavesFree(DirectChat(env, params, gid).effects)
  {
    if env.select(gid).Selected? {
      var r := env.select(gid).result;
      forall g: Guard | g.Free?
        ensures After(g, DirectChat(env, params, gid).effects).Free?
      {
        CallsAreGuarded(env, gid, r.endpoints, r.messages, params, 0, g);
      }
    }
  }

  // ---------------------------------------------------------------- streaming

  lemma OpeningEnters(ep: Endpoint, messages: seq<Message>, params: Params, g: Guard)
    requires g.Free?
    ensures After(g, Opening(ep, messages, params)) == Inside(ep.providerId)
  {
    var p, send := ep.providerId, Sending(ep, messages, params);
    AfterOne(g, Look(p));
    AfterOne(Free(Some(p)), Acquire(p));
    AfterOne(Inside(p), send);
    AfterConcat(g, [Look(p)], [Acquire(p)]);
    AfterConcat(g, [Look(p), Acquire(p)], [send]);
    assert Opening(ep, messages, params) == [Look(p), Acquire(p)] + [send];
  }

  lemma FailureGuarded(gid: int, ep: Endpoint, messages: seq<Message>, params: Params, out: StreamOutcome, g: Guard)
    requires !Starts(out) && g.Free?
    ensures After(g, FailureEffects(gid, ep, messages, params, out)).Free?
  {
    var p, opening := ep.providerId, Opening(ep, messages, params);
    OpeningEnters(ep, messages, params, g);
    AfterOne(Inside(p), Release(p));
    AfterConcat(g, opening, [Release(p)]);
    AfterOne(Free(Some(p)), Fails(gid, ep));
    AfterConcat(g, opening + [Release(p)], [Fails(gid, ep)]);
  }

  lemma {:induction false} FirstChunkGuarded(env: Env, gid: int, pos: nat, ep: Endpoint, messages: seq<Message>,
                                             params: Params, attempt: nat, g: Guard)
    requires attempt < Tries(ep) && g.Free?
    ensures var f := FirstChunk(env, gid, pos, ep, messages, params, attempt);
            var g' := After(g, f.effects);
            if f.winner.Some? then g' == Inside(ep.providerId) else g'.Free?
    decreases Tries(ep) - attempt
  {
    var out := env.stream(gid, pos, attempt);
    OpeningEnters(ep, messages, params, g);
    if !Starts(out) {
      var failed := FailureEffects(gid, ep, messages, params, out);
      FailureGuarded(gid, ep, messages, params, out, g);
      if TryAgain(ep, attempt, out) {
        var between := After(g, failed);
        FirstChunkGuarded(env, gid, pos, ep, messages, params, attempt + 1, between);
        var rest := FirstChunk(env, gid, pos, ep, messages, params, attempt + 1).effects;
        AfterConcat(g, failed, [Backoff(attempt)] + rest);
        AfterConcat(between, [Backoff(attempt)], rest);
        AfterOne(between, Backoff(attempt));
      }
    }
  }

  lemma {:induction false} WalkGuarded(env: Env, gid: int, queue: seq<Endpoint>, messages: seq<Message>,
                                       params: Params, pos: nat, g: Guard)
    requires pos <= |queue| && g.Free?
    ensures var w := WalkQueue(env, gid, queue, messages, params, pos);
            && (w.winner.None? ==> After(g, w.effects).Free?)
            && (w.winner.Some? ==>
                  pos <= w.winner.value.pos < |queue|
                  && After(g, w.effects) == Inside(queue[w.winner.value.pos].providerId))
    decreases |queue| - pos
  {
    if pos < |queue| {
      var first := FirstChunk(env, gid, pos, queue[pos], messages, params, 0);
      FirstChunkGuarded(env, gid, pos, queue[pos], messages, params, 0, g);
      if first.winner.None? {
        WalkGuarded(env, gid, queue, messages, params, pos + 1, After(g, first.effects));
        AfterConcat(g, first.effects, WalkQueue(env, gid, queue, messages, params, pos + 1).effects);
      }
    }
  }

  /** Whatever ends a group's stream (exhaustion, timeout, error, disconnect, closing), its
      guard is left; only a consumer that abandons the generator leaves it entered. */
  lemma GroupReturnsPermits(env: Env, gid: int, selected: RouteResult, params: Params, consumer: Consumer, g: Guard)
    requires g.Free?
    ensures var run := RunGroup(env, gid, selected, params, consumer);
            var g' := After(g, run.effects);
            && (g'.Free? || g'.Inside?)
            && (run.state.Some? ==> g'.Free?)
            && (g'.Inside? <==>
                  run.state.None? && run.chunks != []
                  && consumer(|run.chunks| - 1, ChunkEvent(run.chunks[|run.chunks| - 1])) == Abandon)
  {
    var queue := selected.endpoints;
    var walk := WalkQueue(env, gid, queue, selected.messages, params, 0);
    WalkGuarded(env, gid, queue, selected.messages, params, 0, g);
    if walk.winner.Some? {
      WinnerStarts(env, gid, queue, selected.messages, params, 0);
      var out := env.stream(gid, walk.winner.value.pos, walk.winner.value.attempt);
      StartedIsGuarded(walk.effects, gid, queue[walk.winner.value.pos], g);
      RelayObeys(env, gid, out.chunks, out.ending, consumer, 0);
      RelayIsSlice(env, gid, out.chunks, out.ending, consumer, 0);
    }
  }

  /** After the first chunk a stream is inside its guard, and its release leaves it. */
  lemma StartedIsGuarded(effects: seq<Effect>, gid: int, ep: Endpoint, g: Guard)
    requires After(g, effects) == Inside(ep.providerId)
    ensures After(g, effects + [Succeeded(gid, ep.modelId)]) == Inside(ep.providerId)
    ensures After(g, effects + [Succeeded(gid, ep.modelId)] + [Release(ep.providerId)]) == Free(Some(ep.providerId))
  {
    AfterConcat(g, effects, [Succeeded(gid, ep.modelId)]);
    AfterOne(Inside(ep.providerId), Succeeded(gid, ep.modelId));
    AfterConcat(g, effects + [Succeeded(gid, ep.modelId)], [Release(ep.providerId)]);
    AfterOne(Inside(ep.providerId), Release(ep.providerId));
  }

  lemma StepReturnsPermits(env: Env, req: StreamRequest, gid: int)
    ensures if HookRaisesAtChunk(env, req, gid) then EndsInside(StepOf(env, req, gid).effects)
            else LeavesFree(StepOf(env, req, gid).effects)
    ensures HookRaisesAtChunk(env, req, gid) ==> StepOf(env, req, gid).end.Fatal?
  {
    if env.select(gid).Selected? {
      var r := env.select(gid).result;
      var run := WatchedRun(env, req, gid, r);
      AbandonedExactly(env, req, gid);
      if run.state.None? {
        AbandonedByHook(env, req, gid, r);
      }
      forall g: Guard | g.Free?
        ensures if HookRaisesAtChunk(env, req, gid) then After(g, run.effects).Inside? else After(g, run.effects).Free?
      {
        GroupReturnsPermits(env, gid, r, req.params, Watch(env, req, gid), g);
      }
    }
  }

  /** A whole streaming request never nests or double-leaves guards, and has left them all at
      its end if and only if no transport hook raises at a chunk that the last group has to
      offer: the driver does not close the engine's generator then. */
  lemma StreamReturnsPermits(env: Env, req: StreamRequest)
    ensures var t := StreamTour(env, req);
            var g := After(OUTSIDE, Gather(StepEffects(env, req), t.tried));
            && (g.Free? || g.Inside?)
            && (g.Inside? <==> HookRaisesAtChunk(env, req, t.Last().id))
  {
    var t := StreamTour(env, req);
    forall i | 0 <= i < |t.tried| - 1
      ensures LeavesFree(StepEffects(env, req)(t.tried[i].id))
    {
      EarlierGroupsRetreat(env, req, i);
      StepReturnsPermits(env, req, t.tried[i].id);
    }
    StepReturnsPermits(env, req, t.Last().id);
    GatherGuarded(StepEffects(env, req), t.tried, OUTSIDE);
  }

  const CHUNK := Chunk("model", "body")

  /** One endpoint that streams one chunk. */
  function ChunkEnv(): Env {
    SampleEnv().(stream := (gid, pos, attempt) => Stream([CHUNK], Completes))
  }

  /** An input that keeps a permit: the serializer raises at the first chunk. */
  lemma PermitCanBeKept(model: string, primary: Group, params: Params)
    ensures var req := StreamRequest(model, primary, params, (k, chunk) => SerializeRaises("ValueError", ""));
            After(OUTSIDE, Gather(StepEffects(ChunkEnv(), req), StreamTour(ChunkEnv(), req).tried)).Inside?
  {
    var env := ChunkEnv();
    var req := StreamRequest(model, primary, params, (k, chunk) => SerializeRaises("ValueError", ""));
    var gid := StreamTour(env, req).Last().id;
    assert FirstChunk(env, gid, 0, SAMPLE_ENDPOINT, [], params, 0).winner == Some(0);
    assert WalkQueue(env, gid, [SAMPLE_ENDPOINT], [], params, 0).winner == Some(Winner(0, 0));
    assert Relay(env, gid, [CHUNK], Completes, Drain, 1).chunks == [];
    assert Relay(env, gid, [CHUNK], Completes, Drain, 0).chunks == [CHUNK];
    assert Offered(env, req, gid) == [CHUNK];
    assert FirstVerdict(env, req, gid, 0, Abandon);
    StreamReturnsPermits(env, req);
  }
}
