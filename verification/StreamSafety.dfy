/** Safety of a whole streaming request: one upstream for the whole response, and when the
    attempt trail is complete. */
module StreamSafety {
  import opened Options
  import opened Routing
  import opened Streaming
  import opened Fallback
  import opened StreamDriver

  // ------------------------------------------------- what one group delivers

  /** The engine hands out the upstream chunks in order. */
  lemma {:induction false} RelayIsSlice(env: Env, gid: int, chunks: seq<Chunk>, ending: Ending, consumer: Consumer,
                                        k: nat)
    requires k <= |chunks|
    ensures var n := |Relay(env, gid, chunks, ending, consumer, k).chunks|;
            k + n <= |chunks| && Relay(env, gid, chunks, ending, consumer, k).chunks == chunks[k..k + n]
    decreases |chunks| - k
  {
    if k < |chunks| {
      RelayIsSlice(env, gid, chunks, ending, consumer, k + 1);
    }
  }

  /** It goes on only when the consumer asks it to. */
  lemma {:induction false} RelayAsks(env: Env, gid: int, chunks: seq<Chunk>, ending: Ending, consumer: Consumer,
                                     k: nat, i: nat)
    requires k <= |chunks| && k <= i && i + 1 < k + |Relay(env, gid, chunks, ending, consumer, k).chunks|
    ensures i < |chunks| && consumer(i, ChunkEvent(chunks[i])) == Continue
    decreases |chunks| - k
  {
    if k < i {
      RelayAsks(env, gid, chunks, ending, consumer, k + 1, i);
    }
  }

  /** And it ends as the verdict on the last chunk tells it to. */
  lemma {:induction false} RelayObeys(env: Env, gid: int, chunks: seq<Chunk>, ending: Ending, consumer: Consumer,
                                      k: nat)
    requires k <= |chunks|
    ensures var r := Relay(env, gid, chunks, ending, consumer, k);
            var n := |r.chunks|;
            && k + n <= |chunks|
            && (n > 0 ==> match consumer(k + n - 1, ChunkEvent(chunks[k + n - 1]))
                          case Close => r.exit == Closed
                          case Abandon => r.exit == Abandoned
                          case Continue => !r.exit.Closed? && !r.exit.Abandoned?)
            && (n == 0 ==> !r.exit.Closed? && !r.exit.Abandoned?)
    decreases |chunks| - k
  {
    if k < |chunks| {
      RelayObeys(env, gid, chunks, ending, consumer, k + 1);
    }
  }

  /** The engine hands out the upstream chunks in order, and goes on exactly as long as the
      consumer asks it to. */
  lemma RelayHeeds(env: Env, gid: int, chunks: seq<Chunk>, ending: Ending, consumer: Consumer, k: nat)
    requires k <= |chunks|
    ensures var r := Relay(env, gid, chunks, ending, consumer, k);
            var n := |r.chunks|;
            && k + n <= |chunks| && r.chunks == chunks[k..k + n]
            && (forall i: nat :: k <= i < k + n - 1 ==> consumer(i, ChunkEvent(chunks[i])) == Continue)
            && (n > 0 ==> match consumer(k + n - 1, ChunkEvent(chunks[k + n - 1]))
                          case Close => r.exit == Closed
                          case Abandon => r.exit == Abandoned
                          case Continue => !r.exit.Closed? && !r.exit.Abandoned?)
            && (n == 0 ==> !r.exit.Closed? && !r.exit.Abandoned?)
  {
    RelayIsSlice(env, gid, chunks, ending, consumer, k);
    RelayObeys(env, gid, chunks, ending, consumer, k);
    var n := |Relay(env, gid, chunks, ending, consumer, k).chunks|;
    forall i: nat | k <= i < k + n - 1
      ensures consumer(i, ChunkEvent(chunks[i])) == Continue
    {
      RelayAsks(env, gid, chunks, ending, consumer, k, i);
    }
  }

  /** A consumer stops the relay, or sees what a consumer that always goes on sees. */
  lemma {:induction false} RelayBesideDrain(env: Env, gid: int, chunks: seq<Chunk>, ending: Ending, consumer: Consumer,
                                            k: nat)
    requires k <= |chunks|
    ensures var r, d := Relay(env, gid, chunks, ending, consumer, k), Relay(env, gid, chunks, ending, Drain, k);
            |r.chunks| <= |d.chunks| && (r.exit.Closed? || r.exit.Abandoned? || r == d)
    decreases |chunks| - k
  {
    if k < |chunks| {
      RelayBesideDrain(env, gid, chunks, ending, consumer, k + 1);
    }
  }

  /** A relay ends early exactly at the first chunk on offer at which its consumer does not
      go on. */
  lemma RelayStopsFirst(env: Env, gid: int, chunks: seq<Chunk>, ending: Ending, consumer: Consumer)
    ensures var r := Relay(env, gid, chunks, ending, consumer, 0);
            var offered := Relay(env, gid, chunks, ending, Drain, 0).chunks;
            var n, stopped := |r.chunks|, r.exit.Closed? || r.exit.Abandoned?;
            && n <= |offered| && r.chunks == offered[..n]
            && (if stopped then n > 0 && consumer(n - 1, ChunkEvent(offered[n - 1])) != Continue else n == |offered|)
            && forall j: nat :: j < (if stopped then n - 1 else n) ==> consumer(j, ChunkEvent(offered[j])) == Continue
  {
    RelayBesideDrain(env, gid, chunks, ending, consumer, 0);
    RelayIsSlice(env, gid, chunks, ending, consumer, 0);
    RelayIsSlice(env, gid, chunks, ending, Drain, 0);
    RelayObeys(env, gid, chunks, ending, consumer, 0);
    var r := Relay(env, gid, chunks, ending, consumer, 0);
    var n, offered := |r.chunks|, Relay(env, gid, chunks, ending, Drain, 0).chunks;
    assert offered[..n] == chunks[..n];
    assert n > 0 ==> offered[n - 1] == chunks[n - 1];
    forall j: nat | j + 1 < n
      ensures consumer(j, ChunkEvent(offered[j])) == Continue
    {
      RelayAsks(env, gid, chunks, ending, consumer, 0, j);
    }
  }

  /** So does the run of a group. */
  lemma GroupStopsFirst(env: Env, gid: int, selected: RouteResult, params: Params, consumer: Consumer)
    ensures var run := RunGroup(env, gid, selected, params, consumer);
            var offered := RunGroup(env, gid, selected, params, Drain).chunks;
            var n := |run.chunks|;
            && n <= |offered| && run.chunks == offered[..n]
            && (if run.state.Some? then n == |offered|
                else n > 0 && consumer(n - 1, ChunkEvent(offered[n - 1])) != Continue)
            && forall j: nat :: j < (if run.state.Some? then n else n - 1) ==>
               consumer(j, ChunkEvent(offered[j])) == Continue
  {
    var walk := WalkQueue(env, gid, selected.endpoints, selected.messages, params, 0);
    if walk.winner.Some? {
      WinnerStarts(env, gid, selected.endpoints, selected.messages, params, 0);
      var out := env.stream(gid, walk.winner.value.pos, walk.winner.value.attempt);
      RelayStopsFirst(env, gid, out.chunks, out.ending, consumer);
    }
  }

  function LinesOf(req: StreamRequest, delivered: seq<Chunk>, k: nat): seq<Line> {
    if delivered == [] then []
    else
      (match req.serialize(k, delivered[0])
       case Lines(lines, _) => Textual(lines)
       case SerializeRaises(_, _) => [])
      + LinesOf(req, delivered[1..], k + 1)
  }

  /** Each delivered chunk adds the lines of its serialization, in order and as they are. */
  lemma {:induction false} OneMoreChunk(req: StreamRequest, delivered: seq<Chunk>, chunk: Chunk, k: nat)
    returns (added: seq<Line>)
    ensures LinesOf(req, delivered + [chunk], k) == LinesOf(req, delivered, k) + added
    ensures match req.serialize(k + |delivered|, chunk)
            case Lines(texts, _) => |added| == |texts| && forall i :: 0 <= i < |texts| ==> added[i] == Data(texts[i])
            case SerializeRaises(_, _) => added == []
  {
    var longer := delivered + [chunk];
    if delivered == [] {
      added := LinesOf(req, longer, k);
      assert longer[1..] == [];
    } else {
      added := OneMoreChunk(req, delivered[1..], chunk, k + 1);
      assert longer[1..] == delivered[1..] + [chunk] && longer[0] == delivered[0];
      var head: seq<Line> := match req.serialize(k, delivered[0])
        case Lines(lines, _) => Textual(lines)
        case SerializeRaises(_, _) => [];
      Assoc(head, LinesOf(req, delivered[1..], k + 1), added);
    }
  }

  /** `delivered` are the leading chunks of `chunks`, under the model name of the request. */
  predicate Leading(delivered: seq<Chunk>, chunks: seq<Chunk>, model: string) {
    && |delivered| <= |chunks|
    && forall i :: 0 <= i < |delivered| ==> delivered[i] == chunks[i].(model := model)
  }

  lemma {:induction false} HearDelivers(env: Env, req: StreamRequest, gid: int, chunks: seq<Chunk>,
                                        state: Option<StreamState>, usage: Option<string>, k: nat)
    requires k <= |chunks|
    ensures var h := Hear(env, req, gid, chunks, state, usage, k);
            && Leading(h.delivered, chunks[k..], req.model)
            && h.lines == LinesOf(req, h.delivered, k)
            && (h.end.Drained? ==> state == Some(h.end.state) && |h.delivered| == |chunks| - k)
    decreases |chunks| - k
  {
    var h := Hear(env, req, gid, chunks, state, usage, k);
    if k < |chunks| && h.delivered != [] {
      var chunk := chunks[k].(model := req.model);
      var u := req.serialize(k, chunk).usage;
      var usage' := if u.Some? then u else usage;
      HearDelivers(env, req, gid, chunks, state, usage', k + 1);
      var rest := Hear(env, req, gid, chunks, state, usage', k + 1);
      assert h.delivered[1..] == rest.delivered;
      forall i | 0 <= i < |h.delivered|
        ensures h.delivered[i] == chunks[k..][i].(model := req.model)
      {
        if i > 0 {
          assert chunks[k..][i] == chunks[k + 1..][i - 1];
        }
      }
    }
  }

  /** The engine stops handing out chunks because of the driver exactly when the driver
      leaves or fails at a chunk; otherwise the driver hears every chunk that was handed out. */
  lemma DriverHearsAll(env: Env, req: StreamRequest, gid: int, result: RouteResult)
    ensures var run := WatchedRun(env, req, gid, result);
            var h := Hear(env, req, gid, run.chunks, run.state, None, 0);
            if run.state.None? then !h.end.Drained? && |h.delivered| + 1 == |run.chunks|
            else |h.delivered| == |run.chunks|
  {
    var run := WatchedRun(env, req, gid, result);
    GroupStopsFirst(env, gid, result, req.params, Watch(env, req, gid));
    var offered := RunGroup(env, gid, result, req.params, Drain).chunks;
    assert forall i: nat :: i < |run.chunks| ==> run.chunks[i] == offered[i];
    HearsUntil(env, req, gid, run.chunks, run.state, None, 0);
  }

  lemma {:induction false} HearsUntil(env: Env, req: StreamRequest, gid: int, chunks: seq<Chunk>,
                                      state: Option<StreamState>, usage: Option<string>, k: nat)
    requires k <= |chunks| && (state.None? ==> k < |chunks|)
    requires forall i :: k <= i < |chunks| - 1 ==> Watch(env, req, gid)(i, ChunkEvent(chunks[i])) == Continue
    requires k < |chunks| ==>
               (state.Some? <==> Watch(env, req, gid)(|chunks| - 1, ChunkEvent(chunks[|chunks| - 1])) == Continue)
    ensures var h := Hear(env, req, gid, chunks, state, usage, k);
            if state.None? then !h.end.Drained? && |h.delivered| + 1 == |chunks| - k
            else |h.delivered| == |chunks| - k
    decreases |chunks| - k
  {
    if k < |chunks| {
      var verdict := Watch(env, req, gid)(k, ChunkEvent(chunks[k]));
      assert verdict == Judge(env, req, gid, k, ChunkEvent(chunks[k]));
      if verdict.Continue? {
        var u := req.serialize(k, chunks[k].(model := req.model)).usage;
        HearsUntil(env, req, gid, chunks, state, if u.Some? then u else usage, k + 1);
      }
    }
  }

  /** Chunks reach the client from the winning attempt only, and a group that the driver
      retreats from has delivered none. */
  lemma StepDelivers(env: Env, req: StreamRequest, gid: int)
    ensures var step := StepOf(env, req, gid);
            && step.lines == LinesOf(req, step.delivered, 0)
            && (step.end.Retreats? ==> step.delivered == [])
            && (step.delivered != [] ==>
                  && env.select(gid).Selected?
                  && var r := env.select(gid).result;
                     var w := WalkQueue(env, gid, r.endpoints, r.messages, req.params, 0).winner;
                  && w.Some? && env.stream(gid, w.value.pos, w.value.attempt).Stream?
                  && Leading(step.delivered, env.stream(gid, w.value.pos, w.value.attempt).chunks, req.model))
  {
    if env.select(gid).Selected? {
      var r := env.select(gid).result;
      var walk := WalkQueue(env, gid, r.endpoints, r.messages, req.params, 0);
      var run := WatchedRun(env, req, gid, r);
      HearDelivers(env, req, gid, run.chunks, run.state, None, 0);
      var h := Hear(env, req, gid, run.chunks, run.state, None, 0);
      assert run.chunks[0..] == run.chunks;
      if walk.winner.Some? {
        WinnerStarts(env, gid, r.endpoints, r.messages, req.params, 0);
        var out := env.stream(gid, walk.winner.value.pos, walk.winner.value.attempt);
        RelayHeeds(env, gid, out.chunks, out.ending, Watch(env, req, gid), 0);
        assert Leading(h.delivered, out.chunks, req.model);
      }
    }
  }

  // ------------------------------------------------- the whole response

  lemma {:induction false} LinesAreData(req: StreamRequest, delivered: seq<Chunk>, k: nat)
    ensures forall line :: line in LinesOf(req, delivered, k) ==> line.Data?
  {
    if delivered != [] {
      LinesAreData(req, delivered[1..], k + 1);
    }
  }

  lemma EarlierGroupsRetreat(env: Env, req: StreamRequest, i: nat)
    requires i < |StreamTour(env, req).tried| - 1
    ensures var t := StreamTour(env, req);
            StepOf(env, req, t.tried[i].id).end.Retreats? && StepOf(env, req, t.tried[i].id).delivered == []
            && StepOf(env, req, t.tried[i].id).lines == []
  {
    var t := StreamTour(env, req);
    TourIsChain(StreamOutcomes(env, req), env.groups, req.primary);
    assert Linked(StreamOutcomes(env, req), env.groups, t.tried[i], t.tried[i + 1]);
    StepDelivers(env, req, t.tried[i].id);
  }

  /** All chunks the client sees come from one upstream stream, in order and from its start:
      that of the last group tried, since the driver only retreats from groups that have
      delivered nothing. The response is their lines and then the ending. */
  lemma ResponseIsOneStream(env: Env, req: StreamRequest)
    ensures var t := StreamTour(env, req);
            var gid := t.Last().id;
            var step := StepOf(env, req, gid);
            && Gather(StepChunks(env, req), t.tried) == step.delivered
            && Response(env, req) == LinesOf(req, step.delivered, 0)
               + (if t.end.LoadFailed? then [] else Closing(step.end))
            && (step.delivered != [] ==>
                  exists pos, attempt ::
                    && env.stream(gid, pos, attempt).Stream?
                    && Leading(step.delivered, env.stream(gid, pos, attempt).chunks, req.model))
  {
    var t := StreamTour(env, req);
    forall i | 0 <= i < |t.tried| - 1
      ensures StepLines(env, req)(t.tried[i].id) == [] && StepChunks(env, req)(t.tried[i].id) == []
    {
      EarlierGroupsRetreat(env, req, i);
    }
    GatherLast(StepLines(env, req), t.tried);
    GatherLast(StepChunks(env, req), t.tried);
    StepDelivers(env, req, t.Last().id);
  }

  // ------------------------------------------------- completeness of the trail

  /** The failed attempts that the engine made for a group. */
  function EngineRows(env: Env, req: StreamRequest): int -> seq<AttemptRow> {
    gid => match env.select(gid)
      case Refused(_) => []
      case Selected(r) => WalkQueue(env, gid, r.endpoints, r.messages, req.params, 0).rows
  }

  /** The driver hears the final state of a group. */
  predicate HearsState(env: Env, req: StreamRequest, gid: int) {
    env.select(gid).Selected? ==>
      var run := WatchedRun(env, req, gid, env.select(gid).result);
      Hear(env, req, gid, run.chunks, run.state, None, 0).end.Drained?
  }

  /** The chunks that a group has to offer: what a consumer that always goes on would get. */
  function Offered(env: Env, req: StreamRequest, gid: int): seq<Chunk> {
    match env.select(gid)
    case Refused(_) => []
    case Selected(r) => RunGroup(env, gid, r, req.params, Drain).chunks
  }

  /** What the driver's hooks make of the chunk offered at `k`. */
  function VerdictAt(env: Env, req: StreamRequest, gid: int, k: nat): Verdict
    requires k < |Offered(env, req, gid)|
  {
    Judge(env, req, gid, k, ChunkEvent(Offered(env, req, gid)[k]))
  }

  /** The hooks let the first `k` chunks through, and give this verdict on the next. */
  predicate FirstVerdict(env: Env, req: StreamRequest, gid: int, k: nat, verdict: Verdict) {
    && k < |Offered(env, req, gid)| && VerdictAt(env, req, gid, k) == verdict
    && forall j: nat :: j < k ==> VerdictAt(env, req, gid, j) == Continue
  }

  /** Every chunk on offer finds the client connected and is serialized. */
  predicate ChunksPass(env: Env, req: StreamRequest, gid: int) {
    forall k: nat :: k < |Offered(env, req, gid)| ==> VerdictAt(env, req, gid, k) == Continue
  }

  /** And the client is still connected at the final state. */
  predicate HooksLetThrough(env: Env, req: StreamRequest, gid: int) {
    ChunksPass(env, req, gid) && env.driverPoll(gid, |Offered(env, req, gid)|).Connected?
  }

  /** The engine's run under the driver's hooks: it ends early exactly at the first chunk on
      offer that the hooks do not let through. */
  lemma WatchedAgainstOffered(env: Env, req: StreamRequest, gid: int)
    requires env.select(gid).Selected?
    ensures var run, offered := WatchedRun(env, req, gid, env.select(gid).result), Offered(env, req, gid);
            var n := |run.chunks|;
            && n <= |offered| && run.chunks == offered[..n]
            && (if run.state.Some? then n == |offered| else n > 0 && VerdictAt(env, req, gid, n - 1) != Continue)
            && forall j: nat :: j < (if run.state.Some? then n else n - 1) ==> VerdictAt(env, req, gid, j) == Continue
  {
    GroupStopsFirst(env, gid, env.select(gid).result, req.params, Watch(env, req, gid));
    var offered := Offered(env, req, gid);
    forall k: nat | k < |offered|
      ensures VerdictAt(env, req, gid, k) == Watch(env, req, gid)(k, ChunkEvent(offered[k]))
    {
    }
  }

  lemma {:induction false} HearToTheEnd(env: Env, req: StreamRequest, gid: int, chunks: seq<Chunk>,
                                        state: Option<StreamState>, usage: Option<string>, k: nat)
    requires k <= |chunks| && state.Some?
    requires forall i: nat :: k <= i < |chunks| ==> Judge(env, req, gid, i, ChunkEvent(chunks[i])) == Continue
    ensures Hear(env, req, gid, chunks, state, usage, k).end
            == match env.driverPoll(gid, |chunks|)
               case Connected => Drained(state.value)
               case Disconnected => Left
               case PollRaises(name, message) => HookFailed(HookError(name, message))
    decreases |chunks| - k
  {
    if k < |chunks| {
      assert Judge(env, req, gid, k, ChunkEvent(chunks[k])) == Continue;
      var u := req.serialize(k, chunks[k].(model := req.model)).usage;
      HearToTheEnd(env, req, gid, chunks, state, if u.Some? then u else usage, k + 1);
    }
  }

  /** The driver hears a group's final state if and only if its hooks let through every chunk
      on offer and find the client connected at the end. */
  lemma HearsStateExactly(env: Env, req: StreamRequest, gid: int)
    requires env.select(gid).Selected?
    ensures HearsState(env, req, gid) <==> HooksLetThrough(env, req, gid)
  {
    var r := env.select(gid).result;
    var run, offered := WatchedRun(env, req, gid, r), Offered(env, req, gid);
    WatchedAgainstOffered(env, req, gid);
    if run.state.Some? {
      assert run.chunks == offered;
      forall i: nat | i < |offered|
        ensures Judge(env, req, gid, i, ChunkEvent(run.chunks[i])) == Continue
      {
        assert VerdictAt(env, req, gid, i) == Continue;
      }
      HearToTheEnd(env, req, gid, run.chunks, run.state, None, 0);
    } else {
      DriverHearsAll(env, req, gid, r);
      assert VerdictAt(env, req, gid, |run.chunks| - 1) != Continue;
    }
  }

  lemma StepRowsComplete(env: Env, req: StreamRequest, gid: int)
    ensures StepRows(env, req)(gid) == EngineRows(env, req)(gid)
            <==> HearsState(env, req, gid) || EngineRows(env, req)(gid) == []
    ensures StepOf(env, req, gid).end.Retreats? ==> HearsState(env, req, gid)
  {
    if env.select(gid).Selected? {
      var r := env.select(gid).result;
      var run := WatchedRun(env, req, gid, r);
      HearDelivers(env, req, gid, run.chunks, run.state, None, 0);
      if WalkQueue(env, gid, r.endpoints, r.messages, req.params, 0).winner.Some? {
        WinnerStarts(env, gid, r.endpoints, r.messages, req.params, 0);
      }
    }
  }

  lemma {:induction false} GatherDiffersAtLast<T>(a: int -> seq<T>, b: int -> seq<T>, tried: seq<Group>)
    requires tried != [] && forall i :: 0 <= i < |tried| - 1 ==> a(tried[i].id) == b(tried[i].id)
    ensures Gather(a, tried) == Gather(b, tried) <==> a(tried[|tried| - 1].id) == b(tried[|tried| - 1].id)
  {
    if |tried| > 1 {
      GatherDiffersAtLast(a, b, tried[1..]);
      var head, x, y := a(tried[0].id), Gather(a, tried[1..]), Gather(b, tried[1..]);
      assert (head + x)[|head|..] == x && (head + y)[|head|..] == y;
    }
  }

  /** The submitted trail holds every failed attempt of the tried groups, in order, if and
      only if the hooks let through all that the last group has to offer, up to its final
      state, or that group had no failed attempt: an early disconnect or a failing hook loses
      that group's rows. */
  lemma TrailComplete(env: Env, req: StreamRequest)
    ensures var t := StreamTour(env, req);
            Gather(StepRows(env, req), t.tried) == Gather(EngineRows(env, req), t.tried)
            <==> HooksLetThrough(env, req, t.Last().id) || EngineRows(env, req)(t.Last().id) == []
  {
    var t := StreamTour(env, req);
    forall i | 0 <= i < |t.tried| - 1
      ensures StepRows(env, req)(t.tried[i].id) == EngineRows(env, req)(t.tried[i].id)
    {
      EarlierGroupsRetreat(env, req, i);
      StepRowsComplete(env, req, t.tried[i].id);
    }
    GatherDiffersAtLast(StepRows(env, req), EngineRows(env, req), t.tried);
    StepRowsComplete(env, req, t.Last().id);
    if env.select(t.Last().id).Selected? {
      HearsStateExactly(env, req, t.Last().id);
    }
  }

  /** Hooks that never report a disconnect and never raise. */
  ghost predicate SteadyHooks(env: Env, req: StreamRequest) {
    && (forall gid, k: nat :: env.driverPoll(gid, k).Connected?)
    && (forall k: nat, chunk :: req.serialize(k, chunk).Lines?)
  }

  lemma SteadyHooksHearState(env: Env, req: StreamRequest, gid: int)
    requires SteadyHooks(env, req)
    ensures HearsState(env, req, gid)
  {
    if env.select(gid).Selected? {
      var r := env.select(gid).result;
      var run := WatchedRun(env, req, gid, r);
      DriverHearsAll(env, req, gid, r);
      SteadyHearing(env, req, gid, run.chunks, run.state, None, 0);
    }
  }

  lemma {:induction false} SteadyHearing(env: Env, req: StreamRequest, gid: int, chunks: seq<Chunk>,
                                         state: Option<StreamState>, usage: Option<string>, k: nat)
    requires SteadyHooks(env, req) && k <= |chunks|
    ensures var h := Hear(env, req, gid, chunks, state, usage, k);
            |h.delivered| == |chunks| - k && (state.Some? ==> h.end.Drained?)
    decreases |chunks| - k
  {
    if k < |chunks| {
      var u := req.serialize(k, chunks[k].(model := req.model)).usage;
      SteadyHearing(env, req, gid, chunks, state, if u.Some? then u else usage, k + 1);
    }
  }
}
