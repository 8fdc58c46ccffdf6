/** How a streaming response ends, and when the call is recorded as a success. */
module StreamEndings {
  import opened Options
  import opened Routing
  import opened Streaming
  import opened Fallback
  import opened Samples
  import opened ChatDriver
  import opened StreamDriver
  import opened StreamSafety
  import WalkMeaning

  // ------------------------------------------------- hooks that raise

  /** A transport hook raises at a chunk on offer, after a quiet poll and a serialized chunk
      for each one before: the driver then stops asking for events. */
  predicate HookRaisesAtChunk(env: Env, req: StreamRequest, gid: int) {
    exists k: nat :: k < |Offered(env, req, gid)| && FirstVerdict(env, req, gid, k, Abandon)
  }

  /** The consumer that the driver is abandons the engine's generator exactly then. */
  lemma AbandonedExactly(env: Env, req: StreamRequest, gid: int)
    requires env.select(gid).Selected?
    ensures var run := WatchedRun(env, req, gid, env.select(gid).result);
            HookRaisesAtChunk(env, req, gid) <==>
              run.state.None? && run.chunks != []
              && Watch(env, req, gid)(|run.chunks| - 1, ChunkEvent(run.chunks[|run.chunks| - 1])) == Abandon
  {
    var run := WatchedRun(env, req, gid, env.select(gid).result);
    WatchedAgainstOffered(env, req, gid);
    if run.state.None? {
      var last: nat := |run.chunks| - 1;
      assert VerdictAt(env, req, gid, last) == Watch(env, req, gid)(last, ChunkEvent(run.chunks[last]));
      assert VerdictAt(env, req, gid, last) != Continue;
      assert FirstVerdict(env, req, gid, last, VerdictAt(env, req, gid, last));
    }
  }

  lemma AbandonedByHook(env: Env, req: StreamRequest, gid: int, r: RouteResult)
    requires WatchedRun(env, req, gid, r).state.None?
    ensures var run := WatchedRun(env, req, gid, r);
            && run.chunks != []
            && (Hear(env, req, gid, run.chunks, run.state, None, 0).end.HookFailed?
                <==> Watch(env, req, gid)(|run.chunks| - 1, ChunkEvent(run.chunks[|run.chunks| - 1])) == Abandon)
  {
    var walk := WalkQueue(env, gid, r.endpoints, r.messages, req.params, 0);
    WinnerStarts(env, gid, r.endpoints, r.messages, req.params, 0);
    var out := env.stream(gid, walk.winner.value.pos, walk.winner.value.attempt);
    RelayHeeds(env, gid, out.chunks, out.ending, Watch(env, req, gid), 0);
    HookAtLast(env, req, gid, WatchedRun(env, req, gid, r).chunks, None, 0);
  }

  lemma {:induction false} HookAtLast(env: Env, req: StreamRequest, gid: int, chunks: seq<Chunk>,
                                      usage: Option<string>, k: nat)
    requires k < |chunks|
    requires forall i :: k <= i < |chunks| - 1 ==> Watch(env, req, gid)(i, ChunkEvent(chunks[i])) == Continue
    requires Watch(env, req, gid)(|chunks| - 1, ChunkEvent(chunks[|chunks| - 1])) != Continue
    ensures Hear(env, req, gid, chunks, None, usage, k).end.HookFailed?
            <==> Watch(env, req, gid)(|chunks| - 1, ChunkEvent(chunks[|chunks| - 1])) == Abandon
    decreases |chunks| - k
  {
    var verdict := Watch(env, req, gid)(k, ChunkEvent(chunks[k]));
    assert verdict == Judge(env, req, gid, k, ChunkEvent(chunks[k]));
    if k < |chunks| - 1 {
      var u := req.serialize(k, chunks[k].(model := req.model)).usage;
      HookAtLast(env, req, gid, chunks, if u.Some? then u else usage, k + 1);
    }
  }

  // ------------------------------------------------- when a request fails

  /** No endpoint of a queue brings a first chunk. */
  ghost predicate NoneStreams(env: Env, gid: int, queue: seq<Endpoint>) {
    forall p: nat :: p < |queue| ==> !WalkMeaning.Streams(env, gid, p, queue[p])
  }

  /** A hook raises at a chunk on offer, or the last poll does after all chunks passed. */
  predicate HookRaises(env: Env, req: StreamRequest, gid: int) {
    || HookRaisesAtChunk(env, req, gid)
    || (ChunksPass(env, req, gid) && env.driverPoll(gid, |Offered(env, req, gid)|).PollRaises?)
  }

  /** A request whose last group is `gid` fails: the selection is refused, a hook raises, or no
      endpoint streams while the client is seen to be connected. */
  ghost predicate RequestFails(env: Env, req: StreamRequest, gid: int) {
    match env.select(gid)
    case Refused(_) => true
    case Selected(result) =>
      HookRaises(env, req, gid) || (NoneStreams(env, gid, result.endpoints) && env.driverPoll(gid, 0).Connected?)
  }

  /** What a group's run has to show for it when no endpoint streams. */
  lemma NoneStreamsExactly(env: Env, req: StreamRequest, gid: int, r: RouteResult)
    requires env.select(gid) == Selected(r)
    ensures var run := WatchedRun(env, req, gid, r);
            && (run.state.Some? ==> (run.state.value.recoverable <==> NoneStreams(env, gid, r.endpoints)))
            && (NoneStreams(env, gid, r.endpoints) ==> run.state.Some? && Offered(env, req, gid) == [])
  {
    WalkMeaning.NoWinnerExactly(env, gid, r.endpoints, r.messages, req.params, 0);
    if !NoneStreams(env, gid, r.endpoints) {
      var w := WalkQueue(env, gid, r.endpoints, r.messages, req.params, 0).winner;
      WinnerStarts(env, gid, r.endpoints, r.messages, req.params, 0);
      assert w.Some?;
    }
  }

  lemma StepFailsExactly(env: Env, req: StreamRequest, gid: int)
    ensures StepOf(env, req, gid).end.Finishes? <==> !RequestFails(env, req, gid)
  {
    if env.select(gid).Selected? {
      var r := env.select(gid).result;
      var run, offered := WatchedRun(env, req, gid, r), Offered(env, req, gid);
      WatchedAgainstOffered(env, req, gid);
      NoneStreamsExactly(env, req, gid, r);
      AbandonedExactly(env, req, gid);
      if run.state.None? {
        AbandonedByHook(env, req, gid, r);
        DriverHearsAll(env, req, gid, r);
        assert VerdictAt(env, req, gid, |run.chunks| - 1) != Continue;
      } else {
        assert run.chunks == offered;
        forall i: nat | i < |offered|
          ensures Judge(env, req, gid, i, ChunkEvent(run.chunks[i])) == Continue
        {
          assert VerdictAt(env, req, gid, i) == Continue;
        }
        HearToTheEnd(env, req, gid, run.chunks, run.state, None, 0);
      }
    }
  }

  // ------------------------------------------------- the end of the response

  /** All lines are data but the last, which is the done signal, and the one before it, which
      is an error line exactly when the request fails. */
  predicate EndsOnce(lines: seq<Line>, fails: bool) {
    var n := |lines|;
    && n > 0 && lines[n - 1] == DoneSignal
    && (!fails ==> forall i :: 0 <= i < n - 1 ==> lines[i].Data?)
    && (fails ==> n > 1 && lines[n - 2].ErrorLine? && forall i :: 0 <= i < n - 2 ==> lines[i].Data?)
  }

  lemma DataThenClosing(data: seq<Line>, end: StepEnd)
    requires forall i :: 0 <= i < |data| ==> data[i].Data?
    ensures EndsOnce(data + Closing(end), !end.Finishes?)
  {
  }

  lemma LoadFailureIsSilent(env: Env, req: StreamRequest)
    requires StreamTour(env, req).end.LoadFailed?
    ensures StepOf(env, req, StreamTour(env, req).Last().id).delivered == []
  {
    TourIsChain(StreamOutcomes(env, req), env.groups, req.primary);
    var gid := StreamTour(env, req).Last().id;
    assert StreamOutcomes(env, req)(gid) == FallsBack;
    StepDelivers(env, req, gid);
  }

  /** The lines of the delivered chunks; there are none when a backup group does not load. */
  lemma ResponseParts(env: Env, req: StreamRequest) returns (data: seq<Line>)
    ensures forall i :: 0 <= i < |data| ==> data[i].Data?
    ensures var t := StreamTour(env, req);
            if t.end.LoadFailed? then data == Response(env, req) == []
            else Response(env, req) == data + Closing(StepOf(env, req, t.Last().id).end)
  {
    var delivered := StepOf(env, req, StreamTour(env, req).Last().id).delivered;
    ResponseIsOneStream(env, req);
    LinesAreData(req, delivered, 0);
    data := LinesOf(req, delivered, 0);
    assert forall i :: 0 <= i < |data| ==> data[i] in data;
    if StreamTour(env, req).end.LoadFailed? {
      LoadFailureIsSilent(env, req);
    }
  }

  /** The call record that the driver logs at the end of a request. */
  function Recorded(env: Env, req: StreamRequest): CallRecord {
    var last := StepOf(env, req, StreamTour(env, req).Last().id);
    RecordOf(req.primary.id, last.end, last.usage)
  }

  /** The response ends with exactly one done signal, preceded by at most one error line, and
      that exactly when the request fails; all before is data, and the call record tells of a
      failure in the same cases. When a backup group does not load, and only then, the response
      stops without either. */
  lemma ResponseEndsOnce(env: Env, req: StreamRequest)
    ensures var t, lines := StreamTour(env, req), Response(env, req);
            if t.end.LoadFailed? then lines == []
            else
              var fails := RequestFails(env, req, t.Last().id);
              EndsOnce(lines, fails) && (Recorded(env, req).error.Some? <==> fails)
  {
    var gid := StreamTour(env, req).Last().id;
    var data := ResponseParts(env, req);
    DataThenClosing(data, StepOf(env, req, gid).end);
    StepFailsExactly(env, req, gid);
  }

  /** Every group that is named as a backup loads. */
  predicate BackupsLoad(groups: map<int, Option<int>>, primary: Group) {
    && (primary.fallback.Some? ==> primary.fallback.value in groups)
    && forall id :: id in groups && groups[id].Some? ==> groups[id].value in groups
  }

  /** Then every response ends with its done signal. */
  lemma LoadedBackupsEndOnce(env: Env, req: StreamRequest)
    requires BackupsLoad(env.groups, req.primary)
    ensures EndsOnce(Response(env, req), RequestFails(env, req, StreamTour(env, req).Last().id))
  {
    var t, outcome := StreamTour(env, req), StreamOutcomes(env, req);
    TourIsChain(outcome, env.groups, req.primary);
    var n := |t.tried|;
    assert n > 1 ==> Linked(outcome, env.groups, t.tried[n - 2], t.tried[n - 1]);
    ResponseEndsOnce(env, req);
  }

  // ------------------------------------------------- failures that look like successes

  /** When no endpoint of the last group streams, the call is nevertheless recorded without an
      error if and only if the client is seen to be gone at that group's only event. */
  lemma FailureHiddenExactly(env: Env, req: StreamRequest)
    requires var gid := StreamTour(env, req).Last().id;
             env.select(gid).Selected? && NoneStreams(env, gid, env.select(gid).result.endpoints)
    ensures var t := StreamTour(env, req);
            !t.end.LoadFailed? && Recorded(env, req).error.None? <==> env.driverPoll(t.Last().id, 0).Disconnected?
  {
    var t := StreamTour(env, req);
    var gid := t.Last().id;
    NoneStreamsExactly(env, req, gid, env.select(gid).result);
    StepFailsExactly(env, req, gid);
    if StepOf(env, req, gid).end.Finishes? {
      FinishedSettles(env, req);
    }
  }

  /** Nothing is then kept of a primary group's failure: no attempt row, no error line, no
      backup group, and a call record without an error. */
  lemma DisconnectHidesFailure(env: Env, req: StreamRequest)
    requires env.select(req.primary.id).Selected?
    requires var queue := env.select(req.primary.id).result.endpoints;
             queue != [] && NoneStreams(env, req.primary.id, queue)
    requires env.driverPoll(req.primary.id, 0).Disconnected?
    ensures EngineRows(env, req)(req.primary.id) != []
    ensures StreamTour(env, req) == Tour([req.primary], Settled)
    ensures StreamTrail(env, req) == [] && Response(env, req) == [DoneSignal] && Recorded(env, req).error.None?
  {
    var gid, r := req.primary.id, env.select(req.primary.id).result;
    WalkMeaning.NoWinnerExactly(env, gid, r.endpoints, r.messages, req.params, 0);
    WinnerStarts(env, gid, r.endpoints, r.messages, req.params, 0);
    var run := WatchedRun(env, req, gid, r);
    assert run.chunks == [];
    var step := StepOf(env, req, gid);
    assert step.end == Finishes(None, None) && step.rows == [] && step.lines == [];
    var t := StreamTour(env, req);
    assert t == Tour([req.primary], Settled) && t.tried[1..] == [];
    assert Gather(StepRows(env, req), t.tried) == step.rows + Gather(StepRows(env, req), t.tried[1..]);
    assert Gather(StepLines(env, req), t.tried) == step.lines + Gather(StepLines(env, req), t.tried[1..]);
  }

  function Renamed(chunks: seq<Chunk>, model: string): seq<Chunk> {
    seq(|chunks|, i requires 0 <= i < |chunks| => chunks[i].(model := model))
  }

  lemma {:induction false} ConnectedRelay(env: Env, gid: int, chunks: seq<Chunk>, ending: Ending, k: nat)
    requires k <= |chunks| && forall i: nat :: k <= i < |chunks| ==> env.enginePoll(gid, i).Connected?
    ensures |Relay(env, gid, chunks, ending, Drain, k).chunks| == |chunks| - k
    decreases |chunks| - k
  {
    if k < |chunks| {
      ConnectedRelay(env, gid, chunks, ending, k + 1);
    }
  }

  /** A group's stream is that of attempt `a` at position `p`; both clients' polls and the
      serializer let all its chunks through, and then it breaks off. */
  ghost predicate BreaksOffLate(env: Env, req: StreamRequest, gid: int, p: nat, a: nat) {
    && env.select(gid).Selected?
    && var queue, out := env.select(gid).result.endpoints, env.stream(gid, p, a);
    && p < |queue| && WalkMeaning.StartsAt(env, gid, p, queue[p], a)
    && (forall q: nat :: q < p ==> !WalkMeaning.Streams(env, gid, q, queue[q]))
    && (forall k: nat :: k < |out.chunks| ==> env.enginePoll(gid, k).Connected?)
    && HooksLetThrough(env, req, gid) && out.ending.Raises?
  }

  lemma LateRun(env: Env, req: StreamRequest, gid: int, p: nat, a: nat)
    requires BreaksOffLate(env, req, gid, p, a)
    ensures var r, out := env.select(gid).result, env.stream(gid, p, a);
            && WalkQueue(env, gid, r.endpoints, r.messages, req.params, 0).winner == Some(Winner(p, a))
            && |Offered(env, req, gid)| == |out.chunks|
            && RunGroup(env, gid, r, req.params, Drain).chunks == Offered(env, req, gid)
  {
    var r, out := env.select(gid).result, env.stream(gid, p, a);
    WalkMeaning.StreamWalkMeaning(env, gid, r.endpoints, r.messages, req.params, 0, p, a);
    ConnectedRelay(env, gid, out.chunks, out.ending, 0);
  }

  lemma LateHearing(env: Env, req: StreamRequest, gid: int, p: nat, a: nat)
    requires BreaksOffLate(env, req, gid, p, a)
    ensures StepOf(env, req, gid).end.Finishes?
    ensures |StepOf(env, req, gid).delivered| == |env.stream(gid, p, a).chunks|
  {
    LateRun(env, req, gid, p, a);
    WatchedAgainstOffered(env, req, gid);
    DriverHearsAll(env, req, gid, env.select(gid).result);
    assert WalkMeaning.Streams(env, gid, p, env.select(gid).result.endpoints[p]);
    StepFailsExactly(env, req, gid);
  }

  lemma LateDelivery(env: Env, req: StreamRequest, gid: int, p: nat, a: nat)
    requires BreaksOffLate(env, req, gid, p, a)
    ensures StepOf(env, req, gid).delivered == Renamed(env.stream(gid, p, a).chunks, req.model)
  {
    LateHearing(env, req, gid, p, a);
    LateRun(env, req, gid, p, a);
    StepDelivers(env, req, gid);
  }

  lemma FinishedSettles(env: Env, req: StreamRequest)
    requires StepOf(env, req, StreamTour(env, req).Last().id).end.Finishes?
    ensures !StreamTour(env, req).end.LoadFailed?
  {
    TourIsChain(StreamOutcomes(env, req), env.groups, req.primary);
    assert StreamOutcomes(env, req)(StreamTour(env, req).Last().id) == Settles;
  }

  /** An upstream that breaks off after its first chunk leaves no sign of it: the client gets
      the lines of the chunks so far and the done signal, and the call is recorded without an
      error. */
  lemma LateFailureLooksComplete(env: Env, req: StreamRequest, p: nat, a: nat)
    requires BreaksOffLate(env, req, StreamTour(env, req).Last().id, p, a)
    ensures var chunks := env.stream(StreamTour(env, req).Last().id, p, a).chunks;
            && Response(env, req) == LinesOf(req, Renamed(chunks, req.model), 0) + [DoneSignal]
            && Recorded(env, req).error.None?
  {
    var gid := StreamTour(env, req).Last().id;
    LateHearing(env, req, gid, p, a);
    LateDelivery(env, req, gid, p, a);
    FinishedSettles(env, req);
    ResponseIsOneStream(env, req);
  }

  /** A world whose clients are all gone. */
  function GoneEnv(): Env {
    SampleEnv().(driverPoll := (gid, k) => Disconnected)
  }

  /** An input on which DisconnectHidesFailure applies, so the trail can be incomplete. */
  lemma TrailCanBeIncomplete(req: StreamRequest)
    ensures Gather(StepRows(GoneEnv(), req), StreamTour(GoneEnv(), req).tried)
            != Gather(EngineRows(GoneEnv(), req), StreamTour(GoneEnv(), req).tried)
  {
    var env, gid, queue := GoneEnv(), req.primary.id, [SAMPLE_ENDPOINT];
    assert FirstChunk(env, gid, 0, SAMPLE_ENDPOINT, [], req.params, 0).winner.None?;
    assert WalkQueue(env, gid, queue, [], req.params, 1).winner.None?;
    assert WalkQueue(env, gid, queue, [], req.params, 0).winner.None?;
    DisconnectHidesFailure(env, req);
    var t := StreamTour(env, req);
    assert t.tried[1..] == [];
    assert Gather(StepRows(env, req), t.tried) == StepRows(env, req)(gid) + Gather(StepRows(env, req), t.tried[1..]);
    assert Gather(EngineRows(env, req), t.tried)
           == EngineRows(env, req)(gid) + Gather(EngineRows(env, req), t.tried[1..]);
  }

  /** An input whose response has no done signal: the only endpoint times out, and the backup
      group does not load. */
  lemma ResponseCanBeCutOff(model: string, params: Params, serialize: (nat, Chunk) -> Serialized)
    ensures var env, req := SampleEnv(), StreamRequest(model, Group(1, Some(2)), params, serialize);
            StreamTour(env, req).end == LoadFailed(2) && Response(env, req) == []
  {
    var env, req := SampleEnv(), StreamRequest(model, Group(1, Some(2)), params, serialize);
    var result := RouteResult([SAMPLE_ENDPOINT], []);
    assert FirstChunk(env, 1, 0, SAMPLE_ENDPOINT, [], params, 0).winner.None?;
    assert WalkQueue(env, 1, [SAMPLE_ENDPOINT], [], params, 1).winner.None?;
    assert WalkQueue(env, 1, [SAMPLE_ENDPOINT], [], params, 0).winner.None?;
    assert WatchedRun(env, req, 1, result).chunks == [] && WatchedRun(env, req, 1, result).state.value.recoverable;
    assert StepOf(env, req, 1).end.Retreats?;
    assert StreamOutcomes(env, req)(1) == FallsBack;
    ResponseEndsOnce(env, req);
  }
}
