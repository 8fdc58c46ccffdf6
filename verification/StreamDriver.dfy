/** The streaming driver: one group after another until a stream is committed. */
module StreamDriver {
  import opened Options
  import opened Routing
  import opened Upstream
  import opened Streaming
  import opened Fallback
  import opened ChatDriver
  import FastPath
  import Decimal

  /** What the protocol's serializer makes of a chunk. It may fail, but never with one of
      the routing errors. The index is the number of chunks serialized before. */
  datatype Serialized = Lines(lines: seq<string>, usage: Option<string>)
      | SerializeRaises(name: string, message: string)

  datatype Line = Data(text: string) | ErrorLine(message: string) | DoneSignal

  datatype StreamRequest = StreamRequest(
    model: string,
    primary: Group,
    params: Params, serialize: (nat, Chunk) -> Serialized)

  /** A hook of the transport failed: caught by the driver's last `except` clause. */
  function HookError(name: string, message: string): Error {
    Error(Unexpected(name), message, false)
  }

  // ------------------------------------------------- listening to one group

  /** How the driver's loop over a group's events ends. */
  datatype Hearing = Drained(state: StreamState) | Left | HookFailed(error: Error)

  datatype Heard = Heard(lines: seq<Line>, delivered: seq<Chunk>, usage: Option<string>, end: Hearing)

  function Textual(lines: seq<string>): seq<Line> {
    seq(|lines|, i requires 0 <= i < |lines| => Data(lines[i]))
  }

  /** The driver's verdict on an event, as the engine's generator experiences it: aclose()
      on a disconnect, and no further request for events when a hook raises. */
  function Watch(env: Env, req: StreamRequest, gid: int): Consumer {
    (k: nat, event: Event) => Judge(env, req, gid, k, event)
  }

  function Judge(env: Env, req: StreamRequest, gid: int, k: nat, event: Event): Verdict {
    match env.driverPoll(gid, k)
    case Disconnected => Close
    case PollRaises(_, _) => Abandon
    case Connected =>
      match event
      case StateEvent(_) => Continue
      case ChunkEvent(chunk) =>
        if req.serialize(k, chunk.(model := req.model)).SerializeRaises? then Abandon else Continue
  }

  /** The loop `async for kind, payload in gen`, from event `k` on. An absent state means
      that the generator produced no event after the last chunk. */
  function Hear(env: Env, req: StreamRequest, gid: int, chunks: seq<Chunk>, state: Option<StreamState>,
                usage: Option<string>, k: nat): Heard
    requires k <= |chunks|
    decreases |chunks| - k
  {
    if k == |chunks| && state.None? then
      Heard([], [], usage, Left)
    else
      match env.driverPoll(gid, k)
      case Disconnected => Heard([], [], usage, Left)
      case PollRaises(name, message) => Heard([], [], usage, HookFailed(HookError(name, message)))
      case Connected =>
        if k == |chunks| then
          Heard([], [], usage, Drained(state.value))
        else
          var chunk := chunks[k].(model := req.model);
          match req.serialize(k, chunk)
          case SerializeRaises(name, message) => Heard([], [], usage, HookFailed(HookError(name, message)))
          case Lines(lines, u) =>
            var rest := Hear(env, req, gid, chunks, state, if u.Some? then u else usage, k + 1);
            Heard(Textual(lines) + rest.lines, [chunk] + rest.delivered, rest.usage, rest.end)
  }

  method Listen(env: Env, req: StreamRequest, gid: int, chunks: seq<Chunk>, state: Option<StreamState>)
    returns (lines: seq<Line>, usage: Option<string>, end: Hearing)
    ensures var h := Hear(env, req, gid, chunks, state, None, 0);
            lines == h.lines && usage == h.usage && end == h.end
  {
    ghost var whole := Hear(env, req, gid, chunks, state, None, 0);
    lines, usage := [], None;
    for k := 0 to |chunks|
      invariant var rest := Hear(env, req, gid, chunks, state, usage, k);
                && whole.lines == lines + rest.lines
                && whole.usage == rest.usage && whole.end == rest.end
    {
      match env.driverPoll(gid, k) {
        case Disconnected =>
          end := Left;
          return;
        case PollRaises(name, message) =>
          end := HookFailed(HookError(name, message));
          return;
        case Connected =>
          var chunk := chunks[k].(model := req.model);
          match req.serialize(k, chunk) {
            case SerializeRaises(name, message) =>
              end := HookFailed(HookError(name, message));
              return;
            case Lines(texts, u) =>
              ghost var rest := Hear(env, req, gid, chunks, state, if u.Some? then u else usage, k + 1);
              Assoc(lines, Textual(texts), rest.lines);
              lines := lines + Textual(texts);
              usage := if u.Some? then u else usage;
          }
      }
    }
    if state.None? {
      end := Left;
    } else {
      match env.driverPoll(gid, |chunks|) {
        case Disconnected => end := Left;
        case PollRaises(name, message) => end := HookFailed(HookError(name, message));
        case Connected => end := Drained(state.value);
      }
    }
  }

  // ------------------------------------------------- one group

  /** What running a group contributes, and how the driver goes on from it. */
  datatype Step = Step(lines: seq<Line>, delivered: seq<Chunk>, usage: Option<string>, rows: seq<AttemptRow>,
                       effects: seq<Effect>, end: StepEnd)

  datatype StepEnd =
    | Finishes(modelId: Option<int>, providerId: Option<int>)
    | Retreats(error: Error, modelId: Option<int>, providerId: Option<int>)
    | Fatal(error: Error)

  function StreamExhausted(gid: int): Error {
    ProviderError("Group " + Decimal.Print(gid) + " stream exhausted, fallback")
  }

  function EndOf(gid: int, hearing: Hearing): StepEnd {
    match hearing
    case Left => Finishes(None, None)
    case HookFailed(e) => Fatal(e)
    case Drained(state) =>
      if state.recoverable then Retreats(StreamExhausted(gid), state.usedModelId, state.usedProviderId)
      else Finishes(state.usedModelId, state.usedProviderId)
  }

  function RowsOf(hearing: Hearing): seq<AttemptRow> {
    if hearing.Drained? then hearing.state.attempts else []
  }

  function WatchedRun(env: Env, req: StreamRequest, gid: int, result: RouteResult): GroupRun {
    RunGroup(env, gid, result, req.params, Watch(env, req, gid))
  }

  function StepOf(env: Env, req: StreamRequest, gid: int): Step {
    match env.select(gid)
    case Refused(e) =>
      Step([], [], None, [], [], if e.Recoverable() then Retreats(e, None, None) else Fatal(e))
    case Selected(result) =>
      var run := WatchedRun(env, req, gid, result);
      var heard := Hear(env, req, gid, run.chunks, run.state, None, 0);
      Step(heard.lines, heard.delivered, heard.usage, RowsOf(heard.end), run.effects, EndOf(gid, heard.end))
  }

  method RunStep(world: World, env: Env, req: StreamRequest, gid: int)
    returns (lines: seq<Line>, usage: Option<string>, rows: seq<AttemptRow>, end: StepEnd)
    modifies world`trace
    ensures var step := StepOf(env, req, gid);
            && lines == step.lines && usage == step.usage && rows == step.rows && end == step.end
            && world.trace == old(world.trace) + step.effects
  {
    match env.select(gid) {
      case Refused(e) =>
        return [], None, [], if e.Recoverable() then Retreats(e, None, None) else Fatal(e);
      case Selected(result) =>
        var chunks, state := FastPath.RunStreamFast(world, env, gid, req.params, result, Watch(env, req, gid));
        var hearing;
        lines, usage, hearing := Listen(env, req, gid, chunks, state);
        rows, end := RowsOf(hearing), EndOf(gid, hearing);
    }
  }

  // ------------------------------------------------- _drive_stream

  function StepOutcome(end: StepEnd): Outcome {
    match end
    case Finishes(_, _) => Settles
    case Retreats(_, _, _) => FallsBack
    case Fatal(_) => Breaks
  }

  function StreamOutcomes(env: Env, req: StreamRequest): int -> Outcome {
    gid => StepOutcome(StepOf(env, req, gid).end)
  }

  function StepLines(env: Env, req: StreamRequest): int -> seq<Line> {
    gid => StepOf(env, req, gid).lines
  }

  function StepRows(env: Env, req: StreamRequest): int -> seq<AttemptRow> {
    gid => StepOf(env, req, gid).rows
  }

  function StepEffects(env: Env, req: StreamRequest): int -> seq<Effect> {
    gid => StepOf(env, req, gid).effects
  }

  function StepChunks(env: Env, req: StreamRequest): int -> seq<Chunk> {
    gid => StepOf(env, req, gid).delivered
  }

  function StreamTour(env: Env, req: StreamRequest): Tour {
    WholeTour(StreamOutcomes(env, req), env.groups, req.primary)
  }

  /** The lines that end the response, after the data lines. */
  function Closing(end: StepEnd): seq<Line> {
    match end
    case Finishes(_, _) => [DoneSignal]
    case Retreats(e, _, _) => [ErrorLine(e.message), DoneSignal]
    case Fatal(e) => [ErrorLine(e.message), DoneSignal]
  }

  function FatalRow(gid: int, end: StepEnd): seq<AttemptRow> {
    if end.Fatal? then [RouteRow(gid, end.error)] else []
  }

  function RecordOf(primary: int, end: StepEnd, usage: Option<string>): CallRecord {
    match end
    case Finishes(modelId, providerId) => CallRecord(primary, modelId, providerId, usage, None)
    case Retreats(e, modelId, providerId) => CallRecord(primary, modelId, providerId, None, Some(e))
    case Fatal(e) => CallRecord(primary, None, None, None, Some(e))
  }

  /** What the client receives. */
  function Response(env: Env, req: StreamRequest): seq<Line> {
    var t := StreamTour(env, req);
    Gather(StepLines(env, req), t.tried)
    + if t.end.LoadFailed? then [] else Closing(StepOf(env, req, t.Last().id).end)
  }

  /** The attempt rows that are submitted to the log. */
  function StreamTrail(env: Env, req: StreamRequest): seq<AttemptRow> {
    var t := StreamTour(env, req);
    Gather(StepRows(env, req), t.tried) + FatalRow(t.Last().id, StepOf(env, req, t.Last().id).end)
  }

  /** One turn of the loop: run a group, pass its lines on, take over its rows. */
  method Turn(world: World, env: Env, req: StreamRequest, group: Group, lines: seq<Line>, attempts: seq<AttemptRow>,
              ghost tried: seq<Group>, ghost start: seq<Effect>)
    returns (lines': seq<Line>, usage: Option<string>, attempts': seq<AttemptRow>, end: StepEnd)
    requires lines == Gather(StepLines(env, req), tried)
    requires attempts == Gather(StepRows(env, req), tried)
    requires world.trace == start + Gather(StepEffects(env, req), tried)
    modifies world`trace
    ensures end == StepOf(env, req, group.id).end && usage == StepOf(env, req, group.id).usage
    ensures lines' == Gather(StepLines(env, req), tried + [group])
    ensures attempts' == Gather(StepRows(env, req), tried + [group])
    ensures world.trace == start + Gather(StepEffects(env, req), tried + [group])
  {
    var more, rows;
    more, usage, rows, end := RunStep(world, env, req, group.id);
    lines', attempts' := lines + more, attempts + rows;
    GatherAppends(StepLines(env, req), tried, group);
    GatherAppends(StepRows(env, req), tried, group);
    GatherAppends(StepEffects(env, req), tried, group);
    Assoc(start, Gather(StepEffects(env, req), tried), StepEffects(env, req)(group.id));
  }

  /** _drive_stream. When a backup group does not load, its error propagates: nothing is
      logged and the response is cut off without a done signal. */
  method DriveStream(world: World, journal: Journal, env: Env, req: StreamRequest)
    returns (lines: seq<Line>, propagates: Option<Error>)
    modifies world`trace, journal
    ensures var t := StreamTour(env, req);
            && lines == Response(env, req)
            && world.trace == old(world.trace) + Gather(StepEffects(env, req), t.tried)
            && propagates == (if t.end.LoadFailed? then Some(GroupNotFound(t.end.groupId)) else None)
            && (t.end.LoadFailed? ==>
                  journal.attemptRows == old(journal.attemptRows) && journal.callRows == old(journal.callRows))
            && (!t.end.LoadFailed? ==>
                  var last := StepOf(env, req, t.Last().id);
                  && journal.attemptRows == old(journal.attemptRows) + StreamTrail(env, req)
                  && journal.callRows == old(journal.callRows) + [RecordOf(req.primary.id, last.end, last.usage)])
  {
    ghost var whole := StreamTour(env, req);
    ghost var tried: seq<Group> := [];
    ghost var outcome, start := StreamOutcomes(env, req), world.trace;
    var group := req.primary;
    var visited := {group.id};
    var attempts: seq<AttemptRow> := [];
    lines := [];
    while true
      invariant group.id in visited && |visited| <= MAX_GROUPS
      invariant OnTour(outcome, env.groups, whole, tried, group, visited)
      invariant lines == Gather(StepLines(env, req), tried) && attempts == Gather(StepRows(env, req), tried)
      invariant world.trace == start + Gather(StepEffects(env, req), tried)
      invariant journal.attemptRows == old(journal.attemptRows) && journal.callRows == old(journal.callRows)
      decreases MAX_GROUPS - |visited|
    {
      var usage, end;
      lines, usage, attempts, end := Turn(world, env, req, group, lines, attempts, tried, start);
      var stop, next, visited' := Advance(env.groups, group, visited, StepOutcome(end), outcome, whole, tried);
      tried := tried + [group];
      if stop.Some? {
        if stop.value.LoadFailed? {
          return lines, Some(GroupNotFound(stop.value.groupId));
        }
        journal.Log(attempts + FatalRow(group.id, end), RecordOf(req.primary.id, end, usage));
        return lines + Closing(end), None;
      }
      group, visited := next, visited';
    }
  }
}
