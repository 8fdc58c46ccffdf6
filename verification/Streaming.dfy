/** What a streaming group run is meant to do, independently of the graph node and of the
    inlined loop that both implement it. */
module Streaming {
  import opened Options
  import opened Routing
  import opened Chatting

  /** The keys of the final state that the streaming driver reads. */
  datatype StreamState = StreamState(
    completed: bool,
    started: bool,
    recoverable: bool,
    usedModelId: Option<int>,
    usedProviderId: Option<int>,
    attempts: seq<AttemptRow>,
    error: Option<Error>)

  datatype Event = ChunkEvent(chunk: Chunk) | StateEvent(state: StreamState)

  /** What the consumer of an event generator does with an event: ask for the next one,
      aclose() the generator, or leave it suspended because of an exception of its own. */
  datatype Verdict = Continue | Close | Abandon

  type Consumer = (nat, Event) -> Verdict

  function Drain(index: nat, event: Event): Verdict {
    Continue
  }

  // ------------------------------------------------------ first chunk of an endpoint

  function Tries(ep: Endpoint): int {
    if ep.maxRetries > 1 then ep.maxRetries else 1
  }

  predicate Starts(out: StreamOutcome) {
    out.Stream? && out.chunks != []
  }

  function FailureOf(out: StreamOutcome): Option<Error>
    requires !Starts(out)
  {
    match out
    case Rejects(e) => Some(e)
    case Stream(_, Raises(e)) => Some(e)
    case Stream(_, Completes) => None
  }

  function FailureRow(gid: int, ep: Endpoint, attempt: nat, out: StreamOutcome): AttemptRow
    requires !Starts(out)
  {
    match FailureOf(out)
    case None =>
      StreamRow(gid, ep, attempt, "EmptyStream", ep.modelName + " returned an empty stream")
    case Some(e) =>
      if e.kind.Timeout? then
        StreamRow(gid, ep, attempt, "TimeoutError", ep.modelName + " timed out waiting for first chunk")
      else
        StreamRow(gid, ep, attempt, e.TypeName(), e.message)
  }

  function StreamRow(gid: int, ep: Endpoint, attempt: nat, errorType: string, message: string): AttemptRow {
    AttemptRow(gid, Some(ep.modelId), Some(ep.providerId), "stream", 0, attempt + 1, errorType, message)
  }

  /** Timeouts and retryable errors are tried again while tries remain; an empty stream is not. */
  predicate TryAgain(ep: Endpoint, attempt: nat, out: StreamOutcome)
    requires !Starts(out)
  {
    match FailureOf(out)
    case None => false
    case Some(e) => (e.kind.Timeout? || e.retryable) && attempt < Tries(ep) - 1
  }

  function FailureEffects(gid: int, ep: Endpoint, messages: seq<Message>, params: Params,
                          out: StreamOutcome): seq<Effect>
    requires !Starts(out)
  {
    match out
    case Rejects(_) => []
    case Stream(_, Raises(_)) => Opening(ep, messages, params) + [Release(ep.providerId)]
    case Stream(_, Completes) => Opening(ep, messages, params) + [Release(ep.providerId)] + [Fails(gid, ep)]
  }

  /** The rows and effects of the attempts on one endpoint, and the attempt that started. */
  datatype Acquisition = Acquisition(rows: seq<AttemptRow>, effects: seq<Effect>, winner: Option<nat>)

  function FirstChunk(env: Env, gid: int, pos: nat, ep: Endpoint, messages: seq<Message>, params: Params,
                      attempt: nat): Acquisition
    requires attempt < Tries(ep)
    decreases Tries(ep) - attempt
  {
    var out := env.stream(gid, pos, attempt);
    if Starts(out) then
      Acquisition([], Opening(ep, messages, params), Some(attempt))
    else
      var row := FailureRow(gid, ep, attempt, out);
      var failed := FailureEffects(gid, ep, messages, params, out);
      if TryAgain(ep, attempt, out) then
        var rest := FirstChunk(env, gid, pos, ep, messages, params, attempt + 1);
        Acquisition([row] + rest.rows, failed + ([Backoff(attempt)] + rest.effects), rest.winner)
      else
        Acquisition([row], failed, None)
  }

  // ------------------------------------------------------ the endpoint queue

  /** The endpoint and the attempt whose stream reaches the client. */
  datatype Winner = Winner(pos: nat, attempt: nat)

  datatype Walk = Walk(rows: seq<AttemptRow>, effects: seq<Effect>, winner: Option<Winner>)

  function WalkQueue(env: Env, gid: int, queue: seq<Endpoint>, messages: seq<Message>, params: Params,
                     pos: nat): Walk
    requires pos <= |queue|
    decreases |queue| - pos
  {
    if pos == |queue| then
      Walk([], [], None)
    else
      var first := FirstChunk(env, gid, pos, queue[pos], messages, params, 0);
      if first.winner.Some? then
        Walk(first.rows, first.effects, Some(Winner(pos, first.winner.value)))
      else
        var rest := WalkQueue(env, gid, queue, messages, params, pos + 1);
        Walk(first.rows + rest.rows, first.effects + rest.effects, rest.winner)
  }

  // ------------------------------------------------------ relaying a started stream

  datatype Exit = Ended | BrokeOff | ClientGone | Closed | Abandoned

  datatype Relayed = Relayed(chunks: seq<Chunk>, exit: Exit)

  /** The chunks handed to the consumer from index `k` on, and how the relay ends. */
  function Relay(env: Env, gid: int, chunks: seq<Chunk>, ending: Ending, consumer: Consumer, k: nat): Relayed
    requires k <= |chunks|
    decreases |chunks| - k
  {
    if k == |chunks| then
      Relayed([], if ending.Completes? then Ended else BrokeOff)
    else
      match env.enginePoll(gid, k)
      case Disconnected => Relayed([], ClientGone)
      case PollRaises(_, _) => Relayed([], BrokeOff)
      case Connected =>
        match consumer(k, ChunkEvent(chunks[k]))
        case Close => Relayed([chunks[k]], Closed)
        case Abandon => Relayed([chunks[k]], Abandoned)
        case Continue =>
          var rest := Relay(env, gid, chunks, ending, consumer, k + 1);
          Relayed([chunks[k]] + rest.chunks, rest.exit)
  }

  // ------------------------------------------------------ a whole group run

  datatype GroupRun = GroupRun(chunks: seq<Chunk>, state: Option<StreamState>, effects: seq<Effect>)

  function StartedState(ep: Endpoint, rows: seq<AttemptRow>, completed: bool): StreamState {
    StreamState(completed, true, false, Some(ep.modelId), Some(ep.providerId), rows, None)
  }

  function ExhaustedState(queue: seq<Endpoint>, rows: seq<AttemptRow>): StreamState {
    StreamState(false, false, true, Model(LastTried(queue)), Provider(LastTried(queue)), rows, None)
  }

  function RunGroup(env: Env, gid: int, selected: RouteResult, params: Params, consumer: Consumer): GroupRun {
    var queue := selected.endpoints;
    var walk := WalkQueue(env, gid, queue, selected.messages, params, 0);
    match walk.winner
    case None =>
      GroupRun([], Some(ExhaustedState(queue, walk.rows)), walk.effects)
    case Some(Winner(pos, attempt)) =>
      WinnerStarts(env, gid, queue, selected.messages, params, 0);
      var out := env.stream(gid, pos, attempt);
      var ep := queue[pos];
      var relay := Relay(env, gid, out.chunks, out.ending, consumer, 0);
      var started := walk.effects + [Succeeded(gid, ep.modelId)];
      match relay.exit
      case Closed => GroupRun(relay.chunks, None, started + [Release(ep.providerId)])
      case Abandoned => GroupRun(relay.chunks, None, started)
      case _ =>
        GroupRun(relay.chunks, Some(StartedState(ep, walk.rows, relay.exit.Ended?)),
                 started + [Release(ep.providerId)])
  }

  lemma {:induction false} FirstChunkStarts(env: Env, gid: int, pos: nat, ep: Endpoint,
                                            messages: seq<Message>, params: Params, attempt: nat)
    requires attempt < Tries(ep)
    ensures var f := FirstChunk(env, gid, pos, ep, messages, params, attempt);
            && (f.winner.Some? ==>
                  && attempt <= f.winner.value < Tries(ep)
                  && Starts(env.stream(gid, pos, f.winner.value))
                  && |f.rows| == f.winner.value - attempt)
            && (f.winner.None? ==> f.rows != [])
    decreases Tries(ep) - attempt
  {
    var out := env.stream(gid, pos, attempt);
    if !Starts(out) && TryAgain(ep, attempt, out) {
      FirstChunkStarts(env, gid, pos, ep, messages, params, attempt + 1);
    }
  }

  /** The winner is a queue position and an attempt whose stream yields a first chunk; with
      no winner every endpoint of the queue has left at least one row. */
  lemma {:induction false} WinnerStarts(env: Env, gid: int, queue: seq<Endpoint>, messages: seq<Message>,
                                        params: Params, pos: nat)
    requires pos <= |queue|
    ensures var w := WalkQueue(env, gid, queue, messages, params, pos);
            && (w.winner.Some? ==>
                  && pos <= w.winner.value.pos < |queue|
                  && w.winner.value.attempt < Tries(queue[w.winner.value.pos])
                  && Starts(env.stream(gid, w.winner.value.pos, w.winner.value.attempt)))
            && (w.winner.None? ==> |w.rows| >= |queue| - pos)
    decreases |queue| - pos
  {
    if pos < |queue| {
      FirstChunkStarts(env, gid, pos, queue[pos], messages, params, 0);
      WinnerStarts(env, gid, queue, messages, params, pos + 1);
    }
  }
}
