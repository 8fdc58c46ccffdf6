/** Calls to the providers: the semaphore-guarded stream and the retrying chat call. */
module Upstream {
  import opened Options
  import opened Routing

  /** Everything a request leaves behind. */
  class World {
    var trace: seq<Effect>

    constructor ()
      ensures trace == []
    {
      trace := [];
    }

    method Emit(e: Effect)
      modifies this`trace
      ensures trace == old(trace) + [e]
    {
      trace := trace + [e];
    }
  }

  datatype Phase = NotStarted | Suspended | Finished

  datatype Pull = Item(chunk: Chunk) | Stop | Raised(error: Error)

  function Over(ending: Ending): Pull {
    match ending
    case Completes => Stop
    case Raises(e) => Raised(e)
  }

  /** semaphore_guarded_stream: the guard is entered at the first pull and left exactly
      once, whichever of exhaustion, failure and closing comes first. */
  class GuardedStream {
    const world: World
    const providerId: int
    const request: Effect
    const chunks: seq<Chunk>
    const ending: Ending
    var pos: nat
    var phase: Phase

    ghost predicate Valid()
      reads this
    {
      && pos <= |chunks|
      && (phase.NotStarted? ==> pos == 0)
    }

    /** The stream `out` after its first chunk. */
    ghost predicate Opened(ep: Endpoint, out: StreamOutcome)
      reads this
    {
      && Valid() && phase == Suspended && pos == 1
      && out == Stream(chunks, ending) && providerId == ep.providerId
    }

    constructor (world: World, providerId: int, request: Effect, chunks: seq<Chunk>, ending: Ending)
      ensures Valid() && phase == NotStarted && pos == 0
      ensures this.world == world && this.providerId == providerId && this.request == request
      ensures this.chunks == chunks && this.ending == ending
    {
      this.world, this.providerId, this.request := world, providerId, request;
      this.chunks, this.ending := chunks, ending;
      pos, phase := 0, NotStarted;
    }

    /** `__anext__`. */
    method Next() returns (r: Pull)
      requires Valid()
      modifies this, world`trace
      ensures Valid()
      ensures old(phase) == Finished ==>
                r == Stop && phase == Finished && pos == old(pos) && world.trace == old(world.trace)
      ensures old(phase) != Finished && old(pos) < |chunks| ==>
                && r == Item(chunks[old(pos)]) && pos == old(pos) + 1 && phase == Suspended
                && world.trace == old(world.trace) + Entering(old(phase))
      ensures old(phase) != Finished && old(pos) == |chunks| ==>
                && phase == Finished && pos == old(pos)
                && r == Over(ending)
                && world.trace == old(world.trace) + Entering(old(phase)) + [Release(providerId)]
    {
      if phase == Finished {
        return Stop;
      }
      if phase == NotStarted {
        world.Emit(Acquire(providerId));
        world.Emit(request);
      }
      if pos < |chunks| {
        r, pos, phase := Item(chunks[pos]), pos + 1, Suspended;
      } else {
        world.Emit(Release(providerId));
        phase := Finished;
        r := Over(ending);
      }
    }

    ghost function Entering(p: Phase): seq<Effect> {
      if p == NotStarted then [Acquire(providerId), request] else []
    }

    /** `aclose`: harmless on a stream that never started or is over. */
    method Aclose()
      requires Valid()
      modifies this, world`trace
      ensures Valid() && phase == Finished && pos == old(pos)
      ensures world.trace == old(world.trace) + if old(phase) == Suspended then [Release(providerId)] else []
    {
      if phase == Suspended {
        world.Emit(Release(providerId));
      }
      phase := Finished;
    }
  }

  /** Opens the guarded stream of one attempt and pulls its first chunk. */
  method FirstPull(world: World, env: Env, gid: int, pos: nat, ep: Endpoint, messages: seq<Message>,
                   params: Params, attempt: nat)
    returns (gen: GuardedStream?, pull: Pull)
    modifies world`trace
    ensures gen != null ==> fresh(gen) && gen.Valid() && gen.world == world
    ensures var out := env.stream(gid, pos, attempt);
            match out
            case Rejects(e) =>
              gen == null && pull == Raised(e) && world.trace == old(world.trace)
            case Stream(chunks, ending) =>
              && gen != null
              && (chunks != [] ==>
                    && gen.Opened(ep, out) && pull == Item(chunks[0])
                    && world.trace == old(world.trace) + Opening(ep, messages, params))
              && (chunks == [] ==>
                    && gen.phase == Finished && pull == Over(ending)
                    && world.trace == old(world.trace) + (Opening(ep, messages, params) + [Release(ep.providerId)]))
  {
    var out := env.stream(gid, pos, attempt);
    match out {
      case Rejects(e) =>
        return null, Raised(e);
      case Stream(chunks, ending) =>
        world.Emit(Look(ep.providerId));
        gen := new GuardedStream(world, ep.providerId, Sending(ep, messages, params), chunks, ending);
        pull := gen.Next();
    }
  }

  // ---------------------------------------------------------------- chat calls

  datatype CallResult = CallResult(reply: Option<Reply>, error: Option<Error>, effects: seq<Effect>)

  /** The effects of a single upstream call under the guard. */
  function Once(ep: Endpoint, messages: seq<Message>, params: Params): seq<Effect> {
    [Acquire(ep.providerId), Sending(ep, messages, params), Release(ep.providerId)]
  }

  /** What call_llm does from attempt `attempt` on. */
  function CallFrom(env: Env, gid: int, pos: nat, ep: Endpoint, messages: seq<Message>, params: Params,
                    attempt: nat, last: Option<Error>): CallResult
    decreases ep.maxRetries - attempt
  {
    if attempt >= ep.maxRetries then
      CallResult(None, last, [Fails(gid, ep)])
    else
      match env.chat(gid, pos, attempt)
      case Replies(reply) =>
        CallResult(Some(reply), None, Once(ep, messages, params) + [Succeeded(gid, ep.modelId)])
      case ChatFails(e) =>
        if e.retryable && attempt < ep.maxRetries - 1 then
          var rest := CallFrom(env, gid, pos, ep, messages, params, attempt + 1, Some(e));
          rest.(effects := Once(ep, messages, params) + ([Backoff(attempt)] + rest.effects))
        else
          CallResult(None, Some(e), Once(ep, messages, params) + [Fails(gid, ep)])
  }

  /** What call_llm does: one lookup of the semaphore, then the attempts. */
  function CallOf(env: Env, gid: int, pos: nat, ep: Endpoint, messages: seq<Message>, params: Params): CallResult {
    var call := CallFrom(env, gid, pos, ep, messages, params, 0, None);
    call.(effects := [Look(ep.providerId)] + call.effects)
  }

  /** One guarded call: `async with sem: await provider.chat(...)`. */
  method CallOnce(world: World, env: Env, gid: int, pos: nat, ep: Endpoint, messages: seq<Message>,
                  params: Params, attempt: nat)
    returns (outcome: ChatOutcome)
    modifies world`trace
    ensures outcome == env.chat(gid, pos, attempt)
    ensures world.trace == old(world.trace) + Once(ep, messages, params)
  {
    world.Emit(Acquire(ep.providerId));
    world.Emit(Sending(ep, messages, params));
    outcome := env.chat(gid, pos, attempt);
    world.Emit(Release(ep.providerId));
  }

  /** One attempt of call_llm: a reply, or an error and whether to try again. */
  method CallAttempt(world: World, env: Env, gid: int, pos: nat, ep: Endpoint, messages: seq<Message>, params: Params,
                     attempt: nat, last: Option<Error>)
    returns (reply: Option<Reply>, error: Option<Error>, retry: bool)
    requires attempt < ep.maxRetries
    modifies world`trace
    ensures var call := CallFrom(env, gid, pos, ep, messages, params, attempt, last);
            if retry then
              var rest := CallFrom(env, gid, pos, ep, messages, params, attempt + 1, error);
              && reply.None? && call.reply == rest.reply && call.error == rest.error
              && old(world.trace) + call.effects == world.trace + rest.effects
            else
              && call.reply == reply && call.error == error
              && old(world.trace) + call.effects
                 == world.trace + [if reply.Some? then Succeeded(gid, ep.modelId) else Fails(gid, ep)]
  {
    ghost var before, once := world.trace, Once(ep, messages, params);
    var outcome := CallOnce(world, env, gid, pos, ep, messages, params, attempt);
    match outcome {
      case Replies(r) =>
        reply, error, retry := Some(r), None, false;
        Assoc(before, once, [Succeeded(gid, ep.modelId)]);
      case ChatFails(e) =>
        reply, error := None, Some(e);
        retry := e.retryable && attempt < ep.maxRetries - 1;
        if retry {
          world.Emit(Backoff(attempt));
          ghost var rest := CallFrom(env, gid, pos, ep, messages, params, attempt + 1, error).effects;
          Assoc(before, once, [Backoff(attempt)] + rest);
          Assoc(before + once, [Backoff(attempt)], rest);
        } else {
          Assoc(before, once, [Fails(gid, ep)]);
        }
    }
  }

  method CallLlm(world: World, env: Env, gid: int, pos: nat, ep: Endpoint, messages: seq<Message>, params: Params)
    returns (reply: Option<Reply>, error: Option<Error>)
    modifies world`trace
    ensures var c := CallOf(env, gid, pos, ep, messages, params);
            reply == c.reply && error == c.error && world.trace == old(world.trace) + c.effects
  {
    ghost var whole := CallFrom(env, gid, pos, ep, messages, params, 0, None);
    Assoc(world.trace, [Look(ep.providerId)], whole.effects);
    world.Emit(Look(ep.providerId));
    reply, error := None, None;
    var attempt: nat := 0;
    while attempt < ep.maxRetries
      invariant var rest := CallFrom(env, gid, pos, ep, messages, params, attempt, error);
                && whole.reply == rest.reply && whole.error == rest.error
                && old(world.trace) + ([Look(ep.providerId)] + whole.effects) == world.trace + rest.effects
      invariant reply.None?
      decreases ep.maxRetries - attempt
    {
      var retry;
      reply, error, retry := CallAttempt(world, env, gid, pos, ep, messages, params, attempt, error);
      if reply.Some? {
        world.Emit(Succeeded(gid, ep.modelId));
        return;
      }
      if !retry {
        break;
      }
      attempt := attempt + 1;
    }
    world.Emit(Fails(gid, ep));
  }
}
