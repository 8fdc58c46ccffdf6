/** The values that travel through the routing engine: endpoints, errors, audit rows,
    and the oracles that stand for everything outside the repository. */
module Routing {
  import opened Options

  /** The exception classes the engine and the drivers tell apart. */
  datatype ErrorKind =
    | NoAvailableModel
    | AllModelsCooldown
    | ProviderFailure
    | Configuration
    | StrategyFailure
    | Timeout
    | Unexpected(name: string)

  /** An exception. `retryable` is the answer of is_retryable_error. */
  datatype Error = Error(kind: ErrorKind, message: string, retryable: bool) {
    /** Instances of BotflowError. StrategyError is not one. */
    predicate Botflow() {
      Recoverable() || kind.Configuration?
    }

    /** Caught by the first `except` clause of both drivers and of route(). */
    predicate Recoverable() {
      kind.NoAvailableModel? || kind.AllModelsCooldown? || kind.ProviderFailure?
    }

    function TypeName(): string {
      match kind
      case NoAvailableModel => "NoAvailableModelError"
      case AllModelsCooldown => "AllModelsCooldownError"
      case ProviderFailure => "ProviderError"
      case Configuration => "ConfigurationError"
      case StrategyFailure => "StrategyError"
      case Timeout => "TimeoutError"
      case Unexpected(name) => name
    }
  }

  function ProviderError(message: string): Error {
    Error(ProviderFailure, message, false)
  }

  datatype Message = Message(role: string, content: string)

  datatype Endpoint = Endpoint(
    modelId: int,
    providerId: int,
    modelName: string,
    maxRetries: int,
    cooldownThreshold: int,
    cooldownSeconds: int,
    defaultTemperature: Option<real>)

  /** The generation parameters of a request that reach every upstream call. */
  datatype Params = Params(temperature: Option<real>, maxTokens: Option<int>)

  /** The request wins; otherwise the model's own default; otherwise nothing is sent. */
  function ResolveTemperature(request: Option<real>, ep: Endpoint): Option<real> {
    if request.Some? then request else ep.defaultTemperature
  }

  /** What a strategy hands to the engine: the queue and the truncated messages. */
  datatype RouteResult = RouteResult(endpoints: seq<Endpoint>, messages: seq<Message>)

  datatype Selection = Selected(result: RouteResult) | Refused(error: Error)

  /** One row of the failed-attempt trail. */
  datatype AttemptRow = AttemptRow(
    groupId: int,
    modelId: Option<int>,
    providerId: Option<int>,
    stage: string,
    endpointIdx: int,
    attemptNo: int,
    errorType: string,
    errorMessage: string)

  datatype Reply = Reply(model: string, body: string, usage: Option<string>)

  datatype ChatOutcome = Replies(reply: Reply) | ChatFails(error: Error)

  datatype Chunk = Chunk(model: string, body: string)

  datatype Ending = Completes | Raises(error: Error)

  /** What a provider's stream does: it may refuse before a generator exists, or yield
      chunks and then complete or raise. An empty stream is Stream([], Completes), a
      first-chunk timeout is Stream([], Raises(e)) with e.kind.Timeout?. */
  datatype StreamOutcome = Rejects(error: Error) | Stream(chunks: seq<Chunk>, ending: Ending)

  /** The answer of request.is_disconnected(). */
  datatype Poll = Connected | Disconnected | PollRaises(name: string, message: string)

  datatype Group = Group(id: int, fallback: Option<int>)

  /** The world outside the engine. Every upstream call of one request is named by its
      group, its position in the endpoint queue and its attempt number; a disconnect poll
      by its group and the index of the chunk or event it precedes. Each name is used at
      most once per request, so the oracles lose no generality. */
  datatype Env = Env(
    select: int -> Selection,
    chat: (int, nat, nat) -> ChatOutcome,
    stream: (int, nat, nat) -> StreamOutcome,
    enginePoll: (int, nat) -> Poll,
    driverPoll: (int, nat) -> Poll,
    groups: map<int, Option<int>>) // id of every group that loads, with its fallback group

  /** Observable effects, in order. Look is the lookup of the provider's semaphore, Acquire
      and Release the entry and exit of its guard, and Send the request to the provider;
      Succeeded and Failed are the calls on the cooldown manager. */
  datatype Effect =
    | Send(providerId: int, model: string, messages: seq<Message>, params: Params)
    | Look(providerId: int)
    | Acquire(providerId: int)
    | Release(providerId: int)
    | Succeeded(groupId: int, modelId: int)
    | Failed(groupId: int, modelId: int, threshold: int, seconds: int)
    | Backoff(attempt: nat)

  function Sending(ep: Endpoint, messages: seq<Message>, params: Params): Effect {
    Send(ep.providerId, ep.modelName, messages,
         params.(temperature := ResolveTemperature(params.temperature, ep)))
  }

  /** The effects of opening a stream: its request goes out at the first pull, under the guard. */
  function Opening(ep: Endpoint, messages: seq<Message>, params: Params): seq<Effect> {
    [Look(ep.providerId), Acquire(ep.providerId), Sending(ep, messages, params)]
  }

  function Fails(groupId: int, ep: Endpoint): Effect {
    Failed(groupId, ep.modelId, ep.cooldownThreshold, ep.cooldownSeconds)
  }

  lemma Assoc<T>(a: seq<T>, b: seq<T>, c: seq<T>)
    ensures a + (b + c) == (a + b) + c
  {
  }
}
