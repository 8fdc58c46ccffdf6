# Verification of the botflow routing engine

Botflow is a gateway that sends a chat or streaming request to one of several language-model
endpoints. This project models the part that decides what happens to a request, and proves
properties of that model with Dafny 4.11. `dafny verify dfyconfig.toml` checks everything.

The model follows the code file by file. Loops stay loops, and objects whose methods update
fields are classes; each method is proved to compute a function of its inputs and the old state,
and lemmas say what these functions mean. Everything outside the repository is an oracle: for each
group, queue position and attempt, what the provider does; whether a client is seen to be gone; how
templates and chunks render; which random number is drawn. All theorems hold for every oracle.

| files | what they model |
|---|---|
| Options, Routing, Samples, Upstream, Chatting, Streaming, WalkMeaning, TraceMeaning, GroupMeaning | endpoints, errors, audit rows and effects; one upstream call or stream under its semaphore; what a walk over an endpoint queue means, sends and returns |
| FastPath, RouteGraph, PathEquivalence, BuiltInStrategies | the inlined paths, the state graph with its nodes and edges, and why they are the same |
| Fallback, ChatDriver, StreamDriver, StreamSafety, StreamEndings, DriverMeaning, Decimal | falling back across groups, the attempt trail, the lines sent to a streaming client |
| Guards, Permits | semaphore permits over every exit path and every interleaving of requests |
| ProviderPool, PoolSafety, PoolFreshness | cached provider instances, deferred closing, cached endpoint lists |
| Cooldown, CooldownStore | the cooldown state machine and its persistence across restarts |
| RateLimiter, RateLimits | the per-key limiter against an unbounded history |
| LogWriter | the batched log writer as interleaved steps |
| Truncation, Workflow, WorkflowSafety, WorkflowMeaning, Weighted, Strategies, Choosing, ContentBlocks | context truncation, the workflow walk, endpoint selection, content conversion |

## What the proofs show to be otherwise than documented

Where code and documentation disagree the model follows the code, and a lemma gives the exact condition.

- The fast paths equal the graph only for a non-empty queue: the graph selects again when it is given
  an empty one (`StreamPathsAgree`, `ChatPathsAgree`). The built-in strategies never return one
  (`QueuesNeverEmpty`).
- route() re-types a selection error that is no BotflowError to ProviderError and falls back, where the
  driver stops (`RouteAgreesWithDriver`, `RouteCanGoFurther`).
- A backup group that does not load skips all logging, and a streaming response then ends without a done
  signal (`DriveChat`, `DriveStream`, `ResponseEndsOnce`, `ResponseCanBeCutOff`).
- A client disconnect or a failing hook before the final state event loses the group's attempt rows, and a
  group that failed on every endpoint is recorded as a success exactly when the client is seen to be gone
  then (`TrailComplete`, `HearsStateExactly`, `FailureHiddenExactly`, `DisconnectHidesFailure`).
- An upstream that breaks off after its first chunk leaves no sign of it: the response ends like a complete
  one and the call is recorded as a success (`LateFailureLooksComplete`).
- When polling or serializing raises at a chunk, the driver does not close the engine's generator, so the
  permit is not returned by the request itself (`StreamReturnsPermits`, `PermitCanBeKept`).
- Timeouts and errors before the first chunk of a stream never count for the cooldown; only empty streams
  do (`OnlyEmptyStreamsCount`), while every failed chat call counts once (`CallCountsOnce`).
- Cooldown rows are never deleted, so a restart can put a recovered model back on cooldown
  (`OnlyExportedComeBack`, `RecoveredModelComesBack`).
- The limiter's bound fails for windows above its fixed 300-second eviction horizon unless one request is
  allowed (`RateBoundExact`); with one request allowed and a window of 300 seconds or more a recreated key's
  sentinel can reject a client that waited as told (`WaitingSufficesExactly`).
- A database error or a cancellation during a flush drops the rest of the batch (`DroppedExactly`).
- An endpoint list whose load took 300 seconds or more can hold a closed instance, and no other can
  (`LoadsAreSafeExactly`). A load overtaken by an invalidation still publishes the retired instances that it had
  gathered, and nothing else does (`InvalidationReachesLists`).
- With nothing that fits, truncation returns an over-limit list (`CutFits`).
- The random-weights strategy raises when one endpoint has a positive weight and others have none
  (`RaisesExactly`); a draw equal to the total selects the last model, whatever its weight
  (`SelectedExactly`).
- A node configured as null passes the workflow's validation, and the run then ends in the error "not found
  in nodes config" that the source calls unreachable (`NotFoundExactly`, `NodeCanBeMissing`).
- A workflow's final output is lost when the last response has no choices (`FinalOutputInAnswer`,
  `FinalOutputCanBeLost`), and a response whose content is null ends a workflow with an error
  (`NullContentExactly`, `RunFailsAtNode`).

## Model

| member | source | states |
|---|---|---|
| `Upstream.GuardedStream.Next` | src/botflow/pipeline/_shared.py:84-91 | at the first pull the permit is taken and then the request goes out; chunks come in order, the permit is given back when the stream ends or raises, and a finished stream only stops |
| `Upstream.GuardedStream.Aclose` | src/botflow/pipeline/_shared.py:84-91 | closing gives the permit back exactly when it is held; closing again, or closing an unstarted stream, does nothing |
| `Upstream.FirstPull` | src/botflow/pipeline/langgraph_engine.py:889-903 | opening one attempt and pulling its first chunk: the semaphore is looked up, the request goes out under the permit, and which permit is held afterwards, for every kind of upstream outcome |
| `Upstream.CallOnce` | src/botflow/pipeline/_shared.py:155-163 | one guarded call takes and returns its permit whatever the outcome |
| `Upstream.CallLlm` | src/botflow/pipeline/_shared.py:148-200 | the semaphore is looked up once; the retry loop computes its specification: reply or last error, one permit per attempt, backoff between attempts, one cooldown update at the end |
| `FastPath.RunOneFast` | src/botflow/pipeline/langgraph_engine.py:816-856 | the inlined chat loop returns or raises what the direct walk says, with the same attempt rows, last endpoint and effects |
| `FastPath.Attempt` | src/botflow/pipeline/langgraph_engine.py:891-943 | one streaming attempt with its three except clauses: which row, whether to retry, which permits |
| `FastPath.AcquireFirst` | src/botflow/pipeline/langgraph_engine.py:889-943 | the retry loop of one endpoint computes the first-chunk specification and leaves an open stream exactly when there is a winner |
| `FastPath.AcquireStream` | src/botflow/pipeline/langgraph_engine.py:886-947 | the endpoint loop computes the queue walk and attributes failure to the last endpoint |
| `FastPath.RelayToConsumer` | src/botflow/pipeline/langgraph_engine.py:951-999 | relaying hands out a prefix of the upstream chunks chosen by polls and consumer, and returns the permit once on every exit but an abandoned generator |
| `FastPath.RunStreamFast` | src/botflow/pipeline/langgraph_engine.py:858-1007 | the whole inlined streaming path, against any consumer: chunks, final state and ordered effects are those of the group-run specification |
| `RouteGraph.TryCall` | src/botflow/pipeline/langgraph_engine.py:278-346 | the try_call node writes exactly its specified update and effects, also when it starts in the middle of a queue or with an earlier error |
| `RouteGraph.RelayToWriter` | src/botflow/pipeline/langgraph_engine.py:356-537 | the node's relay through the stream writer equals the direct relay to a consumer that always continues |
| `RouteGraph.CallNodeExactly` | src/botflow/pipeline/langgraph_engine.py:278-346 | the try_call node from any state: rows from the current endpoint up to the one that replies, and which of error, recovery and ids it clears, keeps or sets |
| `RouteGraph.TryStream` | src/botflow/pipeline/langgraph_engine.py:356-537 | the try_stream node computes its update, written chunks and effects from the queue walk |
| `RouteGraph.RunGraph` | src/botflow/pipeline/langgraph_engine.py:585-628 | executing nodes, merging updates by key and following edges computes the graph's run to its end |
| `RouteGraph.RunOne` | src/botflow/pipeline/langgraph_engine.py:710-749 | the chat entry over the graph, with its error re-typing |
| `RouteGraph.RunStream` | src/botflow/pipeline/langgraph_engine.py:751-792 | the streaming entry over the graph, consumed to the end |
| `PathEquivalence.StreamNodeIsRunGroup` | src/botflow/pipeline/langgraph_engine.py:356-537 | for every non-empty queue and all oracles, the graph's stream run and the inlined one show the same chunks, state and effects |
| `PathEquivalence.StreamPathsAgree` | src/botflow/pipeline/langgraph_engine.py:858-1007 | the streaming fast path equals the graph if and only if the queue is not empty or re-selection gives an empty queue too |
| `PathEquivalence.ChatPathsAgree` | src/botflow/pipeline/langgraph_engine.py:796-856 | the chat fast path equals the graph if and only if the queue is not empty, or re-selection gives an empty queue or an error raised alike |
| `PathEquivalence.EmptyQueueSeparatesPaths` | src/botflow/pipeline/langgraph_engine.py:232-251 | an input with an empty queue on which both fast paths differ from the graph |
| `PathEquivalence.GraphSelectsThenCalls` | src/botflow/pipeline/langgraph_engine.py:218-251 | without a preselected queue the graph selects once and then does what the direct path does; a refusal is raised, re-typed unless it is a BotflowError |
| `BuiltInStrategies.BuiltInPathsAgree` | src/botflow/pipeline/langgraph_engine.py:1050-1056 | with the three built-in strategies both fast paths equal the graph without any condition |
| `BuiltInStrategies.BuiltInRoutesAgree` | src/botflow/pipeline/langgraph_engine.py:1085-1101 | with the built-in strategies route() tries the chat driver's groups and returns its reply |
| `Chatting.CallWinner` | src/botflow/pipeline/langgraph_engine.py:822-847 | a chat walk has one row per endpoint before the winner, or one for each endpoint when none wins |
| `Streaming.WinnerStarts` | src/botflow/pipeline/langgraph_engine.py:886-947 | the winner of a stream walk is an attempt whose stream yields a first chunk; with no winner every endpoint leaves a row |
| `WalkMeaning.CallMeaning` | src/botflow/pipeline/_shared.py:154-184 | call_llm ends at the first attempt that replies or fails for good, and returns that attempt's reply or error |
| `WalkMeaning.ChatWalkMeaning` | src/botflow/pipeline/langgraph_engine.py:822-832 | the reply of a group is that of the first endpoint of the queue that answers, and of no other |
| `WalkMeaning.ChatRowsMeaning` | src/botflow/pipeline/langgraph_engine.py:833-847 | each endpoint before the answering one leaves exactly one row with its own error, in queue order |
| `WalkMeaning.FirstChunkMeaning` | src/botflow/pipeline/langgraph_engine.py:889-943 | an endpoint streams from attempt a if and only if a is the first attempt or below max_retries, a brings a first chunk, and every earlier attempt timed out or failed with a retryable error |
| `WalkMeaning.FirstChunkRows` | src/botflow/pipeline/langgraph_engine.py:904-943 | the rows of an endpoint are its failed attempts in order, numbered from one, each telling its own failure; without a winner they number max_retries, at least one, unless the last failure was not worth retrying |
| `WalkMeaning.StreamWalkMeaning` | src/botflow/pipeline/langgraph_engine.py:886-947 | a group streams from the first endpoint of the queue that can, at its first attempt that brings a chunk |
| `WalkMeaning.CallCountsOnce` | src/botflow/pipeline/_shared.py:186-191 | a chat call that does not answer counts as one cooldown failure, however many attempts it made; one that answers counts as none |
| `WalkMeaning.OnlyEmptyStreamsCount` | src/botflow/pipeline/langgraph_engine.py:917-934 | of the failures before a first chunk only an empty stream counts for the cooldown; timeouts and errors never do |
| `TraceMeaning.RunConcernsQueue` | src/botflow/pipeline/langgraph_engine.py:254-266 | every request of a group run carries the queue's messages, an endpoint's model and the caller's temperature, or else that endpoint's own; every cooldown update carries that endpoint's ids, threshold and seconds |
| `TraceMeaning.CallTrace` | src/botflow/pipeline/_shared.py:148-200 | the effects of a chat call are one lookup, a permit around each request, a numbered backoff between two attempts, and one cooldown update |
| `TraceMeaning.FirstChunkTrace` | src/botflow/pipeline/langgraph_engine.py:889-943 | the attempts on a stream send one request each unless the provider refuses first, with numbered backoffs between them only |
| `TraceMeaning.ChatMarks` | src/botflow/pipeline/_shared.py:186-191 | a chat run tells the cooldowns of a failure for each endpoint before the one that answers, then of its success, and nothing else |
| `TraceMeaning.StreamMarks` | src/botflow/pipeline/langgraph_engine.py:917-950 | a streaming run tells the cooldowns of a failure for each earlier endpoint that ended with an empty stream, then of the success of the one that streams, however that stream ends |
| `GroupMeaning.AnsweredExactly` | src/botflow/pipeline/langgraph_engine.py:822-832 | a chat run returns the first answering endpoint's first reply, with that endpoint's ids |
| `GroupMeaning.UnansweredExactly` | src/botflow/pipeline/langgraph_engine.py:849-856 | with no answer it raises one fixed error, attributed to the last endpoint |
| `GroupMeaning.ChatRowTells` | src/botflow/pipeline/langgraph_engine.py:833-847 | the row of an endpoint that did not answer gives its ids, its queue position, its max_retries, and the class and message of its last attempt's error |
| `GroupMeaning.RelayExactly` | src/botflow/pipeline/langgraph_engine.py:951-999 | chunks are handed out while the engine's polls find the client connected; the stream counts as complete if and only if all were and the upstream completed |
| `GroupMeaning.StartedStateExactly` | src/botflow/pipeline/langgraph_engine.py:951-999 | the final state of a started stream: its endpoint's ids, no fallback, and whether it completed |
| `GroupMeaning.ExhaustedStateExactly` | src/botflow/pipeline/langgraph_engine.py:1001-1007 | the final state of a group that failed throughout: fallback allowed, and the last endpoint's ids |
| `Fallback.TourIsChain` | src/botflow/core.py:1118-1188 | groups tried are pairwise distinct, at most three in number, linked by backup ids, and the last one explains why the request ends there |
| `Fallback.ExhaustedExactly` | src/botflow/core.py:1163-1186 | a request is exhausted if and only if its last group falls back and has no backup, or one already tried, or is the third |
| `Fallback.ThirdGroupIsTried` | src/botflow/core.py:1118-1188 | with distinct backups that load, two recoverable failures always lead to a third group, and to no fourth |
| `Fallback.Advance` | src/botflow/core.py:1163-1189 | the decision after a group: stop for success, fatal error, no backup, a cycle or depth; otherwise load the backup and go on |
| `Fallback.ToursAgree` | src/botflow/pipeline/langgraph_engine.py:1087-1101 | two drivers that differ on some groups' outcomes try the same groups if and only if the first does not break at such a group that could go on |
| `ChatDriver.EngineRun` | src/botflow/pipeline/langgraph_engine.py:1050-1056 | engine.run for chat: a refused selection is raised unchanged, otherwise the direct path runs |
| `ChatDriver.TryGroups` | src/botflow/core.py:1135-1189 | the driving loop ends at the tour's last group having gathered the rows and effects of all tried groups in order |
| `ChatDriver.DriveChat` | src/botflow/core.py:1121-1208 | a chat request persists the in-order rows of all tried groups (and one route row on a fatal error) and exactly one call row, with the reply's usage on success, and returns or raises as specified; when a backup does not load it persists nothing |
| `ChatDriver.Route` | src/botflow/pipeline/langgraph_engine.py:1085-1101 | the legacy route() computes the tour of graph outcomes and its own final errors |
| `ChatDriver.RouteAgreesWithDriver` | src/botflow/pipeline/langgraph_engine.py:1085-1101 | route() and the chat driver try the same groups with the same success if and only if the driver does not stop at a selection error that route() re-types while a loadable backup remains |
| `ChatDriver.RouteCanGoFurther` | src/botflow/pipeline/langgraph_engine.py:1085-1101 | an input on which the driver stops at the first group and route() goes on to the backup |
| `ChatDriver.RouteAgreesOnReplies` | src/botflow/core.py:1144-1162 | when selections fail only with BotflowErrors both also end with the same reply, up to the model name the driver overrides |
| `DriverMeaning.ChatOutcomeExactly` | src/botflow/core.py:1163-1206 | a chat request falls back from a group if and only if its selection is refused with one of the three recoverable errors or none of its endpoints answers |
| `DriverMeaning.AnsweredChat` | src/botflow/core.py:1144-1162 | a successful chat request returns the reply under the requested model name and records the answering endpoint's ids and the reply's usage |
| `DriverMeaning.FailedChat` | src/botflow/core.py:1163-1208 | a failed one raises and records the selection's error or the group's, with the last endpoint's ids, and one route row for an error that leads to no backup |
| `DriverMeaning.UnloadedChat` | src/botflow/core.py:1187-1188 | a backup that does not load propagates its own error |
| `DriverMeaning.ReraisedExactly` | src/botflow/pipeline/langgraph_engine.py:173-219 | the graph raises the four BotflowErrors as they are and any other exception as a ProviderError with its message |
| `DriverMeaning.RefusedGraph` | src/botflow/pipeline/langgraph_engine.py:218-251 | after a refused selection the graph's final state holds the error, its message and whether it is recoverable, and nothing was sent |
| `DriverMeaning.UnansweredGraph` | src/botflow/pipeline/langgraph_engine.py:278-346 | after a group none of whose endpoints answers it holds the fixed error and is recoverable |
| `DriverMeaning.RouteEndExactly` | src/botflow/pipeline/langgraph_engine.py:1085-1101 | how route() ends without an answer: the last error without a backup, a fixed message for a cycle, another for a third group, or the backup that does not load |
| `StreamDriver.Listen` | src/botflow/core.py:1239-1254 | the event loop turns events into lines until the stream, a disconnect or a failing hook ends it |
| `StreamDriver.RunStep` | src/botflow/core.py:1228-1260 | one group of a streaming request: lines, usage, rows, effects, and whether it finishes, retreats or is fatal |
| `StreamDriver.DriveStream` | src/botflow/core.py:1211-1320 | the streaming driver sends exactly the specified response, persists the specified trail and exactly one call row, or propagates a failed group load with nothing persisted |
| `StreamSafety.DriverHearsAll` | src/botflow/core.py:1239-1244 | the driver hears every chunk the engine hands out, save the one at which it leaves or fails |
| `StreamSafety.HearsStateExactly` | src/botflow/core.py:1239-1254 | the driver hears a group's final state if and only if each chunk on offer finds the client connected and is serialized, and the client is still connected at the end |
| `StreamSafety.GroupStopsFirst` | src/botflow/pipeline/langgraph_engine.py:951-999 | a group's run hands out the chunks on offer up to and including the first at which its consumer does not go on, and all of them when there is none |
| `StreamSafety.StepDelivers` | src/botflow/core.py:1256-1260 | a group delivers leading chunks of its winning attempt only, and none if the driver retreats from it |
| `StreamSafety.ResponseIsOneStream` | src/botflow/core.py:1226-1299 | over retries, endpoints and up to three groups, all client chunks are a prefix of one single upstream stream |
| `StreamSafety.OneMoreChunk` | src/botflow/core.py:1245-1252 | each delivered chunk adds the lines of its serialization, in order and as they are |
| `StreamSafety.TrailComplete` | src/botflow/core.py:1256-1257 | the persisted trail holds every failed attempt if and only if the hooks let through every chunk the last group has to offer and the client is connected at its final state, or that group had no failed attempt |
| `StreamSafety.SteadyHooksHearState` | src/botflow/core.py:1239-1254 | without disconnects and hook failures the driver always hears the final state |
| `StreamEndings.StepFailsExactly` | src/botflow/core.py:1228-1313 | a group's run does not finish exactly when its selection is refused, a poll or serializer raises before the end, or no endpoint streams while the client is seen to be connected |
| `StreamEndings.ResponseEndsOnce` | src/botflow/core.py:1272-1320 | the response is data lines, then an error line exactly when one of these failures happens in the last group, then exactly one done signal, last; the call record has an error in the same cases; only a failed group load omits them |
| `StreamEndings.LoadedBackupsEndOnce` | src/botflow/core.py:1272-1320 | when every group named as a backup loads, every response ends with its done signal |
| `StreamEndings.ResponseCanBeCutOff` | src/botflow/core.py:1298-1299 | an input whose backup does not load and whose response is empty, without a done signal |
| `StreamEndings.FailureHiddenExactly` | src/botflow/core.py:1240-1273 | when no endpoint of the last group streams, the call is recorded without an error if and only if the client is seen to be gone at that group's final state |
| `StreamEndings.DisconnectHidesFailure` | src/botflow/core.py:1240-1273 | for the primary group nothing of such a failure is then kept: no rows, no error line, no backup, a success record |
| `StreamEndings.LateFailureLooksComplete` | src/botflow/pipeline/langgraph_engine.py:987-999 | when the upstream breaks off after its first chunk, the response is the lines of all chunks so far and the done signal, and the call record has no error |
| `StreamEndings.TrailCanBeIncomplete` | src/botflow/core.py:1240-1257 | a concrete input whose trail loses its failed attempt |
| `DriverMeaning.StreamOutcomeExactly` | src/botflow/core.py:1228-1313 | a streaming request falls back from a group if and only if its selection is refused with one of the three recoverable errors, or none of its endpoints streams while the client is connected; any other refusal and any raising hook break it off |
| `DriverMeaning.RefusedStream` | src/botflow/core.py:1274-1313 | the record, and the route row if any, of a request whose last selection was refused |
| `DriverMeaning.ExhaustedStream` | src/botflow/core.py:1256-1297 | the record of a request whose last group failed throughout: its fixed message and the last endpoint's ids |
| `DriverMeaning.HeardStream` | src/botflow/core.py:1261-1273 | the record of a stream heard to its end: the streaming endpoint's ids and the last usage reported |
| `DriverMeaning.LeftStream` | src/botflow/core.py:1239-1273 | the record of a stream that the client left: no ids, no error, and the usage so far |
| `DriverMeaning.HookedStream` | src/botflow/core.py:1300-1320 | the record and the route row of a stream that a hook broke off hold what the hook raised |
| `DriverMeaning.ErrorLineTells` | src/botflow/core.py:1295-1320 | the client is told the error that is recorded |
| `Guards.ChatReturnsPermits` | src/botflow/pipeline/_shared.py:153-163 | a whole chat request enters and leaves guards in turn and ends outside all of them |
| `Guards.GroupReturnsPermits` | src/botflow/pipeline/langgraph_engine.py:951-999 | a group's stream returns its permit on every exit, and keeps it only when the consumer abandons the generator at a chunk |
| `Guards.StreamReturnsPermits` | src/botflow/core.py:1226-1320 | a streaming request ends outside all guards if and only if no poll or serializer raises at the first chunk on offer in the last group that is not let through |
| `Guards.PermitCanBeKept` | src/botflow/core.py:1248-1248 | an input that keeps its permit: the serializer raises at the first chunk |
| `Permits.SemaphoreTable.Ensure` | src/botflow/router.py:38-52 | an existing semaphore is kept whatever the size is now; an absent or unlimited one is created or left unlimited by size |
| `Permits.SemaphoreTable.TryAcquire` | src/botflow/pipeline/_shared.py:85-85 | a free permit is taken, and only if there is one |
| `Permits.SemaphoreTable.Release` | src/botflow/pipeline/_shared.py:89-90 | one permit of that provider is given back |
| `Permits.StepKeepsInv` | src/botflow/pipeline/_shared.py:78-91 | each step of any request keeps free permits plus holders equal to the semaphore's size |
| `Permits.PermitsConserved` | src/botflow/pipeline/_shared.py:65-93 | in every interleaving of well-guarded requests, holders never exceed the size and free permits make up the difference |
| `Permits.GatewayConservesPermits` | src/botflow/pipeline/_shared.py:148-163 | so for any number of whole chat and streaming requests in any interleaving; a chat call captures the semaphore once, before its retries |
| `Permits.SemaphoresKept` | src/botflow/router.py:44-52 | once it exists, a provider's semaphore keeps its size through every run |
| `Permits.SizeIsConfigured` | src/botflow/router.py:38-52 | in every run a provider has a semaphore if and only if it was looked up with a positive configured size, and the size is that of the first such lookup |
| `Permits.AtMostConfigured` | src/botflow/pipeline/_shared.py:78-91 | while at most n permits are configured, never more than n well-guarded requests are inside one provider's guard |
| `Permits.GatewayWithinConfigured` | src/botflow/pipeline/_shared.py:65-163 | so for any number of whole chat and streaming requests in any interleaving |
| `Permits.RunKeepsOutlook` | src/botflow/pipeline/_shared.py:84-91 | at every moment of every run, what a request has left to do will leave its guards as its whole program does |
| `Permits.AllReturned` | src/botflow/pipeline/_shared.py:89-91 | in every run of requests that leave their guards, once all are over every permit is free again |
| `Permits.NoDeadlock` | src/botflow/pipeline/_shared.py:84-91 | at every moment of such a run, while a request has something left to do, some request can step |
| `Permits.GatewayReturnsAll` | src/botflow/pipeline/_shared.py:65-93 | both for any number of whole chat requests, and of whole stream requests without a hook that raises at a chunk, interleaved in any way |
| `ProviderPool.Providers.Retire` | src/botflow/router.py:202-225 | retiring queues an instance without a loop, schedules it and all queued ones inside one, and ignores a closed one |
| `ProviderPool.Providers.GetCachedProvider` | src/botflow/router.py:249-287 | a fresh instance is returned, an expired or missing one is replaced and the old one retired, and an unsupported type leaves the cache untouched |
| `ProviderPool.Providers.BeginLoad` | src/botflow/router.py:295-301 | a list younger than 60 seconds is served as it is; otherwise a load begins |
| `ProviderPool.Providers.FetchModel` | src/botflow/router.py:304-318 | one round of the load takes an instance from the cache or ends the load |
| `ProviderPool.Providers.FinishLoad` | src/botflow/router.py:320-321 | the gathered list is published under the load's starting time and returned |
| `ProviderPool.Providers.InvalidateEndpointCache` | src/botflow/router.py:324-326 | only the group's list is forgotten |
| `ProviderPool.Providers.InvalidateProviderCache` | src/botflow/router.py:329-355 | exactly the instances in scope leave the cache, each retired once; the whole invalidation also forgets the lists |
| `ProviderPool.Providers.CloseNow` | src/botflow/router.py:234-239 | a close task that is due closes its instance and is gone |
| `PoolSafety.StepKeepsInv` | src/botflow/router.py:202-321 | every step keeps: each instance in one place, and none in a live list closed within a grace period of the list's start |
| `PoolSafety.NothingLeaksNothingClosed` | src/botflow/router.py:290-355 | in every run, each instance ever created is in exactly one of cache, pending list, close tasks and closed ones, and no served list, nor one loaded within 300 seconds, holds a closed instance |
| `PoolSafety.SlowLoadCanBeStale` | src/botflow/router.py:295-321 | for every duration of 300 seconds or more a run in which a load of that duration returns a closed instance |
| `PoolSafety.LoadsAreSafeExactly` | src/botflow/router.py:295-321 | loads of a given duration return only open instances in every run if and only if the duration is less than 300 seconds |
| `PoolSafety.OvertakenLoadIsServed` | src/botflow/router.py:320-355 | a run in which a load overtaken by an invalidation publishes a list of retired instances, which is then served |
| `PoolSafety.InvalidationTakesEffect` | src/botflow/router.py:329-355 | after an invalidation the instance cache never again hands out an instance of that scope that existed before, whatever happens |
| `PoolSafety.InvalidationReachesLists` | src/botflow/router.py:346-355 | after the whole invalidation no list with an instance from before is ever published, in any continuation, if and only if no load under way has gathered one already |
| `PoolFreshness.FetchedExactly` | src/botflow/router.py:268-287 | a cached instance is handed out again if and only if it is younger than 300 seconds; later it is replaced by a new one and set to close, unless none of its kind can be made |
| `PoolFreshness.FirstFetch` | src/botflow/router.py:268-287 | a key that is not cached gets a new instance, dated now |
| `PoolFreshness.SameInstanceExactly` | src/botflow/router.py:268-287 | in every run without an invalidation in its scope, two fetches of a key give the same instance if and only if the later one comes within 300 seconds of its creation |
| `PoolFreshness.InvalidationIsScoped` | src/botflow/router.py:329-355 | an invalidation removes and retires exactly the instances of its provider, or all, and only that of everything forgets the lists |
| `PoolFreshness.ListServedExactly` | src/botflow/router.py:295-326 | in every run that neither replaces nor forgets it, a list is served if and only if its load began less than 60 seconds ago |
| `Cooldown.CooldownManager.RecordSuccess` | src/botflow/router.py:83-89 | a success clears the counter and deadline of a known model |
| `Cooldown.CooldownManager.RecordFailure` | src/botflow/router.py:91-110 | a failure counts, and sets the deadline when the threshold is reached |
| `Cooldown.CooldownManager.IsOnCooldown` | src/botflow/router.py:112-125 | the answer and the lazy reset of an expired cooldown |
| `Cooldown.CooldownManager.ActiveCooldowns` | src/botflow/router.py:132-149 | exactly the unexpired cooldowns, each once, with wall-clock deadlines |
| `Cooldown.CooldownManager.RestoreState` | src/botflow/router.py:151-162 | an unexpired record is restored to a monotonic deadline, an expired one is skipped |
| `Cooldown.CooldownManager.FilterAvailable` | src/botflow/pipeline/_shared.py:42-52 | the filter asks the manager once per endpoint, in order, with all the resets that causes |
| `Cooldown.CooldownExact` | src/botflow/router.py:83-162 | after any history of successes, failures, queries and restorations a model is on cooldown exactly when since its last reset it was restored or failed at least threshold times, and the cooldown set last is not over |
| `Cooldown.FilterExact` | src/botflow/pipeline/_shared.py:42-52 | the filter keeps exactly the endpoints not on cooldown by the history up to their own query |
| `Cooldown.OtherModelsDoNotMatter` | src/botflow/router.py:80-162 | the cooldown of one model is a function of its own events alone |
| `CooldownStore.KeyRoundTrip` | src/botflow/storage/db.py:329-347 | the text cooldown:g:m parses back to the ids g and m |
| `CooldownStore.ReadKeyExactly` | src/botflow/storage/db.py:345-349 | a row is read if and only if its key is "cooldown", a number and a number between colons |
| `CooldownStore.SaveCooldownState` | src/botflow/storage/db.py:325-334 | saving upserts one row per record and removes none |
| `CooldownStore.LoadCooldownStates` | src/botflow/storage/db.py:336-361 | loading reads every row with a cooldown key and value once, in some order, also rows whose keys differ in spelling only |
| `CooldownStore.LoadedRows` | src/botflow/storage/db.py:325-361 | from a table with keys as the save spells them each model's row is loaded exactly once |
| `CooldownStore.SaveRows` | src/botflow/storage/db.py:328-334 | after a save each recorded model has its row, and every other row is as before |
| `CooldownStore.SaveKeepsCanonical` | src/botflow/storage/db.py:328-334 | saving keeps the keys spelled as the save spells them |
| `CooldownStore.Restore` | src/botflow/core.py:346-354 | the start-up loop restores the loaded records one by one, reading both clocks anew for each |
| `CooldownStore.RestartExact` | src/botflow/router.py:132-162 | export, save over a table this program has written, load in any order and restore: an unexpired cooldown keeps its count and wall-clock deadline and answers as in the old process, though the monotonic origin differs; expired ones are not restored |
| `CooldownStore.CooldownAfterRestart` | src/botflow/router.py:83-162 | after a restart and whatever happens then, the new process answers by its whole history, the restored failures included |
| `CooldownStore.OnlyExportedComeBack` | src/botflow/core.py:391-399 | after save, load and restore only exported cooldowns are in force if and only if no unexpired row of another model was left in the table |
| `CooldownStore.RecoveredModelComesBack` | src/botflow/core.py:395-397 | a concrete model, recovered and not on cooldown, that the restarted manager answers to be on cooldown |
| `RateLimiter.Middleware.CleanupOldKeys` | src/botflow/core.py:560-566 | exactly the keys not accessed for 300 seconds go |
| `RateLimiter.Middleware.Call` | src/botflow/core.py:575-597 | one request on the bounded deque: counting, sweep, sentinel, decision and recording |
| `RateLimiter.ArriveRefines` | src/botflow/core.py:583-596 | each step of the bounded deque gives the answer of the unbounded history and stays related to it |
| `RateLimiter.RejectionExact` | src/botflow/core.py:587-595 | in every run a request is rejected exactly when at least max_requests recorded timestamps, the sentinel included, lie in the window |
| `RateLimiter.RateBound` | src/botflow/core.py:575-596 | any closed interval no longer than the window holds at most max_requests admissions of a key, through evictions and recreations, for windows up to 300 seconds |
| `RateLimits.FewKeysBound` | src/botflow/core.py:560-596 | with no more keys than the limit no key is ever forgotten, and the bound holds for windows of any length |
| `RateLimits.WindowBeyondHorizon` | src/botflow/core.py:560-566 | for every longer window and two or more requests a run that exceeds the bound |
| `RateLimits.RateBoundExact` | src/botflow/core.py:560-596 | the bound holds for all runs and key limits if and only if the window is at most 300 seconds or one request is allowed |
| `RateLimits.RetryAdmitted` | src/botflow/core.py:588-592 | a rejected client that waits retry_after is admitted if and only if its key was not evicted meanwhile, or a new key's sentinel leaves room |
| `RateLimits.RetryAfterExact` | src/botflow/core.py:588-590 | after any run a rejected client is told the least number of whole seconds after which the oldest timestamp that keeps it out has left the window |
| `RateLimits.RetryAfterSuffices` | src/botflow/core.py:588-592 | waiting exactly retry_after is enough from any state for windows below 300 seconds or two requests and more |
| `RateLimits.WaitingCanFail` | src/botflow/core.py:560-592 | for one request allowed and each window of 300 seconds or more, a run after which a client that waits as told is rejected again |
| `RateLimits.WaitingSufficesExactly` | src/botflow/core.py:560-592 | waiting as told is enough in every run and for all key limits if and only if the window is below 300 seconds or two requests are allowed |
| `LogWriter.CallLogWriter.LogEntry` | src/botflow/core.py:145-153 | a call entry is buffered, and a flush is due at the threshold |
| `LogWriter.CallLogWriter.LogAttemptEntry` | src/botflow/core.py:155-161 | an attempt row is buffered apart, and a flush is due at the threshold |
| `LogWriter.CallLogWriter.TakeBatches` | src/botflow/core.py:171-177 | both buffers move into one flush, or nothing happens when both are empty |
| `LogWriter.CallLogWriter.WriteNext` | src/botflow/core.py:179-183 | one entry is written, or the rest of the batch is dropped by a database error |
| `LogWriter.CallLogWriter.WriteBatch` | src/botflow/core.py:185-189 | the attempt rows are written or dropped together |
| `LogWriter.CallLogWriter.FlushAlone` | src/botflow/core.py:135-143 | an uninterrupted flush empties the buffers, writes up to the first failing call entry and drops the rest |
| `LogWriter.Conservation` | src/botflow/core.py:145-193 | in every interleaving each submitted entry is buffered, in flight, written or dropped, with multiplicity |
| `LogWriter.NoEntryTwice` | src/botflow/core.py:169-189 | an entry is never in two batches, nor written twice, nor written while still in a batch |
| `LogWriter.DroppedExactly` | src/botflow/core.py:135-189 | entries are dropped if and only if a write raises or a cancellation lands inside a flush |
| `LogWriter.EntryCanBeDropped` | src/botflow/core.py:179-183 | a run that drops an entry because its write fails |
| `LogWriter.AllWritten` | src/botflow/core.py:135-143 | after the flushes of an undisturbed run exactly what was submitted is written |
| `Truncation.TokenUpperBound` | src/botflow/common/context.py:45-60 | the byte bound sums role bytes, text bytes and one per message |
| `Truncation.EstimateTokens` | src/botflow/common/context.py:63-80 | the estimate sums the tokens of role and text and one per message |
| `Truncation.OneMorePart` | src/botflow/common/context.py:20-34 | content parts measure as their texts joined by single spaces, other parts left out |
| `Truncation.OneMoreMessage` | src/botflow/common/context.py:45-80 | each further message adds its role, its text and one, to the bound in bytes and to the estimate in tokens |
| `Truncation.TruncatedExactly` | src/botflow/common/context.py:101-132 | nothing is cut without a window or when the bound fits the window less the answer's tokens, 1024 by default; otherwise the best cut for that room is made |
| `Truncation.SystemsAreKept` | src/botflow/common/context.py:111-113 | a message with the role "system" is never cut |
| `Truncation.SearchSuffix` | src/botflow/common/context.py:116-125 | the binary search finds what a search from the longest suffix down finds |
| `Truncation.TruncateToContextWindow` | src/botflow/common/context.py:83-132 | shortcut, split, search and the three exits, for every window and reserve |
| `Truncation.TruncateMessages` | src/botflow/pipeline/_shared.py:203-216 | truncation to the smallest known window of the candidates, or none when no window is known |
| `Truncation.EstimateBelowBound` | src/botflow/common/context.py:45-60 | for any tokenizer into non-empty pieces the estimate is at most the byte bound |
| `Truncation.ShortcutSound` | src/botflow/common/context.py:106-109 | whenever the shortcut applies the messages fit and the slow path would keep the same multiset |
| `Truncation.ShortcutChangesOnlyOrder` | src/botflow/common/context.py:106-113 | shortcut and slow path return the same list if and only if system messages lead |
| `Truncation.CutIsOptimal` | src/botflow/common/context.py:111-132 | all system messages and the longest fitting suffix are kept: one message more would not fit |
| `Truncation.CutFits` | src/botflow/common/context.py:127-132 | the slow path returns an over-limit list exactly when the system messages alone, or with none the last message alone, exceed the limit |
| `Truncation.OverLimitCanBeSent` | src/botflow/common/context.py:129-130 | a conversation that is sent over the limit |
| `Truncation.FitsEveryEndpoint` | src/botflow/pipeline/_shared.py:208-216 | if anything fits, what is sent plus the reserve fits every candidate with a known window above the reserve |
| `Truncation.LoneMessageKept` | src/botflow/pipeline/langgraph_strategy.py:140-141 | the single user message of a workflow node is never cut, whatever the window |
| `Workflow.Validate` | src/botflow/pipeline/langgraph_strategy.py:66-86 | the first configuration error in the code's order, or an adjacency list that reflects the edges in order |
| `Workflow.ChooseNext` | src/botflow/pipeline/langgraph_strategy.py:164-180 | a single edge is followed unconditionally; of several the first that matches, else the first |
| `Workflow.RunNode` | src/botflow/pipeline/langgraph_strategy.py:115-160 | one node: endpoints loaded once per group, the first awake one called, and every way it can fail |
| `Workflow.Execute` | src/botflow/pipeline/langgraph_strategy.py:99-192 | the walk with its step limit and final answer computes its specification |
| `WorkflowSafety.AcceptsExactly` | src/botflow/pipeline/langgraph_strategy.py:66-86 | validation accepts exactly the well-formed configurations |
| `WorkflowMeaning.ProblemExactly` | src/botflow/pipeline/langgraph_strategy.py:66-86 | the reported problem is that of the nodes, else the entry, else the first unsound edge: its format, source or target |
| `WorkflowSafety.RunIsPath` | src/botflow/pipeline/langgraph_strategy.py:100-113 | executed nodes form a path from the entry along configured edges, at most 50 calls are made, and only a node configured as null is ever not found |
| `WorkflowMeaning.RunFollowsEdges` | src/botflow/pipeline/langgraph_strategy.py:164-180 | between consecutive nodes of a run the walk followed the edge that the output decides: a single one unconditionally, the first whose condition occurs in the output, or the first of all |
| `WorkflowMeaning.EndsExactly` | src/botflow/pipeline/langgraph_strategy.py:103-192 | a run hits the limit if and only if 50 nodes were called and the last leads on; it answers if and only if the last was visited and leads nowhere or to an end marker |
| `WorkflowSafety.NotFoundExactly` | src/botflow/pipeline/langgraph_strategy.py:106-113 | a run ends in "not found in nodes config" if and only if validation passes and the walk arrives, within the step limit, at a node configured as null; so never when every node is configured |
| `WorkflowSafety.NodeCanBeMissing` | src/botflow/pipeline/langgraph_strategy.py:70-113 | a configuration that passes validation and whose entry is not found |
| `WorkflowSafety.LimitShowsCycle` | src/botflow/pipeline/langgraph_strategy.py:106-109 | a run into the step limit on at most 50 nodes exhibits a cycle in the configured edges |
| `WorkflowSafety.AcyclicStaysWithinLimit` | src/botflow/pipeline/langgraph_strategy.py:103-109 | an acyclic workflow of at most 50 nodes never raises the step-limit error |
| `WorkflowSafety.RunAnswers` | src/botflow/pipeline/langgraph_strategy.py:182-192 | the answer is the last response with the final node's last output put in when that node was visited; the no-response error comes exactly when the entry is named like an end marker |
| `WorkflowSafety.FinalOutputInAnswer` | src/botflow/pipeline/langgraph_strategy.py:183-231 | when the final node was visited, its last output is the content of the run's answer if and only if the last response has choices, or the output is empty |
| `WorkflowSafety.FinalOutputCanBeLost` | src/botflow/pipeline/langgraph_strategy.py:183-231 | a two-node workflow that answers without its final node's output |
| `WorkflowSafety.RunFailsAtNode` | src/botflow/pipeline/langgraph_strategy.py:111-162 | a run fails because of a node if and only if that node is its last one and failed so |
| `WorkflowSafety.RunFollows` | src/botflow/pipeline/langgraph_strategy.py:111-162 | each stop of a run is what its node does at that step with what the earlier nodes put out, whichever groups were loaded before |
| `WorkflowMeaning.StopComesTo` | src/botflow/pipeline/langgraph_strategy.py:111-162 | each stop comes to what the world makes of its node: the failed load, the empty group, all on cooldown, the template's failure, or the call of the first endpoint not on cooldown |
| `WorkflowSafety.NullContentExactly` | src/botflow/pipeline/langgraph_strategy.py:144-162 | a run fails for null content if and only if at its last stop the group loads, a model is awake, the template renders, and the model replies with null for its first choice's content |
| `Weighted.WeightedRandomSelect` | src/botflow/router.py:363-389 | the loop over cumulative weights returns the picked model, or an error without positive weight |
| `Weighted.SelectedExactly` | src/botflow/router.py:379-389 | a model is selected exactly for the draws in its half-open cumulative interval, and the last one also for draws from the total on |
| `Weighted.SelectedIsPositive` | src/botflow/router.py:379-386 | for draws below the total the selected model has a positive weight |
| `Weighted.WeightedRandomOrder` | src/botflow/router.py:392-406 | the loop with removal computes the order drawn from the positive weights |
| `Weighted.DrawnIsPermutation` | src/botflow/router.py:401-405 | an order holds each remaining model exactly once, for all draws |
| `Choosing.DrawnAt` | src/botflow/router.py:401-405 | each model of an order is picked, by a draw of its own, from what the ones before it have left |
| `Strategies.RandomWeights` | src/botflow/pipeline/strategies.py:28-54 | the strategy's refusals, primary and fallback queue |
| `Choosing.RandomWeightsExactly` | src/botflow/pipeline/strategies.py:28-54 | it raises the cooldown error if and only if there are endpoints and all are on cooldown; it queues only endpoints not on cooldown, each once, and all of those with positive weight |
| `Strategies.RandomQueueExact` | src/botflow/pipeline/strategies.py:36-49 | for every draw: it raises exactly when no endpoint has positive weight, or the selected one has the only positive weight and is not alone; otherwise the queue is the selected endpoint and then an order of all others with positive weight |
| `Strategies.RaisesExactly` | src/botflow/pipeline/strategies.py:36-44 | for draws below the total it raises exactly when no weight is positive, or just one is and its endpoint is not alone |
| `Strategies.ZeroWeightCompanionRaises` | src/botflow/pipeline/strategies.py:36-44 | a group of one positive and one zero weight raises for every draw below the total |
| `Strategies.RandomQueueIsPermutation` | src/botflow/pipeline/strategies.py:36-49 | with all weights positive every queue is a permutation of the available endpoints headed by the drawn one |
| `Strategies.Sequential` | src/botflow/pipeline/strategies.py:122-140 | the strategy's refusals, and all awake endpoints by falling weight |
| `Choosing.SequentialExactly` | src/botflow/pipeline/strategies.py:122-140 | it raises the cooldown error if and only if there are endpoints and all are on cooldown, and otherwise queues exactly those not on cooldown, each once, by falling weight |
| `Strategies.SortIsStable` | src/botflow/pipeline/strategies.py:130-130 | the sort keeps all endpoints, orders them by falling weight and keeps the order of equals |
| `Strategies.RoundRobin.Select` | src/botflow/pipeline/strategies.py:74-104 | the endpoint at the counter comes first, the others follow in order, and only this group's counter advances |
| `Choosing.RoundRobinExactly` | src/botflow/pipeline/strategies.py:74-104 | it refuses alike, and otherwise queues exactly the endpoints not on cooldown: the one at the counter first, the others in order |
| `Choosing.CounterWraps` | src/botflow/pipeline/strategies.py:84-93 | a group's counter counts its requests and starts again after a thousand rounds |
| `Strategies.PrimaryIsCyclic` | src/botflow/pipeline/strategies.py:84-93 | from any starting counter request k has endpoint (start + k) mod n first, despite the wrap at 1000 n |
| `Strategies.EachInFrontOnce` | src/botflow/pipeline/strategies.py:84-93 | among any n consecutive requests exactly one has a given endpoint first |
| `Strategies.InFrontIsPermutation` | src/botflow/pipeline/strategies.py:93-99 | a round-robin queue holds every available endpoint once |
| `Strategies.QueuesNeverEmpty` | src/botflow/pipeline/strategies.py:28-140 | no built-in strategy hands over an empty queue, and each raises one of two exceptions only |
| `ContentBlocks.OpenAiToAnthropicContent` | src/botflow/common/content_converters.py:21-71 | block-by-block conversion to the Anthropic form |
| `ContentBlocks.AnthropicToOpenAiContent` | src/botflow/common/content_converters.py:79-136 | block-by-block conversion to the OpenAI form, collapsed to a string when only text is left |
| `ContentBlocks.OneMoreOutward` | src/botflow/common/content_converters.py:97-136 | block by block to the OpenAI form: texts and tool blocks stay, a base64 image becomes a data URI, a PNG by default, and anything else is left out |
| `ContentBlocks.OneMoreInward` | src/botflow/common/content_converters.py:31-71 | block by block to the Anthropic form: an image's data URI becomes an image with its type and data, other URLs and unknown blocks are left out |
| `ContentBlocks.OneMoreText` | src/botflow/common/content_converters.py:132-134 | texts alone are joined by line breaks |
| `ContentBlocks.OpenAiExactly` | src/botflow/common/content_converters.py:128-136 | blocks without anything but texts become one text, all others stay blocks |
| `ContentBlocks.ParseExactly` | src/botflow/common/content_converters.py:184-198 | from any data URI: the type is what stands before the first semicolon of the header, the data what stands after the first comma |
| `ContentBlocks.ParsePrinted` | src/botflow/common/content_converters.py:184-236 | a printed data URI parses back to its media type and data when the type has no comma or semicolon |
| `ContentBlocks.ParsedIsPrefix` | src/botflow/common/content_converters.py:192-198 | for any media type the parsed one is a prefix, and a proper one when it has a comma or semicolon |
| `ContentBlocks.SourceRoundTrip` | src/botflow/common/content_converters.py:201-236 | an image source survives the trip through a data URI if and only if it is base64, has data and an image type without comma or semicolon |
| `ContentBlocks.ContentRoundTrip` | src/botflow/common/content_converters.py:21-136 | Anthropic to OpenAI and back is the identity if and only if every block survives and some block is no text or there is just one block |
| `ContentBlocks.PlainRoundTrip` | src/botflow/common/content_converters.py:31-32 | plain content comes back as the same text |

## Left out

- Provider SDKs, HTTP and SQL: an outcome oracle per attempt, maps and append-only sequences stand for them.
- LangGraph's scheduler, checkpoints and channel buffering: nodes, edges and the merge of updates by key are modelled.
- The stream node in a context without a stream writer, where it emits no chunks.
- A transport that closes the streaming driver's own generator at a yielded line: as after a raising hook, the engine's generator is then not closed by the driver.
- Task cancellation in the middle of a request, and the interpreter's own finalisation of abandoned generators.
- Durations (`duration_ms`), backoff delays, jitter, log messages, request and response summaries.
- Extra keyword arguments of a call and the filtering of model-unsupported ones.
- The text matching of is_retryable_error: each error carries the answer as a flag.
- The 60-second cache of groups in the engine: a group that loads has one configuration for a whole request.
- Serializer and poll hooks that raise one of the routing errors themselves; they may raise anything else.
- Exceptions of load_endpoints inside a strategy (such as an unsupported provider type): Strategies models the strategies' own refusals, and the general path theorems cover any selection error.
- The log writer that is not configured, and the database writes behind a logged row.
- Cancellation of pending close tasks at shutdown, and errors while a connection pool closes: an instance counts as closed once its closing began.
- The wall clock of the provider caches and the event loop's clock are one clock in ProviderPool.
- The order in which a dictionary yields its keys: invalidations are modelled for every order.
- CooldownStore.LoadCooldownStates: key parts with blanks, plus signs or underscores, which int() would accept, read as no ids, and SQL's case-insensitive prefix match is not modelled.
- CooldownStore.RestartExact: the table's cooldown keys are spelled as the save spells them, which every table written by this program satisfies (`SaveKeepsCanonical`); of two spellings of one key the later row would win.
- Cooldown.CooldownExact: one threshold per model throughout, and no deadline, of a failure or a restoration, at exactly 0.0 of the monotonic clock, which the code takes for none.
- RateLimiter.Middleware.Call: the choice of the key from headers, query string or address, and requests other than http or to /health.
- Permits.SemaphoreTable.TryAcquire: the fairness of waiting; the model says when an acquisition can succeed.
- The BPE vocabulary: any tokenizer whose tokens cover non-empty pieces of the text.
- Texts that cannot be encoded as UTF-8.
- Workflow.RunNode: truncation of the node's single user message (`Truncation.LoneMessageKept` shows that it is always kept) and the JSON text of the state handed to a template, which is an oracle of the state.
- Workflow configurations of other types than documented, such as an edge list or a prompt that is null; a null node is modelled.
- Responses without a message inside a choice, and edge conditions that are not strings.
- Rounding of weights, draws and clock differences: they are reals.
- ContentBlocks.ContentRoundTrip: keys of a block beyond those the converters name are not represented, so blocks carrying such keys lose them.
- The conversion to Google parts, protocol adapters, the admin interface, command line, configuration, authentication, statistics, request deduplication and model synchronisation: they would add only easy members.
