/** The non-streaming driver, the legacy route(), and why they agree. */
module ChatDriver {
  import opened Options
  import opened Routing
  import opened Upstream
  import opened Chatting
  import opened RouteGraph
  import opened PathEquivalence
  import opened Fallback
  import opened Samples
  import FastPath
  import Decimal

  datatype CallRecord = CallRecord(
    groupId: int,
    modelId: Option<int>,
    providerId: Option<int>,
    usage: Option<string>,
    error: Option<Error>)

  /** The rows a request submits: call_attempts and call_logs. */
  class Journal {
    var attemptRows: seq<AttemptRow>
    var callRows: seq<CallRecord>

    constructor ()
      ensures attemptRows == [] && callRows == []
    {
      attemptRows, callRows := [], [];
    }

    method Log(rows: seq<AttemptRow>, record: CallRecord)
      modifies this
      ensures attemptRows == old(attemptRows) + rows && callRows == old(callRows) + [record]
    {
      attemptRows, callRows := attemptRows + rows, callRows + [record];
    }
  }

  datatype ChatRequest = ChatRequest(model: string, primary: Group, messages: seq<Message>, params: Params)

  datatype ChatEnd = Returned(reply: Reply) | Propagates(error: Error)

  // ---------------------------------------------------------------- one group

  /** engine.run(mode="chat"): a refused selection is raised as it is. */
  function DirectChat(env: Env, params: Params, gid: int): CallRun {
    match env.select(gid)
    case Refused(e) => CallRun(Threw(e, [], None, None), [])
    case Selected(result) => FastChat(env, gid, params, result)
  }

  function OutcomeOf(run: ChatRun): Outcome {
    match run
    case Answered(_, _, _, _) => Settles
    case Threw(e, _, _, _) => if e.Recoverable() then FallsBack else Breaks
  }

  function DirectOutcome(env: Env, params: Params): int -> Outcome {
    gid => OutcomeOf(DirectChat(env, params, gid).run)
  }

  function DirectRows(env: Env, params: Params): int -> seq<AttemptRow> {
    gid => DirectChat(env, params, gid).run.attempts
  }

  function DirectEffects(env: Env, params: Params): int -> seq<Effect> {
    gid => DirectChat(env, params, gid).effects
  }

  method EngineRun(world: World, env: Env, params: Params, gid: int) returns (run: ChatRun)
    modifies world`trace
    ensures run == DirectChat(env, params, gid).run
    ensures world.trace == old(world.trace) + DirectChat(env, params, gid).effects
  {
    match env.select(gid) {
      case Refused(e) =>
        run := Threw(e, [], None, None);
      case Selected(result) =>
        run := FastPath.RunOneFast(world, env, gid, params, result);
    }
  }

  // ---------------------------------------------------------------- _drive_chat

  function RouteRow(gid: int, e: Error): AttemptRow {
    AttemptRow(gid, None, None, "route", -1, 1, e.TypeName(), e.message)
  }

  function GroupNotFound(gid: int): Error {
    Error(Configuration, "Group " + Decimal.Print(gid) + " not found", false)
  }

  function ChatTour(env: Env, req: ChatRequest): Tour {
    WholeTour(DirectOutcome(env, req.params), env.groups, req.primary)
  }

  /** The attempt rows of a whole request: the tried groups' rows in order, and one route
      row when the last group broke. */
  function ChatTrail(env: Env, req: ChatRequest): seq<AttemptRow> {
    var t := ChatTour(env, req);
    Gather(DirectRows(env, req.params), t.tried)
    + match DirectChat(env, req.params, t.Last().id).run
      case Threw(e, _, _, _) => if t.end.Broken? then [RouteRow(t.Last().id, e)] else []
      case Answered(_, _, _, _) => []
  }

  function ChatRecord(env: Env, req: ChatRequest): CallRecord {
    var t := ChatTour(env, req);
    match DirectChat(env, req.params, t.Last().id).run
    case Answered(reply, modelId, providerId, _) =>
      CallRecord(req.primary.id, Some(modelId), Some(providerId), reply.usage, None)
    case Threw(e, _, modelId, providerId) =>
      if t.end.Broken? then CallRecord(req.primary.id, None, None, None, Some(e))
      else CallRecord(req.primary.id, modelId, providerId, None, Some(e))
  }

  function ChatAnswer(env: Env, req: ChatRequest): ChatEnd {
    var t := ChatTour(env, req);
    AnswerAfter(req, DirectChat(env, req.params, t.Last().id).run, t.end)
  }

  /** What the driver returns or raises after the last group's run. */
  function AnswerAfter(req: ChatRequest, run: ChatRun, end: TourEnd): ChatEnd {
    match end
    case LoadFailed(gid) => Propagates(GroupNotFound(gid))
    case _ =>
      match run
      case Answered(reply, _, _, _) => Returned(reply.(model := req.model))
      case Threw(e, _, _, _) => Propagates(e)
  }

  /** One turn of _drive_chat: run a group and take over its attempt rows. */
  method TryGroup(world: World, env: Env, params: Params, group: Group, attempts: seq<AttemptRow>,
                  ghost tried: seq<Group>, ghost start: seq<Effect>)
    returns (run: ChatRun, attempts': seq<AttemptRow>)
    requires attempts == Gather(DirectRows(env, params), tried)
    requires world.trace == start + Gather(DirectEffects(env, params), tried)
    modifies world`trace
    ensures run == DirectChat(env, params, group.id).run
    ensures attempts' == Gather(DirectRows(env, params), tried + [group])
    ensures world.trace == start + Gather(DirectEffects(env, params), tried + [group])
  {
    run := EngineRun(world, env, params, group.id);
    attempts' := attempts + run.attempts;
    GatherAppends(DirectRows(env, params), tried, group);
    GatherAppends(DirectEffects(env, params), tried, group);
    Assoc(start, Gather(DirectEffects(env, params), tried), DirectEffects(env, params)(group.id));
  }

  /** The loop of _drive_chat up to the group it ends at: that group, how its run ended,
      the trail so far, and why the loop stops there. */
  method TryGroups(world: World, env: Env, req: ChatRequest)
    returns (group: Group, run: ChatRun, attempts: seq<AttemptRow>, end: TourEnd)
    modifies world`trace
    ensures var t := ChatTour(env, req);
            && end == t.end && group == t.Last() && run == DirectChat(env, req.params, group.id).run
            && attempts == Gather(DirectRows(env, req.params), t.tried)
            && world.trace == old(world.trace) + Gather(DirectEffects(env, req.params), t.tried)
  {
    ghost var whole := ChatTour(env, req);
    ghost var tried: seq<Group> := [];
    ghost var outcome, start := DirectOutcome(env, req.params), world.trace;
    group, attempts := req.primary, [];
    var visited := {group.id};
    while true
      invariant group.id in visited && |visited| <= MAX_GROUPS
      invariant OnTour(outcome, env.groups, whole, tried, group, visited)
      invariant attempts == Gather(DirectRows(env, req.params), tried)
      invariant world.trace == start + Gather(DirectEffects(env, req.params), tried)
      decreases MAX_GROUPS - |visited|
    {
      run, attempts := TryGroup(world, env, req.params, group, attempts, tried, start);
      var stop, next, visited' := Advance(env.groups, group, visited, OutcomeOf(run), outcome, whole, tried);
      tried := tried + [group];
      if stop.Some? {
        return group, run, attempts, stop.value;
      }
      group, visited := next, visited';
    }
  }

  /** _drive_chat. A backup group that does not load propagates before anything is logged. */
  method DriveChat(world: World, journal: Journal, env: Env, req: ChatRequest) returns (answer: ChatEnd)
    modifies world`trace, journal
    ensures answer == ChatAnswer(env, req)
    ensures world.trace == old(world.trace) + Gather(DirectEffects(env, req.params), ChatTour(env, req).tried)
    ensures ChatTour(env, req).end.LoadFailed? ==>
              journal.attemptRows == old(journal.attemptRows) && journal.callRows == old(journal.callRows)
    ensures !ChatTour(env, req).end.LoadFailed? ==>
              && journal.attemptRows == old(journal.attemptRows) + ChatTrail(env, req)
              && journal.callRows == old(journal.callRows) + [ChatRecord(env, req)]
  {
    var group, run, attempts, end := TryGroups(world, env, req);
    TourIsChain(DirectOutcome(env, req.params), env.groups, req.primary);
    if end.LoadFailed? {
      return Propagates(GroupNotFound(end.groupId));
    }
    match run {
      case Answered(reply, modelId, providerId, _) =>
        journal.Log(attempts, CallRecord(req.primary.id, Some(modelId), Some(providerId), reply.usage, None));
        return Returned(reply.(model := req.model));
      case Threw(e, _, modelId, providerId) =>
        if end.Broken? {
          journal.Log(attempts + [RouteRow(group.id, e)], CallRecord(req.primary.id, None, None, None, Some(e)));
        } else {
          journal.Log(attempts, CallRecord(req.primary.id, modelId, providerId, None, Some(e)));
        }
        return Propagates(e);
    }
  }

  // ---------------------------------------------------------------- route()

  /** The outcome of a group that the graph selects and runs. */
  function GraphOutcome(env: Env, req: ChatRequest): int -> Outcome {
    gid => OutcomeOf(GraphChat(env, gid, req.messages, req.params, None).run)
  }

  function RouteTour(env: Env, req: ChatRequest): Tour {
    WholeTour(GraphOutcome(env, req), env.groups, req.primary)
  }

  /** What route() returns or raises at the group where it stops. */
  function RouteEnd(run: ChatRun, last: Group, visited: set<int>): ChatEnd {
    match run
    case Answered(reply, _, _, _) => Returned(reply)
    case Threw(e, _, _, _) =>
      if !e.Recoverable() || last.fallback.None? then Propagates(e)
      else if last.fallback.value in visited then Propagates(ProviderError("No fallback group available"))
      else if |visited| >= MAX_GROUPS then Propagates(ProviderError("Fallback chain too deep"))
      else Propagates(GroupNotFound(last.fallback.value))
  }

  function RouteAnswer(env: Env, req: ChatRequest): ChatEnd {
    var t := RouteTour(env, req);
    RouteEnd(GraphChat(env, t.Last().id, req.messages, req.params, None).run, t.Last(), Ids(t.tried))
  }

  /** The legacy route(): the graph once per group, over the same kind of chain. */
  method Route(world: World, env: Env, req: ChatRequest) returns (answer: ChatEnd)
    modifies world`trace
    ensures answer == RouteAnswer(env, req)
  {
    ghost var whole := RouteTour(env, req);
    ghost var tried: seq<Group> := [];
    ghost var outcome := GraphOutcome(env, req);
    var primary := req.primary;
    var visited := {primary.id};
    while true
      invariant primary.id in visited && |visited| <= MAX_GROUPS && visited == Ids(tried + [primary])
      invariant OnTour(outcome, env.groups, whole, tried, primary, visited)
      decreases MAX_GROUPS - |visited|
    {
      var run := RunOne(world, env, primary.id, req.messages, req.params, None);
      var stop, next, visited' := Advance(env.groups, primary, visited, OutcomeOf(run), outcome, whole, tried);
      if stop.Some? {
        return RouteEnd(run, primary, visited);
      }
      tried := tried + [primary];
      IdsGrow(tried, next);
      primary, visited := next, visited';
    }
  }

  lemma IdsGrow(tried: seq<Group>, g: Group)
    ensures Ids(tried + [g]) == Ids(tried) + {g.id}
  {
    assert forall x :: x in tried + [g] <==> x in tried || x == g;
    assert forall id :: id in Ids(tried + [g]) <==> id in Ids(tried) || id == g.id;
  }

  /** A selection refused with something that is not a BotflowError. */
  function Stray(env: Env): int -> bool {
    gid => env.select(gid).Refused? && !env.select(gid).error.Botflow()
  }

  /** route() and _drive_chat try the same groups and agree on success if and only if
      _drive_chat does not stop at a group whose selection fails with something that is not
      a BotflowError while a loadable backup remains: route() re-types that error to a
      ProviderError and goes on. */
  lemma RouteAgreesWithDriver(env: Env, req: ChatRequest)
    ensures var a, b := ChatTour(env, req), RouteTour(env, req);
            (a.tried == b.tried && a.end.Settled? == b.end.Settled?)
            <==> !(Stray(env)(a.Last().id) && CouldGoOn(env.groups, a.Last(), Ids(a.tried)))
  {
    forall gid: int
      ensures var first, second := DirectOutcome(env, req.params)(gid), GraphOutcome(env, req)(gid);
              if Stray(env)(gid) then first == Breaks && second == FallsBack else first == second
    {
      GraphSelectsThenCalls(env, gid, req.messages, req.params);
    }
    ToursAgree(DirectOutcome(env, req.params), GraphOutcome(env, req), Stray(env), env.groups, req.primary,
               {req.primary.id});
    assert {req.primary.id} + Ids(ChatTour(env, req).tried) == Ids(ChatTour(env, req).tried) by {
      TourIsChain(DirectOutcome(env, req.params), env.groups, req.primary);
      assert req.primary in ChatTour(env, req).tried;
    }
  }

  lemma NoStraySameTour(env: Env, req: ChatRequest)
    requires forall gid :: env.select(gid).Refused? ==> env.select(gid).error.Botflow()
    ensures var a, b := ChatTour(env, req), RouteTour(env, req);
            a.tried == b.tried && a.end.Settled? == b.end.Settled?
  {
    RouteAgreesWithDriver(env, req);
  }

  /** At the group where both stop, the graph's run is the driver's, up to a re-typed error. */
  lemma SameRun(env: Env, req: ChatRequest, gid: int)
    requires env.select(gid).Refused? ==> env.select(gid).error.Botflow()
    ensures var first := DirectChat(env, req.params, gid).run;
            var second := GraphChat(env, gid, req.messages, req.params, None).run;
            if first.Answered? then second == first else second.Threw?
    ensures DirectOutcome(env, req.params)(gid) == GraphOutcome(env, req)(gid)
  {
    GraphSelectsThenCalls(env, gid, req.messages, req.params);
  }

  /** When every selection succeeds or fails with a BotflowError, the two also end with the
      same reply, up to the model name that the driver overrides. */
  lemma RouteAgreesOnReplies(env: Env, req: ChatRequest)
    requires forall gid :: env.select(gid).Refused? ==> env.select(gid).error.Botflow()
    ensures ChatTour(env, req).tried == RouteTour(env, req).tried
    ensures match ChatAnswer(env, req)
            case Returned(reply) =>
              RouteAnswer(env, req).Returned? && RouteAnswer(env, req).reply.(model := req.model) == reply
            case Propagates(_) => RouteAnswer(env, req).Propagates?
  {
    NoStraySameTour(env, req);
    TourIsChain(DirectOutcome(env, req.params), env.groups, req.primary);
    var a, b := ChatTour(env, req), RouteTour(env, req);
    SameRun(env, req, a.Last().id);
    EndsAgree(req, DirectChat(env, req.params, a.Last().id).run,
              GraphChat(env, b.Last().id, req.messages, req.params, None).run, a.end, b.Last(), Ids(b.tried));
  }

  lemma EndsAgree(req: ChatRequest, direct: ChatRun, graph: ChatRun, end: TourEnd, last: Group, visited: set<int>)
    requires if direct.Answered? then graph == direct else graph.Threw?
    requires end.LoadFailed? ==> direct.Threw?
    ensures match AnswerAfter(req, direct, end)
            case Returned(reply) =>
              && RouteEnd(graph, last, visited).Returned?
              && RouteEnd(graph, last, visited).reply.(model := req.model) == reply
            case Propagates(_) => RouteEnd(graph, last, visited).Propagates?
  {
  }

  /** Group 1 refuses with a StrategyError and has group 2 as its backup, where nothing is
      awake. */
  function StrayEnv(): Env {
    SampleEnv().(select := gid => Refused(Error(if gid == 1 then StrategyFailure else NoAvailableModel, "", false)),
                 groups := map[2 := None])
  }

  /** An input on which the two differ: the driver stops at group 1, route() goes on. */
  lemma RouteCanGoFurther(model: string, messages: seq<Message>, params: Params)
    ensures var req := ChatRequest(model, Group(1, Some(2)), messages, params);
            && ChatTour(StrayEnv(), req).tried == [req.primary]
            && RouteTour(StrayEnv(), req).tried == [req.primary, Group(2, None)]
  {
    var env, req := StrayEnv(), ChatRequest(model, Group(1, Some(2)), messages, params);
    GraphSelectsThenCalls(env, 1, messages, params);
    GraphSelectsThenCalls(env, 2, messages, params);
    assert GraphOutcome(env, req)(1) == FallsBack && GraphOutcome(env, req)(2) == FallsBack;
    assert TourFrom(GraphOutcome(env, req), env.groups, Group(2, None), {1} + {2}).tried == [Group(2, None)];
    assert DirectOutcome(env, params)(1) == Breaks;
  }
}
