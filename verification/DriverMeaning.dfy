/** What a whole request returns, records and logs, said over what the groups' selections, the
    providers and the hooks do. */
module DriverMeaning {
  import opened Options
  import opened Routing
  import opened Chatting
  import opened Streaming
  import opened WalkMeaning
  import opened GroupMeaning
  import opened RouteGraph
  import opened PathEquivalence
  import opened Fallback
  import opened ChatDriver
  import opened StreamDriver
  import opened StreamSafety
  import opened StreamEndings
  import Decimal

  /** The errors after which a driver tries the backup group. */
  predicate LeadsToBackup(kind: ErrorKind) {
    kind == NoAvailableModel || kind == AllModelsCooldown || kind == ProviderFailure
  }

  ghost predicate NoneAnswers(env: Env, gid: int, queue: seq<Endpoint>) {
    forall q: nat :: q < |queue| ==> !Answers(env, gid, q, queue[q])
  }

  // ------------------------------------------------- chat

  /** A chat request goes on to the backup of a group when its selection is refused for lack of
      a model, or none of its endpoints answers; any other refusal ends it. */
  lemma ChatOutcomeExactly(env: Env, params: Params, gid: int)
    ensures DirectOutcome(env, params)(gid)
            == match env.select(gid)
               case Refused(e) => if LeadsToBackup(e.kind) then FallsBack else Breaks
               case Selected(r) => if NoneAnswers(env, gid, r.endpoints) then FallsBack else Settles
  {
    match env.select(gid) {
      case Refused(_) =>
      case Selected(r) =>
        if NoneAnswers(env, gid, r.endpoints) {
          UnansweredExactly(env, gid, r, params);
        } else {
          var p := SomeoneAnswers(env, gid, r.endpoints, 0);
          var a: nat :| a < r.endpoints[p].maxRetries && RepliesAt(env, gid, p, r.endpoints[p], a);
          AnsweredExactly(env, gid, r, params, p, a);
        }
    }
  }

  /** What a chat request returns and records when its last group answers: the reply under the
      requested name, the answering endpoint's ids, and the reply's usage. */
  lemma AnsweredChat(env: Env, req: ChatRequest, p: nat, a: nat)
    requires var gid := ChatTour(env, req).Last().id;
             && env.select(gid).Selected?
             && var queue := env.select(gid).result.endpoints;
                FirstToAnswer(env, gid, queue, 0, p) && RepliesAt(env, gid, p, queue[p], a)
    ensures var gid := ChatTour(env, req).Last().id;
            var reply, ep := env.chat(gid, p, a).reply, env.select(gid).result.endpoints[p];
            && ChatAnswer(env, req) == Returned(Reply(req.model, reply.body, reply.usage))
            && ChatRecord(env, req)
               == CallRecord(req.primary.id, Some(ep.modelId), Some(ep.providerId), reply.usage, None)
            && ChatTrail(env, req) == Gather(DirectRows(env, req.params), ChatTour(env, req).tried)
  {
    var t := ChatTour(env, req);
    var gid := t.Last().id;
    AnsweredExactly(env, gid, env.select(gid).result, req.params, p, a);
    TourIsChain(DirectOutcome(env, req.params), env.groups, req.primary);
    assert DirectOutcome(env, req.params)(gid) == Settles;
  }

  /** The one row of a request that an error breaks off. */
  predicate TellsBreak(row: AttemptRow, gid: int, e: Error) {
    && row.groupId == gid && row.modelId == None && row.providerId == None && row.stage == "route"
    && row.endpointIdx == -1 && row.attemptNo == 1 && Names(row.errorType, e.kind) && row.errorMessage == e.message
  }

  lemma RouteRowTells(gid: int, e: Error)
    ensures TellsBreak(RouteRow(gid, e), gid, e)
  {
  }

  /** The error of a group that failed on all its endpoints. */
  const GROUP_FAILED := Error(ProviderFailure, "All endpoints in group failed", false)

  /** What it returns and records when the last group does not answer, its backups being used
      up: the error of the selection or of the group; and a row of its own for an error that
      does not lead to a backup. */
  lemma FailedChat(env: Env, req: ChatRequest)
    requires var gid := ChatTour(env, req).Last().id;
             env.select(gid).Selected? ==> NoneAnswers(env, gid, env.select(gid).result.endpoints)
    requires !ChatTour(env, req).end.LoadFailed?
    ensures var gid, record := ChatTour(env, req).Last().id, ChatRecord(env, req);
            var rows := Gather(DirectRows(env, req.params), ChatTour(env, req).tried);
            match env.select(gid)
            case Refused(e) =>
              && ChatAnswer(env, req) == Propagates(e)
              && record == CallRecord(req.primary.id, None, None, None, Some(e))
              && (if LeadsToBackup(e.kind) then ChatTrail(env, req) == rows
                  else exists row :: TellsBreak(row, gid, e) && ChatTrail(env, req) == rows + [row])
            case Selected(r) =>
              && ChatAnswer(env, req) == Propagates(GROUP_FAILED) && ChatTrail(env, req) == rows
              && record.groupId == req.primary.id && record.usage == None && record.error == Some(GROUP_FAILED)
              && IsLast(r.endpoints, record.modelId, record.providerId)
  {
    var t := ChatTour(env, req);
    var gid := t.Last().id;
    TourIsChain(DirectOutcome(env, req.params), env.groups, req.primary);
    ChatOutcomeExactly(env, req.params, gid);
    match env.select(gid) {
      case Refused(e) =>
        RouteRowTells(gid, e);
      case Selected(r) =>
        UnansweredExactly(env, gid, r, req.params);
    }
  }

  /** A backup that does not load. */
  lemma UnloadedChat(env: Env, req: ChatRequest)
    requires ChatTour(env, req).end.LoadFailed?
    ensures var missing := ChatTour(env, req).end.groupId;
            ChatAnswer(env, req)
            == Propagates(Error(Configuration, "Group " + Decimal.Print(missing) + " not found", false))
  {
  }

  // ------------------------------------------------- route()

  /** The graph raises a BotflowError as it is, and any other exception as a ProviderError. */
  lemma ReraisedExactly(e: Error)
    ensures Reraised(Some(Exception(e)))
            == if LeadsToBackup(e.kind) || e.kind == Configuration then e
               else Error(ProviderFailure, if e.message == "" then "no result" else e.message, false)
  {
  }

  /** What the graph's final state says of a refused selection: the error itself, whether it
      leads to a backup, and a body with its message; nothing was sent. */
  lemma RefusedGraph(env: Env, gid: int, messages: seq<Message>, params: Params, stream: bool)
    requires env.select(gid).Refused?
    ensures var e := env.select(gid).error;
            var trip := GraphFrom(env, SelectNode, Initial(gid, messages, stream, params, None));
            && trip.final.error == Some(Exception(e)) && trip.final.result == Some(ErrorBody(e.message))
            && trip.final.recoverable == Some(LeadsToBackup(e.kind))
            && trip.written == [] && trip.effects == [] && trip.final.attempts == []
  {
    var s := Initial(gid, messages, stream, params, None);
    var s' := Merge(s, SelectEndpoints(env, s));
    var s'' := Merge(s', FinalizeError(s'));
    assert GraphFrom(env, End, s'') == Trip(s'', [], []);
    assert GraphFrom(env, ErrorNode, s') == Trip(s'', [], []);
  }

  /** And of a group none of whose endpoints answers. */
  lemma UnansweredGraph(env: Env, gid: int, messages: seq<Message>, params: Params)
    requires env.select(gid).Selected? && NoneAnswers(env, gid, env.select(gid).result.endpoints)
    ensures var final := GraphFrom(env, SelectNode, Initial(gid, messages, false, params, None)).final;
            && final.error == Some(Text("All endpoints in group failed")) && final.recoverable == Some(true)
            && final.result == Some(ErrorBody("All endpoints in group failed"))
  {
    var s := Initial(gid, messages, false, params, None);
    var s' := Merge(s, SelectEndpoints(env, s));
    CallNodeExactly(env, s');
    UnansweredExactly(env, gid, env.select(gid).result, params);
    NobodyWins(env, s');
    var called := Merge(s', TryCallUpdate(env, s'));
    assert RouteAfterCall(called) == ErrorNode;
    assert GraphFrom(env, ErrorNode, called).final == Merge(called, FinalizeError(called));
  }

  lemma NobodyWins(env: Env, s: RouteState)
    requires s.currentIdx == 0 && NoneAnswers(env, s.groupId, s.endpoints)
    ensures CallsOf(env, s).winner.None?
  {
    var w := CallsOf(env, s).winner;
    CallWinner(env, s.groupId, s.endpoints, s.truncated, s.params, 0);
    if w.Some? {
      ChatWalkMeaning(env, s.groupId, s.endpoints, s.truncated, s.params, 0, w.value);
      assert false;
    }
  }

  /** How route() ends when no group answers: with the last group's own error when it has no
      backup or the error does not lead to one; else saying why the backup is not tried. */
  lemma RouteEndExactly(env: Env, req: ChatRequest)
    ensures var t := RouteTour(env, req);
            match GraphChat(env, t.Last().id, req.messages, req.params, None).run
            case Answered(reply, _, _, _) => RouteAnswer(env, req) == Returned(reply)
            case Threw(e, _, _, _) =>
              RouteAnswer(env, req)
              == Propagates(
                   if !LeadsToBackup(e.kind) || t.Last().fallback.None? then e
                   else if exists i :: 0 <= i < |t.tried| && t.tried[i].id == t.Last().fallback.value then
                     Error(ProviderFailure, "No fallback group available", false)
                   else if |t.tried| == 3 then Error(ProviderFailure, "Fallback chain too deep", false)
                   else Error(Configuration, "Group " + Decimal.Print(t.Last().fallback.value) + " not found", false))
  {
    var t := RouteTour(env, req);
    TourIsChain(GraphOutcome(env, req), env.groups, req.primary);
    AsManyIds(t.tried);
    if t.Last().fallback.Some? {
      TriedExactly(t.tried, t.Last().fallback.value);
    }
    EndsSo(GraphChat(env, t.Last().id, req.messages, req.params, None).run, t.Last(), Ids(t.tried));
  }

  lemma EndsSo(run: ChatRun, last: Group, visited: set<int>)
    requires |visited| <= 3
    ensures RouteEnd(run, last, visited)
            == match run
               case Answered(reply, _, _, _) => Returned(reply)
               case Threw(e, _, _, _) =>
                 Propagates(
                   if !LeadsToBackup(e.kind) || last.fallback.None? then e
                   else if last.fallback.value in visited then
                     Error(ProviderFailure, "No fallback group available", false)
                   else if |visited| == 3 then Error(ProviderFailure, "Fallback chain too deep", false)
                   else Error(Configuration, "Group " + Decimal.Print(last.fallback.value) + " not found", false))
  {
  }

  // ------------------------------------------------- streaming

  /** A streaming request goes on to the backup of a group when its selection is refused for
      lack of a model, or none of its endpoints streams while the client is connected; any
      other refusal, and any failing hook, ends it with an error. */
  lemma StreamOutcomeExactly(env: Env, req: StreamRequest, gid: int)
    ensures StreamOutcomes(env, req)(gid)
            == match env.select(gid)
               case Refused(e) => if LeadsToBackup(e.kind) then FallsBack else Breaks
               case Selected(r) =>
                 if HookRaises(env, req, gid) then Breaks
                 else if NoneStreams(env, gid, r.endpoints) && env.driverPoll(gid, 0).Connected? then FallsBack
                 else Settles
  {
    if env.select(gid).Selected? {
      SelectedStepEnds(env, req, gid);
    }
  }

  /** How the run of a selected group ends. */
  lemma SelectedStepEnds(env: Env, req: StreamRequest, gid: int)
    requires env.select(gid).Selected?
    ensures var r, end := env.select(gid).result, StepOf(env, req, gid).end;
            && (end.Fatal? <==> HookRaises(env, req, gid))
            && (end.Retreats? <==> !HookRaises(env, req, gid) && NoneStreams(env, gid, r.endpoints)
                                   && env.driverPoll(gid, 0).Connected?)
  {
    var r := env.select(gid).result;
    var run := WatchedRun(env, req, gid, r);
    StepFailsExactly(env, req, gid);
    NoneStreamsExactly(env, req, gid, r);
    AbandonedExactly(env, req, gid);
    WatchedAgainstOffered(env, req, gid);
    if run.state.None? {
      AbandonedByHook(env, req, gid, r);
      DriverHearsAll(env, req, gid, r);
      assert VerdictAt(env, req, gid, |run.chunks| - 1) != Continue;
    } else {
      forall i: nat | i < |run.chunks|
        ensures Judge(env, req, gid, i, ChunkEvent(run.chunks[i])) == Continue
      {
        assert VerdictAt(env, req, gid, i) == Continue;
      }
      HearToTheEnd(env, req, gid, run.chunks, run.state, None, 0);
    }
  }

  /** The record of a request whose last group's selection was refused. */
  lemma RefusedStream(env: Env, req: StreamRequest)
    requires env.select(StreamTour(env, req).Last().id).Refused?
    ensures var gid := StreamTour(env, req).Last().id;
            var e := env.select(gid).error;
            var rows := Gather(StepRows(env, req), StreamTour(env, req).tried);
            && Recorded(env, req) == CallRecord(req.primary.id, None, None, None, Some(e))
            && (if LeadsToBackup(e.kind) then StreamTrail(env, req) == rows
                else exists row :: TellsBreak(row, gid, e) && StreamTrail(env, req) == rows + [row])
  {
    var gid := StreamTour(env, req).Last().id;
    RouteRowTells(gid, env.select(gid).error);
  }

  /** The record of a request whose last group failed on all its endpoints while the client was
      connected. */
  lemma ExhaustedStream(env: Env, req: StreamRequest)
    requires var gid := StreamTour(env, req).Last().id;
             && env.select(gid).Selected? && NoneStreams(env, gid, env.select(gid).result.endpoints)
             && env.driverPoll(gid, 0).Connected?
    ensures var gid, record := StreamTour(env, req).Last().id, Recorded(env, req);
            && record.groupId == req.primary.id && record.usage == None
            && record.error == Some(Error(ProviderFailure,
                                          "Group " + Decimal.Print(gid) + " stream exhausted, fallback", false))
            && IsLast(env.select(gid).result.endpoints, record.modelId, record.providerId)
            && StreamTrail(env, req) == Gather(StepRows(env, req), StreamTour(env, req).tried)
  {
    var gid := StreamTour(env, req).Last().id;
    ExhaustedStateExactly(env, gid, env.select(gid).result, req.params, Watch(env, req, gid));
  }

  /** The record of a request whose last group streams, heard to the end: the ids of the
      streaming endpoint and no error. */
  lemma HeardStream(env: Env, req: StreamRequest, p: nat, a: nat)
    requires var gid := StreamTour(env, req).Last().id;
             && env.select(gid).Selected? && HooksLetThrough(env, req, gid)
             && var queue := env.select(gid).result.endpoints;
                p < |queue| && StartsAt(env, gid, p, queue[p], a)
                && forall q: nat :: q < p ==> !Streams(env, gid, q, queue[q])
    ensures var gid, record := StreamTour(env, req).Last().id, Recorded(env, req);
            var ep := env.select(gid).result.endpoints[p];
            && record.groupId == req.primary.id && record.error == None
            && record.modelId == Some(ep.modelId) && record.providerId == Some(ep.providerId)
            && record.usage == LastUsage(req, StepOf(env, req, gid).delivered, 0)
  {
    var gid := StreamTour(env, req).Last().id;
    var r := env.select(gid).result;
    HeardUsage(env, req, gid, r);
    HearsStateExactly(env, req, gid);
    HeardState(env, req, gid, r);
    StartedStateExactly(env, gid, r, req.params, Watch(env, req, gid), p, a);
  }

  lemma HeardState(env: Env, req: StreamRequest, gid: int, r: RouteResult)
    requires env.select(gid) == Selected(r) && HearsState(env, req, gid)
    ensures var run := WatchedRun(env, req, gid, r);
            run.state.Some? && StepOf(env, req, gid).end == EndOf(gid, Drained(run.state.value))
  {
    var run := WatchedRun(env, req, gid, r);
    HearDelivers(env, req, gid, run.chunks, run.state, None, 0);
  }

  /** The last usage that the serializer reports for the delivered chunks. */
  function LastUsage(req: StreamRequest, delivered: seq<Chunk>, k: nat): Option<string> {
    if delivered == [] then None
    else
      var later := LastUsage(req, delivered[1..], k + 1);
      if later.Some? || req.serialize(k, delivered[0]).SerializeRaises? then later
      else req.serialize(k, delivered[0]).usage
  }

  lemma {:induction false} HearUsage(env: Env, req: StreamRequest, gid: int, chunks: seq<Chunk>,
                                     state: Option<StreamState>, usage: Option<string>, k: nat)
    requires k <= |chunks|
    ensures var h := Hear(env, req, gid, chunks, state, usage, k);
            h.usage == if LastUsage(req, h.delivered, k).Some? then LastUsage(req, h.delivered, k) else usage
    decreases |chunks| - k
  {
    var h := Hear(env, req, gid, chunks, state, usage, k);
    if h.delivered != [] {
      var u := req.serialize(k, chunks[k].(model := req.model)).usage;
      var usage' := if u.Some? then u else usage;
      HearUsage(env, req, gid, chunks, state, usage', k + 1);
      assert h.delivered[1..] == Hear(env, req, gid, chunks, state, usage', k + 1).delivered;
    }
  }

  /** The usage of a group's run, whichever way it ends. */
  lemma HeardUsage(env: Env, req: StreamRequest, gid: int, r: RouteResult)
    requires env.select(gid) == Selected(r)
    ensures StepOf(env, req, gid).usage == LastUsage(req, StepOf(env, req, gid).delivered, 0)
  {
    var run := WatchedRun(env, req, gid, r);
    HearUsage(env, req, gid, run.chunks, run.state, None, 0);
  }

  /** The record of a request that the client left: no ids, no error, and the usage so far. */
  lemma LeftStream(env: Env, req: StreamRequest)
    requires var gid := StreamTour(env, req).Last().id;
             && env.select(gid).Selected? && !HookRaises(env, req, gid) && !HooksLetThrough(env, req, gid)
    ensures var gid := StreamTour(env, req).Last().id;
            Recorded(env, req)
            == CallRecord(req.primary.id, None, None, LastUsage(req, StepOf(env, req, gid).delivered, 0), None)
  {
    var gid := StreamTour(env, req).Last().id;
    var r := env.select(gid).result;
    var run := WatchedRun(env, req, gid, r);
    HeardUsage(env, req, gid, r);
    HearsStateExactly(env, req, gid);
    SelectedStepEnds(env, req, gid);
    assert !Hear(env, req, gid, run.chunks, run.state, None, 0).end.Drained?;
  }

  /** The error is what a poll or the serializer raised, of a class that is none of the
      router's own. */
  ghost predicate HookRaised(env: Env, req: StreamRequest, gid: int, e: Error) {
    && e.kind.Unexpected?
    && (|| (exists k: nat :: env.driverPoll(gid, k) == PollRaises(e.kind.name, e.message))
        || exists k: nat, chunk :: req.serialize(k, chunk) == SerializeRaises(e.kind.name, e.message))
  }

  lemma {:induction false} HearsHook(env: Env, req: StreamRequest, gid: int, chunks: seq<Chunk>,
                                     state: Option<StreamState>, usage: Option<string>, k: nat)
    requires k <= |chunks|
    ensures var h := Hear(env, req, gid, chunks, state, usage, k);
            h.end.HookFailed? ==> HookRaised(env, req, gid, h.end.error)
    decreases |chunks| - k
  {
    if k < |chunks| && env.driverPoll(gid, k).Connected? {
      var chunk := chunks[k].(model := req.model);
      match req.serialize(k, chunk) {
        case SerializeRaises(_, _) =>
        case Lines(_, u) =>
          HearsHook(env, req, gid, chunks, state, if u.Some? then u else usage, k + 1);
      }
    }
  }

  /** A request that a failing hook broke off: what the hook raised is recorded, and gets the
      last row. */
  lemma HookedStream(env: Env, req: StreamRequest)
    requires var gid := StreamTour(env, req).Last().id; env.select(gid).Selected? && HookRaises(env, req, gid)
    ensures var gid, record := StreamTour(env, req).Last().id, Recorded(env, req);
            && record.error.Some? && HookRaised(env, req, gid, record.error.value)
            && record == CallRecord(req.primary.id, None, None, None, record.error)
            && exists row :: TellsBreak(row, gid, record.error.value)
                             && StreamTrail(env, req) == Gather(StepRows(env, req), StreamTour(env, req).tried) + [row]
  {
    var gid := StreamTour(env, req).Last().id;
    HookedStep(env, req, gid);
    RouteRowTells(gid, StepOf(env, req, gid).end.error);
  }

  lemma HookedStep(env: Env, req: StreamRequest, gid: int)
    requires env.select(gid).Selected? && HookRaises(env, req, gid)
    ensures StepOf(env, req, gid).end.Fatal? && HookRaised(env, req, gid, StepOf(env, req, gid).end.error)
  {
    var run := WatchedRun(env, req, gid, env.select(gid).result);
    SelectedStepEnds(env, req, gid);
    HearsHook(env, req, gid, run.chunks, run.state, None, 0);
  }

  /** The client is told the error that is recorded. */
  lemma ErrorLineTells(env: Env, req: StreamRequest)
    requires !StreamTour(env, req).end.LoadFailed? && Recorded(env, req).error.Some?
    ensures var lines := Response(env, req);
            |lines| >= 2 && lines[|lines| - 2] == ErrorLine(Recorded(env, req).error.value.message)
  {
  }
}
