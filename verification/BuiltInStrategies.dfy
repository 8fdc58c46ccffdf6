/** With the built-in strategies, the two paths agree without conditions. */
module BuiltInStrategies {
  import opened Options
  import opened Routing
  import opened PathEquivalence
  import opened ChatDriver
  import Strategies

  /** The selection is what the strategy's choice comes to in the engine's terms. */
  predicate Carries(selection: Selection, choice: Strategies.Choice) {
    match selection
    case Refused(e) => choice == Strategies.Refuses(e.kind)
    case Selected(result) => choice.Queue? && |choice.endpoints| == |result.endpoints|
  }

  /** Every group is routed by one of the three built-in strategies. */
  ghost predicate RoutedByBuiltIns(env: Env) {
    forall gid :: ByBuiltIn(env.select(gid))
  }

  ghost predicate ByBuiltIn(selection: Selection) {
    exists choice :: Strategies.BuiltIn(choice) && Carries(selection, choice)
  }

  lemma BuiltInsAreTame(selection: Selection)
    requires ByBuiltIn(selection)
    ensures selection.Selected? ==> selection.result.endpoints != []
    ensures selection.Refused? ==> selection.error.Recoverable()
  {
    var choice :| Strategies.BuiltIn(choice) && Carries(selection, choice);
    Strategies.QueuesNeverEmpty(choice);
  }

  /** Then, for whatever the group's selection returns, the direct streaming path and the graph
      show the same chunks, state and effects, and so do the direct chat path and the graph. */
  lemma BuiltInPathsAgree(env: Env, gid: int, messages: seq<Message>, params: Params)
    requires ByBuiltIn(env.select(gid)) && env.select(gid).Selected?
    ensures var selected := env.select(gid).result;
            && GraphStream(env, gid, messages, params, selected) == FastStream(env, gid, params, selected)
            && GraphChat(env, gid, messages, params, Some(selected)) == FastChat(env, gid, params, selected)
  {
    BuiltInsAreTame(env.select(gid));
    StreamPathsAgree(env, gid, messages, params, env.select(gid).result);
    ChatPathsAgree(env, gid, messages, params, env.select(gid).result);
  }

  /** And route() tries the groups that the chat driver tries, and returns its reply. */
  lemma BuiltInRoutesAgree(env: Env, req: ChatRequest)
    requires RoutedByBuiltIns(env)
    ensures ChatTour(env, req).tried == RouteTour(env, req).tried
    ensures match ChatAnswer(env, req)
            case Returned(reply) =>
              RouteAnswer(env, req).Returned? && RouteAnswer(env, req).reply.(model := req.model) == reply
            case Propagates(_) => RouteAnswer(env, req).Propagates?
  {
    forall gid | env.select(gid).Refused?
      ensures env.select(gid).error.Botflow()
    {
      BuiltInsAreTame(env.select(gid));
    }
    RouteAgreesOnReplies(env, req);
  }
}
