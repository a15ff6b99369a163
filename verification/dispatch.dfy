/** The skill's request dispatch: the first registered handler that can handle a request handles it. */
module Dispatch {
  import opened Wrappers
  import opened Speech
  import opened Requests
  import opened Gateways
  import opened Handlers

  /** The registration order of `exports.handler`. */
  const Registration: seq<Handler> :=
    [AskHandler, SetLanguageHandler, RepeatHandler, LaunchHandler, HelpHandler,
     CancelHandler, UnhandledHandler, SessionEndedHandler]

  /** The position of the first handler in `hs` that can handle `req`, if any. */
  function FirstMatch(hs: seq<Handler>, req: Request): (r: Option<nat>)
    ensures r.Some? ==> r.value < |hs| && CanHandle(hs[r.value], req)
    ensures r.Some? ==> forall j :: 0 <= j < r.value ==> !CanHandle(hs[j], req)
    ensures r.None? ==> forall j :: 0 <= j < |hs| ==> !CanHandle(hs[j], req)
  {
    if |hs| == 0 then None
    else if CanHandle(hs[0], req) then Some(0)
    else
      match FirstMatch(hs[1..], req)
      case None => None
      case Some(i) => Some(i + 1)
  }

  /** The handler chosen for `req` among `hs`. */
  function Select(hs: seq<Handler>, req: Request): (r: Option<Handler>)
    ensures r.Some? <==> exists j :: 0 <= j < |hs| && CanHandle(hs[j], req)
    ensures r.Some? ==> exists i :: 0 <= i < |hs| && hs[i] == r.value && CanHandle(hs[i], req)
                                 && forall j :: 0 <= j < i ==> !CanHandle(hs[j], req)
  {
    match FirstMatch(hs, req)
    case None => None
    case Some(i) => Some(hs[i])
  }

  /**
   * Handle a request with the first registered handler that can handle it;
   * with none able to, the SDK's dispatcher throws.
   */
  function HandleRequest(hs: seq<Handler>, cfg: Config, svc: Services, env: Envelope, world: World): (h: Handled)
    ensures forall i :: 0 <= i < |hs| && CanHandle(hs[i], env.request)
                        && (forall j :: 0 <= j < i ==> !CanHandle(hs[j], env.request)) ==>
      h == Handle(hs[i], cfg, svc, env, world)
    ensures Select(hs, env.request).None? ==> h == Handled(Thrown, world, [])
  {
    match Select(hs, env.request)
    case None => Handled(Thrown, world, [])
    case Some(handler) => Handle(handler, cfg, svc, env, world)
  }

  /** The deployed skill. */
  function Skill(cfg: Config, svc: Services, env: Envelope, world: World): Handled
  {
    HandleRequest(Registration, cfg, svc, env, world)
  }

  /** A catch-all anywhere in the list guarantees a match no later than its position. */
  lemma CatchAllCovers(hs: seq<Handler>, req: Request, k: nat)
    requires k < |hs| && hs[k] == UnhandledHandler
    ensures FirstMatch(hs, req).Some? && FirstMatch(hs, req).value <= k
  {
  }

  /** Every request is handled: the catch-all is among the registered handlers. */
  lemma EveryRequestHandled(req: Request)
    ensures Select(Registration, req).Some?
    ensures FirstMatch(Registration, req).value <= 6
  {
    CatchAllCovers(Registration, req, 6);
  }

  /** Which handler the deployed order selects, by request, stated without the handler list. */
  function Expected(req: Request): Handler
  {
    match req
    case LaunchRequest => LaunchHandler
    case IntentRequest(name, _) =>
      if name == "AskIntent" then AskHandler
      else if name == "SetLanguage" then SetLanguageHandler
      else if name == "RepeatIntent" then RepeatHandler
      else if name == "AMAZON.HelpIntent" then HelpHandler
      else if name == "AMAZON.CancelIntent" || name == "AMAZON.StopIntent" then CancelHandler
      else UnhandledHandler
    case SessionEndedRequest(_) => UnhandledHandler
    case OtherRequest(_) => UnhandledHandler
  }

  /** Where a handler sits in the deployed order. */
  function Position(h: Handler): (k: nat)
    ensures k < |Registration| && Registration[k] == h
  {
    match h
    case AskHandler => 0
    case SetLanguageHandler => 1
    case RepeatHandler => 2
    case LaunchHandler => 3
    case HelpHandler => 4
    case CancelHandler => 5
    case UnhandledHandler => 6
    case SessionEndedHandler => 7
  }

  /** The deployed order selects exactly the handler Expected names. */
  lemma DispatchTable(req: Request)
    ensures Select(Registration, req) == Some(Expected(req))
  {
    EveryRequestHandled(req);
    var i := FirstMatch(Registration, req).value;
    var e := Expected(req);
    var k := Position(e);
    assert CanHandle(e, req);
    assert forall j :: 0 <= j < k ==> !CanHandle(Registration[j], req);
    assert i == k;
  }

  /** The deployed skill runs the handler Expected names. */
  lemma SkillRunsExpected(cfg: Config, svc: Services, env: Envelope, world: World)
    ensures Skill(cfg, svc, env, world) == Handle(Expected(env.request), cfg, svc, env, world)
  {
    DispatchTable(env.request);
  }

  /** The session-end handler is registered after the catch-all and is never selected. */
  lemma SessionEndedNeverSelected(req: Request)
    ensures Select(Registration, req) != Some(SessionEndedHandler)
  {
    EveryRequestHandled(req);
  }

  /** A session end is therefore answered with the catch-all's speech and reprompt. */
  lemma SessionEndGetsUnhandled(cfg: Config, svc: Services, env: Envelope, world: World)
    requires env.request.SessionEndedRequest?
    ensures Skill(cfg, svc, env, world) == Handled(Reply(Prompt(Unhandled, Unhandled)), world, [])
  {
    DispatchTable(env.request);
  }

  /** The order with the catch-all last, as a catch-all is meant to be registered. */
  const FixedRegistration: seq<Handler> :=
    [AskHandler, SetLanguageHandler, RepeatHandler, LaunchHandler, HelpHandler,
     CancelHandler, SessionEndedHandler, UnhandledHandler]

  /** With the catch-all last, a session end gets the empty response and every request is still handled. */
  lemma FixedSessionEnd(cfg: Config, svc: Services, env: Envelope, world: World)
    ensures Select(FixedRegistration, env.request).Some?
    ensures env.request.SessionEndedRequest? ==>
      HandleRequest(FixedRegistration, cfg, svc, env, world) == Handled(Reply(Response(None, None, None)), world, [])
  {
    CatchAllCovers(FixedRegistration, env.request, 7);
    FixedAgreesElsewhere(env.request);
  }

  /** The fix changes the selection for session ends and for nothing else. */
  lemma FixedAgreesElsewhere(req: Request)
    ensures !req.SessionEndedRequest? ==> Select(FixedRegistration, req) == Select(Registration, req)
    ensures req.SessionEndedRequest? ==> Select(FixedRegistration, req) == Some(SessionEndedHandler)
  {
    DispatchTable(req);
    CatchAllCovers(FixedRegistration, req, 7);
    var i := FirstMatch(FixedRegistration, req).value;
    var k := if req.SessionEndedRequest? then 6 else if Expected(req) == UnhandledHandler then 7
             else FirstMatch(Registration, req).value;
    assert FixedRegistration[k] == if req.SessionEndedRequest? then SessionEndedHandler else Expected(req);
    assert CanHandle(FixedRegistration[k], req);
    assert forall j :: 0 <= j < k ==> !CanHandle(FixedRegistration[j], req);
    assert i == k;
  }
}
