/** The eight request handlers of index.js: when each applies and what each answers. */
module Handlers {
  import opened Wrappers
  import opened Catalog
  import opened Speech
  import opened Requests
  import opened Gateways
  import opened Pipeline

  datatype Handler =
    | AskHandler
    | SetLanguageHandler
    | RepeatHandler
    | LaunchHandler
    | HelpHandler
    | CancelHandler
    | UnhandledHandler
    | SessionEndedHandler

  /** The request is an intent carrying a slot of this name. */
  predicate HasSlot(req: Request, name: string)
  {
    req.IntentRequest? && name in req.slots
  }

  predicate IsIntent(req: Request, name: string)
  {
    req.IntentRequest? && req.name == name
  }

  /** Each handler's `canHandle`. */
  predicate CanHandle(h: Handler, req: Request)
  {
    match h
    case AskHandler => IsIntent(req, "AskIntent")
    case SetLanguageHandler => IsIntent(req, "SetLanguage")
    case RepeatHandler => IsIntent(req, "RepeatIntent")
    case LaunchHandler => req.LaunchRequest?
    case HelpHandler => IsIntent(req, "AMAZON.HelpIntent")
    case CancelHandler => IsIntent(req, "AMAZON.CancelIntent") || IsIntent(req, "AMAZON.StopIntent")
    case UnhandledHandler => true
    case SessionEndedHandler => req.SessionEndedRequest?
  }

  /**
   * Apart from the catch-all, no two handlers accept the same request, so
   * only the catch-all's position in the registration order matters.
   */
  lemma SpecificHandlersExclusive(h1: Handler, h2: Handler, req: Request)
    ensures h1 != UnhandledHandler && h2 != UnhandledHandler && CanHandle(h1, req) && CanHandle(h2, req) ==>
      h1 == h2
  {
  }

  /** The resolution guard of SetLanguage: the first authority's status code is a match. */
  predicate Matched(slot: Slot)
  {
    && slot.resolutions.Some?
    && |slot.resolutions.value| > 0
    && slot.resolutions.value[0].status.Some?
    && slot.resolutions.value[0].status.value.code == Some("ER_SUCCESS_MATCH")
  }

  /**
   * SetLanguage: on a matched resolution, store the first candidate's code,
   * save it, and confirm with the candidate's name; otherwise ask again.
   */
  function SetLanguage(svc: Services, req: Request, world: World): (h: Handled)
    // a request without a language slot makes the handler throw
    ensures !HasSlot(req, "language") ==> h == Handled(Thrown, world, [])
    // an unmatched resolution is not an error: the guidance is spoken and nothing changes
    ensures HasSlot(req, "language") && !Matched(req.slots["language"]) ==>
      h == Handled(Reply(Prompt(UnknownLanguage, WhichLanguage)), world, [])
    // on a match the first candidate's code is saved and, once saved, stored and confirmed by name
    ensures HasSlot(req, "language") && Matched(req.slots["language"]) ==>
      var candidates := req.slots["language"].resolutions.value[0].values;
      && (|candidates| == 0 ==> h == Handled(Thrown, world, []))
      && (|candidates| > 0 ==>
            && h.calls == [SaveCall(candidates[0].id)]
            && (svc.saveFails ==> h.outcome == Thrown && h.world == world)
            && (!svc.saveFails ==>
                  && h.outcome == Reply(Prompt(LanguageSet(candidates[0].name), Next))
                  && h.world == world.(targetLanguage := Some(candidates[0].id))))
    // hence the stored language changes only after a matched resolution and a successful save
    ensures h.world != world ==> HasSlot(req, "language") && Matched(req.slots["language"]) && !svc.saveFails
    ensures h.world.objects == world.objects
  {
    if !HasSlot(req, "language") then Handled(Thrown, world, [])
    else
      var slot := req.slots["language"];
      if !Matched(slot) then Handled(Reply(Prompt(UnknownLanguage, WhichLanguage)), world, [])
      else
        var candidates := slot.resolutions.value[0].values;
        // reading values[0].value.name of an empty list throws
        if |candidates| == 0 then Handled(Thrown, world, [])
        else
          var v := candidates[0];
          var calls := [SaveCall(v.id)];
          // a rejected save rejects the awaited handler
          if svc.saveFails then Handled(Thrown, world, calls)
          else Handled(Reply(Prompt(LanguageSet(v.name), Next)), world.(targetLanguage := Some(v.id)), calls)
  }

  /** Ask: read the phrase slot, pick the target language, run the chain. */
  function Ask(cfg: Config, svc: Services, env: Envelope, world: World): (h: Handled)
    ensures !HasSlot(env.request, "phrase") ==> h == Handled(Thrown, world, [])
    ensures HasSlot(env.request, "phrase") ==>
      && h.outcome != Thrown
      && |h.calls| > 0
      && h.calls[0] == TranslateCall(env.request.slots["phrase"].value, SourceLanguage,
                                     TargetLanguage(world.targetLanguage))
    ensures h.world.targetLanguage == world.targetLanguage
  {
    if !HasSlot(env.request, "phrase") then Handled(Thrown, world, [])
    else
      AskChain(cfg, svc, env.request.slots["phrase"].value, TargetLanguage(world.targetLanguage),
               env.deviceId, world)
  }

  /** Repeat's answer when the device's object exists. */
  function Replay(cfg: Config, deviceId: string): Response
  {
    Prompt(AudioTag(AudioUrl(cfg, deviceId)) + "            " + ListenAgain, ListenAgain)
  }

  /** Repeat: check the device's object and replay it, or say there is nothing to repeat. */
  function Repeat(cfg: Config, svc: Services, env: Envelope, world: World): (h: Handled)
    ensures h.world == world
    ensures h.calls == [HeadCall(ObjectKey(cfg, env.deviceId))]
    // any head failure, a missing object included, means nothing to repeat
    ensures h.outcome == Reply(Prompt(RepeatUnavailable, WhatDoYouWant)) <==>
      svc.headFails || ObjectKey(cfg, env.deviceId) !in world.objects
    ensures h.outcome == Reply(Replay(cfg, env.deviceId)) <==>
      !svc.headFails && ObjectKey(cfg, env.deviceId) in world.objects
  {
    var key := ObjectKey(cfg, env.deviceId);
    var calls := [HeadCall(key)];
    if svc.headFails || key !in world.objects
    then Handled(Reply(Prompt(RepeatUnavailable, WhatDoYouWant)), world, calls)
    else Handled(Reply(Replay(cfg, env.deviceId)), world, calls)
  }

  /** Each handler's `handle`. */
  function Handle(h: Handler, cfg: Config, svc: Services, env: Envelope, world: World): (r: Handled)
    ensures h !in {AskHandler, SetLanguageHandler, RepeatHandler} ==> r.world == world && r.calls == []
    ensures r.world.objects != world.objects ==> h == AskHandler
    ensures r.world.targetLanguage != world.targetLanguage ==> h == SetLanguageHandler
  {
    match h
    case AskHandler => Ask(cfg, svc, env, world)
    case SetLanguageHandler => SetLanguage(svc, env.request, world)
    case RepeatHandler => Repeat(cfg, svc, env, world)
    case LaunchHandler => Handled(Reply(Prompt(Welcome, WhatDoYouWant)), world, [])
    case HelpHandler => Handled(Reply(Prompt(Help, WhatDoYouWant)), world, [])
    case CancelHandler => Handled(Reply(Response(Some(Goodbye), None, None)), world, [])
    case UnhandledHandler => Handled(Reply(Prompt(Unhandled, Unhandled)), world, [])
    case SessionEndedHandler => Handled(Reply(Response(None, None, None)), world, [])
  }
}
