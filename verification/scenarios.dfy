/** Properties of the deployed skill over sequences of requests. */
module Scenarios {
  import opened Wrappers
  import opened Catalog
  import opened Speech
  import opened Requests
  import opened Gateways
  import opened Pipeline
  import opened Handlers
  import opened Dispatch

  /** Where Ask's speech places the audio tag. */
  function AskTagOffset(phrase: string, language: string): nat
  {
    |"This is how phrase " + phrase + " will sound in " + language + ":" + "              "|
  }

  lemma AskSpeechPlays(phrase: string, language: string, url: string)
    ensures PlaysAt(AskSpeech(phrase, language, url), url, AskTagOffset(phrase, language))
  {
    PieceAt("This is how phrase " + phrase + " will sound in " + language + ":" + "              ",
            AudioTag(url), "              " + ListenAgain);
  }

  lemma ReplayPlays(cfg: Config, deviceId: string)
    ensures PlaysAt(Replay(cfg, deviceId).speech.value, AudioUrl(cfg, deviceId), 0)
  {
    PieceAt("", AudioTag(AudioUrl(cfg, deviceId)), "            " + ListenAgain);
  }

  /**
   * After a completed Ask, a Repeat from the same device heads the very key
   * Ask wrote, finds it, and plays the same URL Ask's answer played.
   */
  lemma AskThenRepeat(cfg: Config, svc1: Services, svc2: Services, ask: Envelope, repeat: Envelope, world: World)
    requires IsIntent(ask.request, "AskIntent") && IsIntent(repeat.request, "RepeatIntent")
    requires ask.deviceId == repeat.deviceId
    requires Skill(cfg, svc1, ask, world).outcome.Reply?
    requires !svc2.headFails
    ensures
      var h1 := Skill(cfg, svc1, ask, world);
      var h2 := Skill(cfg, svc2, repeat, h1.world);
      var url := AudioUrl(cfg, ask.deviceId);
      && |h1.calls| == 3 && h1.calls[2].PutCall?
      && h2.calls == [HeadCall(h1.calls[2].key)]
      && h2.outcome == Reply(Replay(cfg, repeat.deviceId))
      && PlaysAt(h2.outcome.response.speech.value, url, 0)
      && PlaysAt(h1.outcome.response.speech.value, url,
                 AskTagOffset(Render(ask.request.slots["phrase"].value),
                              Render(LanguageName(TargetLanguage(world.targetLanguage)))))
  {
    DispatchTable(ask.request);
    DispatchTable(repeat.request);
    AskSpeechPlays(Render(ask.request.slots["phrase"].value),
                   Render(LanguageName(TargetLanguage(world.targetLanguage))), AudioUrl(cfg, ask.deviceId));
    ReplayPlays(cfg, repeat.deviceId);
  }

  /** A second completed Ask from the same device overwrites the first one's object. */
  lemma AskTwiceOverwrites(cfg: Config, svc1: Services, svc2: Services, a1: Envelope, a2: Envelope, world: World)
    requires IsIntent(a1.request, "AskIntent") && IsIntent(a2.request, "AskIntent")
    requires a1.deviceId == a2.deviceId
    requires Skill(cfg, svc1, a1, world).outcome.Reply?
    requires Skill(cfg, svc2, a2, Skill(cfg, svc1, a1, world).world).outcome.Reply?
    ensures
      var h2 := Skill(cfg, svc2, a2, Skill(cfg, svc1, a1, world).world);
      var key := ObjectKey(cfg, a1.deviceId);
      && h2.world.objects == world.objects[key := h2.calls[2].audio]
      && h2.world.objects.Keys == world.objects.Keys + {key}
  {
    var h1 := Skill(cfg, svc1, a1, world);
    SkillRunsExpected(cfg, svc1, a1, world);
    assert h1 == Ask(cfg, svc1, a1, world);
    SkillRunsExpected(cfg, svc2, a2, h1.world);
    assert Skill(cfg, svc2, a2, h1.world) == Ask(cfg, svc2, a2, h1.world);
  }

  /** An Ask never touches the object of a device whose hash differs. */
  lemma AskLeavesOtherDevices(cfg: Config, svc: Services, ask: Envelope, world: World, other: string)
    requires cfg.md5(other) != cfg.md5(ask.deviceId)
    ensures
      var objects := Skill(cfg, svc, ask, world).world.objects;
      var key := ObjectKey(cfg, other);
      (key in objects <==> key in world.objects) && (key in objects ==> objects[key] == world.objects[key])
  {
  }

  /** A matched and saved language is the one the next Ask translates into. */
  lemma SetThenAsk(cfg: Config, svc1: Services, svc2: Services, chooser: Envelope, ask: Envelope, world: World)
    requires IsIntent(chooser.request, "SetLanguage") && HasSlot(chooser.request, "language")
    requires Matched(chooser.request.slots["language"])
    requires |chooser.request.slots["language"].resolutions.value[0].values| > 0
    requires !svc1.saveFails
    requires IsIntent(ask.request, "AskIntent") && HasSlot(ask.request, "phrase")
    ensures
      var h := Skill(cfg, svc2, ask, Skill(cfg, svc1, chooser, world).world);
      |h.calls| > 0 && h.calls[0].TranslateCall?
      && h.calls[0].target == TargetLanguage(Some(chooser.request.slots["language"].resolutions.value[0].values[0].id))
  {
    DispatchTable(chooser.request);
    DispatchTable(ask.request);
  }

  /** With no stored language, Ask translates into Russian with the Russian voice and says so. */
  lemma AskFallsBackToRussian(cfg: Config, svc: Services, ask: Envelope, world: World)
    requires IsIntent(ask.request, "AskIntent") && HasSlot(ask.request, "phrase")
    requires !Truthy(world.targetLanguage)
    ensures
      var h := Skill(cfg, svc, ask, world);
      && h.calls[0].target == "ru"
      && (|h.calls| >= 2 ==> h.calls[1].voice == Some("Maxim"))
      && (h.outcome.Reply? ==>
            h.outcome.response.speech
            == Some(AskSpeech(Render(ask.request.slots["phrase"].value), "Russian", AudioUrl(cfg, ask.deviceId))))
  {
  }

  /**
   * A stored code outside the catalog is truthy, so the fallback does not
   * apply: synthesis gets no voice and the answer names the language "undefined".
   * Codes naming inherited object properties are excluded: their lookups are not modelled.
   */
  lemma AskWithUnknownStoredCode(cfg: Config, svc: Services, ask: Envelope, world: World)
    requires IsIntent(ask.request, "AskIntent") && HasSlot(ask.request, "phrase")
    requires Truthy(world.targetLanguage) && world.targetLanguage.value !in Supported
    requires world.targetLanguage.value !in Inherited
    ensures
      var h := Skill(cfg, svc, ask, world);
      && (|h.calls| >= 2 ==> h.calls[1].voice.None?)
      && (h.outcome.Reply? ==>
            h.outcome.response.speech
            == Some(AskSpeech(Render(ask.request.slots["phrase"].value), "undefined", AudioUrl(cfg, ask.deviceId))))
  {
  }

  /** The answers that need no service: welcome, help, goodbye and the catch-all's. */
  lemma FixedAnswers(cfg: Config, svc: Services, env: Envelope, world: World)
    ensures env.request.LaunchRequest? ==>
      Skill(cfg, svc, env, world) == Handled(Reply(Prompt(Welcome, WhatDoYouWant)), world, [])
    ensures IsIntent(env.request, "AMAZON.HelpIntent") ==>
      Skill(cfg, svc, env, world) == Handled(Reply(Prompt(Help, WhatDoYouWant)), world, [])
    ensures IsIntent(env.request, "AMAZON.CancelIntent") || IsIntent(env.request, "AMAZON.StopIntent") ==>
      Skill(cfg, svc, env, world) == Handled(Reply(Response(Some(Goodbye), None, None)), world, [])
    ensures env.request.OtherRequest? ==>
      Skill(cfg, svc, env, world) == Handled(Reply(Prompt(Unhandled, Unhandled)), world, [])
    ensures env.request.IntentRequest? &&
            env.request.name !in {"AskIntent", "SetLanguage", "RepeatIntent", "AMAZON.HelpIntent",
                                  "AMAZON.CancelIntent", "AMAZON.StopIntent"} ==>
      Skill(cfg, svc, env, world) == Handled(Reply(Prompt(Unhandled, Unhandled)), world, [])
  {
    DispatchTable(env.request);
  }

  /** Only a SetLanguage request can change the stored language, and only an Ask the objects. */
  lemma OnlySetLanguageStores(cfg: Config, svc: Services, env: Envelope, world: World)
    ensures Skill(cfg, svc, env, world).world.targetLanguage != world.targetLanguage ==>
      IsIntent(env.request, "SetLanguage")
    ensures Skill(cfg, svc, env, world).world.objects != world.objects ==>
      IsIntent(env.request, "AskIntent")
  {
  }

  /** No answer of the skill ever speaks the error message. */
  lemma ErrorMessageNeverSpoken(cfg: Config, svc: Services, env: Envelope, world: World)
    ensures Skill(cfg, svc, env, world).outcome.Reply? ==>
      Skill(cfg, svc, env, world).outcome.response.speech != Some(ErrorMessage)
  {
    SkillRunsExpected(cfg, svc, env, world);
  }

  /**
   * With the catch-all registered last, the stored language and the objects
   * still change only through SetLanguage and Ask, no request touches the
   * object of a device with a different hash, and the error message is still
   * never spoken.
   */
  lemma FixedOrderKeepsGuarantees(cfg: Config, svc: Services, env: Envelope, world: World, other: string)
    ensures HandleRequest(FixedRegistration, cfg, svc, env, world).world.targetLanguage != world.targetLanguage ==>
      IsIntent(env.request, "SetLanguage")
    ensures HandleRequest(FixedRegistration, cfg, svc, env, world).world.objects != world.objects ==>
      IsIntent(env.request, "AskIntent")
    ensures HandleRequest(FixedRegistration, cfg, svc, env, world).outcome.Reply? ==>
      HandleRequest(FixedRegistration, cfg, svc, env, world).outcome.response.speech != Some(ErrorMessage)
    ensures cfg.md5(other) != cfg.md5(env.deviceId) ==>
      var objects := HandleRequest(FixedRegistration, cfg, svc, env, world).world.objects;
      var key := ObjectKey(cfg, other);
      (key in objects <==> key in world.objects) && (key in objects ==> objects[key] == world.objects[key])
  {
    FixedAgreesElsewhere(env.request);
    FixedSessionEnd(cfg, svc, env, world);
    OnlySetLanguageStores(cfg, svc, env, world);
    ErrorMessageNeverSpoken(cfg, svc, env, world);
    if cfg.md5(other) != cfg.md5(env.deviceId) {
      AskLeavesOtherDevices(cfg, svc, env, world, other);
    }
  }
}
