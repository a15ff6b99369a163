/** The Ask chain: translate, then synthesize, then store, then answer. */
module Pipeline {
  import opened Wrappers
  import opened Catalog
  import opened Speech
  import opened Requests
  import opened Gateways

  /** JavaScript truthiness of a stored string attribute. */
  predicate Truthy(v: Option<string>)
  {
    v.Some? && v.value != ""
  }

  /** The language Ask targets: the stored one when truthy, the fallback otherwise. */
  function TargetLanguage(stored: Option<string>): (target: string)
    ensures target != ""
    ensures Truthy(stored) ==> target == stored.value
    ensures !Truthy(stored) ==> target == Fallback
  {
    if Truthy(stored) then stored.value else Fallback
  }

  function CardSmall(cfg: Config): string
  {
    "https://s3.amazonaws.com/" + cfg.bucketPics + "/language/globe_small.png"
  }

  function CardLarge(cfg: Config): string
  {
    "https://s3.amazonaws.com/" + cfg.bucketPics + "/language/globe_big.png"
  }

  /** Ask's speech; each backslash continuation keeps the next line's fourteen spaces. */
  function AskSpeech(phrase: string, language: string, url: string): string
  {
    "This is how phrase " + phrase + " will sound in " + language + ":"
    + "              " + AudioTag(url)
    + "              " + ListenAgain
  }

  /** The answer to a completed Ask: speech with the audio link, reprompt and card. */
  function AskResponse(cfg: Config, deviceId: string, phrase: Option<string>, target: string,
                       translation: string): Response
  {
    var language := Render(LanguageName(target));
    Response(
      Some(AskSpeech(Render(phrase), language, AudioUrl(cfg, deviceId))),
      Some(ListenAgain),
      Some(Card("Language Teacher",
                "Original phrase: " + Render(phrase) + "\nTranslation in " + language + ": " + translation,
                CardSmall(cfg), CardLarge(cfg))))
  }

  /**
   * The chain of index.js's Ask handler. Each step starts only once the
   * previous one has succeeded; a failing step leaves the promise unsettled,
   * so no response is ever produced.
   */
  function AskChain(cfg: Config, svc: Services, phrase: Option<string>, target: string,
                    deviceId: string, world: World): (h: Handled)
    // translation is always attempted first, from English to the target
    ensures 1 <= |h.calls| <= 3
    ensures h.calls[0] == TranslateCall(phrase, SourceLanguage, target)
    // synthesis is attempted exactly when translation succeeded, on the translation's markup
    ensures |h.calls| >= 2 <==> svc.translate(phrase, SourceLanguage, target).Ok?
    ensures |h.calls| >= 2 ==>
      h.calls[1] == SynthesizeCall(Ssml(svc.translate(phrase, SourceLanguage, target).value), Voice(target))
    // the put is attempted exactly when synthesis succeeded too, under the device's key
    ensures |h.calls| == 3 <==>
      |h.calls| >= 2 && svc.synthesize(h.calls[1].ssml, h.calls[1].voice).Ok?
    ensures |h.calls| == 3 ==>
      h.calls[2] == PutCall(ObjectKey(cfg, deviceId), svc.synthesize(h.calls[1].ssml, h.calls[1].voice).value)
    // an answer comes exactly when all three steps succeed; otherwise nothing comes and nothing changes
    ensures h.outcome.Reply? <==> |h.calls| == 3 && !svc.putFails
    ensures !h.outcome.Reply? ==> h.outcome.Pending? && h.world == world
    ensures h.outcome.Reply? ==>
      h.outcome.response == AskResponse(cfg, deviceId, phrase, target, svc.translate(phrase, SourceLanguage, target).value)
      && h.world == world.(objects := world.objects[h.calls[2].key := h.calls[2].audio])
    // the stored language is never touched
    ensures h.world.targetLanguage == world.targetLanguage
  {
    var translateCall := TranslateCall(phrase, SourceLanguage, target);
    match svc.translate(phrase, SourceLanguage, target)
    case Err => Handled(Pending, world, [translateCall])
    case Ok(translation) =>
      var ssml := Ssml(translation);
      var voice := Voice(target);
      var calls := [translateCall, SynthesizeCall(ssml, voice)];
      match svc.synthesize(ssml, voice)
      case Err => Handled(Pending, world, calls)
      case Ok(audio) =>
        var key := ObjectKey(cfg, deviceId);
        var calls := calls + [PutCall(key, audio)];
        if svc.putFails then Handled(Pending, world, calls)
        else
          Handled(Reply(AskResponse(cfg, deviceId, phrase, target, translation)),
                  world.(objects := world.objects[key := audio]), calls)
  }
}
