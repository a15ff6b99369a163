# Language Teacher skill — a Dafny model

This project models the core of the Language Teacher voice skill (`index.js`). The skill takes an English
phrase, translates it into the user's chosen language and synthesizes it as speech. It stores the audio under a
per-device object key and can replay it later. It also remembers the user's language preference.

The model is functional throughout:

- **Requests.** The platform's request envelope becomes the datatype `Request`. Its cases are `LaunchRequest`,
  `IntentRequest(name, slots)`, `SessionEndedRequest(reason)` and `OtherRequest(kind)`. The `kind` of an `OtherRequest` is never one of the three modelled type names.
- **Responses and outcomes.** A handler answers with a `Response` record: speech, an optional reprompt and an
  optional card. `Outcome` records whether a response came at all:
  - `Reply` — a response was produced;
  - `Pending` — the handler's promise never settles;
  - `Thrown` — the handler throws: a `TypeError`, or a rejected `await`.
- **Durable state.** A `World` holds the user's stored `targetLanguage` and the bucket's objects. It is threaded
  in and out of every handler.
- **External services.** The translator, the synthesizer, the object store's put and head, and the preference
  save are oracles in a `Services` value. A handler's result lists the calls it made, in order.
- **MD5.** The hex digest is the uninterpreted function `Config.md5`.
- **Handlers.** Each of the eight handlers is a constructor of `Handler`. `CanHandle` and `Handle` give its
  predicate and its action.
- **Dispatch.** `Dispatch.Skill` picks the first handler in the deployed registration order whose predicate holds.

Modules: `Wrappers` (Option, Result), `Catalog` (voices and language names), `Speech` (fixed texts, the SSML
template, JavaScript rendering of `undefined`), `Requests`, `Gateways` (configuration, oracles, object key),
`Pipeline` (the Ask chain), `Handlers`, `Dispatch`, `Scenarios` (properties across several requests).

Three behaviours of the code are worth stating plainly:
- **Ask failures.** A failing translate, synthesize or put step leaves Ask's promise unsettled, so no response is
  produced. `messages.ERROR` is defined but never spoken (`Scenarios.ErrorMessageNeverSpoken`).
- **Repeat's head check.** Every `headObject` error, a missing object or any other fault, gives the
  "nothing to repeat" answer.
- **Catch-all position.** The always-true catch-all is registered before the session-end handler (see Findings).

## Model

| member | source | states |
|---|---|---|
| Catalog.Voice | index.js:21-29 | a voice exists exactly for the seven supported codes; Russian is Maxim and Japanese is Takumi |
| Catalog.LanguageName | index.js:31-39 | a language name exists exactly for the seven supported codes; `ru` is Russian and `ja` is Japanese |
| Catalog.TablesAgree | index.js:21-39 | the voice table and the name table list the same seven codes, and the fallback `ru` is one of them |
| Speech.Ssml | index.js:76-77 | the markup is the template's fixed text plus two copies of the translated text |
| Speech.SsmlStructure | index.js:76-77 | both copies sit in a `drc` effect paragraph, and the second copy is also inside a slow prosody |
| Speech.SsmlRoundTrip | index.js:76-77 | the translated text can be read back from the markup, and both copies equal it |
| Speech.ParseSsmlSound | index.js:76-77 | only markups of the template's shape are read back, and each one is the template applied to the text read |
| Gateways.ObjectKey | index.js:104 | the object key is the device hash followed by the fixed suffix `/speech.mp3` |
| Gateways.AudioUrl | index.js:252 | the public URL of the device's object: the S3 host, the bucket, then the object key; Ask and Repeat (index.js:295) use the same one. No contract; `Scenarios.AskThenRepeat` states that both answers play it |
| Gateways.KeyRoundTrip | index.js:230 | the device's whole hash can be recovered from its object key |
| Gateways.SharedKeyIffSameHash | index.js:276-282 | two devices share an object key exactly when their hashes agree, so the key depends on the device id only |
| Pipeline.Truthy | index.js:235 | JavaScript truthiness of the stored language: present and not empty. No contract; `Pipeline.TargetLanguage` states its use |
| Pipeline.AskResponse | index.js:250-260 | Ask's answer: the speech naming the phrase and language around the audio tag, the listen-again reprompt, and the "Language Teacher" card with the phrase, the translation and both image URLs. No contract; `Pipeline.AskChain` states when it is given |
| Pipeline.TargetLanguage | index.js:235-238 | Ask targets the stored language when it is truthy and `ru` otherwise; the target is never empty |
| Pipeline.AskChain | index.js:240-265 | translation (en to target) runs first; synthesis runs exactly when translation succeeded, on the markup of the translation with the target's voice; the put runs exactly when synthesis also succeeded, under the device key; a reply comes exactly when all three succeed, and otherwise the outcome is pending and nothing changes; the reply carries the phrase, language name, translation and audio URL |
| Handlers.SetLanguage | index.js:168-193 | a missing language slot throws; with no matched first resolution it speaks the unknown-language guidance and changes nothing; on a match it saves the first candidate's id, then stores it and confirms with the candidate's name; the stored language changes only after a match and a successful save |
| Handlers.Ask | index.js:224-238 | a missing phrase slot throws; otherwise the chain never throws, first translates the phrase into the target language, and leaves the stored language unchanged |
| Handlers.Repeat | index.js:274-301 | heads the device key and changes nothing; any head failure or a missing object gives the nothing-to-repeat answer; otherwise the answer replays the device's URL |
| Handlers.Handle | index.js:127-303 | only Ask, SetLanguage and Repeat call services or change state; only Ask changes objects, and only SetLanguage changes the stored language |
| Handlers.CanHandle | index.js:128-272 | each handler's `canHandle`: the request type, and for intents the intent name (Cancel accepts the cancel and stop intents); the catch-all accepts everything. No contract; `Dispatch.DispatchTable` checks it against an independent table |
| Handlers.SpecificHandlersExclusive | index.js:128-272 | apart from the catch-all, no two handlers accept the same request |
| Handlers.Matched | index.js:177-180 | the SetLanguage guard: resolutions present, a first authority, a status on it, and the status code `ER_SUCCESS_MATCH`. No contract; `Handlers.SetLanguage` states both of its branches |
| Handlers.Replay | index.js:294-298 | Repeat's replay answer: the audio tag of the device's URL, twelve spaces, the listen-again text, and the same text as reprompt. No contract; `Scenarios.AskThenRepeat` states that it plays the URL Ask wrote |
| Dispatch.FirstMatch | index.js:307-317 | the chosen position holds a handler that can handle the request, no earlier handler can, and none is chosen only when none can |
| Dispatch.Select | index.js:307-317 | a handler is selected exactly when some registered handler can handle the request; the selected one is the first registered handler that can |
| Dispatch.HandleRequest | index.js:307-317 | the request is handled by the first registered handler that can handle it; when none can, the result is a throw with no change (the SDK dispatcher's behaviour) |
| Dispatch.CatchAllCovers | index.js:138-141 | a catch-all at position k guarantees a match at or before k |
| Dispatch.EveryRequestHandled | index.js:307-317 | every request selects a handler in the deployed order, at or before the catch-all |
| Dispatch.Position | index.js:308-317 | each handler's position in the registration order |
| Dispatch.DispatchTable | index.js:307-317 | the deployed order selects, for each request kind and intent name, the handler an independent table names |
| Dispatch.Skill | index.js:307-317 | `exports.handler`: dispatch over the deployed registration order. No contract; `Dispatch.SkillRunsExpected` and `Dispatch.DispatchTable` state which handler runs |
| Dispatch.SkillRunsExpected | index.js:307-317 | the deployed skill runs, for every request, the handler the independent table names |
| Dispatch.SessionEndedNeverSelected | index.js:308-317 | the session-end handler is never selected |
| Dispatch.SessionEndGetsUnhandled | index.js:209-216 | a session end gets the catch-all's speech and reprompt, with no state change and no calls |
| Dispatch.FixedSessionEnd | index.js:209-216 | with the catch-all last, every request is still handled and a session end gets the empty response |
| Dispatch.FixedAgreesElsewhere | index.js:308-317 | putting the catch-all last changes only the handling of session ends |
| Scenarios.AskThenRepeat | index.js:247-299 | after a completed Ask, a Repeat from the same device heads the key Ask wrote, finds it, and replays it; both answers play the same URL |
| Scenarios.AskTwiceOverwrites | index.js:102-108 | a second completed Ask from the same device overwrites the object; at most one object exists per device key |
| Scenarios.AskLeavesOtherDevices | index.js:230 | an Ask never touches the object of a device with a different hash |
| Scenarios.SetThenAsk | index.js:182-184 | after a matched and saved SetLanguage, the next Ask targets the saved id, or `ru` when that id is empty |
| Scenarios.AskFallsBackToRussian | index.js:235-245 | with no truthy stored language, Ask translates into `ru`, uses Maxim and names Russian |
| Scenarios.AskWithUnknownStoredCode | index.js:245-251 | for a truthy stored code that is neither in the catalog nor an inherited object property: if translation succeeds, synthesis is called with no voice; any answer would name the language `undefined` |
| Scenarios.FixedAnswers | index.js:127-207 | launch gets the welcome, help the help text, cancel and stop a goodbye with no reprompt, and any other intent or request kind the catch-all's answer; none of them changes state or calls a service |
| Scenarios.OnlySetLanguageStores | index.js:182-184 | across the whole skill, only a SetLanguage intent changes the stored language and only an Ask intent changes objects |
| Scenarios.ErrorMessageNeverSpoken | index.js:10 | no answer of the skill ever speaks the error message |
| Scenarios.FixedOrderKeepsGuarantees | index.js:308-317 | with the catch-all registered last, only SetLanguage changes the stored language, only Ask changes objects, and the error message is never spoken |

## Left out

- Translate, Polly and S3 are oracles in `Services`. Their internals are not modelled. Fixed request parameters are not recorded in the call trace: output format, sample rate, text type, ACL and storage class.
- MD5 is the uninterpreted `Config.md5`. Collision resistance is not assumed. Key results are stated in terms of equal or different hashes.
- Loading the persistent attributes in Ask is assumed to succeed. The model passes the stored `targetLanguage` in directly and ignores the store's partitioning by user.
- The attribute bag is reduced to its one used field, `targetLanguage`. SetLanguage persists the whole session bag. Ask writes its fallback into the in-memory bag without saving it. Neither is observable through that field.
- The platform's `resolutionsPerAuthority` list is taken to be present whenever `resolutions` is. A missing list would make SetLanguage throw.
- Logging, the Lambda wrapper, table creation, and the response builder's envelope fields are left out. So is the wording of the dispatcher's "no handler" error. None of them is observable in the modelled state.
- A bucket name and a pictures-bucket name from the environment are opaque strings in `Config`.
- Audio bytes are opaque (`seq<bv8>`). The SSML is modelled as text only. Its audio meaning is not modelled.
- Catalog.Voice: `voices` is a plain object, so a code naming an inherited `Object.prototype` property (`constructor`, `toString`, `__proto__`, …) finds that member rather than `undefined`. The model returns None for it, because the value of a built-in member is outside the model.
- Catalog.LanguageName: for the same reason, an inherited property name finds a built-in member of `languages`, which the speech would render as its own text. The model returns None for it.
- Scenarios.AskWithUnknownStoredCode: stated only for codes that are not inherited property names (`Catalog.Inherited`), since for those the lookups above are not modelled.
- The service oracles may answer `Ok` to any arguments. They do not encode the AWS SDK's client-side rejection of a missing required parameter, such as an undefined phrase or an undefined voice. So the model admits answers the program never gives, for example a reply naming the language `undefined`.
- Speech.Ssml: the contract does not count how often the text occurs in the markup. A text such as `p` or `drc` also occurs inside the template's fixed text. Instead, `SsmlStructure` and `SsmlRoundTrip` state the two copies and their wrapping.
- Concurrency between requests is not modelled. Each lemma is about requests applied one after another.

## Findings

| source | as written | input that shows it | evidently intended | confidence | as-written member | corrected member |
|---|---|---|---|---|---|---|
| index.js:315-316 | The always-true `UnhandledIntent` is registered before `SessionEndedRequestHandler`. | Any `SessionEndedRequest`: it gets the "I don't know that" speech and reprompt. | Register the catch-all last, so a session end reaches `SessionEndedRequestHandler` and gets the empty response. | not executed; medium | Dispatch.SessionEndGetsUnhandled | Dispatch.FixedSessionEnd |

`Dispatch.Skill` keeps the deployed order, because it models the code as written. `Dispatch.FixedAgreesElsewhere`
proves that the corrected order changes nothing except session ends. Most `Scenarios` lemmas are about other
requests, so they hold under either order. `OnlySetLanguageStores`, `ErrorMessageNeverSpoken` and `AskLeavesOtherDevices` also
cover session ends; `Scenarios.FixedOrderKeepsGuarantees` proves all three for the corrected order, where a session end gets the
empty response.
