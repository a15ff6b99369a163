/** The voice platform's request envelope and the response the skill builds. */
module Requests {
  import opened Wrappers

  /** One candidate of a slot resolution: the catalog code and its spoken name. */
  datatype ResolutionValue = ResolutionValue(id: string, name: string)

  /** A resolution status object; its `code` may be missing. */
  datatype Status = Status(code: Option<string>)

  /** One entry of `resolutionsPerAuthority`. */
  datatype Authority = Authority(status: Option<Status>, values: seq<ResolutionValue>)

  /** A slot: the raw spoken value and, optionally, the platform's resolutions. */
  datatype Slot = Slot(value: Option<string>, resolutions: Option<seq<Authority>>)

  /** The type name of any request other than the three modelled kinds. */
  type OtherKind = k: string | k !in {"LaunchRequest", "IntentRequest", "SessionEndedRequest"}
    witness "CanFulfillIntentRequest"

  /** The request kinds a handler's `canHandle` can see. */
  datatype Request =
    | LaunchRequest
    | IntentRequest(name: string, slots: map<string, Slot>)
    | SessionEndedRequest(reason: string)
    | OtherRequest(kind: OtherKind)

  /** A request together with the calling device's identifier. */
  datatype Envelope = Envelope(request: Request, deviceId: string)

  /** A simple visual card with its two image URLs. */
  datatype Card = Card(title: string, text: string, smallImage: string, largeImage: string)

  /** Speech, reprompt (its absence ends the session) and an optional card. */
  datatype Response = Response(speech: Option<string>, reprompt: Option<string>, card: Option<Card>)

  /** A response with speech and reprompt and no card. */
  function Prompt(speech: string, reprompt: string): Response
  {
    Response(Some(speech), Some(reprompt), None)
  }

  /**
   * What a handler hands back: a response, nothing ever (a promise that
   * never settles), or a thrown error (a TypeError or a rejected await).
   */
  datatype Outcome = Reply(response: Response) | Pending | Thrown
}
