/**
 * The boundary to the outside: configuration, the external services as
 * oracles, the durable state they own, and the record of calls made.
 */
module Gateways {
  import opened Wrappers
  import opened Requests

  type Audio = seq<bv8>

  /** The environment-provided bucket names and the MD5 hex digest, left uninterpreted. */
  datatype Config = Config(bucket: string, bucketPics: string, md5: string -> string)

  /**
   * The answers the external services give during one request: translation,
   * speech synthesis, and whether the object-store put, the object-store
   * head and the persistence save fail.
   */
  datatype Services = Services(
    translate: (Option<string>, string, string) -> Result<string>,
    synthesize: (string, Option<string>) -> Result<Audio>,
    putFails: bool,
    headFails: bool,
    saveFails: bool)

  /** One call to an external service, with the arguments the skill passes. */
  datatype Call =
    | TranslateCall(text: Option<string>, source: string, target: string)
    | SynthesizeCall(ssml: string, voice: Option<string>)
    | PutCall(key: string, audio: Audio)
    | HeadCall(key: string)
    | SaveCall(targetLanguage: string)

  /** Durable state: this user's stored language and the bucket's objects. */
  datatype World = World(targetLanguage: Option<string>, objects: map<string, Audio>)

  /** A handler's effect: its outcome, the durable state after it, and the calls it made in order. */
  datatype Handled = Handled(outcome: Outcome, world: World, calls: seq<Call>)

  /** Translation always starts from English. */
  const SourceLanguage: string := "en"

  const KeySuffix: string := "/speech.mp3"

  /** The object key for a device: its hashed identifier followed by a fixed file name. */
  function ObjectKey(cfg: Config, deviceId: string): (key: string)
    ensures |key| == |cfg.md5(deviceId)| + |KeySuffix|
    ensures key[|key| - |KeySuffix|..] == KeySuffix
  {
    cfg.md5(deviceId) + KeySuffix
  }

  /** The public URL of a device's object. */
  function AudioUrl(cfg: Config, deviceId: string): string
  {
    "https://s3.amazonaws.com/" + cfg.bucket + "/" + ObjectKey(cfg, deviceId)
  }

  /** Reads the hashed identifier back out of an object key. */
  function KeyPrefix(key: string): (r: Option<string>)
  {
    if |key| >= |KeySuffix| && key[|key| - |KeySuffix|..] == KeySuffix
    then Some(key[..|key| - |KeySuffix|])
    else None
  }

  /** The key keeps the device's whole hash: it can be read back from the key. */
  lemma KeyRoundTrip(cfg: Config, deviceId: string)
    ensures KeyPrefix(ObjectKey(cfg, deviceId)) == Some(cfg.md5(deviceId))
  {
  }

  /** Two devices share an object key exactly when their hashes agree. */
  lemma SharedKeyIffSameHash(cfg: Config, d1: string, d2: string)
    ensures ObjectKey(cfg, d1) == ObjectKey(cfg, d2) <==> cfg.md5(d1) == cfg.md5(d2)
  {
  }
}
