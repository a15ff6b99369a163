/** The two static tables of index.js: synthesis voice and spoken name per language code. */
module Catalog {
  import opened Wrappers

  /** The language used when no preference is stored. */
  const Fallback: string := "ru"

  /** The seven supported language codes. */
  const Supported: set<string> := {"es", "ru", "pt", "ja", "it", "de", "fr"}

  const Voices: map<string, string> :=
    map["es" := "Enrique", "ru" := "Maxim", "pt" := "Cristiano", "ja" := "Takumi",
        "it" := "Giorgio", "de" := "Hans", "fr" := "Mathieu"]

  const Languages: map<string, string> :=
    map["es" := "Spanish", "ru" := "Russian", "pt" := "Portuguese", "ja" := "Japanese",
        "it" := "Italian", "de" := "German", "fr" := "French"]

  /**
   * The properties every plain object inherits from `Object.prototype`; a
   * lookup of one of these finds a built-in member, which is not modelled.
   */
  const Inherited: set<string> :=
    {"constructor", "toString", "toLocaleString", "valueOf", "hasOwnProperty", "isPrototypeOf",
     "propertyIsEnumerable", "__proto__", "__defineGetter__", "__defineSetter__",
     "__lookupGetter__", "__lookupSetter__"}

  /** `voices[code]`: `undefined` for a code that is neither listed nor inherited. */
  function Voice(code: string): (r: Option<string>)
    ensures r.Some? <==> code in Supported
    ensures code == "ru" ==> r == Some("Maxim")
    ensures code == "ja" ==> r == Some("Takumi")
  {
    if code in Voices then Some(Voices[code]) else None
  }

  /** `languages[code]`: `undefined` for a code that is neither listed nor inherited. */
  function LanguageName(code: string): (r: Option<string>)
    ensures r.Some? <==> code in Supported
    ensures code == "ru" ==> r == Some("Russian")
    ensures code == "ja" ==> r == Some("Japanese")
  {
    if code in Languages then Some(Languages[code]) else None
  }

  /** Both tables list exactly the same codes, and the fallback is one of them. */
  lemma TablesAgree()
    ensures Voices.Keys == Languages.Keys == Supported
    ensures Fallback in Supported
    ensures forall c :: c in Supported ==> Voice(c).Some? && LanguageName(c).Some?
  {
  }
}
