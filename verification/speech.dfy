/** Fixed texts of the skill and the text templates it fills in. */
module Speech {
  import opened Wrappers

  const Welcome: string := "Greetings! You can ask Language Teacher to say something in different languages, or you can say \"Help\" to learn more."
  const WhatDoYouWant: string := "What do you want to do?"
  /** Defined by the skill but never spoken by any handler. */
  const ErrorMessage: string := "Uh Oh. Looks like something went wrong"
  const Next: string := "What do you want me to do next?"
  const RepeatUnavailable: string := "Looks like there is nothing to repeat. You can ask Language Teacher to say something in different languages. What do you want to ask?"
  const Goodbye: string := "Bye!"
  const Unhandled: string := "I don't know that but I'm learning. Say \"help\" to hear the options, or ask something else."
  const Help: string := "You can ask Language Teacher to say something in different languages. For example, you can say: \"Ask Language Teacher to say Hello\", or \"Ask Language Teacher to repeat\" to listen to the translation again. To set the language - just say: \"Ask Language Teacher to set the language to Japanese\". What do you want to do?"

  /** SetLanguage's default answer; the backslash continuation keeps the next line's four spaces. */
  const UnknownLanguage: string := "I don't know this language but I'm learning.    Please choose the language from Italian, Spanish, Japanese, German, Russian, Portuguese or French"
  const WhichLanguage: string := "Which language do you want to choose?"

  /** The follow-up used by Ask and by a successful Repeat. */
  const ListenAgain: string := "Say \"repeat\" to listen again, or ask something else to get a new translation"

  /** How a JavaScript template literal renders a possibly undefined value. */
  function Render(v: Option<string>): string
  {
    match v
    case Some(s) => s
    case None => "undefined"
  }

  /** Confirmation spoken after the language preference was saved. */
  function LanguageSet(name: string): string
  {
    "Ok, I set the language to " + name + ". " + Next
  }

  function AudioTag(url: string): string
  {
    "<audio src=\"" + url + "\"/>"
  }

  /** The speech `s` plays the audio at `url` from position `n` on. */
  predicate PlaysAt(s: string, url: string, n: nat)
  {
    n + |AudioTag(url)| <= |s| && s[n..n + |AudioTag(url)|] == AudioTag(url)
  }

  /** A piece placed between two others can be found again at the first one's length. */
  lemma PieceAt(a: string, t: string, b: string)
    ensures |a| + |t| <= |a + t + b|
    ensures (a + t + b)[|a|..|a| + |t|] == t
  {
  }

  // The synthesis markup, as the flat template writes it: the text once
  // under dynamic range compression, then once more, slowed down.
  const DrcOpen: string := "<amazon:effect name=\"drc\"><p>"
  const DrcClose: string := "</p></amazon:effect>"
  const SsmlOpen: string := "<speak>" + DrcOpen
  const SsmlMiddle: string := DrcClose + "\n      <prosody rate=\"slow\">" + DrcOpen
  const SsmlClose: string := DrcClose + "</prosody></speak>"

  function Ssml(text: string): (m: string)
    ensures |m| == |SsmlOpen| + |SsmlMiddle| + |SsmlClose| + 2 * |text|
  {
    SsmlOpen + text + SsmlMiddle + text + SsmlClose
  }

  /** One paragraph under the `drc` effect. */
  function Drc(text: string): string
  {
    DrcOpen + text + DrcClose
  }

  /** The markup is the text under `drc`, then the text under `drc` inside a slow prosody. */
  lemma SsmlStructure(text: string)
    ensures Ssml(text) == "<speak>" + Drc(text) + "\n      <prosody rate=\"slow\">" + Drc(text) + "</prosody></speak>"
  {
    Regroup("<speak>", DrcOpen, text, DrcClose, "\n      <prosody rate=\"slow\">", "</prosody></speak>");
  }

  lemma Regroup(s: string, o: string, t: string, c: string, p: string, e: string)
    ensures (s + o) + t + (c + p + o) + t + (c + e) == s + (o + t + c) + p + (o + t + c) + e
  {
  }

  /** Recovers the spoken text from a markup of the Ssml shape; None for any other string. */
  function ParseSsml(m: string): (r: Option<string>)
  {
    var fixed := |SsmlOpen| + |SsmlMiddle| + |SsmlClose|;
    if |m| < fixed || (|m| - fixed) % 2 != 0 then None
    else
      var n := (|m| - fixed) / 2;
      var a := |SsmlOpen|;
      var b := a + n + |SsmlMiddle|;
      if m[..a] == SsmlOpen && m[a + n..b] == SsmlMiddle && m[b..b + n] == m[a..a + n]
         && m[b + n..] == SsmlClose
      then Some(m[a..a + n])
      else None
  }

  /** The text can be read back from the markup: it appears in both copies. */
  lemma SsmlRoundTrip(text: string)
    ensures ParseSsml(Ssml(text)) == Some(text)
  {
  }

  /** Only markups built by Ssml parse, so no other string is mistaken for one. */
  lemma ParseSsmlSound(m: string, text: string)
    requires ParseSsml(m) == Some(text)
    ensures m == Ssml(text)
  {
    var fixed := |SsmlOpen| + |SsmlMiddle| + |SsmlClose|;
    var n := (|m| - fixed) / 2;
    var a := |SsmlOpen|;
    var b := a + n + |SsmlMiddle|;
    Split5(m, a, n, b);
  }

  /** Cutting a string at four points and joining the pieces gives it back. */
  lemma Split5(m: string, a: nat, n: nat, b: nat)
    requires a + n <= b && b + n <= |m|
    ensures m == m[..a] + m[a..a + n] + m[a + n..b] + m[b..b + n] + m[b + n..]
  {
    assert m == m[..a] + m[a..];
    assert m[a..] == m[a..a + n] + m[a + n..];
    assert m[a + n..] == m[a + n..b] + m[b..];
    assert m[b..] == m[b..b + n] + m[b + n..];
  }
}
