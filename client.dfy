/** What the front end does when the user asks for audio: refuse blank
    text, convert the text to SSML in the dialect of the chosen voice,
    validate it, and post a JSON request to the back end. Also the lookup of
    a provider's descriptive information. */
module Client {

  import opened Wrappers
  import opened Json
  import opened Providers
  import opened Service
  import opened SsmlConversion

  // ---------------------------------------------------------------------
  // String.prototype.trim

  /** The characters `trim` removes: ECMAScript white space (tab, vertical
      tab, form feed, space, no-break space, the byte order mark and the
      space separators) and the four line terminators. */
  predicate IsJsWhitespace(c: char)
  {
    c == '\t' || c == '\U{000B}' || c == '\U{000C}' || c == ' ' || c == '\U{00A0}' ||
    c == '\U{FEFF}' || c == '\U{1680}' || ('\U{2000}' <= c <= '\U{200A}') ||
    c == '\U{202F}' || c == '\U{205F}' || c == '\U{3000}' ||
    c == '\n' || c == '\r' || c == '\U{2028}' || c == '\U{2029}'
  }

  predicate Blank(s: string)
  {
    forall i :: 0 <= i < |s| ==> IsJsWhitespace(s[i])
  }

  lemma BlankCons(c: char, t: string)
    requires IsJsWhitespace(c) && Blank(t)
    ensures Blank([c] + t)
  {
    assert forall i :: 0 < i < |[c] + t| ==> ([c] + t)[i] == t[i - 1];
  }

  /** `s` without its leading white space. */
  function TrimStart(s: string): (r: string)
    ensures |r| <= |s| && r == s[|s| - |r|..]
    ensures Blank(s[..|s| - |r|])
    ensures r == [] || !IsJsWhitespace(r[0])
    decreases |s|
  {
    if s != [] && IsJsWhitespace(s[0]) then
      var r := TrimStart(s[1..]);
      assert s[..|s| - |r|] == [s[0]] + s[1..][..|s[1..]| - |r|];
      BlankCons(s[0], s[1..][..|s[1..]| - |r|]);
      r
    else s
  }

  /** `s` without its trailing white space. */
  function TrimEnd(s: string): (r: string)
    ensures |r| <= |s| && r == s[..|r|]
    ensures Blank(s[|r|..])
    ensures r == [] || !IsJsWhitespace(r[|r| - 1])
    decreases |s|
  {
    if s != [] && IsJsWhitespace(s[|s| - 1]) then
      var r := TrimEnd(s[..|s| - 1]);
      assert s[|r|..] == s[..|s| - 1][|r|..] + [s[|s| - 1]];
      r
    else s
  }

  function Trim(s: string): string
  {
    TrimEnd(TrimStart(s))
  }

  /** `!text.trim()` holds exactly for text made of white space alone. */
  lemma TrimEmptyIffBlank(s: string)
    ensures Trim(s) == [] <==> Blank(s)
  {
    var t := TrimStart(s);
    if Trim(s) == [] {
      assert Blank(t[0..]);
      assert t == [];
      assert s[..|s|] == s;
    }
  }

  // ---------------------------------------------------------------------
  // generateAudio

  /** What the page does: show an alert, or post a JSON body to the back end. */
  datatype ClientAction = Alert(message: string) | Post(body: Body)

  /** The JSON body the page posts. */
  function RequestBody(ssml: string, voiceId: string, voiceName: string): Body
  {
    map[
      "ssml" := JString(ssml),
      "voice_id" := JString(voiceId),
      "voice_name" := JString(voiceName),
      "provider" := JString(Name(ProviderFromVoiceId(voiceId))),
      "language" := JString(DefaultLanguage)]
  }

  /** `generateAudio()` up to the request it sends: the text, the voice id
      and the voice name are what the page holds at that moment. */
  function GenerateAudio(text: string, voiceId: string, voiceName: string): ClientAction
  {
    if Trim(text) == [] then Alert("Please enter some text")
    else
      var ssml := ConvertToSsml(text, voiceId);
      match ValidateSsml(ssml)
      case Invalid(error) => Alert("SSML Error: " + error)
      case Valid(_) => Post(RequestBody(ssml, voiceId, voiceName))
  }

  /** The page refuses exactly the blank texts, always with the same alert:
      the SSML error branch is never taken. */
  lemma RefusesOnlyBlankText(text: string, voiceId: string, voiceName: string)
    ensures GenerateAudio(text, voiceId, voiceName).Alert? <==> Blank(text)
    ensures GenerateAudio(text, voiceId, voiceName).Alert? ==>
      GenerateAudio(text, voiceId, voiceName).message == "Please enter some text"
  {
    TrimEmptyIffBlank(text);
    ConvertedAlwaysValid(text, voiceId);
  }

  /** Text that is not blank is converted and posted. */
  lemma PostsConvertedText(text: string, voiceId: string, voiceName: string)
    requires !Blank(text)
    ensures GenerateAudio(text, voiceId, voiceName) == Post(RequestBody(ConvertToSsml(text, voiceId), voiceId, voiceName))
  {
    TrimEmptyIffBlank(text);
    ConvertedAlwaysValid(text, voiceId);
  }

  /** The body carries the SSML, the voice as chosen, the provider the voice
      id selects (the one whose dialect the SSML is in) and the fixed
      language. */
  lemma RequestBodyFields(ssml: string, voiceId: string, voiceName: string)
    ensures var body := RequestBody(ssml, voiceId, voiceName);
      body.Keys == {"ssml", "voice_id", "voice_name", "provider", "language"} &&
      body["ssml"] == JString(ssml) &&
      body["voice_id"] == JString(voiceId) &&
      body["voice_name"] == JString(voiceName) &&
      body["provider"].JString? && Named(body["provider"].s) == Some(ProviderFromVoiceId(voiceId)) &&
      body["language"] == JString(DefaultLanguage)
  {
    NameRoundTrip(ProviderFromVoiceId(voiceId));
  }

  // ---------------------------------------------------------------------
  // getProviderInfo

  datatype ProviderInfo = ProviderInfo(name: string, url: string, apiDocs: string, description: string)

  function Info(p: Provider): ProviderInfo
  {
    match p
    case ElevenLabs => ProviderInfo("ElevenLabs", "https://elevenlabs.io",
      "https://elevenlabs.io/docs", "Premium text-to-speech with natural voices")
    case Sarvam => ProviderInfo("Sarvam AI", "https://sarvam.ai",
      "https://docs.sarvam.ai", "Indian AI company with localized Hindi support")
    case Google => ProviderInfo("Google Cloud Text-to-Speech", "https://cloud.google.com/text-to-speech",
      "https://cloud.google.com/text-to-speech/docs", "Enterprise-grade voice synthesis")
    case Azure => ProviderInfo("Microsoft Azure Speech",
      "https://azure.microsoft.com/services/cognitive-services/text-to-speech",
      "https://learn.microsoft.com/en-us/azure/ai-services/speech-service/",
      "Scalable text-to-speech with custom voices")
  }

  /** `getProviderInfo(providerKey)`: the entry of the table, or null. */
  function GetProviderInfo(providerKey: string): Option<ProviderInfo>
  {
    match Named(providerKey)
    case Some(p) => Some(Info(p))
    case None => None
  }

  /** Information exists exactly for the four provider identifiers, and in
      particular for the provider of every voice the page can select. */
  lemma ProviderInfoCoverage(providerKey: string, voiceId: string)
    ensures GetProviderInfo(providerKey).Some? <==> providerKey in KnownNames
    ensures GetProviderInfo(Name(ProviderFromVoiceId(voiceId))) == Some(Info(ProviderFromVoiceId(voiceId)))
  {
    NameRoundTrip(ProviderFromVoiceId(voiceId));
    NamedAcceptsKnown(providerKey);
  }
}
