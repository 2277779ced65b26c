/** The Node.js/Express back end: the provider factory, each provider's
    voice mapping and its checks before the vendor call, and the decisions
    of the `/api/generate-audio` handler. Request fields keep their JSON
    values: JavaScript looks keys up by their string form and tests fields
    for truthiness. */
module ExpressBackend {

  import opened Wrappers
  import opened Json
  import opened Providers
  import opened Service

  /** The process environment. */
  type Env = map<string, string>

  /** `process.env[name] || fallback`: an unset or empty variable gives the
      fallback. */
  function EnvOr(env: Env, name: string, fallback: string): (r: string)
    requires fallback != ""
    ensures r != ""
    ensures name in env && env[name] != "" ==> r == env[name]
    ensures !(name in env && env[name] != "") ==> r == fallback
  {
    if name in env && env[name] != "" then env[name] else fallback
  }

  /** Each provider class's `voiceMapping`: friendly voice id to vendor voice. */
  function VoiceMapping(p: Provider, env: Env): map<string, string>
  {
    match p
    case ElevenLabs => map[
      "adarsh" := EnvOr(env, "ELEVENLABS_ADARSH_ID", "voice_id_1"),
      "priya" := EnvOr(env, "ELEVENLABS_PRIYA_ID", "voice_id_2"),
      "akshay" := EnvOr(env, "ELEVENLABS_AKSHAY_ID", "voice_id_3")]
    case Sarvam => map["ravi" := "ravi", "anjali" := "anjali", "vijay" := "vijay"]
    case Google => map[
      "google-neural-male" := "hi-IN-Neural2-A",
      "google-neural-female" := "hi-IN-Neural2-B",
      "google-child" := "hi-IN-Standard-C"]
    case Azure => map[
      "hari" := "hi-IN-MadhurNeural",
      "ananya" := "hi-IN-SwaraNeural",
      "karan" := "hi-IN-HemantNeural"]
  }

  /** Every vendor voice in a mapping is a non-empty string, so `||` never
      falls back to the request's voice for a mapped id. */
  lemma MappedVoicesNonEmpty(p: Provider, env: Env, key: string)
    requires key in VoiceMapping(p, env)
    ensures VoiceMapping(p, env)[key] != ""
  {
  }

  function Construct(p: Provider, env: Env, libs: Libraries): ProviderObject
  {
    match p
    case ElevenLabs => ProviderObject(p, VoiceMapping(p, env), true)
    case Sarvam => ProviderObject(p, VoiceMapping(p, env), true)
    case Google => ProviderObject(p, if libs.googleLoaded then VoiceMapping(p, env) else map[], libs.googleLoaded)
    case Azure => ProviderObject(p, if libs.azureLoaded then VoiceMapping(p, env) else map[], libs.azureLoaded)
  }

  /** The message of the `TypeError` JavaScript throws when a value has no
      string form (see `Json.JsString`). */
  const NoPrimitiveValue: string := "Cannot convert object to primitive value"

  /** `getProvider(providerName)`: the factory table is indexed by the
      string form of the value; a miss throws `Unknown provider: ...`, and
      a value without a string form throws before the lookup. */
  function GetProvider(providerName: Json, env: Env, libs: Libraries): Result<ProviderObject, string>
  {
    match JsString(providerName)
    case None => Err(NoPrimitiveValue)
    case Some(key) =>
      match Named(key)
      case Some(p) => Ok(Construct(p, env, libs))
      case None => Err("Unknown provider: " + key)
  }

  /** The factory accepts exactly the values whose string form is one of the
      four identifiers and builds that provider; otherwise it reports the
      string form, or the `TypeError` when there is none. */
  lemma GetProviderAcceptsKnown(providerName: Json, env: Env, libs: Libraries)
    ensures GetProvider(providerName, env, libs).Ok? <==>
      JsString(providerName).Some? && JsString(providerName).value in KnownNames
    ensures GetProvider(providerName, env, libs).Ok? ==>
      Some(Name(GetProvider(providerName, env, libs).value.kind)) == JsString(providerName)
    ensures JsString(providerName).None? ==>
      GetProvider(providerName, env, libs) == Err(NoPrimitiveValue)
    ensures JsString(providerName).Some? && JsString(providerName).value !in KnownNames ==>
      GetProvider(providerName, env, libs) == Err("Unknown provider: " + JsString(providerName).value)
  {
    if JsString(providerName).Some? {
      NamedAcceptsKnown(JsString(providerName).value);
    }
  }

  /** `this.voiceMapping[voiceId] || voiceId`: the lookup converts the id to
      its string form, and throws when it has none. */
  function ResolveVoice(mapping: map<string, string>, voiceId: Json): Result<Json, string>
  {
    match JsString(voiceId)
    case None => Err(NoPrimitiveValue)
    case Some(key) => Ok(if key in mapping && mapping[key] != "" then JString(mapping[key]) else voiceId)
  }

  /** A provider's lookup maps the ids it knows to their vendor voices,
      passes every other id with a string form through as it came, and
      fails on an id without one. */
  lemma ResolveVoiceLookup(p: Provider, env: Env, voiceId: Json)
    ensures JsString(voiceId).None? ==> ResolveVoice(VoiceMapping(p, env), voiceId) == Err(NoPrimitiveValue)
    ensures JsString(voiceId).Some? && JsString(voiceId).value in VoiceMapping(p, env) ==>
      ResolveVoice(VoiceMapping(p, env), voiceId) == Ok(JString(VoiceMapping(p, env)[JsString(voiceId).value]))
    ensures JsString(voiceId).Some? && JsString(voiceId).value !in VoiceMapping(p, env) ==>
      ResolveVoice(VoiceMapping(p, env), voiceId) == Ok(voiceId)
  {
    if JsString(voiceId).Some? && JsString(voiceId).value in VoiceMapping(p, env) {
      MappedVoicesNonEmpty(p, env, JsString(voiceId).value);
    }
  }

  /** The Sarvam mapping sends every id to itself: a string id comes back
      unchanged, any id with a string form keeps it, and an id without one
      fails. */
  lemma SarvamResolvesToItself(env: Env, voiceId: Json)
    ensures ResolveVoice(VoiceMapping(Sarvam, env), voiceId).Ok? <==> JsString(voiceId).Some?
    ensures ResolveVoice(VoiceMapping(Sarvam, env), voiceId).Ok? ==>
      JsString(ResolveVoice(VoiceMapping(Sarvam, env), voiceId).value) == JsString(voiceId)
    ensures voiceId.JString? ==> ResolveVoice(VoiceMapping(Sarvam, env), voiceId) == Ok(voiceId)
  {
  }

  /** A provider's `generateAudio`: Google and Azure first check for their
      client; then the voice is resolved and the vendor is called. An error
      is passed on as its message. */
  function GenerateAudio(provider: ProviderObject, ssml: Json, voiceId: Json, language: Json, vendor: Vendor): Result<seq<byte>, string>
  {
    if provider.kind == Google && !provider.clientReady then Err("Google Cloud client not initialized")
    else if provider.kind == Azure && !provider.clientReady then Err("Azure Speech client not initialized")
    else
      match ResolveVoice(provider.voiceMapping, voiceId)
      case Err(message) => Err(message)
      case Ok(voice) =>
        match vendor(VendorRequest(provider.kind, ssml, voice, language))
        case Audio(content) => Ok(content)
        case Raised(failure) => Err(failure.message)
  }

  const MissingFieldsError: string := "Missing required fields: ssml, voice_id, provider"

  predicate FieldsTruthy(body: Body)
  {
    JsTruthy(Field(body, "ssml")) && JsTruthy(Field(body, "voice_id")) && JsTruthy(Field(body, "provider"))
  }

  /** The handler's two log lines build their messages from the string
      forms of the provider, the voice id and the SSML, whether or not the
      logger prints them. */
  predicate Loggable(body: Body)
    requires "ssml" in body && "voice_id" in body && "provider" in body
  {
    JsString(body["provider"]).Some? && JsString(body["voice_id"]).Some? && JsString(body["ssml"]).Some?
  }

  /** The `POST /api/generate-audio` handler. */
  function Handle(body: Body, env: Env, libs: Libraries, vendor: Vendor): Response
  {
    if !FieldsTruthy(body) then ErrorResponse(400, MissingFieldsError)
    else if !Loggable(body) then ErrorResponse(500, FailurePrefix + NoPrimitiveValue)
    else
      match GetProvider(body["provider"], env, libs)
      case Err(message) => ErrorResponse(500, FailurePrefix + message)
      case Ok(provider) =>
        match GenerateAudio(provider, body["ssml"], body["voice_id"], Language(body), vendor)
        case Err(message) => ErrorResponse(500, FailurePrefix + message)
        case Ok(content) => AudioResponse(content)
  }

  /** The handler answers 400 exactly when a required field is missing or
      falsy (an empty string, 0, false or null), always with the same
      message and whatever the environment, libraries or vendor; every
      other failure is a 500. */
  lemma BadRequestIffFalsyField(body: Body, env: Env, libs: Libraries, vendor: Vendor)
    ensures Handle(body, env, libs, vendor).Status() == 400 <==> !FieldsTruthy(body)
    ensures !FieldsTruthy(body) ==> Handle(body, env, libs, vendor) == ErrorResponse(400, MissingFieldsError)
    ensures Handle(body, env, libs, vendor).Status() in {200, 400, 500}
  {
  }

  /** A truthy field without a string form makes the log line throw: a 500
      with the `TypeError`'s message, before the provider is looked up and
      whatever the vendor would do. */
  lemma UnloggableFieldIsServerError(body: Body, env: Env, libs: Libraries, vendor: Vendor)
    requires FieldsTruthy(body)
    ensures !Loggable(body) ==> Handle(body, env, libs, vendor) == ErrorResponse(500, FailurePrefix + NoPrimitiveValue)
    ensures !Loggable(body) <==> Unconvertible(body["provider"]) || Unconvertible(body["voice_id"]) || Unconvertible(body["ssml"])
  {
    JsStringFailsIff(body["provider"]);
    JsStringFailsIff(body["voice_id"]);
    JsStringFailsIff(body["ssml"]);
  }

  /** An unknown provider is a server error, not a bad request; its message
      names the provider unless a log line has thrown first. */
  lemma UnknownProviderIsServerError(body: Body, env: Env, libs: Libraries, vendor: Vendor, name: string)
    requires FieldsTruthy(body) && JsString(body["provider"]) == Some(name) && name !in KnownNames
    ensures Handle(body, env, libs, vendor)
         == ErrorResponse(500, FailurePrefix + if Loggable(body) then "Unknown provider: " + name else NoPrimitiveValue)
  {
    GetProviderAcceptsKnown(body["provider"], env, libs);
  }

  /** Without its SDK, Google or Azure fails before any voice lookup or
      vendor call (unless a log line has thrown first). */
  lemma MissingClientIsServerError(body: Body, env: Env, libs: Libraries, vendor: Vendor)
    requires FieldsTruthy(body)
    ensures JsString(body["provider"]) == Some(Name(Google)) && !libs.googleLoaded ==>
      Handle(body, env, libs, vendor) == ErrorResponse(500, FailurePrefix +
        if Loggable(body) then "Google Cloud client not initialized" else NoPrimitiveValue)
    ensures JsString(body["provider"]) == Some(Name(Azure)) && !libs.azureLoaded ==>
      Handle(body, env, libs, vendor) == ErrorResponse(500, FailurePrefix +
        if Loggable(body) then "Azure Speech client not initialized" else NoPrimitiveValue)
  {
  }

  /** With valid fields, a ready provider and fields that can be logged, the
      vendor is called once with the SSML, the resolved voice and the
      language (defaulted when absent), and its outcome decides the
      response: audio, or a 500 that carries the error's message. */
  lemma HandlerCallsVendor(body: Body, env: Env, libs: Libraries, vendor: Vendor, p: Provider)
    requires FieldsTruthy(body) && JsString(body["provider"]) == Some(Name(p)) && Ready(p, libs)
    ensures !Loggable(body) ==> Handle(body, env, libs, vendor) == ErrorResponse(500, FailurePrefix + NoPrimitiveValue)
    ensures Loggable(body) ==> ResolveVoice(VoiceMapping(p, env), body["voice_id"]).Ok?
    ensures Loggable(body) ==>
      var request := VendorRequest(p, body["ssml"],
        ResolveVoice(VoiceMapping(p, env), body["voice_id"]).value,
        if "language" in body then body["language"] else JString("hi-IN"));
      match vendor(request)
      case Audio(content) => Handle(body, env, libs, vendor) == AudioResponse(content)
      case Raised(failure) => Handle(body, env, libs, vendor) == ErrorResponse(500, FailurePrefix + failure.message)
  {
    NameRoundTrip(p);
  }

  /** The `GET /api/providers` listing. */
  const Listing: seq<ProviderEntry> := [
    ProviderEntry("elevenlabs", "ElevenLabs", ["adarsh", "priya", "akshay"]),
    ProviderEntry("sarvam", "Sarvam AI", ["ravi", "anjali", "vijay"]),
    ProviderEntry("google", "Google Cloud", ["google-neural-male", "google-neural-female", "google-child"]),
    ProviderEntry("azure", "Microsoft Azure", ["hari", "ananya", "karan"])]

  /** Each provider's listing entry carries its identifier and advertises
      exactly the voices its mapping knows, each once. */
  lemma ListingMatchesMapping(p: Provider, env: Env)
    ensures Named(Listing[ListingIndex(p)].id) == Some(p)
    ensures Advertised(Listing[ListingIndex(p)]) == VoiceMapping(p, env).Keys
    ensures |Listing[ListingIndex(p)].voices| == |VoiceMapping(p, env).Keys|
  {
    match p {
      case ElevenLabs => EntryMatches(Listing[0], VoiceMapping(p, env));
      case Sarvam => EntryMatches(Listing[1], VoiceMapping(p, env));
      case Google => EntryMatches(Listing[2], VoiceMapping(p, env));
      case Azure => EntryMatches(Listing[3], VoiceMapping(p, env));
    }
  }
}
