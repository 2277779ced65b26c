/** The Python/Flask back end: the provider factory, each provider's voice
    mapping and its checks before the vendor call, and the decisions of the
    `/api/generate-audio` endpoint. Python looks values up by equality and
    hash, so only a string equal to a key finds it, and a list or dict
    cannot be looked up at all (`TypeError: unhashable type`). */
module FlaskBackend {

  import opened Wrappers
  import opened Json
  import opened Providers
  import opened Service

  /** Each provider class's `voice_mapping`: friendly voice id to vendor voice. */
  function VoiceMapping(p: Provider): map<string, string>
  {
    match p
    case ElevenLabs => map[
      "adarsh" := "voice_id_for_adarsh",
      "priya" := "voice_id_for_priya",
      "akshay" := "voice_id_for_akshay"]
    case Sarvam => map["ravi" := "ravi", "anjali" := "anjali", "vijay" := "vijay"]
    case Google => map[
      "google-neural-male" := "hi-IN-Neural2-A",
      "google-neural-female" := "hi-IN-Neural2-B",
      "google-child" := "hi-IN-Standard-C"]
    case Azure => map[
      "hari" := "hi-IN-MadhurNeural",
      "ananya" := "hi-IN-SwaraNeural",
      "karan" := "hi-IN-HemantNeural"]
  }

  function Construct(p: Provider, libs: Libraries): ProviderObject
  {
    match p
    case ElevenLabs => ProviderObject(p, VoiceMapping(p), true)
    case Sarvam => ProviderObject(p, VoiceMapping(p), true)
    case Google => ProviderObject(p, if libs.googleLoaded then VoiceMapping(p) else map[], libs.googleLoaded)
    case Azure => ProviderObject(p, if libs.azureLoaded then VoiceMapping(p) else map[], libs.azureLoaded)
  }

  /** The `TypeError` a dictionary lookup raises for a list or dict. */
  function Unhashable(v: Json): Failure
  {
    Failure(OtherException, "unhashable type: '" + PyTypeName(v) + "'")
  }

  /** `get_provider(provider_name)`: `providers.get(provider_name)`, and a
      `ValueError` when nothing is found. */
  function GetProvider(providerName: Json, libs: Libraries): Result<ProviderObject, Failure>
  {
    if !PyHashable(providerName) then Err(Unhashable(providerName))
    else if providerName.JString? && Named(providerName.s).Some? then
      Ok(Construct(Named(providerName.s).value, libs))
    else Err(Failure(ValueError, "Unknown provider: " + PyStr(providerName)))
  }

  /** The factory accepts exactly the four identifier strings. Any other
      hashable value is a `ValueError` naming it; a list or dict fails the
      lookup itself with a `TypeError`. */
  lemma GetProviderAcceptsKnown(providerName: Json, libs: Libraries)
    ensures GetProvider(providerName, libs).Ok? <==> providerName.JString? && providerName.s in KnownNames
    ensures GetProvider(providerName, libs).Ok? ==>
      JString(Name(GetProvider(providerName, libs).value.kind)) == providerName
    ensures GetProvider(providerName, libs).Err? && PyHashable(providerName) ==>
      GetProvider(providerName, libs).error == Failure(ValueError, "Unknown provider: " + PyStr(providerName))
    ensures GetProvider(providerName, libs).Err? && !PyHashable(providerName) ==>
      GetProvider(providerName, libs).error.kind == OtherException
  {
    if providerName.JString? {
      NamedAcceptsKnown(providerName.s);
    }
  }

  /** `self.voice_mapping.get(voice_id, voice_id)`: a list or dict id
      cannot be hashed, and the lookup raises the `TypeError`. */
  function ResolveVoice(mapping: map<string, string>, voiceId: Json): Result<Json, Failure>
  {
    if !PyHashable(voiceId) then Err(Unhashable(voiceId))
    else if voiceId.JString? && voiceId.s in mapping then Ok(JString(mapping[voiceId.s]))
    else Ok(voiceId)
  }

  /** A provider's lookup maps the ids it knows to their vendor voices,
      passes every other hashable id through unchanged, and raises on a
      list or dict; the Sarvam mapping sends every hashable id to itself. */
  lemma ResolveVoiceLookup(p: Provider, voiceId: Json)
    ensures !PyHashable(voiceId) ==> ResolveVoice(VoiceMapping(p), voiceId) == Err(Unhashable(voiceId))
    ensures voiceId.JString? && voiceId.s in VoiceMapping(p) ==>
      ResolveVoice(VoiceMapping(p), voiceId) == Ok(JString(VoiceMapping(p)[voiceId.s]))
    ensures PyHashable(voiceId) && !(voiceId.JString? && voiceId.s in VoiceMapping(p)) ==>
      ResolveVoice(VoiceMapping(p), voiceId) == Ok(voiceId)
    ensures PyHashable(voiceId) ==> ResolveVoice(VoiceMapping(Sarvam), voiceId) == Ok(voiceId)
  {
  }

  /** A provider's `generate_audio`: Google and Azure first check for their
      client; then the voice is looked up and the vendor is called. */
  function GenerateAudio(provider: ProviderObject, ssml: Json, voiceId: Json, language: Json, vendor: Vendor): Result<seq<byte>, Failure>
  {
    if provider.kind == Google && !provider.clientReady then
      Err(Failure(OtherException, "Google Cloud client not initialized"))
    else if provider.kind == Azure && !provider.clientReady then
      Err(Failure(OtherException, "Azure Speech client not initialized"))
    else
      match ResolveVoice(provider.voiceMapping, voiceId)
      case Err(failure) => Err(failure)
      case Ok(voice) =>
        match vendor(VendorRequest(provider.kind, ssml, voice, language))
        case Audio(content) => Ok(content)
        case Raised(failure) => Err(failure)
  }

  const RequiredFields: seq<string> := ["ssml", "voice_id", "provider"]

  /** The first of `fields` that `data` lacks, if any. */
  function FirstMissing(fields: seq<string>, data: Body): (r: Option<string>)
    ensures r.None? <==> forall i :: 0 <= i < |fields| ==> fields[i] in data
    ensures r.Some? ==> exists i :: (0 <= i < |fields| && fields[i] == r.value && fields[i] !in data &&
      forall j :: 0 <= j < i ==> fields[j] in data)
  {
    if fields == [] then None
    else if fields[0] !in data then Some(fields[0])
    else
      var r := FirstMissing(fields[1..], data);
      if r.Some? then
        var i :| 0 <= i < |fields[1..]| && fields[1..][i] == r.value && fields[1..][i] !in data &&
          forall j :: 0 <= j < i ==> fields[1..][j] in data;
        assert fields[i + 1] == r.value && forall j :: 0 <= j < i + 1 ==> fields[j] in data by {
          forall j | 0 <= j < i + 1 ensures fields[j] in data {
            if j > 0 {
              assert fields[j] == fields[1..][j - 1];
            }
          }
        }
        r
      else
        assert forall i :: 0 <= i < |fields| ==> fields[i] in data by {
          forall i | 0 <= i < |fields| ensures fields[i] in data {
            if i > 0 {
              assert fields[i] == fields[1..][i - 1];
            }
          }
        }
        r
  }

  /** How the endpoint answers a raised error: `ValueError` is the client's
      fault and carries its bare message; anything else is a 500. */
  function ErrorFor(failure: Failure): Response
  {
    if failure.kind == ValueError then ErrorResponse(400, failure.message)
    else ErrorResponse(500, FailurePrefix + failure.message)
  }

  /** The endpoint's answer once every required field is present. */
  function Dispatch(data: Body, libs: Libraries, vendor: Vendor): Response
    requires "ssml" in data && "voice_id" in data && "provider" in data
  {
    match GetProvider(data["provider"], libs)
    case Err(failure) => ErrorFor(failure)
    case Ok(provider) =>
      match GenerateAudio(provider, data["ssml"], data["voice_id"], Language(data), vendor)
      case Err(failure) => ErrorFor(failure)
      case Ok(content) => AudioResponse(content)
  }

  /** What `generate_audio()` answers for a JSON object body. */
  function Respond(data: Body, libs: Libraries, vendor: Vendor): Response
  {
    match FirstMissing(RequiredFields, data)
    case Some(field) => ErrorResponse(400, "Missing field: " + field)
    case None =>
      assert RequiredFields[0] in data && RequiredFields[1] in data && RequiredFields[2] in data;
      Dispatch(data, libs, vendor)
  }

  /** The endpoint: the required fields are checked one by one in order,
      and the first absent one is reported. */
  method GenerateAudioEndpoint(data: Body, libs: Libraries, vendor: Vendor) returns (response: Response)
    ensures response == Respond(data, libs, vendor)
  {
    var i := 0;
    while i < |RequiredFields|
      invariant 0 <= i <= |RequiredFields|
      invariant forall j :: 0 <= j < i ==> RequiredFields[j] in data
    {
      var field := RequiredFields[i];
      if field !in data {
        response := ErrorResponse(400, "Missing field: " + field);
        return;
      }
      i := i + 1;
    }
    assert RequiredFields[0] in data && RequiredFields[1] in data && RequiredFields[2] in data;
    response := Dispatch(data, libs, vendor);
  }

  /** Only absence is checked: the first absent required field, in the
      order ssml, voice_id, provider, is reported as a bad request; with all
      three present, whatever values they hold, the request goes on to the
      provider. */
  lemma MissingFieldReported(data: Body, libs: Libraries, vendor: Vendor)
    ensures "ssml" !in data ==> Respond(data, libs, vendor) == ErrorResponse(400, "Missing field: ssml")
    ensures "ssml" in data && "voice_id" !in data ==>
      Respond(data, libs, vendor) == ErrorResponse(400, "Missing field: voice_id")
    ensures "ssml" in data && "voice_id" in data && "provider" !in data ==>
      Respond(data, libs, vendor) == ErrorResponse(400, "Missing field: provider")
    ensures "ssml" in data && "voice_id" in data && "provider" in data ==>
      Respond(data, libs, vendor) == Dispatch(data, libs, vendor)
  {
    var fs := RequiredFields;
    assert fs[1..] == ["voice_id", "provider"] && fs[1..][1..] == ["provider"];
    if "ssml" in data {
      assert FirstMissing(fs, data) == FirstMissing(fs[1..], data);
      if "voice_id" in data {
        assert FirstMissing(fs[1..], data) == FirstMissing(fs[1..][1..], data);
      }
    }
  }

  /** A provider name that is hashable but not one of the four is a bad
      request whose message names it. */
  lemma UnknownProviderIsBadRequest(data: Body, libs: Libraries, vendor: Vendor)
    requires "ssml" in data && "voice_id" in data && "provider" in data
    requires PyHashable(data["provider"]) && !(data["provider"].JString? && data["provider"].s in KnownNames)
    ensures Respond(data, libs, vendor) == ErrorResponse(400, "Unknown provider: " + PyStr(data["provider"]))
  {
    GetProviderAcceptsKnown(data["provider"], libs);
  }

  /** A list or dict as the provider cannot even be looked up: the
      `TypeError` is a server error, not a bad request. */
  lemma UnhashableProviderIsServerError(data: Body, libs: Libraries, vendor: Vendor)
    requires "ssml" in data && "voice_id" in data && "provider" in data
    requires !PyHashable(data["provider"])
    ensures Respond(data, libs, vendor) ==
      ErrorResponse(500, FailurePrefix + "unhashable type: '" + PyTypeName(data["provider"]) + "'")
  {
    MissingFieldReported(data, libs, vendor);
  }

  /** Without its SDK, Google or Azure fails with a 500 before any voice
      lookup or vendor call. */
  lemma MissingClientIsServerError(data: Body, libs: Libraries, vendor: Vendor)
    requires "ssml" in data && "voice_id" in data && "provider" in data
    ensures data["provider"] == JString("google") && !libs.googleLoaded ==>
      Respond(data, libs, vendor) == ErrorResponse(500, FailurePrefix + "Google Cloud client not initialized")
    ensures data["provider"] == JString("azure") && !libs.azureLoaded ==>
      Respond(data, libs, vendor) == ErrorResponse(500, FailurePrefix + "Azure Speech client not initialized")
  {
  }

  /** With the fields present, a known provider that is ready and a
      hashable voice id, the vendor is called with the SSML, the looked-up
      voice and the language (defaulted when absent), and its outcome
      decides the response: audio, a 400 with the bare message for a
      `ValueError`, or a 500. */
  lemma EndpointCallsVendor(data: Body, libs: Libraries, vendor: Vendor, p: Provider)
    requires "ssml" in data && "voice_id" in data && "provider" in data
    requires data["provider"] == JString(Name(p)) && Ready(p, libs) && PyHashable(data["voice_id"])
    ensures ResolveVoice(VoiceMapping(p), data["voice_id"]).Ok?
    ensures var request := VendorRequest(p, data["ssml"], ResolveVoice(VoiceMapping(p), data["voice_id"]).value,
        if "language" in data then data["language"] else JString("hi-IN"));
      match vendor(request)
      case Audio(content) => Respond(data, libs, vendor) == AudioResponse(content)
      case Raised(failure) =>
        Respond(data, libs, vendor) ==
          if failure.kind == ValueError then ErrorResponse(400, failure.message)
          else ErrorResponse(500, FailurePrefix + failure.message)
  {
    NameRoundTrip(p);
  }

  /** A known, ready provider given a list or dict as voice id raises the
      lookup's `TypeError`: a 500, whatever the vendor would do. */
  lemma UnhashableVoiceIsServerError(data: Body, libs: Libraries, vendor: Vendor, p: Provider)
    requires "ssml" in data && "voice_id" in data && "provider" in data
    requires data["provider"] == JString(Name(p)) && Ready(p, libs) && !PyHashable(data["voice_id"])
    ensures Respond(data, libs, vendor)
         == ErrorResponse(500, FailurePrefix + "unhashable type: '" + PyTypeName(data["voice_id"]) + "'")
  {
    NameRoundTrip(p);
    MissingFieldReported(data, libs, vendor);
  }

  /** The `GET /api/providers` listing. */
  const Listing: seq<ProviderEntry> := [
    ProviderEntry("elevenlabs", "ElevenLabs", ["adarsh", "priya", "akshay"]),
    ProviderEntry("sarvam", "Sarvam AI", ["ravi", "anjali", "vijay"]),
    ProviderEntry("google", "Google Cloud", ["google-neural-male", "google-neural-female", "google-child"]),
    ProviderEntry("azure", "Microsoft Azure", ["hari", "ananya", "karan"])]

  /** Each provider's listing entry carries its identifier and advertises
      exactly the voices its mapping knows, each once. */
  lemma ListingMatchesMapping(p: Provider)
    ensures Named(Listing[ListingIndex(p)].id) == Some(p)
    ensures Advertised(Listing[ListingIndex(p)]) == VoiceMapping(p).Keys
    ensures |Listing[ListingIndex(p)].voices| == |VoiceMapping(p).Keys|
  {
    match p {
      case ElevenLabs => EntryMatches(Listing[0], VoiceMapping(p));
      case Sarvam => EntryMatches(Listing[1], VoiceMapping(p));
      case Google => EntryMatches(Listing[2], VoiceMapping(p));
      case Azure => EntryMatches(Listing[3], VoiceMapping(p));
    }
  }
}
