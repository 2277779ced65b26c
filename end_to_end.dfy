/** The page and the two back ends together: what happens to the request
    the page posts, where a voice the back ends know is routed, and where the
    two back ends answer the same body differently. */
module EndToEnd {

  import opened Wrappers
  import opened Json
  import opened Providers
  import opened Service
  import opened SsmlConversion
  import opened Client
  import ExpressBackend
  import FlaskBackend

  /** The body the page posts always carries a truthy SSML string (it starts
      with `<speak>`) and a known, truthy provider name. */
  lemma PostedBodyShape(text: string, voiceId: string, voiceName: string)
    requires !Blank(text)
    ensures GenerateAudio(text, voiceId, voiceName).Post?
    ensures var body := GenerateAudio(text, voiceId, voiceName).body;
      "ssml" in body && "voice_id" in body && "provider" in body &&
      body["ssml"].JString? && body["ssml"].s != [] &&
      body["voice_id"] == JString(voiceId) &&
      body["provider"] == JString(Name(ProviderFromVoiceId(voiceId)))
  {
    PostsConvertedText(text, voiceId, voiceName);
    var ssml := ConvertToSsml(text, voiceId);
    assert ssml[..7] == "<speak>";
  }

  /** A request the page sends for a selected voice is never refused by the
      Express back end as a bad request: its fields are strings, so the log
      lines cannot throw, and the provider it names is always known, so
      only a missing SDK or the vendor can make it fail. */
  lemma ExpressAcceptsPostedBody(text: string, voiceId: string, voiceName: string,
                                 env: ExpressBackend.Env, libs: Libraries, vendor: Vendor)
    requires !Blank(text) && voiceId != ""
    ensures GenerateAudio(text, voiceId, voiceName).Post?
    ensures var body := GenerateAudio(text, voiceId, voiceName).body;
      ExpressBackend.FieldsTruthy(body) && ExpressBackend.Loggable(body) &&
      ExpressBackend.GetProvider(body["provider"], env, libs).Ok? &&
      ExpressBackend.Handle(body, env, libs, vendor).Status() in {200, 500}
  {
    PostedBodyShape(text, voiceId, voiceName);
    var body := GenerateAudio(text, voiceId, voiceName).body;
    var p := ProviderFromVoiceId(voiceId);
    NameRoundTrip(p);
    ExpressBackend.GetProviderAcceptsKnown(body["provider"], env, libs);
    ExpressBackend.BadRequestIffFalsyField(body, env, libs, vendor);
  }

  /** The Flask back end never answers the page's request with a missing
      field or an unknown provider: it constructs the provider the voice id
      selects and goes on to the voice lookup and the vendor. */
  lemma FlaskAcceptsPostedBody(text: string, voiceId: string, voiceName: string,
                               libs: Libraries, vendor: Vendor)
    requires !Blank(text)
    ensures GenerateAudio(text, voiceId, voiceName).Post?
    ensures var body := GenerateAudio(text, voiceId, voiceName).body;
      "ssml" in body && "voice_id" in body && "provider" in body &&
      FlaskBackend.GetProvider(body["provider"], libs) ==
        Ok(FlaskBackend.Construct(ProviderFromVoiceId(voiceId), libs)) &&
      FlaskBackend.Respond(body, libs, vendor) == FlaskBackend.Dispatch(body, libs, vendor)
  {
    PostedBodyShape(text, voiceId, voiceName);
    var body := GenerateAudio(text, voiceId, voiceName).body;
    NameRoundTrip(ProviderFromVoiceId(voiceId));
    FlaskBackend.MissingFieldReported(body, libs, vendor);
  }

  /** Every voice a back end maps is routed by the page to that same
      provider, so its text is written in the dialect of the vendor that
      reads it. (The Express and Flask mappings have the same keys.) */
  lemma MappedVoicesRouteHome(p: Provider, voiceId: string, env: ExpressBackend.Env)
    requires voiceId in FlaskBackend.VoiceMapping(p)
    ensures ProviderFromVoiceId(voiceId) == p
    ensures voiceId in ExpressBackend.VoiceMapping(p, env)
  {
    ProviderChoice(voiceId);
    match p {
      case ElevenLabs =>
        assert voiceId == "adarsh" || voiceId == "priya" || voiceId == "akshay";
        assert voiceId[0] != 'g' && (voiceId[1] == 'd' || voiceId[1] == 'r' || voiceId[1] == 'k');
      case Sarvam =>
      case Google =>
      case Azure =>
    }
  }

  /** An empty SSML string is a missing field to the Express back end (it
      tests truthiness) but not to the Flask back end (it tests presence),
      which goes on to the provider. */
  lemma EmptySsmlDiverges(body: Body, env: ExpressBackend.Env, libs: Libraries, vendor: Vendor)
    requires "ssml" in body && "voice_id" in body && "provider" in body
    requires body["ssml"] == JString("")
    ensures ExpressBackend.Handle(body, env, libs, vendor) == ErrorResponse(400, ExpressBackend.MissingFieldsError)
    ensures FlaskBackend.Respond(body, libs, vendor) == FlaskBackend.Dispatch(body, libs, vendor)
  {
    ExpressBackend.BadRequestIffFalsyField(body, env, libs, vendor);
    FlaskBackend.MissingFieldReported(body, libs, vendor);
  }

  /** A provider name that is not one of the four is a server error in the
      Express back end (its plain `Error` reaches the generic handler, unless
      a log line has already thrown on a field without a string form) and a
      bad request in the Flask back end (a `ValueError`). */
  lemma UnknownProviderDiverges(body: Body, name: string, env: ExpressBackend.Env, libs: Libraries, vendor: Vendor)
    requires "ssml" in body && "voice_id" in body && "provider" in body
    requires JsTruthy(Some(body["ssml"])) && JsTruthy(Some(body["voice_id"]))
    requires body["provider"] == JString(name) && name != "" && name !in KnownNames
    ensures ExpressBackend.Handle(body, env, libs, vendor) ==
      ErrorResponse(500, FailurePrefix +
        if ExpressBackend.Loggable(body) then "Unknown provider: " + name else ExpressBackend.NoPrimitiveValue)
    ensures FlaskBackend.Respond(body, libs, vendor) == ErrorResponse(400, "Unknown provider: " + name)
  {
    ExpressBackend.UnknownProviderIsServerError(body, env, libs, vendor, name);
    FlaskBackend.UnknownProviderIsBadRequest(body, libs, vendor);
  }
}
