/** What the back ends exchange with the outside: the vendor call they
    delegate to, which the model leaves opaque, and the HTTP response they
    send back. */
module Service {

  import opened Json
  import opened Providers

  newtype byte = x: int | 0 <= x < 256

  /** Whether a vendor SDK imported (and its client was built) when the
      provider object was constructed. */
  datatype Libraries = Libraries(googleLoaded: bool, azureLoaded: bool)

  /** What a provider hands to its vendor: the SSML, the resolved vendor
      voice and the language, as taken from the request. */
  datatype VendorRequest = VendorRequest(provider: Provider, ssml: Json, voice: Json, language: Json)

  /** Python's exception classes matter to the Flask handler: a `ValueError`
      (or a subclass) gets a different status from any other exception.
      JavaScript errors carry only their message. */
  datatype ErrorKind = ValueError | OtherException

  /** A raised error: its class, as far as it matters, and its message. */
  datatype Failure = Failure(kind: ErrorKind, message: string)

  datatype VendorOutcome = Audio(content: seq<byte>) | Raised(failure: Failure)

  /** The vendor services, their SDKs and the network, as one opaque function. */
  type Vendor = VendorRequest -> VendorOutcome

  datatype Response = AudioResponse(content: seq<byte>) | ErrorResponse(code: int, error: string)
  {
    function Status(): int
    {
      if AudioResponse? then 200 else code
    }
  }

  /** One entry of the `/api/providers` listing: a provider identifier, a
      display name and the friendly voice ids it advertises. */
  datatype ProviderEntry = ProviderEntry(id: string, name: string, voices: seq<string>)

  /** A constructed provider object: which class it is, its voice mapping,
      and whether its vendor client exists. In both back ends the Google
      and Azure constructors catch a failed SDK import and leave the client
      unset (and the mapping undefined); the other two have no client. */
  datatype ProviderObject = ProviderObject(kind: Provider, voiceMapping: map<string, string>, clientReady: bool)

  /** Whether the provider `p` can reach its vendor. */
  predicate Ready(p: Provider, libs: Libraries)
  {
    (p == Google ==> libs.googleLoaded) && (p == Azure ==> libs.azureLoaded)
  }

  /** The position of each provider in the `/api/providers` listing: the
      four entries come in the same order in both back ends. */
  function ListingIndex(p: Provider): (i: nat)
    ensures i < 4
  {
    match p
    case ElevenLabs => 0
    case Sarvam => 1
    case Google => 2
    case Azure => 3
  }

  /** The voices an entry advertises, as a set. */
  function Advertised(entry: ProviderEntry): set<string>
  {
    set v | v in entry.voices
  }

  /** An entry advertising three distinct voices advertises exactly the
      keys of a mapping that has those three keys. */
  lemma EntryMatches(entry: ProviderEntry, m: map<string, string>)
    requires |entry.voices| == 3
    requires entry.voices[0] != entry.voices[1] && entry.voices[0] != entry.voices[2] && entry.voices[1] != entry.voices[2]
    requires m.Keys == {entry.voices[0], entry.voices[1], entry.voices[2]}
    ensures Advertised(entry) == m.Keys
    ensures |entry.voices| == |m.Keys|
  {
    var vs := entry.voices;
    assert vs == [vs[0], vs[1], vs[2]];
    assert vs[0] in Advertised(entry) && vs[1] in Advertised(entry) && vs[2] in Advertised(entry);
  }

  /** The language sent on when the body gives none. */
  const DefaultLanguage: string := "hi-IN"

  /** The language both handlers pass on (`language = 'hi-IN'` in the
      destructuring, `data.get('language', 'hi-IN')`): a `language` field
      that is absent takes the default; one that is present, even null, is
      kept. */
  function Language(body: Body): Json
  {
    if "language" in body then body["language"] else JString(DefaultLanguage)
  }

  /** What both handlers put before the message of an error they answer
      with a 500. */
  const FailurePrefix: string := "Failed to generate audio: "
}
