/** The four text-to-speech vendors, and the names by which the front end and
    both back ends refer to them. */
module Providers {

  import opened Wrappers

  datatype Provider = ElevenLabs | Sarvam | Google | Azure

  /** The identifier string used for a provider in requests, in the provider
      factory tables and in the `/api/providers` listing. */
  function Name(p: Provider): string
  {
    match p
    case ElevenLabs => "elevenlabs"
    case Sarvam => "sarvam"
    case Google => "google"
    case Azure => "azure"
  }

  /** The provider whose identifier is `name`, if any: the lookup both
      provider factories perform on their four-entry table. */
  function Named(name: string): (r: Option<Provider>)
    ensures r.Some? ==> Name(r.value) == name
  {
    if name == "elevenlabs" then Some(ElevenLabs)
    else if name == "sarvam" then Some(Sarvam)
    else if name == "google" then Some(Google)
    else if name == "azure" then Some(Azure)
    else None
  }

  /** The set of the four provider identifiers. */
  const KnownNames: set<string> := {"elevenlabs", "sarvam", "google", "azure"}

  /** `Named` is the inverse of `Name`. */
  lemma NameRoundTrip(p: Provider)
    ensures Named(Name(p)) == Some(p)
  {
  }

  /** `Named` accepts exactly the four identifiers. */
  lemma NamedAcceptsKnown(name: string)
    ensures Named(name).Some? <==> name in KnownNames
  {
  }
}
