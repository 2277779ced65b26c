# Hindi TTS voice editor — a verified model of its core

The voice editor lets a user write Hindi text with four effect markers:
`[PAUSE:Ns]`, `[EMPHASIZE]…[/EMPHASIZE]`, `[WHISPER]…[/WHISPER]` and
`[SHOCKING]…[/SHOCKING]`. The page turns that text into SSML (Speech
Synthesis Markup Language). It picks the dialect of the vendor behind the
chosen voice (ElevenLabs, Sarvam AI, Google Cloud or Microsoft Azure) and
posts the SSML to a back end. The back end picks the provider, maps the
friendly voice id to the vendor's voice and calls the vendor. There are two
back ends, one in Express and one in Flask. They accept the same request
but decide differently when it is faulty.

This project models:

- **the marker-to-SSML translation** (`script.js`): voice-id routing, the
  four dialect tables, the four global regex rewrites, the `<speak>`
  wrapper and `validateSSML`.
- **the editor's effect buttons**: `insertEffect`, a class whose text and
  selection are updated in place.
- **the page's request**: the blank-text guard of `generateAudio`, the JSON
  body it posts, and `getProviderInfo`.
- **both back ends' dispatch**: the provider factory, the voice mappings
  and lookups, the "client not initialized" checks, the required-field
  validation, the 400/500 choice and the `/api/providers` listing.

Modules, one per file:

- `Wrappers`: the usual `Option` and `Result` types.
- `Providers`: the four vendors and their identifier strings.
- `Json`: request values. It gives JavaScript's truthiness and `String()`,
  and Python's hashability and `str()`.
- `Service`: the vendor call, an opaque function parameter, and the HTTP
  response.
- `SsmlConversion`: `convertToSSML`, `getProviderFromVoiceId` and
  `validateSSML`.
- `ConversionTheorems`: what the translation does to text made of markers.
- `TextEditor`: `insertEffect`.
- `Client`: `generateAudio` up to its `fetch`, and `getProviderInfo`.
- `ExpressBackend`, `FlaskBackend`: the two servers.
- `EndToEnd`: the page and the servers together.

**How the regex rewrites are modelled.** Each `.replace(/…/g, …)` is a
recursive scan that follows JavaScript's matching rules:

- The leftmost match is taken, and matches do not overlap.
- `\d+` is greedy.
- `(.*?)` is lazy.
- `.` stops at the four line terminators: `\n`, `\r`, U+2028 and U+2029.

The three paired rules share one scan, `ReplacePair`, over the literal
opening and closing texts and their replacements.

The main theorem, `ConversionTheorems.ConvertMarkup`, describes text as a
sequence of segments. Each segment is plain text without `[`, a pause, or a
marked span whose body has no `[` and no line break. Converting the marker
rendering of such a sequence gives `<speak>`, then the dialect translation
of each segment in order, then `</speak>`.

The edge cases are stated apart. They cover a pause without digits, a
marked body that spans a line break, and a marker nested inside one of
its own kind.

Where the two back ends diverge, the model shows it:

- The Express back end refuses falsy fields. The Flask back end refuses
  only absent ones.
- An unknown provider is a 500 in Express but a 400 in Flask.
- A field that JavaScript cannot turn into a string (an object with its own
  `toString` key) makes Express's log line throw, a 500. Flask's `str()`
  never fails.

## Model

| member | source | states |
|---|---|---|
| Providers.NameRoundTrip | backend_express.js:252-262 | The factory's table lookup recovers each provider from its identifier |
| Providers.NamedAcceptsKnown | backend_express.js:252-262 | The factory's table lookup accepts exactly the four identifiers |
| Json.JsString | backend_express.js:297-298 | JavaScript `String()`: no string form for an object with its own `toString` key or an array holding one, otherwise the printed form. Specified by `Json.JsStringFailsIff` |
| Json.JsStringFailsIff | backend_express.js:297-298 | The conversion fails exactly for an object with its own `toString` key or an array holding one at any depth |
| SsmlConversion.ProviderFromVoiceId | script.js:143-148 | The page's routing of a voice id to a provider. Specified by `SsmlConversion.ProviderChoice` and `EndToEnd.MappedVoicesRouteHome` |
| SsmlConversion.DialectOf | script.js:104-135 | The four dialect tables. Specified by `ConversionTheorems.DialectsBracketFree`, `SharedRules` and `DialectsDiffer` |
| SsmlConversion.ReplacePauses | script.js:107 | The global pause rewrite. Specified by `ConversionTheorems.PausesMatch`, `PausesSkipInert` and `PauseWithoutDigitsUntouched` |
| SsmlConversion.ReplacePair | script.js:108-110 | The shared scan of the three paired rewrites. Specified by `ConversionTheorems.PairMatch`, `PairSkipInert` and `PairAfterOpen` |
| SsmlConversion.ReplaceEffect | script.js:108-110 | One paired rewrite with the dialect's tags. Specified by `ConversionTheorems.EffectMatch`, `MultiLineBodyUntouched` and `NestedMarkersDoNotNest` |
| SsmlConversion.RewriteMarkers | script.js:104-136 | The four rewrites in source order. Specified by `ConversionTheorems.RewriteMarkup` |
| SsmlConversion.ProviderChoice | script.js:143-148 | Each provider is chosen exactly when its own rule holds: a `google-` prefix; an `azure-` prefix or hari/ananya/karan; ravi/anjali/vijay; everything else for ElevenLabs. The rules never overlap, so their precedence never changes the answer |
| SsmlConversion.PauseMatch | script.js:107 | A pause match is `[PAUSE:` followed by a non-empty run of digits and then `]` or `s]`; its length is that of the matched text |
| SsmlConversion.LazyBodyIsShortest | script.js:108-110 | The lazy `(.*?)` body ends at the first occurrence of the closing marker, contains no line terminator, and no earlier position starts the closing marker; when there is no body, every later closing marker lies past a line break |
| SsmlConversion.ConvertToSsml | script.js:139 | The converted text always starts with `<speak>` and ends with `</speak>` |
| SsmlConversion.ValidateSsml | script.js:151-163 | Valid exactly when the text starts with `<speak>` and ends with `</speak>`; a valid result carries the text unchanged; the only error is "Missing <speak> tags" |
| SsmlConversion.ConvertedAlwaysValid | script.js:139-163 | Validation accepts every converted text, unchanged |
| SsmlConversion.ValidationIgnoresBody | script.js:151-163 | Anything wrapped in `<speak>…</speak>` is valid: the tag-matching patterns are computed but never consulted |
| ConversionTheorems.DialectsBracketFree | script.js:104-135 | No replacement text of any dialect contains `[`, so no later rewrite can match inside an earlier one's output |
| ConversionTheorems.SharedRules | script.js:104-135 | Pauses and EMPHASIZE are written the same way in all four dialects |
| ConversionTheorems.DialectsDiffer | script.js:104-135 | Each provider has its own SHOCKING prosody, so no two dialects are equal; the WHISPER tag is shared by ElevenLabs and Sarvam alone |
| ConversionTheorems.PausesMatch | script.js:107 | `[PAUSE:N]` and `[PAUSE:Ns]` with digits N become `breakOpen + N + breakClose`, and the scan continues after the match |
| ConversionTheorems.PairMatch | script.js:108-110 | Any `[`-led closing text after a `[`-free, single-line body: the opening text, body and closing text become the replacement tags around the body, and the scan resumes after the closing text |
| ConversionTheorems.PairSkipInert | script.js:108-110 | A paired rule copies text in which no `[` is followed by the second character of its opening text, and continues with what follows |
| ConversionTheorems.EffectMatch | script.js:108-110 | A marked span whose body has no `[` and no line break becomes the dialect's open tag, the body and the close tag, and the scan continues after it |
| ConversionTheorems.RewriteMarkup | script.js:104-136 | The four passes, in the order PAUSE, EMPHASIZE, WHISPER, SHOCKING, turn the marker text of well-formed segments into their dialect translation |
| ConversionTheorems.ConvertMarkup | script.js:100-140 | Converting the marker text of well-formed segments gives `<speak>`, the translation in the voice's dialect, then `</speak>` |
| ConversionTheorems.PlainTextUnchanged | script.js:100-139 | Text without `[` comes back unchanged inside the `<speak>` wrapper |
| ConversionTheorems.PauseTranslation | script.js:107-131 | A pause with digits becomes `<break time="Ns"/>` for every voice, with or without the `s` |
| ConversionTheorems.EffectTranslation | script.js:108-134 | A marked span becomes the tags of the voice's dialect around the unchanged body |
| ConversionTheorems.PauseWithoutDigitsUntouched | script.js:107 | `[PAUSE:` not followed by a digit (for example `[PAUSE:s]`) is left as it is |
| ConversionTheorems.MultiLineBodyUntouched | script.js:108-110 | A marked span whose body crosses a line break is not rewritten at all |
| ConversionTheorems.NestedMarkersDoNotNest | script.js:108-110 | In `[E]a[E]b[/E][/E]` the first open marker pairs with the first close marker, and the second close marker is left over |
| TextEditor.EffectTag | script.js:53-68 | The template for each effect button. Specified by `TextEditor.EffectTagIsMarkup` and `UnknownEffectInsertsNothing` |
| TextEditor.Splice | script.js:70-72 | Splicing keeps the text before the position and the text after it, with the tag in between |
| TextEditor.Editor.InsertEffect | script.js:50-76 | The template goes in at the selection start, replacing nothing; both selection ends move to just after it |
| TextEditor.UnknownEffectInsertsNothing | script.js:53-68 | An effect type outside the four inserts the empty tag and leaves the text as it was |
| TextEditor.EffectTagIsMarkup | script.js:55-68 | Every template is the marker text of well-formed segments |
| TextEditor.InsertedEffectTranslates | script.js:50-140 | Inserting a template into well-formed text converts to the translation of the text with the template's segments in place |
| Client.GenerateAudio | script.js:166-206 | The page's action for the Generate button. Specified by `Client.RefusesOnlyBlankText` and `PostsConvertedText` |
| Client.RequestBody | script.js:200-206 | The posted JSON body. Specified by `Client.RequestBodyFields` |
| Client.GetProviderInfo | script.js:330-332 | The provider information lookup. Specified by `Client.ProviderInfoCoverage` |
| Client.TrimStart | script.js:171 | Drops exactly a blank prefix, and what remains does not start with white space |
| Client.TrimEnd | script.js:171 | Drops exactly a blank suffix, and what remains does not end with white space |
| Client.TrimEmptyIffBlank | script.js:171 | `text.trim()` is empty exactly when the text is all white space |
| Client.RefusesOnlyBlankText | script.js:166-190 | The page alerts exactly for blank text, always with "Please enter some text"; the SSML-error branch is never taken |
| Client.PostsConvertedText | script.js:181-206 | Text that is not blank is converted and posted |
| Client.RequestBodyFields | script.js:200-206 | The body holds the SSML, the voice id and name, the provider the voice id selects, and `hi-IN` |
| Client.ProviderInfoCoverage | script.js:302-332 | Information exists exactly for the four identifiers, including the provider of every voice |
| ExpressBackend.VoiceMapping | backend_express.js:50-197 | Each provider's `voiceMapping`. Specified by `ExpressBackend.MappedVoicesNonEmpty` and `ListingMatchesMapping` |
| ExpressBackend.GetProvider | backend_express.js:248-265 | `getProvider`. Specified by `ExpressBackend.GetProviderAcceptsKnown` |
| ExpressBackend.ResolveVoice | backend_express.js:57-59 | The lookup of a voice id in the mapping, falling back to the id itself. Specified by `ExpressBackend.ResolveVoiceLookup` and `SarvamResolvesToItself` |
| ExpressBackend.GenerateAudio | backend_express.js:152-208 | Each provider's `generateAudio` up to the vendor call. Specified by `ExpressBackend.MissingClientIsServerError` and `HandlerCallsVendor` |
| ExpressBackend.Handle | backend_express.js:286-315 | The `POST /api/generate-audio` handler. Specified by `ExpressBackend.BadRequestIffFalsyField`, `UnloggableFieldIsServerError`, `UnknownProviderIsServerError`, `MissingClientIsServerError` and `HandlerCallsVendor` |
| ExpressBackend.EnvOr | backend_express.js:51-53 | The environment variable or its fallback: a set, non-empty variable wins; an unset or empty one gives the fallback, so the voice id is never empty |
| ExpressBackend.MappedVoicesNonEmpty | backend_express.js:50-197 | No mapped vendor voice is empty, so a mapped id is always replaced |
| ExpressBackend.GetProviderAcceptsKnown | backend_express.js:248-265 | The factory accepts exactly the values whose string form is one of the four identifiers; another value with a string form throws "Unknown provider: " with that string, and one without a string form throws the `TypeError` |
| ExpressBackend.ResolveVoiceLookup | backend_express.js:57-59 | A mapped voice id becomes its vendor voice; any other id with a string form passes through unchanged; an id without one throws the `TypeError` |
| ExpressBackend.SarvamResolvesToItself | backend_express.js:96-105 | Sarvam's lookup gives back a string voice id as it was given, keeps the string form of any id that has one, and fails exactly on an id without one |
| ExpressBackend.BadRequestIffFalsyField | backend_express.js:286-315 | The handler answers 400 exactly when ssml, voice_id or provider is missing or falsy, always with the fixed message; every answer is 200, 400 or 500 |
| ExpressBackend.UnloggableFieldIsServerError | backend_express.js:286-314 | A truthy provider, voice_id or ssml without a string form makes a log line throw: a 500 with "Failed to generate audio: Cannot convert object to primitive value", whatever the vendor does |
| ExpressBackend.UnknownProviderIsServerError | backend_express.js:248-314 | An unknown provider is a 500 with "Failed to generate audio: Unknown provider: …", or with the `TypeError`'s message when a log line has thrown first |
| ExpressBackend.MissingClientIsServerError | backend_express.js:152-208 | Without its SDK, Google or Azure fails with a 500 "client not initialized", before any lookup or vendor call, unless a log line has thrown first |
| ExpressBackend.HandlerCallsVendor | backend_express.js:286-314 | With a ready provider, fields without a string form give the `TypeError`'s 500; otherwise the vendor gets the SSML, the resolved voice and the language (defaulting to `hi-IN`), and its outcome decides between audio and a 500 |
| ExpressBackend.ListingMatchesMapping | backend_express.js:321-346 | Each listed provider has its identifier and advertises exactly the keys of its voice mapping, each once |
| FlaskBackend.VoiceMapping | backend_flask.py:41-197 | Each provider's `voice_mapping`. Specified by `FlaskBackend.ResolveVoiceLookup` and `ListingMatchesMapping` |
| FlaskBackend.GetProvider | backend_flask.py:237-250 | `get_provider`. Specified by `FlaskBackend.GetProviderAcceptsKnown` |
| FlaskBackend.ResolveVoice | backend_flask.py:52 | `voice_mapping.get(voice_id, voice_id)`, which raises `TypeError` on a list or dict id. Specified by `FlaskBackend.ResolveVoiceLookup` |
| FlaskBackend.GenerateAudio | backend_flask.py:143-206 | Each provider's `generate_audio` up to the vendor call. Specified by `FlaskBackend.MissingClientIsServerError`, `UnhashableVoiceIsServerError` and `EndpointCallsVendor` |
| FlaskBackend.Respond | backend_flask.py:257-307 | The `POST /api/generate-audio` endpoint. Specified by `FlaskBackend.MissingFieldReported` and `GenerateAudioEndpoint` |
| FlaskBackend.Dispatch | backend_flask.py:282-307 | The endpoint once the fields are present. Specified by `FlaskBackend.UnknownProviderIsBadRequest`, `UnhashableProviderIsServerError`, `MissingClientIsServerError`, `UnhashableVoiceIsServerError` and `EndpointCallsVendor` |
| FlaskBackend.GetProviderAcceptsKnown | backend_flask.py:237-250 | The factory accepts exactly the four identifier strings; another hashable value raises `ValueError` "Unknown provider: " with its `str`; a list or dict raises another exception |
| FlaskBackend.ResolveVoiceLookup | backend_flask.py:52 | `voice_mapping.get(voice_id, voice_id)` raises `unhashable type` on a list or dict id, maps known ids, and passes other hashable ids through; Sarvam's mapping gives back every hashable id |
| FlaskBackend.FirstMissing | backend_flask.py:277-280 | The reported field is absent and listed, and every field before it is present; nothing is reported exactly when all are present |
| FlaskBackend.GenerateAudioEndpoint | backend_flask.py:273-307 | The loop over the required fields answers exactly what the endpoint specification `Respond` gives |
| FlaskBackend.MissingFieldReported | backend_flask.py:277-285 | The first absent field, in the order ssml, voice_id, provider, is a 400 "Missing field: …"; with all three present, whatever their values, the request goes on to the provider |
| FlaskBackend.UnknownProviderIsBadRequest | backend_flask.py:237-304 | A hashable unknown provider is a 400 whose message is the `ValueError`'s |
| FlaskBackend.UnhashableProviderIsServerError | backend_flask.py:246-307 | A list or dict as provider fails the lookup with a `TypeError`, answered with a 500 |
| FlaskBackend.UnhashableVoiceIsServerError | backend_flask.py:282-307 | A list or dict as voice id for a known, ready provider raises the lookup's `TypeError` (backend_flask.py:52): a 500 with `Failed to generate audio: unhashable type: '<type>'`, whatever the vendor would do |
| FlaskBackend.MissingClientIsServerError | backend_flask.py:143-206 | Without its SDK, Google or Azure is a 500 "client not initialized" |
| FlaskBackend.EndpointCallsVendor | backend_flask.py:282-307 | Otherwise the vendor gets the SSML, the resolved voice and the language (defaulting to `hi-IN`); its audio is returned, its `ValueError` is a 400 with the bare message, any other error a 500 |
| FlaskBackend.ListingMatchesMapping | backend_flask.py:310-336 | Each listed provider has its identifier and advertises exactly the keys of its `voice_mapping`, each once |
| EndToEnd.PostedBodyShape | script.js:183-206 | The page's body always has a non-empty SSML string and names the voice's provider |
| EndToEnd.ExpressAcceptsPostedBody | backend_express.js:286-302 | The Express back end never answers the page's request (with a voice chosen) with a 400, and its log lines cannot throw on it: only the vendor or a missing SDK can fail it |
| EndToEnd.FlaskAcceptsPostedBody | backend_flask.py:273-292 | The Flask back end never answers the page's request with a missing field or an unknown provider |
| EndToEnd.MappedVoicesRouteHome | script.js:143-148 | Every voice a back end maps is routed by the page to that same provider, so its SSML is in that vendor's dialect |
| EndToEnd.EmptySsmlDiverges | backend_express.js:291-295 | An empty `ssml` is a 400 in Express, while Flask goes on to the provider |
| EndToEnd.UnknownProviderDiverges | backend_flask.py:246-304 | An unknown provider name is a 400 in Flask and a 500 in Express, whose message names the provider unless a log line has thrown first on a field without a string form |

## Left out

- Vendor HTTP and SDK calls: they are one opaque function from the request (provider, SSML, resolved voice, language) to audio bytes or an error. This covers axios, requests, the Google client, the Azure synthesizer and its temporary file. The API keys, model ids and voice settings they send are left out.
- The Azure provider stores the resolved voice in its speech configuration. The model passes it as the vendor request's voice instead. Each request builds a fresh provider, so nothing else sees the field.
- Provider constructors can fail in other ways, for example a SpeechConfig error or a missing Google credential. Only a failed SDK import or `require` is modelled.
- JavaScript object lookups also find inherited properties such as `constructor` or `toString`. The model's provider and voice tables hold only their own keys.
- The log lines' output is left out. Their message templates are modelled, because building them can throw.
- Request bodies that are not JSON objects are left out: a missing or null body, an array, a string.
- JSON numbers are integers in the model. Fractions and exponents are left out. `Json.Decimal` prints every digit, while JavaScript prints integers from 1e21 up in exponent form (`1e+21`) and rounds integers beyond 2^53 when it parses them.
- String lengths count characters, not UTF-16 code units. So the cursor position after inserting a template is off for text beyond the Basic Multilingual Plane.
- `window.currentVoiceId` is modelled as a string. Its `undefined` state before any voice is chosen is left out.
- Giving the text area focus after an insertion is left out: it changes no text and no selection.
- The remaining page behaviour is DOM and browser plumbing and is left out: filtering, modals, file upload, keyboard shortcuts, audio playback, `fetch` and its response handling.
- The `voiceComparison` table and the health and catch-all routes hold data only.
- Environment reads apart from the ElevenLabs voice ids, the logger's configuration and output, CORS and server start-up are left out.
- XML escaping is left out: the code does none, and the model does not claim well-formed XML.
