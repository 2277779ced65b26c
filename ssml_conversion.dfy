/** The front end's translation of editor text into a vendor's SSML dialect.

    The editor text carries bracketed markers: `[PAUSE:Ns]`,
    `[EMPHASIZE]...[/EMPHASIZE]`, `[WHISPER]...[/WHISPER]` and
    `[SHOCKING]...[/SHOCKING]`. Each kind is rewritten by one global regular
    expression replacement, in the order pause, emphasize, whisper, shocking,
    and the result is wrapped in `<speak>...</speak>`. The replacements are
    modelled here as scans: a match is looked for at each position from the
    left, a match is replaced and the scan resumes after it, so matches never
    overlap; the body of a paired marker is the shortest one that reaches the
    closing marker without crossing a line terminator (a lazy `(.*?)` whose
    `.` excludes line terminators). No XML escaping is done anywhere: user
    text is copied verbatim. */
module SsmlConversion {

  import opened Wrappers
  import opened Providers

  // ---------------------------------------------------------------------
  // Choosing the dialect from the voice id

  const AzureVoiceNames: seq<string> := ["hari", "ananya", "karan"]
  const SarvamVoiceNames: seq<string> := ["ravi", "anjali", "vijay"]

  /** The vendor whose dialect the text is translated into, chosen from the
      voice id alone: a `google-` prefix first, then an `azure-` prefix or one
      of three Azure voice names, then three Sarvam voice names, and
      ElevenLabs for everything else. */
  function ProviderFromVoiceId(voiceId: string): Provider
  {
    if "google-" <= voiceId then Google
    else if "azure-" <= voiceId || voiceId in AzureVoiceNames then Azure
    else if voiceId in SarvamVoiceNames then Sarvam
    else ElevenLabs
  }

  /** Each provider is chosen by its own rule alone: the rules cannot overlap,
      so the precedence between them never changes the answer. */
  lemma ProviderChoice(voiceId: string)
    ensures ProviderFromVoiceId(voiceId) == Google <==> "google-" <= voiceId
    ensures ProviderFromVoiceId(voiceId) == Azure <==> "azure-" <= voiceId || voiceId in AzureVoiceNames
    ensures ProviderFromVoiceId(voiceId) == Sarvam <==> voiceId in SarvamVoiceNames
    ensures ProviderFromVoiceId(voiceId) == ElevenLabs <==>
      !("google-" <= voiceId) && !("azure-" <= voiceId) &&
      voiceId !in AzureVoiceNames && voiceId !in SarvamVoiceNames
  {
    if "google-" <= voiceId {
      assert voiceId[0] == 'g';
      assert !("azure-" <= voiceId);
      assert |voiceId| >= 7;
    }
    if voiceId in SarvamVoiceNames {
      assert voiceId == "ravi" || voiceId == "anjali" || voiceId == "vijay";
      assert voiceId[1] != 'z';
    }
  }

  // ---------------------------------------------------------------------
  // The dialect tables

  /** The replacement text of each rule in one vendor's dialect. A pause of
      `N` becomes `breakOpen + N + breakClose`; a paired marker's body is
      put between the corresponding open and close tags. */
  datatype Dialect = Dialect(
    breakOpen: string, breakClose: string,
    emphasisOpen: string, emphasisClose: string,
    whisperOpen: string, whisperClose: string,
    shockingOpen: string, shockingClose: string)

  const BreakOpen: string := "<break time=\""
  const BreakClose: string := "s\"/>"
  const EmphasisOpen: string := "<emphasis level=\"strong\">"
  const EmphasisClose: string := "</emphasis>"
  const BreathyOpen: string := "<amazon:effect phonation=\"breathy\">"
  const SoftOpen: string := "<amazon:effect volume=\"soft\">"
  const AmazonEffectClose: string := "</amazon:effect>"
  const MsttsWhisperOpen: string := "<mstts:whisper>"
  const MsttsWhisperClose: string := "</mstts:whisper>"
  const ProsodyClose: string := "</prosody>"

  /** The opening prosody tag with the given pitch change and rate. */
  function ProsodyOpen(pitch: string, rate: string): string
  {
    "<prosody pitch=\"" + pitch + "\" rate=\"" + rate + "\">"
  }

  function DialectOf(p: Provider): Dialect
  {
    match p
    case ElevenLabs => Dialect(
      BreakOpen, BreakClose, EmphasisOpen, EmphasisClose,
      BreathyOpen, AmazonEffectClose, ProsodyOpen("+25%", "1.2"), ProsodyClose)
    case Sarvam => Dialect(
      BreakOpen, BreakClose, EmphasisOpen, EmphasisClose,
      BreathyOpen, AmazonEffectClose, ProsodyOpen("+30%", "1.3"), ProsodyClose)
    case Google => Dialect(
      BreakOpen, BreakClose, EmphasisOpen, EmphasisClose,
      SoftOpen, AmazonEffectClose, ProsodyOpen("+25%", "1.25"), ProsodyClose)
    case Azure => Dialect(
      BreakOpen, BreakClose, EmphasisOpen, EmphasisClose,
      MsttsWhisperOpen, MsttsWhisperClose, ProsodyOpen("+30%", "1.2"), ProsodyClose)
  }

  /** The three paired markers. */
  datatype Effect = Emphasize | Whisper | Shocking

  function EffectName(e: Effect): string
  {
    match e
    case Emphasize => "EMPHASIZE"
    case Whisper => "WHISPER"
    case Shocking => "SHOCKING"
  }

  function OpenMarker(e: Effect): string
  {
    "[" + EffectName(e) + "]"
  }

  function CloseMarker(e: Effect): string
  {
    "[/" + EffectName(e) + "]"
  }

  function SsmlOpen(d: Dialect, e: Effect): string
  {
    match e
    case Emphasize => d.emphasisOpen
    case Whisper => d.whisperOpen
    case Shocking => d.shockingOpen
  }

  function SsmlClose(d: Dialect, e: Effect): string
  {
    match e
    case Emphasize => d.emphasisClose
    case Whisper => d.whisperClose
    case Shocking => d.shockingClose
  }

  // ---------------------------------------------------------------------
  // Characters

  /** `\d` in a JavaScript regular expression: ASCII digits only. */
  predicate IsDigit(c: char)
  {
    '0' <= c <= '9'
  }

  /** The characters a JavaScript `.` does not match (without the `s` flag). */
  predicate IsLineTerminator(c: char)
  {
    c == '\n' || c == '\r' || c == '\U{2028}' || c == '\U{2029}'
  }

  predicate AllDigits(s: string)
  {
    forall i :: 0 <= i < |s| ==> IsDigit(s[i])
  }

  predicate NoLineTerminator(s: string)
  {
    forall i :: 0 <= i < |s| ==> !IsLineTerminator(s[i])
  }

  predicate EndsWith(s: string, suffix: string)
  {
    |suffix| <= |s| && s[|s| - |suffix|..] == suffix
  }

  // ---------------------------------------------------------------------
  // The pause rule: /\[PAUSE:(\d+)s?\]/g

  const PauseMarker: string := "[PAUSE:"

  /** Length of the run of digits that starts `s`: `\d+` is greedy. */
  function DigitRun(s: string): (n: nat)
    ensures n <= |s| && AllDigits(s[..n])
    ensures n < |s| ==> !IsDigit(s[n])
    decreases |s|
  {
    if s != [] && IsDigit(s[0]) then 1 + DigitRun(s[1..]) else 0
  }

  /** A pause match at the start of the text: its digits and its length. */
  datatype PauseHit = PauseHit(digits: string, length: nat)

  /** Whether the pause pattern matches at the start of `s`. After the
      greedy digits only `]` or `s]` can follow; giving back digits cannot
      help, because the character after a shorter run is a digit. */
  function PauseMatch(s: string): (m: Option<PauseHit>)
    ensures m.Some? ==> m.value.digits != [] && AllDigits(m.value.digits)
    ensures m.Some? ==> 0 < m.value.length <= |s|
    ensures m.Some? ==>
      var unit := if m.value.length == |PauseMarker| + |m.value.digits| + 1 then "]" else "s]";
      s[..m.value.length] == PauseMarker + m.value.digits + unit
  {
    if PauseMarker <= s then
      var t := s[|PauseMarker|..];
      var n := DigitRun(t);
      if n == 0 then None
      else if n < |t| && t[n] == ']' then
        assert s[..|PauseMarker| + n + 1] == PauseMarker + t[..n] + "]";
        Some(PauseHit(t[..n], |PauseMarker| + n + 1))
      else if n + 1 < |t| && t[n] == 's' && t[n + 1] == ']' then
        assert s[..|PauseMarker| + n + 2] == PauseMarker + t[..n] + "s]";
        Some(PauseHit(t[..n], |PauseMarker| + n + 2))
      else None
    else None
  }

  /** `text.replace(/\[PAUSE:(\d+)s?\]/g, '<break time="$1s"/>')`, with the
      replacement taken from the dialect. */
  function ReplacePauses(s: string, d: Dialect): string
    decreases |s|
  {
    if s == [] then []
    else match PauseMatch(s)
      case Some(hit) => d.breakOpen + hit.digits + d.breakClose + ReplacePauses(s[hit.length..], d)
      case None => [s[0]] + ReplacePauses(s[1..], d)
  }

  // ---------------------------------------------------------------------
  // The paired rules: /\[NAME\](.*?)\[\/NAME\]/g

  /** Length of the lazy body `(.*?)` at the start of `s`: the first place
      where `close` occurs, provided no line terminator comes before it. */
  function LazyBody(s: string, close: string): (r: Option<nat>)
    ensures r.Some? ==> r.value + |close| <= |s|
    decreases |s|
  {
    if close <= s then Some(0)
    else if s == [] || IsLineTerminator(s[0]) then None
    else
      match LazyBody(s[1..], close)
      case Some(k) => Some(k + 1)
      case None => None
  }

  /** Where the lazy body ends, `close` follows, no line terminator comes
      before, and `close` occurs nowhere earlier. */
  lemma {:induction false} LazyBodyFound(s: string, close: string, k: nat)
    requires LazyBody(s, close) == Some(k)
    ensures close <= s[k..] && NoLineTerminator(s[..k])
    ensures forall j :: 0 <= j < k ==> !(close <= s[j..])
    decreases |s|
  {
    if !(close <= s) {
      assert s != [] && !IsLineTerminator(s[0]);
      assert LazyBody(s[1..], close) == Some(k - 1);
      LazyBodyFound(s[1..], close, k - 1);
      assert s[k..] == s[1..][k - 1..];
      assert forall j :: 1 <= j <= k ==> s[j..] == s[1..][j - 1..];
      assert s[..k] == [s[0]] + s[1..][..k - 1];
    }
  }

  /** Where there is no lazy body, every occurrence of `close` lies past a
      line terminator. */
  lemma {:induction false} LazyBodyMissing(s: string, close: string)
    requires LazyBody(s, close) == None
    ensures forall k :: 0 <= k <= |s| && close <= s[k..] ==> !NoLineTerminator(s[..k])
    decreases |s|
  {
    if s == [] || IsLineTerminator(s[0]) {
      forall k | 0 <= k <= |s| && close <= s[k..] ensures !NoLineTerminator(s[..k]) {
        assert k != 0;
        assert s[..k][0] == s[0];
      }
    } else {
      assert LazyBody(s[1..], close) == None;
      LazyBodyMissing(s[1..], close);
      forall k | 0 <= k <= |s| && close <= s[k..] ensures !NoLineTerminator(s[..k]) {
        assert k != 0;
        assert s[k..] == s[1..][k - 1..];
        assert s[..k][1..] == s[1..][..k - 1];
      }
    }
  }

  /** The lazy body is the shortest single-line one: `close` follows it, no
      line terminator comes before it, `close` occurs nowhere earlier, and
      when there is none every occurrence of `close` lies past a line
      terminator. */
  lemma LazyBodyIsShortest(s: string, close: string)
    ensures LazyBody(s, close).Some? ==> close <= s[LazyBody(s, close).value..]
    ensures LazyBody(s, close).Some? ==> NoLineTerminator(s[..LazyBody(s, close).value])
    ensures LazyBody(s, close).Some? ==>
      forall j :: 0 <= j < LazyBody(s, close).value ==> !(close <= s[j..])
    ensures LazyBody(s, close).None? ==>
      forall k :: 0 <= k <= |s| && close <= s[k..] ==> !NoLineTerminator(s[..k])
  {
    match LazyBody(s, close) {
      case Some(k) => LazyBodyFound(s, close, k);
      case None => LazyBodyMissing(s, close);
    }
  }

  /** `text.replace(/OPEN(.*?)CLOSE/g, TAGOPEN + '$1' + TAGCLOSE)` for
      literal marker texts `open` and `close`: at each position where `open`
      starts and a lazy body follows, the match is replaced and the scan
      resumes after `close`; elsewhere one character is copied. */
  function ReplacePair(s: string, open: string, close: string, tagOpen: string, tagClose: string): string
    requires open != []
    decreases |s|
  {
    if s == [] then []
    else if open <= s then
      var rest := s[|open|..];
      match LazyBody(rest, close)
      case Some(k) =>
        tagOpen + rest[..k] + tagClose + ReplacePair(rest[k + |close|..], open, close, tagOpen, tagClose)
      case None => [s[0]] + ReplacePair(s[1..], open, close, tagOpen, tagClose)
    else [s[0]] + ReplacePair(s[1..], open, close, tagOpen, tagClose)
  }

  /** `text.replace(/\[NAME\](.*?)\[\/NAME\]/g, '<open>$1<close>')` for the
      effect `e`, with the tags taken from the dialect. */
  function ReplaceEffect(s: string, e: Effect, d: Dialect): string
  {
    ReplacePair(s, OpenMarker(e), CloseMarker(e), SsmlOpen(d, e), SsmlClose(d, e))
  }

  // ---------------------------------------------------------------------
  // The whole translation

  /** The four replacements in the order the source chains them. */
  function RewriteMarkers(text: string, d: Dialect): string
  {
    ReplaceEffect(ReplaceEffect(ReplaceEffect(ReplacePauses(text, d), Emphasize, d), Whisper, d), Shocking, d)
  }

  /** `convertToSSML(text, voiceId)`: rewrite the markers in the dialect the
      voice id selects and wrap the result in a `<speak>` element. */
  function ConvertToSsml(text: string, voiceId: string): (r: string)
    ensures "<speak>" <= r && EndsWith(r, "</speak>")
  {
    var r := "<speak>" + RewriteMarkers(text, DialectOf(ProviderFromVoiceId(voiceId))) + "</speak>";
    assert r[..7] == "<speak>";
    assert r[|r| - 8..] == "</speak>";
    r
  }

  // ---------------------------------------------------------------------
  // Validation

  datatype Validation = Valid(ssml: string) | Invalid(error: string)

  /** `validateSSML(ssml)`: a check of the opening and closing `<speak>` tags
      and nothing more. The source also builds two tag-matching patterns but
      never consults them, so unbalanced tags inside are accepted. */
  function ValidateSsml(ssml: string): (r: Validation)
    ensures r.Valid? <==> "<speak>" <= ssml && EndsWith(ssml, "</speak>")
    ensures r.Valid? ==> r.ssml == ssml
    ensures r.Invalid? ==> r.error == "Missing <speak> tags"
  {
    if !("<speak>" <= ssml) || !EndsWith(ssml, "</speak>") then Invalid("Missing <speak> tags")
    else Valid(ssml)
  }

  /** Whatever is converted passes validation unchanged, so the front end's
      "SSML Error" branch can never be taken. */
  lemma ConvertedAlwaysValid(text: string, voiceId: string)
    ensures ValidateSsml(ConvertToSsml(text, voiceId)) == Valid(ConvertToSsml(text, voiceId))
  {
  }

  /** Validation accepts anything between the `<speak>` tags: tag balance is
      never checked. */
  lemma ValidationIgnoresBody(inner: string)
    ensures ValidateSsml("<speak>" + inner + "</speak>").Valid?
  {
    var s := "<speak>" + inner + "</speak>";
    assert s[..7] == "<speak>";
    assert s[|s| - 8..] == "</speak>";
  }
}
