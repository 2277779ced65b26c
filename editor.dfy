/** The editor's text area and the effect buttons that insert marker
    templates at the cursor. */
module TextEditor {

  import opened Providers
  import opened SsmlConversion
  import opened ConversionTheorems

  /** The template an effect button inserts, each followed by a space:
      `[PAUSE:1s]`, and `[EMPHASIZE]selected text[/EMPHASIZE]` and its like
      for the paired markers. An effect type the switch does not list
      inserts nothing. */
  function EffectTag(effectType: string): string
  {
    if effectType == "pause" then PauseMarker + "1s] "
    else if effectType == "emphasize" then OpenMarker(Emphasize) + Placeholder + CloseMarker(Emphasize) + " "
    else if effectType == "whisper" then OpenMarker(Whisper) + Placeholder + CloseMarker(Whisper) + " "
    else if effectType == "shocking" then OpenMarker(Shocking) + Placeholder + CloseMarker(Shocking) + " "
    else ""
  }

  const Placeholder: string := "selected text"

  const EffectTypes: set<string> := {"pause", "emphasize", "whisper", "shocking"}

  /** `s` with `tag` put in at position `pos`: the text before the position
      and the text from it onwards keep their content. */
  function Splice(s: string, pos: nat, tag: string): (r: string)
    requires pos <= |s|
    ensures |r| == |s| + |tag|
    ensures r[..pos] == s[..pos]
    ensures r[pos..pos + |tag|] == tag
    ensures r[pos + |tag|..] == s[pos..]
  {
    var r := s[..pos] + tag + s[pos..];
    assert r[..pos] == s[..pos];
    assert r[pos..pos + |tag|] == tag;
    assert r[pos + |tag|..] == s[pos..];
    r
  }

  /** The text area: its value and its selection. */
  class Editor {
    var text: string
    var selectionStart: nat
    var selectionEnd: nat

    ghost predicate Valid()
      reads this
    {
      selectionStart <= selectionEnd <= |text|
    }

    constructor(initial: string, start: nat, end: nat)
      requires start <= end <= |initial|
      ensures Valid()
      ensures text == initial && selectionStart == start && selectionEnd == end
    {
      text := initial;
      selectionStart := start;
      selectionEnd := end;
    }

    /** `insertEffect(effectType)`: the template goes in at the start of the
        selection (a selection is not replaced), and the cursor collapses to
        just after it. */
    method InsertEffect(effectType: string)
      requires Valid()
      modifies this
      ensures Valid()
      ensures text == Splice(old(text), old(selectionStart), EffectTag(effectType))
      ensures selectionStart == selectionEnd == old(selectionStart) + |EffectTag(effectType)|
    {
      var cursorPos := selectionStart;
      var effectTag := EffectTag(effectType);
      var textBefore := text[..cursorPos];
      var textAfter := text[cursorPos..];
      text := textBefore + effectTag + textAfter;
      selectionStart := cursorPos + |effectTag|;
      selectionEnd := selectionStart;
    }
  }

  /** An effect type outside the four leaves the text where it was. */
  lemma UnknownEffectInsertsNothing(effectType: string, s: string, pos: nat)
    requires pos <= |s| && effectType !in EffectTypes
    ensures EffectTag(effectType) == ""
    ensures Splice(s, pos, EffectTag(effectType)) == s
  {
    assert s[..pos] + "" + s[pos..] == s;
  }

  /** The segments that each template stands for, followed by the space
      after it. */
  function TagSegments(effectType: string): seq<Segment>
  {
    if effectType == "pause" then [Pause("1", true), Text(" ")]
    else if effectType == "emphasize" then [Marked(Emphasize, Placeholder), Text(" ")]
    else if effectType == "whisper" then [Marked(Whisper, Placeholder), Text(" ")]
    else if effectType == "shocking" then [Marked(Shocking, Placeholder), Text(" ")]
    else []
  }

  lemma MarkupOfPair(x: Segment, y: Segment)
    ensures Markup([x, y]) == MarkerText(x) + MarkerText(y)
  {
    assert [x, y][1..] == [y];
    SingleMarkup(y);
  }

  lemma PlaceholderPlain()
    ensures '[' !in Placeholder && NoLineTerminator(Placeholder)
  {
    forall i | 0 <= i < |Placeholder| ensures !IsLineTerminator(Placeholder[i]) && Placeholder[i] != '[' {
      assert 'a' <= Placeholder[i] <= 'z' || Placeholder[i] == ' ';
    }
  }

  lemma PauseTagIsMarkup()
    ensures AllWellFormed(TagSegments("pause"))
    ensures EffectTag("pause") == Markup(TagSegments("pause"))
  {
    MarkupOfPair(Pause("1", true), Text(" "));
    assert EffectTag("pause") == PauseMarker + "1" + UnitSuffix(true) + " ";
  }

  lemma MarkedTemplate(effectType: string, e: Effect)
    requires (effectType == "emphasize" && e == Emphasize) ||
             (effectType == "whisper" && e == Whisper) ||
             (effectType == "shocking" && e == Shocking)
    ensures EffectTag(effectType) == OpenMarker(e) + Placeholder + CloseMarker(e) + " "
    ensures TagSegments(effectType) == [Marked(e, Placeholder), Text(" ")]
  {
  }

  lemma MarkedSegments(e: Effect)
    ensures AllWellFormed([Marked(e, Placeholder), Text(" ")])
    ensures Markup([Marked(e, Placeholder), Text(" ")]) == OpenMarker(e) + Placeholder + CloseMarker(e) + " "
  {
    PlaceholderPlain();
    MarkupOfPair(Marked(e, Placeholder), Text(" "));
  }

  lemma MarkedTagIsMarkup(effectType: string, e: Effect)
    requires (effectType == "emphasize" && e == Emphasize) ||
             (effectType == "whisper" && e == Whisper) ||
             (effectType == "shocking" && e == Shocking)
    ensures AllWellFormed(TagSegments(effectType))
    ensures EffectTag(effectType) == Markup(TagSegments(effectType))
  {
    MarkedTemplate(effectType, e);
    MarkedSegments(e);
  }

  /** Every template is the marker form of well-formed segments, so the
      translation turns it into the intended tags. */
  lemma EffectTagIsMarkup(effectType: string)
    ensures AllWellFormed(TagSegments(effectType))
    ensures EffectTag(effectType) == Markup(TagSegments(effectType))
  {
    if effectType == "pause" {
      PauseTagIsMarkup();
    } else if effectType == "emphasize" {
      MarkedTagIsMarkup(effectType, Emphasize);
    } else if effectType == "whisper" {
      MarkedTagIsMarkup(effectType, Whisper);
    } else if effectType == "shocking" {
      MarkedTagIsMarkup(effectType, Shocking);
    }
  }

  /** Marker forms of segment lists concatenate. */
  lemma {:induction false} MarkupAppend(xs: seq<Segment>, ys: seq<Segment>)
    ensures Markup(xs + ys) == Markup(xs) + Markup(ys)
    decreases |xs|
  {
    if xs == [] {
      assert xs + ys == ys;
    } else {
      assert (xs + ys)[1..] == xs[1..] + ys;
      MarkupAppend(xs[1..], ys);
    }
  }

  /** Inserting a template between two pieces of well-formed text gives a
      text that converts to the translations of the three pieces in order. */
  lemma InsertedEffectTranslates(before: seq<Segment>, after: seq<Segment>, effectType: string, voiceId: string)
    requires AllWellFormed(before) && AllWellFormed(after)
    ensures var s := Markup(before) + Markup(after);
      var segs := before + TagSegments(effectType) + after;
      ConvertToSsml(Splice(s, |Markup(before)|, EffectTag(effectType)), voiceId)
      == "<speak>" + Translation(segs, DialectOf(ProviderFromVoiceId(voiceId))) + "</speak>"
  {
    var tags := TagSegments(effectType);
    var segs := before + tags + after;
    EffectTagIsMarkup(effectType);
    MarkupAppend(before, tags);
    MarkupAppend(before + tags, after);
    var s := Markup(before) + Markup(after);
    assert s[..|Markup(before)|] == Markup(before);
    assert s[|Markup(before)|..] == Markup(after);
    assert AllWellFormed(segs) by {
      forall i | 0 <= i < |segs| ensures WellFormed(segs[i]) {
        if i < |before| {
          assert segs[i] == before[i];
        } else if i < |before| + |tags| {
          assert segs[i] == tags[i - |before|];
        } else {
          assert segs[i] == after[i - |before| - |tags|];
        }
      }
    }
    ConvertMarkup(segs, voiceId);
  }
}
