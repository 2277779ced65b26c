/** What the translation does, stated against an independent description of
    editor text as a list of segments: plain text, pauses and paired markers.
    The main theorem, `ConvertMarkup`, says that converting the marker form of
    a well-formed segment list gives the `<speak>` wrapper around the
    segments' translations in the chosen dialect. The remaining lemmas pin
    down the edge cases of the regular expressions: text without `[`,
    `[PAUSE:...]` without digits, bodies that span lines and nested markers. */
module ConversionTheorems {

  import opened Wrappers
  import opened Providers
  import opened SsmlConversion

  /** A piece of editor text in marker form. */
  datatype Segment =
    | Text(text: string)
    | Pause(digits: string, withUnit: bool)
    | Marked(effect: Effect, body: string)

  /** Plain text holds no `[`, a pause has at least one digit, and a marked
      body holds no `[` and stays on one line. */
  predicate WellFormed(seg: Segment)
  {
    match seg
    case Text(t) => '[' !in t
    case Pause(ds, _) => ds != [] && AllDigits(ds)
    case Marked(_, b) => '[' !in b && NoLineTerminator(b)
  }

  predicate AllWellFormed(segs: seq<Segment>)
  {
    forall i :: 0 <= i < |segs| ==> WellFormed(segs[i])
  }

  /** How a segment is written in the editor. */
  function MarkerText(seg: Segment): string
  {
    match seg
    case Text(t) => t
    case Pause(ds, u) => PauseMarker + ds + UnitSuffix(u)
    case Marked(e, b) => OpenMarker(e) + b + CloseMarker(e)
  }

  /** What a segment means in a dialect. */
  function SsmlText(seg: Segment, d: Dialect): string
  {
    match seg
    case Text(t) => t
    case Pause(ds, _) => d.breakOpen + ds + d.breakClose
    case Marked(e, b) => SsmlOpen(d, e) + b + SsmlClose(d, e)
  }

  function Markup(segs: seq<Segment>): string
  {
    if segs == [] then "" else MarkerText(segs[0]) + Markup(segs[1..])
  }

  function Translation(segs: seq<Segment>, d: Dialect): string
  {
    if segs == [] then "" else SsmlText(segs[0], d) + Translation(segs[1..], d)
  }

  // ---------------------------------------------------------------------
  // The text between passes

  /** The position of a segment's rule in the chain of replacements. */
  function EffectIndex(e: Effect): nat
  {
    match e
    case Emphasize => 1
    case Whisper => 2
    case Shocking => 3
  }

  function RuleIndex(seg: Segment): nat
  {
    match seg
    case Text(_) => 0
    case Pause(_, _) => 0
    case Marked(e, _) => EffectIndex(e)
  }

  /** A segment after the first `done` replacements have run. */
  function Stage(seg: Segment, done: nat, d: Dialect): string
  {
    if !seg.Text? && RuleIndex(seg) < done then SsmlText(seg, d) else MarkerText(seg)
  }

  function Staged(segs: seq<Segment>, done: nat, d: Dialect): string
  {
    if segs == [] then "" else Stage(segs[0], done, d) + Staged(segs[1..], done, d)
  }

  lemma {:induction false} StagedBounds(segs: seq<Segment>, d: Dialect)
    ensures Staged(segs, 0, d) == Markup(segs)
    ensures Staged(segs, 4, d) == Translation(segs, d)
    decreases |segs|
  {
    if segs != [] {
      StagedBounds(segs[1..], d);
    }
  }

  predicate BracketFreeDialect(d: Dialect)
  {
    '[' !in d.breakOpen && '[' !in d.breakClose &&
    '[' !in d.emphasisOpen && '[' !in d.emphasisClose &&
    '[' !in d.whisperOpen && '[' !in d.whisperClose &&
    '[' !in d.shockingOpen && '[' !in d.shockingClose
  }

  lemma BreakTagsBracketFree()
    ensures '[' !in BreakOpen && '[' !in BreakClose
  {
  }

  lemma EmphasisTagsBracketFree()
    ensures '[' !in EmphasisOpen && '[' !in EmphasisClose
  {
  }

  lemma AmazonTagsBracketFree()
    ensures '[' !in BreathyOpen && '[' !in SoftOpen && '[' !in AmazonEffectClose
  {
  }

  lemma MsttsTagsBracketFree()
    ensures '[' !in MsttsWhisperOpen && '[' !in MsttsWhisperClose
  {
  }

  lemma ProsodyTagsBracketFree(pitch: string, rate: string)
    requires '[' !in pitch && '[' !in rate
    ensures '[' !in ProsodyOpen(pitch, rate) && '[' !in ProsodyClose
  {
  }

  /** None of the replacement texts holds a `[`, so no later rule can match
      inside the output of an earlier one. */
  lemma DialectsBracketFree(p: Provider)
    ensures BracketFreeDialect(DialectOf(p))
  {
    BreakTagsBracketFree();
    EmphasisTagsBracketFree();
    AmazonTagsBracketFree();
    MsttsTagsBracketFree();
    match p
    case ElevenLabs => ProsodyTagsBracketFree("+25%", "1.2");
    case Sarvam => ProsodyTagsBracketFree("+30%", "1.3");
    case Google => ProsodyTagsBracketFree("+25%", "1.25");
    case Azure => ProsodyTagsBracketFree("+30%", "1.2");
  }

  /** Pauses and emphasis are written the same way in every dialect. */
  lemma SharedRules(p: Provider)
    ensures DialectOf(p).breakOpen == BreakOpen && DialectOf(p).breakClose == BreakClose
    ensures DialectOf(p).emphasisOpen == EmphasisOpen && DialectOf(p).emphasisClose == EmphasisClose
  {
  }

  /** The pitch change and rate of each dialect's SHOCKING prosody. */
  function ShockingArgs(p: Provider): (string, string)
  {
    match p
    case ElevenLabs => ("+25%", "1.2")
    case Sarvam => ("+30%", "1.3")
    case Google => ("+25%", "1.25")
    case Azure => ("+30%", "1.2")
  }

  lemma ShockingOf(p: Provider)
    ensures |ShockingArgs(p).0| == 4
    ensures DialectOf(p).shockingOpen == ProsodyOpen(ShockingArgs(p).0, ShockingArgs(p).1)
  {
  }

  /** Two prosody tags whose pitch texts have the same length are equal only
      when pitch and rate both are. */
  lemma ProsodyInjective(pitch: string, rate: string, pitch': string, rate': string)
    requires |pitch| == |pitch'|
    requires ProsodyOpen(pitch, rate) == ProsodyOpen(pitch', rate')
    ensures pitch == pitch' && rate == rate'
  {
    var pre, mid, post := "<prosody pitch=\"", "\" rate=\"", "\">";
    var s := ProsodyOpen(pitch, rate);
    assert s == pre + pitch + mid + rate + post;
    assert s == pre + pitch' + mid + rate' + post;
    var i := |pre|;
    var j := |pre| + |pitch| + |mid|;
    assert s[i..i + |pitch|] == pitch && s[i..i + |pitch|] == pitch';
    assert s[j..|s| - |post|] == rate && s[j..|s| - |post|] == rate';
  }

  lemma WhisperTagsDiffer()
    ensures BreathyOpen != SoftOpen && BreathyOpen != MsttsWhisperOpen && SoftOpen != MsttsWhisperOpen
  {
    assert BreathyOpen[15] == 'p' && SoftOpen[15] == 'v';
    assert BreathyOpen[1] == 'a' && SoftOpen[1] == 'a' && MsttsWhisperOpen[1] == 'm';
  }

  /** The dialects differ in the WHISPER and SHOCKING rules: every provider
      has its own SHOCKING prosody, so no two dialects are the same, and the
      WHISPER tag is shared by ElevenLabs and Sarvam alone. */
  lemma DialectsDiffer(p: Provider, q: Provider)
    ensures DialectOf(p).shockingOpen == DialectOf(q).shockingOpen <==> p == q
    ensures DialectOf(p).whisperOpen == DialectOf(q).whisperOpen <==>
      p == q || ((p == ElevenLabs || p == Sarvam) && (q == ElevenLabs || q == Sarvam))
    ensures p != q ==> DialectOf(p) != DialectOf(q)
  {
    WhisperTagsDiffer();
    if DialectOf(p).shockingOpen == DialectOf(q).shockingOpen {
      ShockingOf(p);
      ShockingOf(q);
      ProsodyInjective(ShockingArgs(p).0, ShockingArgs(p).1, ShockingArgs(q).0, ShockingArgs(q).1);
      assert ShockingArgs(p) == ShockingArgs(q);
    }
  }

  // ---------------------------------------------------------------------
  // Text that a rule scans over without matching

  /** Every `[` in `x` is followed, inside `x`, by a character other than
      `c`. When `c` is the second character of a rule's opening text, that
      rule cannot match at any position of `x`, whatever follows `x`. */
  predicate InertFor(x: string, c: char)
  {
    forall i :: 0 <= i < |x| && x[i] == '[' ==> i + 1 < |x| && x[i + 1] != c
  }

  lemma InertTail(x: string, c: char)
    requires x != [] && InertFor(x, c)
    ensures InertFor(x[1..], c)
  {
    forall i | 0 <= i < |x[1..]| && x[1..][i] == '[' ensures i + 1 < |x[1..]| && x[1..][i + 1] != c {
      assert x[i + 1] == '[';
    }
  }

  lemma BracketThenPlainInert(y: string, c: char)
    requires y != [] && y[0] != c && '[' !in y
    ensures InertFor("[" + y, c)
  {
    var x := "[" + y;
    forall i | 1 <= i < |x| ensures x[i] == y[i - 1] && x[i] != '[' {
      assert x[i] == y[i - 1];
    }
  }

  lemma InertConcat(a: string, b: string, c: char)
    requires InertFor(a, c) && InertFor(b, c)
    requires a == [] || a[|a| - 1] != '['
    ensures InertFor(a + b, c)
  {
    var x := a + b;
    forall i | 0 <= i < |x| && x[i] == '[' ensures i + 1 < |x| && x[i + 1] != c {
      if i < |a| {
        assert a[i] == '[';
        assert i + 1 < |a|;
        assert x[i + 1] == a[i + 1];
      } else {
        assert b[i - |a|] == '[';
        assert x[i + 1] == b[i - |a| + 1];
      }
    }
  }

  /** The first letters of the rules' opening texts after `[`: `P` for
      pauses and the effect name's initial for paired markers. They are
      pairwise distinct, and none is the `/` of a closing marker. */
  lemma MarkerShapes(e: Effect)
    ensures |OpenMarker(e)| >= 2 && OpenMarker(e)[0] == '[' && OpenMarker(e)[1] == EffectName(e)[0]
    ensures |CloseMarker(e)| >= 2 && CloseMarker(e)[0] == '[' && CloseMarker(e)[1] == '/'
    ensures EffectName(e) != [] && '[' !in EffectName(e) && NoLineTerminator(EffectName(e))
    ensures EffectName(e)[0] != '/' && EffectName(e)[0] != PauseMarker[1]
    ensures forall other: Effect :: other != e ==> EffectName(other)[0] != EffectName(e)[0]
  {
  }

  /** A paired marker around a `[`-free body is inert for every rule but its
      own. */
  lemma MarkerInert(e: Effect, b: string, c: char)
    requires '[' !in b && c != '/' && c != EffectName(e)[0]
    ensures InertFor(OpenMarker(e) + b + CloseMarker(e), c)
  {
    MarkerShapes(e);
    var name := EffectName(e);
    var head := name + "]" + b;
    var tail := "/" + name + "]";
    assert OpenMarker(e) + b + CloseMarker(e) == ("[" + head) + ("[" + tail);
    assert head[0] == name[0];
    BracketThenPlainInert(head, c);
    BracketThenPlainInert(tail, c);
    assert ("[" + head)[|head|] == head[|head| - 1];
    InertConcat("[" + head, "[" + tail, c);
  }

  // ---------------------------------------------------------------------
  // The scans over inert text and over a match

  /** Where the pause marker does not start, the pause rule copies one
      character. */
  lemma PausesCopy(s: string, d: Dialect)
    requires s != [] && !(PauseMarker <= s)
    ensures ReplacePauses(s, d) == [s[0]] + ReplacePauses(s[1..], d)
  {
    assert PauseMatch(s) == None;
  }

  /** The pause rule copies inert text and continues after it. */
  lemma {:induction false} PausesSkipInert(x: string, r: string, d: Dialect)
    requires InertFor(x, PauseMarker[1])
    ensures ReplacePauses(x + r, d) == x + ReplacePauses(r, d)
    decreases |x|
  {
    if x == [] {
      assert x + r == r;
    } else {
      InertNotPrefix(x, r, PauseMarker);
      PausesCopy(x + r, d);
      InertTail(x, PauseMarker[1]);
      PausesSkipInert(x[1..], r, d);
      assert [x[0]] + (x[1..] + ReplacePauses(r, d)) == x + ReplacePauses(r, d);
    }
  }

  /** The digit run stops at the first non-digit. */
  lemma {:induction false} DigitRunOf(ds: string, rest: string)
    requires AllDigits(ds)
    requires rest == [] || !IsDigit(rest[0])
    ensures DigitRun(ds + rest) == |ds|
    decreases |ds|
  {
    if ds != [] {
      assert (ds + rest)[1..] == ds[1..] + rest;
      DigitRunOf(ds[1..], rest);
    } else {
      assert ds + rest == rest;
    }
  }

  function UnitSuffix(withUnit: bool): string
  {
    if withUnit then "s]" else "]"
  }

  /** The pause pattern matches a well-formed pause, whatever follows it. */
  lemma PauseMatchOf(ds: string, u: bool, r: string)
    requires ds != [] && AllDigits(ds)
    ensures PauseMatch(PauseMarker + ds + UnitSuffix(u) + r)
         == Some(PauseHit(ds, |PauseMarker| + |ds| + |UnitSuffix(u)|))
  {
    var s := PauseMarker + ds + UnitSuffix(u) + r;
    assert s[..|PauseMarker|] == PauseMarker;
    var t := s[|PauseMarker|..];
    assert t == ds + (UnitSuffix(u) + r);
    DigitRunOf(ds, UnitSuffix(u) + r);
    assert t[..|ds|] == ds;
  }

  /** Where the pause pattern matches, the pause rule writes a break. */
  lemma PausesHit(s: string, d: Dialect, hit: PauseHit)
    requires s != [] && PauseMatch(s) == Some(hit)
    ensures ReplacePauses(s, d) == d.breakOpen + hit.digits + d.breakClose + ReplacePauses(s[hit.length..], d)
  {
  }

  /** A well-formed pause becomes a break, whatever follows it. */
  lemma PausesMatch(ds: string, u: bool, r: string, d: Dialect)
    requires ds != [] && AllDigits(ds)
    ensures ReplacePauses(PauseMarker + ds + UnitSuffix(u) + r, d)
         == d.breakOpen + ds + d.breakClose + ReplacePauses(r, d)
  {
    var s := PauseMarker + ds + UnitSuffix(u) + r;
    var n := |PauseMarker| + |ds| + |UnitSuffix(u)|;
    PauseMatchOf(ds, u, r);
    PausesHit(s, d, PauseHit(ds, n));
    assert s[n..] == r;
  }

  /** Text inert for the second character of an opening text that starts
      with `[` does not start with that opening text, whatever follows. */
  lemma InertNotPrefix(x: string, r: string, open: string)
    requires |open| >= 2 && open[0] == '[' && x != [] && InertFor(x, open[1])
    ensures !(open <= x + r)
    ensures (x + r)[0] == x[0] && (x + r)[1..] == x[1..] + r
  {
    var s := x + r;
    assert s[0] == x[0];
    if x[0] == '[' {
      assert s[1] == x[1] && x[1] != open[1];
    } else {
      assert s[0] != open[0];
    }
  }

  /** Where the opening text does not start, a paired rule copies one
      character. */
  lemma PairCopies(s: string, open: string, close: string, tagOpen: string, tagClose: string)
    requires open != [] && s != [] && !(open <= s)
    ensures ReplacePair(s, open, close, tagOpen, tagClose) == [s[0]] + ReplacePair(s[1..], open, close, tagOpen, tagClose)
  {
  }

  /** A paired rule whose opening text starts with `[` and then `c`
      copies text inert for `c` and continues after it. */
  lemma {:induction false} PairSkipInert(x: string, r: string, open: string, close: string, tagOpen: string, tagClose: string)
    requires |open| >= 2 && open[0] == '[' && InertFor(x, open[1])
    ensures ReplacePair(x + r, open, close, tagOpen, tagClose) == x + ReplacePair(r, open, close, tagOpen, tagClose)
    decreases |x|
  {
    if x == [] {
      assert x + r == r;
    } else {
      InertNotPrefix(x, r, open);
      PairCopies(x + r, open, close, tagOpen, tagClose);
      InertTail(x, open[1]);
      PairSkipInert(x[1..], r, open, close, tagOpen, tagClose);
      assert [x[0]] + (x[1..] + ReplacePair(r, open, close, tagOpen, tagClose))
          == x + ReplacePair(r, open, close, tagOpen, tagClose);
    }
  }

  /** An effect rule copies inert text and continues after it. */
  lemma EffectSkipInert(x: string, r: string, e: Effect, d: Dialect)
    requires InertFor(x, EffectName(e)[0])
    ensures ReplaceEffect(x + r, e, d) == x + ReplaceEffect(r, e, d)
  {
    MarkerShapes(e);
    PairSkipInert(x, r, OpenMarker(e), CloseMarker(e), SsmlOpen(d, e), SsmlClose(d, e));
  }

  function Shift(o: Option<nat>, n: nat): Option<nat>
  {
    if o.Some? then Some(o.value + n) else None
  }

  /** The lazy body extends over text that holds no `[` and no line break. */
  lemma {:induction false} LazyBodySkip(x: string, y: string, close: string)
    requires '[' !in x && NoLineTerminator(x)
    requires close != [] && close[0] == '['
    ensures LazyBody(x + y, close) == Shift(LazyBody(y, close), |x|)
    decreases |x|
  {
    if x != [] {
      var s := x + y;
      assert s[0] == x[0];
      assert s[0] != close[0];
      assert s[1..] == x[1..] + y;
      LazyBodySkip(x[1..], y, close);
    } else {
      assert x + y == y;
    }
  }

  /** The lazy body extends over a `[` that does not begin the closing marker. */
  lemma LazyBodySkipBracket(y: string, close: string)
    requires |y| >= 2 && y[0] == '[' && |close| >= 2 && y[1] != close[1]
    ensures LazyBody(y, close) == Shift(LazyBody(y[1..], close), 1)
  {
    assert y[1] != close[1];
  }

  /** The lazy body stops at the first closing marker. */
  lemma LazyBodyAtClose(close: string, r: string)
    ensures LazyBody(close + r, close) == Some(0)
  {
    assert (close + r)[..|close|] == close;
  }

  /** A line terminator before any `[` makes the lazy body fail. */
  lemma {:induction false} LazyBodyBlocked(a: string, c: char, rest: string, close: string)
    requires '[' !in a && IsLineTerminator(c)
    requires close != [] && close[0] == '['
    ensures LazyBody(a + [c] + rest, close) == None
    decreases |a|
  {
    var s := a + [c] + rest;
    assert s[0] == if a == [] then c else a[0];
    assert s[0] != close[0];
    if a != [] {
      assert s[1..] == a[1..] + [c] + rest;
      LazyBodyBlocked(a[1..], c, rest, close);
    }
  }

  /** A paired rule replaces a single-line, `[`-free body between its
      markers and goes on after the closing marker. */
  lemma PairMatch(open: string, b: string, close: string, r: string, tagOpen: string, tagClose: string)
    requires open != [] && |close| >= 1 && close[0] == '['
    requires '[' !in b && NoLineTerminator(b)
    ensures ReplacePair(open + b + close + r, open, close, tagOpen, tagClose)
         == tagOpen + b + tagClose + ReplacePair(r, open, close, tagOpen, tagClose)
  {
    var s := open + b + close + r;
    assert s[..|open|] == open;
    var rest := s[|open|..];
    assert rest == b + (close + r);
    LazyBodySkip(b, close + r, close);
    LazyBodyAtClose(close, r);
    assert rest[..|b|] == b;
    assert rest[|b| + |close|..] == r;
  }

  /** A single-line, `[`-free body between the effect's markers is replaced
      by the dialect's tags around the same body, whatever follows. */
  lemma EffectMatch(e: Effect, b: string, r: string, d: Dialect)
    requires '[' !in b && NoLineTerminator(b)
    ensures ReplaceEffect(OpenMarker(e) + b + CloseMarker(e) + r, e, d)
         == SsmlOpen(d, e) + b + SsmlClose(d, e) + ReplaceEffect(r, e, d)
  {
    MarkerShapes(e);
    PairMatch(OpenMarker(e), b, CloseMarker(e), r, SsmlOpen(d, e), SsmlClose(d, e));
  }

  // ---------------------------------------------------------------------
  // Whole passes

  /** The pause rule turns one segment from its marker form into its
      translation if it is a pause, and copies it otherwise. */
  lemma PauseStep(seg: Segment, r: string, d: Dialect)
    requires WellFormed(seg)
    ensures ReplacePauses(Stage(seg, 0, d) + r, d) == Stage(seg, 1, d) + ReplacePauses(r, d)
  {
    match seg {
      case Text(t) =>
        PausesSkipInert(t, r, d);
      case Pause(ds, u) =>
        PausesMatch(ds, u, r, d);
      case Marked(e, b) =>
        MarkerShapes(e);
        MarkerInert(e, b, PauseMarker[1]);
        PausesSkipInert(MarkerText(seg), r, d);
    }
  }

  /** The pause rule translates exactly the pauses of a segment list. */
  lemma {:induction false} PausePass(segs: seq<Segment>, d: Dialect)
    requires AllWellFormed(segs)
    ensures ReplacePauses(Staged(segs, 0, d), d) == Staged(segs, 1, d)
    decreases |segs|
  {
    if segs != [] {
      assert WellFormed(segs[0]);
      PauseStep(segs[0], Staged(segs[1..], 0, d), d);
      PausePass(segs[1..], d);
    }
  }

  /** Three `[`-free texts joined hold no `[`. */
  lemma JoinBracketFree(x: string, y: string, z: string)
    requires '[' !in x && '[' !in y && '[' !in z
    ensures '[' !in x + y + z
  {
  }

  /** Digits hold no `[`. */
  lemma DigitsBracketFree(ds: string)
    requires AllDigits(ds)
    ensures '[' !in ds
  {
    forall i | 0 <= i < |ds| ensures ds[i] != '[' {
      assert IsDigit(ds[i]);
    }
  }

  /** The same as StageInert, for any dialect whose tags hold no `[`. */
  lemma StageInertIn(seg: Segment, e: Effect, d: Dialect)
    requires BracketFreeDialect(d)
    requires WellFormed(seg) && !(seg.Marked? && seg.effect == e)
    ensures InertFor(Stage(seg, EffectIndex(e), d), EffectName(e)[0])
    ensures Stage(seg, EffectIndex(e), d) == Stage(seg, EffectIndex(e) + 1, d)
  {
    match seg {
      case Text(t) =>
      case Pause(ds, u) =>
        DigitsBracketFree(ds);
        JoinBracketFree(d.breakOpen, ds, d.breakClose);
      case Marked(other, b) =>
        if EffectIndex(other) < EffectIndex(e) {
          JoinBracketFree(SsmlOpen(d, other), b, SsmlClose(d, other));
        } else {
          MarkerShapes(e);
          MarkerInert(other, b, EffectName(e)[0]);
        }
    }
  }

  /** At the point where an effect rule runs, every segment other than that
      effect's markers is inert for it, and the rule leaves it as it is. */
  lemma StageInert(seg: Segment, e: Effect, p: Provider)
    requires WellFormed(seg) && !(seg.Marked? && seg.effect == e)
    ensures var d := DialectOf(p);
      InertFor(Stage(seg, EffectIndex(e), d), EffectName(e)[0]) &&
      Stage(seg, EffectIndex(e), d) == Stage(seg, EffectIndex(e) + 1, d)
  {
    DialectsBracketFree(p);
    StageInertIn(seg, e, DialectOf(p));
  }

  /** An effect rule, run after the rules before it, translates one segment
      if it is that effect's marker, and copies it otherwise. */
  lemma EffectStep(seg: Segment, r: string, e: Effect, p: Provider)
    requires WellFormed(seg)
    ensures var d := DialectOf(p);
      ReplaceEffect(Stage(seg, EffectIndex(e), d) + r, e, d)
      == Stage(seg, EffectIndex(e) + 1, d) + ReplaceEffect(r, e, d)
  {
    var d := DialectOf(p);
    if seg.Marked? && seg.effect == e {
      EffectMatch(e, seg.body, r, d);
    } else {
      StageInert(seg, e, p);
      EffectSkipInert(Stage(seg, EffectIndex(e), d), r, e, d);
    }
  }

  /** An effect rule translates exactly that effect's markers of a segment
      list whose earlier rules have already run. */
  lemma {:induction false} EffectPass(segs: seq<Segment>, e: Effect, p: Provider)
    requires AllWellFormed(segs)
    ensures ReplaceEffect(Staged(segs, EffectIndex(e), DialectOf(p)), e, DialectOf(p))
         == Staged(segs, EffectIndex(e) + 1, DialectOf(p))
    decreases |segs|
  {
    if segs != [] {
      assert WellFormed(segs[0]);
      EffectStep(segs[0], Staged(segs[1..], EffectIndex(e), DialectOf(p)), e, p);
      EffectPass(segs[1..], e, p);
    }
  }

  // ---------------------------------------------------------------------
  // The translation as a whole

  /** The four rules in sequence translate every segment of a well-formed
      list into the dialect. */
  lemma RewriteMarkup(segs: seq<Segment>, p: Provider)
    requires AllWellFormed(segs)
    ensures RewriteMarkers(Markup(segs), DialectOf(p)) == Translation(segs, DialectOf(p))
  {
    var d := DialectOf(p);
    StagedBounds(segs, d);
    PausePass(segs, d);
    EffectPass(segs, Emphasize, p);
    EffectPass(segs, Whisper, p);
    EffectPass(segs, Shocking, p);
  }

  /** Converting the marker form of well-formed segments yields the
      `<speak>` element around their translations in the dialect that the
      voice id selects. */
  lemma ConvertMarkup(segs: seq<Segment>, voiceId: string)
    requires AllWellFormed(segs)
    ensures ConvertToSsml(Markup(segs), voiceId)
         == "<speak>" + Translation(segs, DialectOf(ProviderFromVoiceId(voiceId))) + "</speak>"
  {
    RewriteMarkup(segs, ProviderFromVoiceId(voiceId));
  }

  /** A single segment is written as its own marker text. */
  lemma SingleMarkup(seg: Segment)
    ensures Markup([seg]) == MarkerText(seg)
  {
    assert [seg][1..] == [];
    assert MarkerText(seg) + "" == MarkerText(seg);
  }

  /** A single segment translates to its own translation. */
  lemma SingleTranslation(seg: Segment, d: Dialect)
    ensures Translation([seg], d) == SsmlText(seg, d)
  {
    assert [seg][1..] == [];
    assert SsmlText(seg, d) + "" == SsmlText(seg, d);
  }

  /** A single well-formed segment is rewritten into its translation. */
  lemma RewriteSegment(seg: Segment, p: Provider)
    requires WellFormed(seg)
    ensures RewriteMarkers(MarkerText(seg), DialectOf(p)) == SsmlText(seg, DialectOf(p))
  {
    SingleMarkup(seg);
    SingleTranslation(seg, DialectOf(p));
    RewriteMarkup([seg], p);
  }

  /** The wrapper around the rewritten text. */
  lemma Wrapped(text: string, voiceId: string, t: string)
    requires RewriteMarkers(text, DialectOf(ProviderFromVoiceId(voiceId))) == t
    ensures ConvertToSsml(text, voiceId) == "<speak>" + t + "</speak>"
  {
  }

  lemma Regroup(w: string, x: string, y: string, z: string, w': string)
    ensures w + (x + y + z) + w' == w + x + y + z + w'
  {
  }

  /** Text with no `[` comes back unchanged inside the wrapper: every
      pattern begins with a literal `[`. */
  lemma PlainTextUnchanged(text: string, voiceId: string)
    requires '[' !in text
    ensures ConvertToSsml(text, voiceId) == "<speak>" + text + "</speak>"
  {
    var p := ProviderFromVoiceId(voiceId);
    assert RewriteMarkers(text, DialectOf(p)) == text by {
      RewriteSegment(Text(text), p);
    }
    Wrapped(text, voiceId, text);
  }

  /** `[PAUSE:N]` and `[PAUSE:Ns]` with digits N become the same break for
      every voice. */
  lemma PauseTranslation(ds: string, withUnit: bool, voiceId: string)
    requires ds != [] && AllDigits(ds)
    ensures ConvertToSsml(PauseMarker + ds + UnitSuffix(withUnit), voiceId)
         == "<speak>" + BreakOpen + ds + BreakClose + "</speak>"
  {
    var p := ProviderFromVoiceId(voiceId);
    var seg := Pause(ds, withUnit);
    var t := DialectOf(p).breakOpen + ds + DialectOf(p).breakClose;
    RewriteSegment(seg, p);
    Wrapped(MarkerText(seg), voiceId, t);
    SharedRules(p);
    Regroup("<speak>", BreakOpen, ds, BreakClose, "</speak>");
  }

  /** A single-line, `[`-free body between an effect's markers is wrapped in
      the tags of the voice's dialect. */
  lemma EffectTranslation(e: Effect, body: string, voiceId: string)
    requires '[' !in body && NoLineTerminator(body)
    ensures var d := DialectOf(ProviderFromVoiceId(voiceId));
      ConvertToSsml(OpenMarker(e) + body + CloseMarker(e), voiceId)
      == "<speak>" + SsmlOpen(d, e) + body + SsmlClose(d, e) + "</speak>"
  {
    var p := ProviderFromVoiceId(voiceId);
    var d := DialectOf(p);
    var text := OpenMarker(e) + body + CloseMarker(e);
    assert RewriteMarkers(text, d) == SsmlOpen(d, e) + body + SsmlClose(d, e) by {
      RewriteSegment(Marked(e, body), p);
    }
    Wrapped(text, voiceId, SsmlOpen(d, e) + body + SsmlClose(d, e));
    Regroup("<speak>", SsmlOpen(d, e), body, SsmlClose(d, e), "</speak>");
  }

  /** Text that is inert for a rule comes out of that rule unchanged. */
  lemma PausesLeaveInert(s: string, d: Dialect)
    requires InertFor(s, PauseMarker[1])
    ensures ReplacePauses(s, d) == s
  {
    assert s + [] == s;
    PausesSkipInert(s, [], d);
  }

  lemma EffectLeavesInert(s: string, e: Effect, d: Dialect)
    requires InertFor(s, EffectName(e)[0])
    ensures ReplaceEffect(s, e, d) == s
  {
    assert s + [] == s;
    EffectSkipInert(s, [], e, d);
  }

  /** A text that each of the four rules leaves as it is comes back
      unchanged inside the wrapper. */
  lemma EveryRuleLeaves(s: string, voiceId: string)
    requires ReplacePauses(s, DialectOf(ProviderFromVoiceId(voiceId))) == s
    requires forall e: Effect :: ReplaceEffect(s, e, DialectOf(ProviderFromVoiceId(voiceId))) == s
    ensures ConvertToSsml(s, voiceId) == "<speak>" + s + "</speak>"
  {
    var d := DialectOf(ProviderFromVoiceId(voiceId));
    assert ReplaceEffect(s, Emphasize, d) == s;
    assert ReplaceEffect(s, Whisper, d) == s;
    assert ReplaceEffect(s, Shocking, d) == s;
  }

  /** The pause rule does not match `[PAUSE:` without a digit after it. */
  lemma PauseWithoutDigitsStays(x: string, d: Dialect)
    requires '[' !in x && (x == [] || !IsDigit(x[0]))
    ensures ReplacePauses(PauseMarker + x, d) == PauseMarker + x
  {
    var s := PauseMarker + x;
    assert s[|PauseMarker|..] == x;
    assert DigitRun(x) == 0;
    assert PauseMatch(s) == None;
    var tail := s[1..];
    assert tail == "PAUSE:" + x;
    assert '[' !in tail;
    PausesLeaveInert(tail, d);
  }

  /** `[PAUSE:` is inert for every paired rule. */
  lemma PauseMarkerInert(x: string, e: Effect)
    requires '[' !in x
    ensures InertFor(PauseMarker + x, EffectName(e)[0])
  {
    MarkerShapes(e);
    assert PauseMarker + x == "[" + ("PAUSE:" + x);
    BracketThenPlainInert("PAUSE:" + x, EffectName(e)[0]);
  }

  /** `[PAUSE:` followed by no digit (as in `[PAUSE:s]`) is left as it is. */
  lemma PauseWithoutDigitsUntouched(x: string, voiceId: string)
    requires '[' !in x && (x == [] || !IsDigit(x[0]))
    ensures ConvertToSsml(PauseMarker + x, voiceId) == "<speak>" + PauseMarker + x + "</speak>"
  {
    var d := DialectOf(ProviderFromVoiceId(voiceId));
    var s := PauseMarker + x;
    PauseWithoutDigitsStays(x, d);
    forall e: Effect ensures ReplaceEffect(s, e, d) == s {
      PauseMarkerInert(x, e);
      EffectLeavesInert(s, e, d);
    }
    EveryRuleLeaves(s, voiceId);
  }

  /** Where the opening marker has no body, the effect rule copies the `[`
      and moves on. */
  lemma EffectWithoutBody(s: string, e: Effect, d: Dialect)
    requires OpenMarker(e) <= s
    requires LazyBody(s[|OpenMarker(e)|..], CloseMarker(e)) == None
    ensures ReplaceEffect(s, e, d) == [s[0]] + ReplaceEffect(s[1..], e, d)
  {
    var open := OpenMarker(e);
    assert ReplacePair(s, open, CloseMarker(e), SsmlOpen(d, e), SsmlClose(d, e))
        == [s[0]] + ReplacePair(s[1..], open, CloseMarker(e), SsmlOpen(d, e), SsmlClose(d, e));
  }

  /** The text after the `[` of a marker pair is inert for its own rule. */
  lemma MarkerTailInert(e: Effect, body: string)
    requires '[' !in body
    ensures InertFor((OpenMarker(e) + body + CloseMarker(e))[1..], EffectName(e)[0])
  {
    MarkerShapes(e);
    var name := EffectName(e);
    var head := name + "]" + body;
    var tail := "/" + name + "]";
    assert (OpenMarker(e) + body + CloseMarker(e))[1..] == head + ("[" + tail);
    assert '[' !in head;
    BracketThenPlainInert(tail, name[0]);
    InertConcat(head, "[" + tail, name[0]);
  }

  /** The effect's own rule leaves a marker whose body crosses a line
      terminator as it is. */
  lemma OwnRuleStopsAtLineBreak(e: Effect, a: string, c: char, b: string, d: Dialect)
    requires '[' !in a && '[' !in b && IsLineTerminator(c)
    ensures var s := OpenMarker(e) + (a + [c] + b) + CloseMarker(e);
      ReplaceEffect(s, e, d) == s
  {
    MarkerShapes(e);
    var body := a + [c] + b;
    var s := OpenMarker(e) + body + CloseMarker(e);
    assert s[|OpenMarker(e)|..] == a + [c] + (b + CloseMarker(e));
    LazyBodyBlocked(a, c, b + CloseMarker(e), CloseMarker(e));
    EffectWithoutBody(s, e, d);
    MarkerTailInert(e, body);
    EffectLeavesInert(s[1..], e, d);
    assert [s[0]] + s[1..] == s;
  }

  /** A paired marker whose body crosses a line terminator is left as it is:
      `.` in the pattern does not match line terminators. */
  lemma MultiLineBodyUntouched(e: Effect, a: string, c: char, b: string, voiceId: string)
    requires '[' !in a && '[' !in b && IsLineTerminator(c)
    ensures var s := OpenMarker(e) + (a + [c] + b) + CloseMarker(e);
      ConvertToSsml(s, voiceId) == "<speak>" + s + "</speak>"
  {
    var d := DialectOf(ProviderFromVoiceId(voiceId));
    var body := a + [c] + b;
    var s := OpenMarker(e) + body + CloseMarker(e);
    assert '[' !in body;
    MarkerShapes(e);
    MarkerInert(e, body, PauseMarker[1]);
    PausesLeaveInert(s, d);
    forall other: Effect ensures ReplaceEffect(s, other, d) == s {
      if other == e {
        OwnRuleStopsAtLineBreak(e, a, c, b, d);
      } else {
        MarkerShapes(other);
        MarkerInert(e, body, EffectName(other)[0]);
        EffectLeavesInert(s, other, d);
      }
    }
    EveryRuleLeaves(s, voiceId);
  }

  /** Plain text stays plain when joined. */
  lemma PlainConcat(x: string, y: string)
    requires '[' !in x && NoLineTerminator(x) && '[' !in y && NoLineTerminator(y)
    ensures '[' !in x + y && NoLineTerminator(x + y)
  {
    assert forall i :: 0 <= i < |x + y| ==> (x + y)[i] == if i < |x| then x[i] else y[i - |x|];
  }

  /** Plain text before a text with a lazy body shifts that body. */
  lemma LazyBodyAfterPlain(a: string, y: string, close: string, n: nat)
    requires '[' !in a && NoLineTerminator(a)
    requires |close| >= 2 && close[0] == '['
    requires LazyBody(y, close) == Some(n)
    ensures LazyBody(a + y, close) == Some(|a| + n)
  {
    LazyBodySkip(a, y, close);
  }

  /** An opening marker of another rule, plain text and the closing marker:
      the body ends at that closing marker. */
  lemma LazyBodyPastOpen(y: string, open: string, b: string, close: string, r: string)
    requires y == open + b + close + r
    requires |open| >= 2 && open[0] == '[' && '[' !in open[1..] && NoLineTerminator(open)
    requires '[' !in b && NoLineTerminator(b)
    requires |close| >= 2 && close[0] == '[' && open[1] != close[1]
    ensures LazyBody(y, close) == Some(|open| + |b|)
  {
    var plain := open[1..] + b;
    assert NoLineTerminator(open[1..]) by {
      forall i | 0 <= i < |open[1..]| ensures !IsLineTerminator(open[1..][i]) {
        assert open[1..][i] == open[i + 1];
      }
    }
    PlainConcat(open[1..], b);
    assert y[1..] == plain + (close + r);
    LazyBodySkipBracket(y, close);
    LazyBodySkip(plain, close + r, close);
    LazyBodyAtClose(close, r);
  }

  /** The opening marker is a `[` followed by plain text, and it differs
      from the closing marker in its second character. */
  lemma OpenMarkerPlain(e: Effect)
    ensures var open := OpenMarker(e);
      |open| >= 2 && open[0] == '[' && '[' !in open[1..] && NoLineTerminator(open) &&
      open[1] != CloseMarker(e)[1] && |CloseMarker(e)| >= 2 && CloseMarker(e)[0] == '['
  {
    MarkerShapes(e);
    assert OpenMarker(e)[1..] == EffectName(e) + "]";
  }

  /** The lazy body of a pair nested in an outer opening marker ends at the
      first closing marker. */
  lemma NestedLazyBodyOf(a: string, y: string, open: string, b: string, close: string)
    requires '[' !in a && NoLineTerminator(a) && '[' !in b && NoLineTerminator(b)
    requires |open| >= 2 && open[0] == '[' && '[' !in open[1..] && NoLineTerminator(open)
    requires |close| >= 2 && close[0] == '[' && open[1] != close[1]
    requires y == open + b + close + close
    ensures LazyBody(a + y, close) == Some(|a| + |open| + |b|)
  {
    LazyBodyPastOpen(y, open, b, close, close);
    LazyBodyAfterPlain(a, y, close, |open| + |b|);
  }

  /** How the text of a nested pair regroups around the outer opening
      marker and the first closing marker. */
  lemma NestedRegroup(open: string, a: string, b: string, close: string)
    ensures open + a + open + b + close + close == open + (a + (open + b + close + close))
    ensures a + (open + b + close + close) == (a + open + b) + close + close
  {
  }

  /** A closing marker is inert for its own rule. */
  lemma CloseMarkerInert(e: Effect)
    ensures InertFor(CloseMarker(e), EffectName(e)[0])
  {
    MarkerShapes(e);
    var tail := "/" + EffectName(e) + "]";
    assert CloseMarker(e) == "[" + tail;
    BracketThenPlainInert(tail, EffectName(e)[0]);
  }

  lemma CloseMarkerUnchanged(e: Effect, d: Dialect)
    ensures ReplaceEffect(CloseMarker(e), e, d) == CloseMarker(e)
  {
    CloseMarkerInert(e);
    EffectLeavesInert(CloseMarker(e), e, d);
  }

  /** An opening text followed by a lazy body and its closing text is
      replaced, and the scan goes on after the closing text. */
  lemma PairAfterOpen(s: string, rest: string, open: string, close: string, tagOpen: string, tagClose: string,
                      body: string, after: string)
    requires open != [] && s == open + rest
    requires rest == body + close + after
    requires LazyBody(rest, close) == Some(|body|)
    ensures ReplacePair(s, open, close, tagOpen, tagClose)
         == tagOpen + body + tagClose + ReplacePair(after, open, close, tagOpen, tagClose)
  {
    assert open <= s && s[|open|..] == rest;
    assert rest[..|body|] == body && rest[|body| + |close|..] == after;
  }

  /** An opening marker followed by a lazy body and its closing marker is
      replaced, and the scan goes on after the closing marker. */
  lemma EffectAfterOpen(s: string, rest: string, e: Effect, d: Dialect, body: string, after: string)
    requires s == OpenMarker(e) + rest
    requires rest == body + CloseMarker(e) + after
    requires LazyBody(rest, CloseMarker(e)) == Some(|body|)
    ensures ReplaceEffect(s, e, d) == SsmlOpen(d, e) + body + SsmlClose(d, e) + ReplaceEffect(after, e, d)
  {
    PairAfterOpen(s, rest, OpenMarker(e), CloseMarker(e), SsmlOpen(d, e), SsmlClose(d, e), body, after);
  }

  /** Markers do not nest: an inner opening marker is copied into the body
      of the outer one, and the outer closing marker is left behind. */
  lemma NestedMarkersDoNotNest(e: Effect, a: string, b: string, d: Dialect)
    requires '[' !in a && NoLineTerminator(a) && '[' !in b && NoLineTerminator(b)
    ensures ReplaceEffect(OpenMarker(e) + a + OpenMarker(e) + b + CloseMarker(e) + CloseMarker(e), e, d)
         == SsmlOpen(d, e) + (a + OpenMarker(e) + b) + SsmlClose(d, e) + CloseMarker(e)
  {
    var open, close := OpenMarker(e), CloseMarker(e);
    var tail := open + b + close + close;
    var body := a + open + b;
    NestedRegroup(open, a, b, close);
    assert LazyBody(a + tail, close) == Some(|body|) by {
      OpenMarkerPlain(e);
      NestedLazyBodyOf(a, tail, open, b, close);
    }
    CloseMarkerUnchanged(e, d);
    EffectAfterOpen(open + a + open + b + close + close, a + tail, e, d, body, close);
  }
}
