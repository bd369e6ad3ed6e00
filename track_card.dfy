/**
 * One release card of the portfolio page (`TrackCard`): the rules that derive
 * its title, artwork and control from the track, and its playback state.
 */
module TrackCard {
  import opened Wrappers

  /**
   * A release entry. `cover` and `src` are opaque asset references that may
   * be absent; `mutedLevel` is the obfuscation level (0 when not given).
   */
  datatype Track = Track(title: string, cover: Option<string>, src: Option<string>, mutedLevel: int)

  /** The title every unreleased card shows. */
  const ComingSoon: string := "Coming soon"

  /**
   * JavaScript truthiness of an optional string: `null`, `undefined` and ""
   * are all falsy.
   */
  predicate Truthy(s: Option<string>)
  {
    s.Some? && s.value != ""
  }

  /** `isComingSoon`: no playable source, or a positive obfuscation level. */
  predicate IsComingSoon(t: Track)
  {
    !Truthy(t.src) || t.mutedLevel > 0
  }

  /** `displayTitle`: the track's own title unless it is coming soon. */
  function DisplayTitle(t: Track): (r: string)
    ensures IsComingSoon(t) ==> r == ComingSoon
    ensures !IsComingSoon(t) ==> r == t.title
  {
    if IsComingSoon(t) && t.title != ComingSoon then ComingSoon else t.title
  }

  /**
   * The card shows the track's own title exactly when the track is released,
   * or when its title already is the placeholder.
   */
  lemma OwnTitleShown(t: Track)
    ensures DisplayTitle(t) == t.title <==> !IsComingSoon(t) || t.title == ComingSoon
  {
  }

  /** Blur, in pixels, of a cover image whose level is non-zero. */
  function CoverBlur(level: int): int
  {
    3 + level * 2
  }

  /** Blur, in pixels, of the placeholder gradient drawn when there is no cover. */
  function GradientBlur(level: int): int
  {
    6 + level * 3
  }

  /**
   * The artwork region: the cover image, with a blur filter or none, or the
   * placeholder gradient with its blur.
   */
  datatype Artwork = CoverImage(filter: Option<int>) | Gradient(blur: int)

  /**
   * Which artwork a track gets. The filter test is JavaScript truthiness of
   * the level, so any non-zero level gets a filter whose blur value is
   * 3 + 2 * level (a value CSS would reject as negative for a level of -2 or less).
   */
  function ArtworkOf(t: Track): (r: Artwork)
    ensures r.CoverImage? <==> Truthy(t.cover)
    ensures r.CoverImage? ==> (r.filter == None <==> t.mutedLevel == 0)
    ensures r.CoverImage? && r.filter.Some? ==> r.filter.value == CoverBlur(t.mutedLevel)
    ensures r.Gradient? ==> r.blur == GradientBlur(t.mutedLevel)
  {
    if Truthy(t.cover) then
      CoverImage(if t.mutedLevel != 0 then Some(CoverBlur(t.mutedLevel)) else None)
    else
      Gradient(GradientBlur(t.mutedLevel))
  }

  /** The blur in pixels an artwork is drawn with; an unfiltered cover has none. */
  function BlurPx(a: Artwork): int
  {
    match a
    case CoverImage(None) => 0
    case CoverImage(Some(b)) => b
    case Gradient(b) => b
  }

  /** Both blur formulas are strictly increasing in the level. */
  lemma BlurFormulasIncrease(lo: int, hi: int)
    requires lo < hi
    ensures CoverBlur(lo) < CoverBlur(hi)
    ensures GradientBlur(lo) < GradientBlur(hi)
  {
  }

  /**
   * Of two tracks that agree on having a cover, the one with the higher
   * non-negative level is drawn strictly more blurred.
   */
  lemma MoreMutedIsBlurrier(t: Track, u: Track)
    requires Truthy(t.cover) == Truthy(u.cover)
    requires 0 <= t.mutedLevel < u.mutedLevel
    ensures BlurPx(ArtworkOf(t)) < BlurPx(ArtworkOf(u))
  {
  }

  /** An audio element command issued by the toggle. */
  datatype AudioCommand = Play | Pause

  /** The control in the corner of the card. */
  datatype Control = PlayButton(caption: string) | SoonBadge

  /** The play button's label (`aria-label` and `title`). */
  function PlayLabel(playing: bool): (r: string)
    ensures r == "Pause" <==> playing
    ensures r == "Play" <==> !playing
  {
    if playing then "Pause" else "Play"
  }

  /** A play button when the track has a source, else the static "Soon" badge. */
  function ControlOf(t: Track, playing: bool): (r: Control)
    ensures r.SoonBadge? <==> !Truthy(t.src)
    ensures r.PlayButton? ==> (r.caption == "Pause" <==> playing)
    ensures r.PlayButton? ==> (r.caption == "Play" <==> !playing)
  {
    if Truthy(t.src) then PlayButton(PlayLabel(playing)) else SoonBadge
  }

  /** A card with the "Soon" badge is always titled as coming soon. */
  lemma SoonBadgeMeansComingSoon(t: Track, playing: bool)
    requires ControlOf(t, playing).SoonBadge?
    ensures DisplayTitle(t) == ComingSoon
  {
  }

  /**
   * The converse does not hold: a track with a source and a positive level
   * keeps a working play button although its title is the placeholder.
   */
  lemma ComingSoonMayStillPlay()
    ensures var t := Track("Demo", None, Some("demo.mp3"), 1);
      ControlOf(t, false) == PlayButton("Play") && DisplayTitle(t) == ComingSoon
  {
  }

  /** An event a card reacts to: a press of its play button, or the end of its audio. */
  datatype CardEvent = Press | AudioEnded

  /**
   * The playback flag after one event: a press flips it when the card has an
   * audio element and is ignored otherwise; the end of the audio clears it.
   */
  function Step(hasAudio: bool, playing: bool, e: CardEvent): bool
  {
    match e
    case Press => if hasAudio then !playing else playing
    case AudioEnded => false
  }

  /** The playback flag after a whole sequence of events, replayed one by one. */
  function Replay(hasAudio: bool, playing: bool, es: seq<CardEvent>): bool
    decreases |es|
  {
    if es == [] then playing else Replay(hasAudio, Step(hasAudio, playing, es[0]), es[1..])
  }

  /** How many presses a sequence of events holds. */
  function Presses(es: seq<CardEvent>): nat
    decreases |es|
  {
    if es == [] then 0 else (if es[0] == Press then 1 else 0) + Presses(es[1..])
  }

  /**
   * Until its audio ends, a card with an audio element is playing exactly
   * when an odd number of presses has flipped its initial state.
   */
  lemma {:induction false} PressesFlipPlayback(playing: bool, es: seq<CardEvent>)
    requires AudioEnded !in es
    ensures Replay(true, playing, es) == (playing != (Presses(es) % 2 == 1))
    decreases |es|
  {
    if es != [] {
      assert es[0] == Press;
      assert AudioEnded !in es[1..];
      PressesFlipPlayback(!playing, es[1..]);
    }
  }

  /**
   * The end of the audio wipes the history: whatever came before, the card
   * continues from the paused state.
   */
  lemma {:induction false} EndForgetsHistory(hasAudio: bool, playing: bool, before: seq<CardEvent>, after: seq<CardEvent>)
    ensures Replay(hasAudio, playing, before + [AudioEnded] + after) == Replay(hasAudio, false, after)
    decreases |before|
  {
    var es := before + [AudioEnded] + after;
    if before == [] {
      assert es[0] == AudioEnded && es[1..] == after;
    } else {
      assert es[0] == before[0];
      assert es[1..] == before[1..] + [AudioEnded] + after;
      EndForgetsHistory(hasAudio, Step(hasAudio, playing, before[0]), before[1..], after);
    }
  }

  /**
   * A card without an audio element ignores every press: it keeps its initial
   * flag until an end event clears it. So a card mounted paused never plays.
   */
  lemma {:induction false} SilentCardIgnoresPresses(playing: bool, es: seq<CardEvent>)
    ensures Replay(false, playing, es) == (playing && AudioEnded !in es)
    ensures !Replay(false, false, es)
    decreases |es|
  {
    if es != [] {
      assert AudioEnded in es <==> es[0] == AudioEnded || AudioEnded in es[1..];
      SilentCardIgnoresPresses(Step(false, playing, es[0]), es[1..]);
    }
  }

  /**
   * The playback state of one card (`const [playing, setPlaying] =
   * useState(false)`) and whether the card has an audio element at all; the
   * element is rendered exactly when the source is truthy.
   */
  class Player {
    const hasAudio: bool
    var playing: bool

    /** Only a card with an audio element can be playing. */
    ghost predicate Valid()
      reads this
    {
      !hasAudio ==> !playing
    }

    /** A freshly mounted card is paused. */
    constructor (t: Track)
      ensures Valid()
      ensures hasAudio == Truthy(t.src) && !playing
    {
      hasAudio := Truthy(t.src);
      playing := false;
    }

    /**
     * `toggle`: without an audio element nothing happens; otherwise the
     * element is paused or played and the flag flips.
     */
    method Toggle() returns (cmd: Option<AudioCommand>)
      requires Valid()
      modifies this
      ensures Valid()
      ensures hasAudio ==> playing == !old(playing) && cmd == Some(if old(playing) then Pause else Play)
      ensures !hasAudio ==> playing == old(playing) && cmd == None
      ensures playing == Step(hasAudio, old(playing), Press)
    {
      if !hasAudio {
        return None;
      }
      if playing {
        cmd := Some(Pause);
        playing := false;
      } else {
        cmd := Some(Play);
        playing := true;
      }
    }

    /** The audio element's `ended` event: the card goes back to paused. */
    method Ended()
      requires Valid()
      modifies this
      ensures Valid() && !playing
      ensures playing == Step(hasAudio, old(playing), AudioEnded)
    {
      playing := false;
    }

    /** The label of this card's play button. */
    function Label(): string
      reads this
    {
      PlayLabel(playing)
    }
  }

  /** Two toggles of the same card restore its playback state. */
  method ToggleTwice(p: Player)
    requires p.Valid()
    modifies p
    ensures p.Valid() && p.playing == old(p.playing)
  {
    var _ := p.Toggle();
    var _ := p.Toggle();
  }
}
