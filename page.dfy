/**
 * The page composer (`VintagePortfolio`): it owns the active locale, renders
 * one card per release and one accordion item per question, and routes each
 * user event to the one component that owns the affected state.
 */
module Portfolio {
  import opened Wrappers
  import opened LocaleCatalog
  import opened I18n
  import opened TrackCard
  import opened Faq

  /**
   * The embedded cover image of the released track. Only its presence
   * matters to the page, so the base64 payload is abbreviated here.
   */
  const CoverData: string := "data:image/webp;base64,UklGR"

  /** The audio preview of the released track. */
  const PreviewUrl: string := "https://cdn.pixabay.com/download/audio/2021/11/09/audio_0ed93484bf.mp3?filename=retro-synthwave-110922.mp3"

  /** The release list: one released cover and two placeholders without art or audio. */
  const Tracks: seq<Track> := [
    Track("Summertime Sadness (Cover)", Some(CoverData), Some(PreviewUrl), 0),
    Track("Coming soon", None, None, 1),
    Track("Coming soon", None, None, 2)
  ]

  /** The question and answer keys of the four accordion items, in page order. */
  const FaqKeys: seq<(string, string)> := [
    ("faq_q1", "faq_a1"), ("faq_q2", "faq_a2"), ("faq_q3", "faq_a3"), ("faq_q4", "faq_a4")
  ]

  /**
   * How the shipped releases render: the first is playable under its own
   * title with an unfiltered cover; the other two are titled as coming soon,
   * carry the "Soon" badge and get gradients blurred by 9 and 12 pixels.
   */
  lemma ShippedCards(playing: bool)
    ensures DisplayTitle(Tracks[0]) == "Summertime Sadness (Cover)"
    ensures ArtworkOf(Tracks[0]) == CoverImage(None)
    ensures ControlOf(Tracks[0], playing) == PlayButton(if playing then "Pause" else "Play")
    ensures forall i :: 1 <= i < |Tracks| ==> DisplayTitle(Tracks[i]) == ComingSoon && ControlOf(Tracks[i], playing) == SoonBadge
    ensures ArtworkOf(Tracks[1]) == Gradient(9) && ArtworkOf(Tracks[2]) == Gradient(12)
  {
  }

  /** One fresh, paused player per release, none shared. */
  method MountPlayers() returns (ps: seq<Player>)
    ensures |ps| == |Tracks|
    ensures forall i, j :: 0 <= i < j < |ps| ==> ps[i] != ps[j]
    ensures forall i :: 0 <= i < |ps| ==> fresh(ps[i]) && ps[i].Valid() && !ps[i].playing
    ensures forall i :: 0 <= i < |ps| ==> ps[i].hasAudio == Truthy(Tracks[i].src)
  {
    var p0 := new Player(Tracks[0]);
    var p1 := new Player(Tracks[1]);
    var p2 := new Player(Tracks[2]);
    ps := [p0, p1, p2];
  }

  /** One fresh, closed accordion item per question, none shared. */
  method MountFaqs() returns (fs: seq<FaqItem>)
    ensures |fs| == |FaqKeys|
    ensures forall i, j :: 0 <= i < j < |fs| ==> fs[i] != fs[j]
    ensures forall i :: 0 <= i < |fs| ==> fresh(fs[i]) && !fs[i].open
  {
    var f0 := new FaqItem();
    var f1 := new FaqItem();
    var f2 := new FaqItem();
    var f3 := new FaqItem();
    fs := [f0, f1, f2, f3];
  }

  /** The state the page holds while mounted. */
  class Page {
    const locale: LocaleState
    const players: seq<Player>
    const faqs: seq<FaqItem>

    /** One player per release and one item per question, none shared. */
    ghost predicate Valid()
      reads this, locale, players, faqs
    {
      ValidCatalog(locale.catalog)
      && |players| == |Tracks| && |faqs| == |FaqKeys|
      && (forall i, j :: 0 <= i < j < |players| ==> players[i] != players[j])
      && (forall i, j :: 0 <= i < j < |faqs| ==> faqs[i] != faqs[j])
      && (forall i :: 0 <= i < |players| ==> players[i].Valid() && players[i].hasAudio == Truthy(Tracks[i].src))
    }

    /**
     * Mounting over a catalog (the page's own is `Translations`, valid by
     * `ShippedCatalogValid`): the default locale, every card paused, every
     * item closed.
     */
    constructor (c: Catalog)
      requires ValidCatalog(c)
      ensures Valid()
      ensures fresh(locale) && locale.catalog == c && locale.lang == DefaultLocale
      ensures forall i :: 0 <= i < |players| ==> fresh(players[i]) && !players[i].playing
      ensures forall i :: 0 <= i < |faqs| ==> fresh(faqs[i]) && !faqs[i].open
    {
      var l := new LocaleState(c);
      var ps := MountPlayers();
      var fs := MountFaqs();
      locale, players, faqs := l, ps, fs;
    }

    /** The page's `dir` attribute. */
    function Dir(): string
      reads this, locale
    {
      Direction(locale.lang)
    }

    /** Accordion item `j` as rendered in the active locale. */
    function FaqAt(j: nat): (r: FaqView)
      requires Valid() && j < |faqs|
      reads this, locale, players, faqs
      ensures r.question == locale.Tr(FaqKeys[j].0)
      ensures r.answer.Some? <==> faqs[j].open
      ensures r.marker == (if faqs[j].open then "–" else "+")
      ensures r.answer.Some? ==> r.answer.value == locale.Tr(FaqKeys[j].1)
    {
      faqs[j].View(locale.Tr(FaqKeys[j].0), locale.Tr(FaqKeys[j].1))
    }

    /**
     * A click on item `j`: that item flips; every other item, every card
     * and the locale keep their state (items do not close each other).
     */
    method ClickFaq(j: nat)
      requires Valid() && j < |faqs|
      modifies faqs[j]
      ensures Valid()
      ensures faqs[j].open == !old(faqs[j].open)
      ensures forall i :: 0 <= i < |faqs| && i != j ==> faqs[i].open == old(faqs[i].open)
      ensures forall i :: 0 <= i < |players| ==> players[i].playing == old(players[i].playing)
      ensures locale.lang == old(locale.lang)
    {
      faqs[j].Click();
    }

    /**
     * A press on card `j`'s play button: that card toggles as `Player.Toggle`
     * says; no other card is paused, so several may play at once.
     */
    method ToggleTrack(j: nat) returns (cmd: Option<AudioCommand>)
      requires Valid() && j < |players|
      modifies players[j]
      ensures Valid()
      ensures Truthy(Tracks[j].src) ==> players[j].playing == !old(players[j].playing)
      ensures Truthy(Tracks[j].src) ==> cmd == Some(if old(players[j].playing) then Pause else Play)
      ensures !Truthy(Tracks[j].src) ==> players[j].playing == old(players[j].playing) && cmd == None
      ensures forall i :: 0 <= i < |players| && i != j ==> players[i].playing == old(players[i].playing)
      ensures forall i :: 0 <= i < |faqs| ==> faqs[i].open == old(faqs[i].open)
      ensures locale.lang == old(locale.lang)
    {
      cmd := players[j].Toggle();
    }

    /** Card `j`'s audio ends: that card, and only that card, goes back to paused. */
    method TrackEnded(j: nat)
      requires Valid() && j < |players|
      modifies players[j]
      ensures Valid()
      ensures !players[j].playing
      ensures forall i :: 0 <= i < |players| && i != j ==> players[i].playing == old(players[i].playing)
      ensures forall i :: 0 <= i < |faqs| ==> faqs[i].open == old(faqs[i].open)
      ensures locale.lang == old(locale.lang)
    {
      players[j].Ended();
    }

    /**
     * Option `i` is chosen in the language selector: the locale changes,
     * the direction follows it, and every card and item keeps its state.
     */
    method SelectLanguage(i: nat)
      requires Valid() && i < |Languages|
      modifies locale
      ensures Valid()
      ensures locale.lang == Languages[i].code
      ensures Dir() == (if Languages[i].code == RtlLocale then "rtl" else "ltr")
      ensures forall k :: 0 <= k < |players| ==> players[k].playing == old(players[k].playing)
      ensures forall k :: 0 <= k < |faqs| ==> faqs[k].open == old(faqs[k].open)
    {
      Choose(locale, i);
    }
  }
}
