/**
 * The translator of the portfolio page (`useI18n` and `LangSelect`): the
 * active locale, the three-tier lookup with JavaScript `||` fallback, the
 * text direction and the options of the language selector.
 */
module I18n {
  import opened LocaleCatalog

  /**
   * Reading `table[key]`: a missing key reads as `undefined`, which `||`
   * treats exactly like the empty string, so both are modelled as "".
   */
  function Entry(t: Table, key: string): string
  {
    if key in t then t[key] else ""
  }

  /** The locale has a table whose entry for the key is a non-empty string. */
  predicate HasText(c: Catalog, lang: string, key: string)
  {
    lang in c && key in c[lang] && c[lang][key] != ""
  }

  /**
   * `tr(key)` while `lang` is active: the locale's own entry, else the base
   * locale's entry, else the key itself. An empty entry is falsy and falls
   * through like a missing one. A locale code without a table is legal; the
   * base table is read unguarded, so it must exist.
   */
  function Translate(c: Catalog, lang: string, key: string): (r: string)
    requires BaseLocale in c
    ensures HasText(c, lang, key) ==> r == c[lang][key]
    ensures !HasText(c, lang, key) && HasText(c, BaseLocale, key) ==> r == c[BaseLocale][key]
    ensures !HasText(c, lang, key) && !HasText(c, BaseLocale, key) ==> r == key
    ensures key != "" ==> r != ""
  {
    var own := if lang in c then Entry(c[lang], key) else "";
    var base := Entry(c[BaseLocale], key);
    if own != "" then own else if base != "" then base else key
  }

  /** A locale code without a table translates exactly as the base locale does. */
  lemma UnknownLocaleActsAsBase(c: Catalog, lang: string, key: string)
    requires BaseLocale in c && lang !in c
    ensures Translate(c, lang, key) == Translate(c, BaseLocale, key)
  {
  }

  /** A key that no table holds is shown verbatim, whatever the locale. */
  lemma UnknownKeyShownVerbatim(c: Catalog, lang: string, key: string)
    requires BaseLocale in c
    requires forall code :: code in c ==> key !in c[code]
    ensures Translate(c, lang, key) == key
  {
  }

  /**
   * With a valid catalog no lookup the page makes ever falls back: for every
   * offered locale and every key the page uses, `tr` gives that locale's own
   * string. `ShippedCatalogValid` shows the page's own catalog is valid.
   */
  lemma PageNeverFallsBack(c: Catalog, i: nat, k: nat)
    requires ValidCatalog(c)
    requires i < |Languages| && k < |PageKeys|
    ensures Languages[i].code in c && PageKeys[k] in c[Languages[i].code]
    ensures Translate(c, Languages[i].code, PageKeys[k]) == c[Languages[i].code][PageKeys[k]]
  {
    assert CoversPageKeys(c[Languages[i].code]);
  }

  /** Whether a locale is written right to left (`isRTL`). */
  predicate IsRtl(lang: string)
  {
    lang == RtlLocale
  }

  /** The page's `dir` attribute for a locale. */
  function Direction(lang: string): (r: string)
    ensures r == "rtl" || r == "ltr"
    ensures r == "rtl" <==> lang == RtlLocale
  {
    if IsRtl(lang) then "rtl" else "ltr"
  }

  /** The page opens left to right, since its default locale is not Arabic. */
  lemma DefaultIsLeftToRight()
    ensures !IsRtl(DefaultLocale) && Direction(DefaultLocale) == "ltr"
  {
  }

  /** Exactly one offered locale, Arabic (the sixth), flips the page to right to left. */
  lemma OnlyArabicIsRtl(i: nat)
    requires i < |Languages|
    ensures IsRtl(Languages[i].code) <==> i == 5
  {
    LanguageCodesDistinct();
    SpecialLocalesOffered();
  }

  /** One `<option>` of the language selector: its value and its visible text. */
  datatype SelectOption = SelectOption(value: string, text: string)

  /** The selector's options (`languages.map(...)`): one per locale entry, in the same order. */
  function SelectOptions(ls: seq<LocaleEntry>): seq<SelectOption>
  {
    seq(|ls|, i requires 0 <= i < |ls| => SelectOption(ls[i].code, ls[i].name))
  }

  /**
   * The selector offers exactly the listed locales, in order and each once,
   * and with a valid catalog whatever the user picks has its own table.
   */
  lemma OfferedOptionsHaveTables(c: Catalog)
    requires ValidCatalog(c)
    ensures |SelectOptions(Languages)| == |Languages|
    ensures forall i :: 0 <= i < |Languages| ==>
      SelectOptions(Languages)[i] == SelectOption(Languages[i].code, Languages[i].name)
    ensures forall i :: 0 <= i < |SelectOptions(Languages)| ==> SelectOptions(Languages)[i].value in c
    ensures forall i, j :: 0 <= i < j < |SelectOptions(Languages)| ==>
      SelectOptions(Languages)[i].value != SelectOptions(Languages)[j].value
  {
    LanguageCodesDistinct();
  }

  /**
   * The active-locale state of the page (`const [lang, setLang] =
   * useState("ru")`) together with the catalog `tr` reads.
   */
  class LocaleState {
    const catalog: Catalog
    var lang: string

    /** The page opens in the default locale. */
    constructor (c: Catalog)
      ensures catalog == c && lang == DefaultLocale
    {
      catalog := c;
      lang := DefaultLocale;
    }

    /** `setLang(code)`: any code is accepted, with or without a table. */
    method SetLang(code: string)
      modifies this
      ensures lang == code
    {
      lang := code;
    }

    /** `tr` bound to the active locale. */
    function Tr(key: string): string
      requires BaseLocale in catalog
      reads this
    {
      Translate(catalog, lang, key)
    }

    /** `isRTL` of the active locale. */
    predicate Rtl()
      reads this
    {
      IsRtl(lang)
    }
  }

  /**
   * The selector's change handler: the value of the chosen option becomes
   * the active locale, so the locale is always an offered one (and so has a
   * table, by `OfferedOptionsHaveTables`) and is right to left exactly when
   * it is Arabic.
   */
  method Choose(state: LocaleState, i: nat)
    requires i < |SelectOptions(Languages)|
    modifies state
    ensures state.lang == Languages[i].code
    ensures state.Rtl() <==> i == 5
  {
    OnlyArabicIsRtl(i);
    var options := SelectOptions(Languages);
    state.SetLang(options[i].value);
  }
}
