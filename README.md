# Vintage music portfolio page — a Dafny model of its logic

The page (`cyber_neon_music_portfolio_react.jsx`, component `VintagePortfolio`) is a
single-screen artist portfolio. It is mostly static markup. This project models the
part that has rules:

- **Translator (`useI18n`).** The active locale starts as `ru`. `tr(key)` falls back
  from the active locale's table to the `en` table and then to the key itself,
  using JavaScript `||` truthiness. `isRTL` holds exactly for Arabic, and it sets
  the page's `dir` attribute.
- **Locale catalog.** This is the ordered list of ten locales the selector offers,
  plus the ten translation tables with their exact strings.
- **Language selector (`LangSelect`).** It has one option per listed locale, in
  list order. Choosing an option makes its code the active locale.
- **Release card (`TrackCard`).**
  - `isComingSoon` and `displayTitle`.
  - The artwork: the cover with or without a blur filter, or the placeholder
    gradient, each with its blur formula.
  - The control: a play button or the "Soon" badge.
  - Playback: `toggle` and the audio element's `ended` handler.
- **FAQ item (`FaqItem`).** Its open flag, the click that flips it, and what it
  renders.
- **The page composer.** It mounts three cards and four FAQ items over the catalog
  and routes each event to the one component it concerns.

Modules:

- `LocaleCatalog` (`catalog.dfy`): the data.
- `I18n` (`i18n.dfy`): `tr`, direction, the selector, and the `LocaleState` class
  for `useState("ru")`.
- `TrackCard` (`track_card.dfy`): the card's derivations and the `Player` class.
- `Faq` (`faq.dfy`): the `FaqItem` class.
- `Portfolio` (`page.dfy`): the `Page` class.
- `Wrappers` (`wrappers.dfy`): `Option`.

JavaScript truthiness is written out. An optional string (`src`, `cover`) is truthy
when it is present and non-empty. `mutedLevel` is truthy when it is non-zero. A
missing table entry and an empty one fall through `||` the same way.

`isComingSoon` (line 55) changes only `displayTitle` (line 56). The play button
(line 80) and the `<audio>` element (line 102) depend on `src` alone. So a track
with a source and a positive `mutedLevel` keeps a working play button under the
title "Coming soon" (`TrackCard.ComingSoonMayStillPlay`).

## Model

| member | source | states |
|---|---|---|
| LocaleCatalog.ShippedCatalogValid | cyber_neon_music_portfolio_react.jsx:121-196 | The page's own catalog is valid: it has the `en` table, a table for every offered locale, and a non-empty string for all 31 keys the page uses in every table |
| LocaleCatalog.LaidOutCatalogValid | cyber_neon_music_portfolio_react.jsx:121-196 | Any catalog laid out like the page's (ten tables under the ten codes) is valid once each table holds every page key |
| LocaleCatalog.LaidOutCatalogHasOfferedLocales | cyber_neon_music_portfolio_react.jsx:108-119 | A catalog with a table for each of the ten codes has one for every locale the selector lists |
| LocaleCatalog.EnTableCoversPageKeys | cyber_neon_music_portfolio_react.jsx:122-154 | The `en` table holds a non-empty string for every page key |
| LocaleCatalog.RuTableCoversPageKeys | cyber_neon_music_portfolio_react.jsx:155-187 | The `ru` table holds a non-empty string for every page key |
| LocaleCatalog.EsTableCoversPageKeys | cyber_neon_music_portfolio_react.jsx:188 | The `es` table holds a non-empty string for every page key |
| LocaleCatalog.FrTableCoversPageKeys | cyber_neon_music_portfolio_react.jsx:189 | The `fr` table holds a non-empty string for every page key |
| LocaleCatalog.PtTableCoversPageKeys | cyber_neon_music_portfolio_react.jsx:190 | The `pt` table holds a non-empty string for every page key |
| LocaleCatalog.ZhTableCoversPageKeys | cyber_neon_music_portfolio_react.jsx:191 | The `zh` table holds a non-empty string for every page key |
| LocaleCatalog.HiTableCoversPageKeys | cyber_neon_music_portfolio_react.jsx:192 | The `hi` table holds a non-empty string for every page key |
| LocaleCatalog.ArTableCoversPageKeys | cyber_neon_music_portfolio_react.jsx:193 | The `ar` table holds a non-empty string for every page key |
| LocaleCatalog.BnTableCoversPageKeys | cyber_neon_music_portfolio_react.jsx:194 | The `bn` table holds a non-empty string for every page key |
| LocaleCatalog.JaTableCoversPageKeys | cyber_neon_music_portfolio_react.jsx:195 | The `ja` table holds a non-empty string for every page key |
| LocaleCatalog.LanguageCodesDistinct | cyber_neon_music_portfolio_react.jsx:108-119 | No locale code is listed twice |
| LocaleCatalog.SpecialLocalesOffered | cyber_neon_music_portfolio_react.jsx:108-119 | The fallback `en`, the default `ru` and the right-to-left `ar` are all offered, at positions 0, 8 and 5 |
| I18n.Translate | cyber_neon_music_portfolio_react.jsx:200 | `tr` gives the active locale's non-empty entry. Otherwise it gives the `en` entry. Otherwise it gives the key. It never gives "" for a non-empty key. A locale without a table is allowed; the `en` table must exist |
| I18n.UnknownLocaleActsAsBase | cyber_neon_music_portfolio_react.jsx:200 | Under a locale code with no table, every key translates exactly as under `en` |
| I18n.UnknownKeyShownVerbatim | cyber_neon_music_portfolio_react.jsx:200 | A key that no table holds is shown as the key itself, in every locale |
| I18n.PageNeverFallsBack | cyber_neon_music_portfolio_react.jsx:198-203 | With a valid catalog, every page key under every offered locale translates to that locale's own string, never to a fallback |
| I18n.Direction | cyber_neon_music_portfolio_react.jsx:201 | The `dir` value is "rtl" or "ltr", and it is "rtl" exactly for `ar` |
| I18n.DefaultIsLeftToRight | cyber_neon_music_portfolio_react.jsx:199-201 | The page opens left to right, because its default locale `ru` is not right to left |
| I18n.OnlyArabicIsRtl | cyber_neon_music_portfolio_react.jsx:108-119 | Of the ten offered locales, exactly the sixth, Arabic, is right to left |
| I18n.OfferedOptionsHaveTables | cyber_neon_music_portfolio_react.jsx:477-478 | The selector has one option per listed locale, in order, with the locale's code as value and its display name as text. The values are distinct, and with a valid catalog each has a table |
| I18n.LocaleState.constructor | cyber_neon_music_portfolio_react.jsx:199 | The active locale starts as `ru` |
| I18n.LocaleState.SetLang | cyber_neon_music_portfolio_react.jsx:199 | `setLang` makes any code, offered or not, the active locale |
| I18n.Choose | cyber_neon_music_portfolio_react.jsx:474 | Choosing option `i` makes the `i`-th listed code active, and the page is right to left exactly when `i` is the sixth option, Arabic |
| TrackCard.DisplayTitle | cyber_neon_music_portfolio_react.jsx:55-56 | A coming-soon card (no truthy source, or a positive level) is titled "Coming soon"; any other card shows its own title |
| TrackCard.OwnTitleShown | cyber_neon_music_portfolio_react.jsx:55-56 | A card shows its own title exactly when it is released or its title already is "Coming soon" |
| TrackCard.ArtworkOf | cyber_neon_music_portfolio_react.jsx:66-78 | A truthy cover is drawn as an image, otherwise a gradient. The image is filtered exactly when the level is non-zero, with blur 3 + 2·level. The gradient's blur is 6 + 3·level |
| TrackCard.BlurFormulasIncrease | cyber_neon_music_portfolio_react.jsx:71-75 | Both blur formulas are strictly increasing in the level |
| TrackCard.MoreMutedIsBlurrier | cyber_neon_music_portfolio_react.jsx:66-78 | Of two cards that agree on having a cover, the one with the higher non-negative level is drawn strictly more blurred |
| TrackCard.PlayLabel | cyber_neon_music_portfolio_react.jsx:84-85 | The button's label is "Pause" exactly while playing and "Play" exactly while paused |
| TrackCard.ControlOf | cyber_neon_music_portfolio_react.jsx:80-91 | The "Soon" badge is shown exactly when the source is not truthy. Otherwise a play button is shown, labelled "Pause" exactly while playing and "Play" exactly while paused |
| TrackCard.SoonBadgeMeansComingSoon | cyber_neon_music_portfolio_react.jsx:55-56 | A card with the "Soon" badge is always titled "Coming soon" |
| TrackCard.ComingSoonMayStillPlay | cyber_neon_music_portfolio_react.jsx:55-91 | The converse fails: a track with a source and level 1 has a "Play" button under the title "Coming soon" |
| TrackCard.PressesFlipPlayback | cyber_neon_music_portfolio_react.jsx:49-53 | Until its audio ends, a card with audio is playing exactly when an odd number of presses has flipped its initial state |
| TrackCard.EndForgetsHistory | cyber_neon_music_portfolio_react.jsx:41-53 | After the audio's `ended` event, the card continues from the paused state, whatever events came before |
| TrackCard.SilentCardIgnoresPresses | cyber_neon_music_portfolio_react.jsx:49-53 | A card without an audio element ignores every press: after any events it is playing exactly when it started playing and no end event came. So a card mounted paused never plays |
| TrackCard.Player.constructor | cyber_neon_music_portfolio_react.jsx:39 | A mounted card is paused. It has an audio element exactly when its source is truthy |
| TrackCard.Player.Toggle | cyber_neon_music_portfolio_react.jsx:49-53 | With no audio element, `toggle` does nothing. Otherwise it pauses a playing element or plays a paused one, and the flag flips. This is the press step that `Replay` folds over |
| TrackCard.Player.Ended | cyber_neon_music_portfolio_react.jsx:41-47 | The audio element's `ended` event leaves the card paused. This is the end step that `Replay` folds over |
| TrackCard.ToggleTwice | cyber_neon_music_portfolio_react.jsx:49-53 | Two toggles restore the playback state, and a card without audio never plays |
| Faq.FaqItem.constructor | cyber_neon_music_portfolio_react.jsx:486 | Every item starts closed |
| Faq.FaqItem.Click | cyber_neon_music_portfolio_react.jsx:489 | A click flips the item's open flag |
| Faq.FaqItem.View | cyber_neon_music_portfolio_react.jsx:490-493 | The question is always shown. The marker is an en dash exactly when open and "+" exactly when closed. The answer is shown exactly when open |
| Faq.ClickParity | cyber_neon_music_portfolio_react.jsx:486-489 | After any number of clicks, an item is open exactly when an odd number of clicks has flipped its initial state |
| Faq.ClickTwice | cyber_neon_music_portfolio_react.jsx:489 | Two clicks leave an item as it was |
| Portfolio.ShippedCards | cyber_neon_music_portfolio_react.jsx:223-231 | The released track plays under its own title with an unfiltered cover. The two placeholders are titled "Coming soon", carry the badge, and have gradients blurred by 9 and 12 pixels |
| Portfolio.MountPlayers | cyber_neon_music_portfolio_react.jsx:223-231 | One fresh, paused, distinct player per release; each has audio exactly when its source is truthy |
| Portfolio.MountFaqs | cyber_neon_music_portfolio_react.jsx:437-440 | One fresh, closed, distinct item per question |
| Portfolio.Page.constructor | cyber_neon_music_portfolio_react.jsx:205-206 | The mounted page is in `ru`, with every card paused and every FAQ item closed |
| Portfolio.Page.FaqAt | cyber_neon_music_portfolio_react.jsx:437-440 | Item `j` shows `tr` of its question key, and `tr` of its answer key exactly while open; its marker is an en dash while open and "+" while closed |
| Portfolio.Page.ClickFaq | cyber_neon_music_portfolio_react.jsx:485-496 | A click flips item `j` only. Items do not close each other, and cards and locale are unchanged |
| Portfolio.Page.ToggleTrack | cyber_neon_music_portfolio_react.jsx:49-53 | Pressing card `j` toggles it only when it has a source, and then issues pause if it was playing and play if it was paused. No other card is paused, so several can play at once |
| Portfolio.Page.TrackEnded | cyber_neon_music_portfolio_react.jsx:44 | The end of card `j`'s audio pauses that card only |
| Portfolio.Page.SelectLanguage | cyber_neon_music_portfolio_react.jsx:246 | Choosing option `i` activates the `i`-th listed code. The `dir` attribute follows it, and every card and item keeps its state |

## Left out

- Markup, styles, icons, animations (`motion`), `NeonButton`, `PaperButton` and `SectionTag`, and all the static links, press entries and the video embed: presentation only.
- OpenGraph/Twitter meta injection into the document head (lines 208-220): it is I/O on the browser document.
- The audio element's `play()` and `pause()`: modelled as the command `Player.Toggle` returns; the promise `play()` returns and playback failures are not modelled.
- The contact form and its alert: a browser side effect.
- The opacity and contrast values in the filters: they are fixed floating-point literals and do not depend on state.
- Portfolio.CoverData: the released track's embedded base64 image is abbreviated to its prefix; only whether the cover is truthy matters.
- TrackCard.Track: `mutedLevel` is an integer, so `NaN` and fractional levels are not modelled.
- I18n.Translate: the catalog is a parameter. The page passes `LocaleCatalog.Translations`, which `ShippedCatalogValid` proves valid. Keys that JavaScript objects inherit from their prototype (`"constructor"`, `"toString"`) are not modelled as present.
- TrackCard.IsComingSoon, I18n.IsRtl and I18n.SelectOptions: direct transcriptions of `isComingSoon` (line 55), `isRTL` (line 201) and `languages.map` (lines 477-478), with no contract of their own; their properties are stated by `DisplayTitle`, by `Direction` and `OnlyArabicIsRtl`, and by `OfferedOptionsHaveTables`.
- I18n.LocaleState.Tr, I18n.LocaleState.Rtl, TrackCard.Player.Label and Portfolio.Page.Dir: bindings of `Translate`, `IsRtl`, `PlayLabel` and `Direction` to the current state; their properties are stated on those functions.
- Rendering order and React's re-render scheduling: each state update is modelled as taking effect at once.
