# Location page: translation switching and time-of-day theme

A Dafny model of the two pieces of decision logic in the arzonbozor-location
web page:

- **Translations** (`translations.dfy`, module `Translations`): the static
  three-language table (`en`, `uz`, `ru`), `applyTranslations`, which
  overwrites the text of every tagged element whose key has a truthy entry for
  the chosen language, and the page's four event listeners. These are two
  change listeners on the language switcher and two start-up
  (`DOMContentLoaded`) listeners, each pair run in its registration order. The
  DOM is an array of `Element(key, text)` records in document order. The
  switcher is a string field. `localStorage` is one `Option<string>` slot for
  the key `"lang"`.
- **Theme** (`theme.dfy`, module `Theme`): the choice of one of four
  background gradients from the hour of the day, over half-open ranges, and
  the one write to the body's background.

What is proved:
- `ApplyTranslations` changes exactly the elements the table translates.
- Applying a language twice equals applying it once, so the doubly registered
  change listeners act like a single one.
- The last supported language applied wins.
- An unknown code changes nothing.
- Start-up ends with the stored language, or `"uz"` as the fallback. When
  that language is not in the table, the English texts stay.
- The hour ranges partition the day.

## Model

| member | source | states |
|---|---|---|
| Translations.ApplyAll | translations.js:31-32 | applying a language to the tagged elements yields exactly as many elements as there were |
| Translations.ApplyAllAt | translations.js:30-38 | at every position the key is kept; the text becomes the language's entry for that key when the table has the language and a non-empty entry for the key, and is kept otherwise (unknown language, missing key, empty entry) |
| Translations.TableShape | translations.js:2-21 | the table has exactly the languages en, uz and ru; each maps exactly the keys title, getLocation, subtitle and footer, and every text is non-empty |
| Translations.SupportedTranslatesUiKeys | translations.js:2-21 | for every language of the table, an element is translated if and only if its key is one of the four UI keys, so every supported language updates the same elements |
| Translations.UnsupportedIsIdentity | translations.js:34 | applying a code that is not a language of the table leaves every element unchanged |
| Translations.ApplyIdempotent | translations.js:30-38 | applying the same language twice gives the same elements as applying it once |
| Translations.LastSupportedWins | translations.js:2-38 | applying any code and then a language of the table gives the same elements as applying that language alone |
| Translations.StartLang | translations.js:53 | the start-up language is never empty: it is the stored value when one is stored and non-empty, and "uz" otherwise |
| Translations.Page.constructor | translations.js:23 | the page starts with the given tagged elements, switcher value and stored preference |
| Translations.Page.ApplyTranslations | translations.js:30-38 | after the in-place loop, the element array equals ApplyAll of its old contents for the language |
| Translations.Page.ChangeListenerFirst | translations.js:25-28 | the switcher's language is applied; the stored preference is untouched |
| Translations.Page.ChangeListenerSecond | translations.js:46-50 | the switcher's language is applied, and it is stored under "lang" whether or not it is a language of the table |
| Translations.Page.SelectLanguage | translations.js:25-50 | running both change listeners for a chosen value equals one application of it; the value is selected and stored; an unknown value leaves every element unchanged |
| Translations.Page.LoadListenerFirst | translations.js:41-45 | English is selected and applied |
| Translations.Page.LoadListenerSecond | translations.js:52-56 | the stored language (or "uz") is selected and applied |
| Translations.Page.Load | translations.js:41-56 | after both start-up listeners, the selected language is the stored one or "uz"; if it is a language of the table the elements show its texts as if it alone had been applied, otherwise they keep the English texts |
| Theme.GradientFor | script.js:6-18 | morning exactly for hours 6 to 11, afternoon exactly for 12 to 17, evening exactly for 18 to 20, night exactly for 0 to 5 and 21 to 23; so every hour gets exactly one gradient |
| Theme.CssInjective | script.js:8-17 | the four gradient CSS values are pairwise different, so the written background determines the gradient |
| Theme.Boundaries | script.js:6-18 | hours 0 and 5 give night, 6 and 11 morning, 12 and 17 afternoon, 18 and 20 evening, 21 and 23 night |
| Theme.Body.constructor | script.js:4 | the body starts with the given background |
| Theme.UpdateBackgroundBasedOnTime | script.js:2-19 | only the body's background is written, and its new value is the CSS of the hour's gradient; it depends on the hour alone |

## Left out

- Reading the clock (`new Date().getHours()`, script.js:3): the hour is a parameter in 0..23.
- The start-up call and the hourly `setInterval` re-run of the theme (script.js:21-24): these are timer plumbing. Each run is one call of `UpdateBackgroundBasedOnTime`.
- DOM queries (`getElementById`, `querySelectorAll`, `getAttribute`) and `addEventListener` registration: the tagged elements are an array, and each listener is a method. `SelectLanguage` and `Load` run the listeners in the order they are registered.
- `localStorage` itself: it is modelled as the one slot for `"lang"` that the page reads and writes.
- JavaScript's prototype lookup for `translations[lang]` with names such as `"__proto__"`: the table is a plain finite map.
- The page's declared document language: the switcher handlers do not change it, so the model does not either.
- An unsupported code is still persisted. The change listener at translations.js:49 stores whatever value is selected, and `ChangeListenerSecond` and `SelectLanguage` model exactly that.
- Geolocation, the location display and its UI states, map rendering, and share/copy: script.js holds only the theme code, and the other page scripts are not part of this model.
