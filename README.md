# Weather front-end: a Dafny model of its request logic

The application is a small Flask site. A user types a city. The site asks the
OpenWeatherMap forecast endpoint for it and shows the current conditions, a
daily forecast and a few bilingual (Russian/English) tips. It keeps a search
history, the last city and the page language in the user's session. It also
offers a two-city comparison page.

This project models the deterministic part of `app.py`:

- `advice.dfy` (module `Advice`) models `get_weather_tips`. One temperature-band
  tip always comes first. An umbrella tip, a sunglasses tip and a wind tip follow,
  in that order, each only when its condition holds.
- `forecast.dfy` (module `Forecast`) models the records the pages show, Python's
  `round` (ties go to the even integer) and the stride-8 daily sampling loop.
  That loop appears twice in the source, once in `index` and once in `fetch_weather`.
- `text.dfy` (module `Text`) models the Python string operations the handlers use:
  `strip()`, `lower()`, `capitalize()` and the substring test `in`.
- `app.dfy` (module `App`) models the handlers. It covers city resolution, the
  history update and `last_city`, the history page and its clear, the language
  switch, and the comparison page with its both-cities check.
  - The session is a class, `App.Session`. Its fields are `history`, `lang` and
    `lastCity`.
  - Its invariant `Valid()` says two things. The language is "ru" or "en". No city
    appears twice in the history.
- `wrappers.dfy` (module `Wrappers`) holds the `Option` type.

The upstream service is a parameter, `upstream: (city, lang) -> Fetch`. A call
gives either a transport error (a `RequestException`) or a decoded reply with
`cod`, `city` and `list`. Each handler returns the cities it sent upstream, so
the model can state when no request is made.

Some of the code's behaviour is easy to misread. The model follows the code in these places:

- The comparison page never shows "City not found".
  - When the upstream does not know a city, `fetch_weather` returns `None`
    (app.py:166-167).
  - The caller then unpacks that `None` into two names (app.py:191-192). This
    raises `TypeError`.
  - The `except` clause catches only `RequestException` (app.py:197), so the
    request fails with a server error.
  - So the branch that sets the "not found" message (app.py:194-195) cannot be
    reached. The model returns `Crashed` here. `App.CompareCities` and
    `App.Compare` prove that the message never appears.
- The second comparison fetch can fail with a transport error after the first
  succeeded. The page then still shows the first city's data, because it was
  assigned before the second call.
- In `index`, a reply with status "200" updates the history and `last_city`
  before it reads `list[0]`. An empty sample list therefore fails after the
  session has already changed. The model keeps that order.
- Tips read the description in lower case and look for the English words
  "rain", "sun" and "clear".
  - When the page language is "ru", the upstream sends Russian descriptions.
  - `Advice.NoLatinNoWeatherWordTips` proves that a description with no Latin
    letters never gets the umbrella or the sunglasses tip.

## Model

| member | source | states |
|---|---|---|
| `Advice.Tips` | app.py:32-46 | The list has 1 to 4 tips. The first is always a temperature-band tip: "light clothing" iff temp >= 30, "dress warmly" iff temp <= 10, "dress appropriately" iff 10 < temp < 30. Ranks strictly increase, so the order is band, umbrella, sunglasses, wind, with no repeats. The umbrella tip is present iff the lower-cased description contains "rain". The sunglasses tip is present iff it contains "sun" or "clear". The wind tip is present iff wind > 8 |
| `Advice.GetWeatherTips` | app.py:32-46 | The list built by successive appends is exactly `Tips(w)`, so it has all the properties above |
| `Advice.LightRainMentionsRain` | app.py:40-41 | Matching ignores case: "Light Rain" calls for the umbrella tip |
| `Advice.ClearSkyMentionsSun` | app.py:42-43 | "CLEAR SKY" calls for the sunglasses tip |
| `Advice.CapitalizeKeepsTips` | app.py:92-96 | The tips read the capitalized description. They match the same words as the raw description would |
| `Advice.NoLatinNoWeatherWordTips` | app.py:40-43 | A description without Latin letters, such as the Russian ones, never gets the umbrella or the sunglasses tip |
| `Forecast.Round` | app.py:88 | `round(x)` is within 1/2 of x. On a tie it is the even integer |
| `Forecast.RoundUnique` | app.py:88 | These two properties determine the rounded value uniquely |
| `Forecast.EveryEighth` | app.py:100-101 | `range(0, len(list), 8)` picks ceil(n/8) samples, and the k-th pick is sample 8k |
| `Forecast.Daily` | app.py:99-108 | The daily forecast for n samples has ceil(n/8) entries. Entry k is built from sample 8k |
| `Forecast.SampleDaily` | app.py:99-108 | The stride-8 `for` loop produces ceil(n/8) entries, entry k from sample 8k, equal to `Daily` |
| `Forecast.CurrentOf` | app.py:85-94 | The current conditions carry the city's name and country, and the sample's humidity, wind and icon. Both temperatures are the sample's rounded half to even (`Round`, within 1/2, even on a tie). The description is `Capitalize` of the sample's: its first character in title case and the rest lower-cased |
| `Forecast.DayOf` | app.py:101-108 | A daily entry carries the date label of the sample's timestamp and the sample's icon. Its temperature is the sample's rounded half to even (`Round`). Its description is `Capitalize` of the sample's |
| `Forecast.ThreeDays` | app.py:100-101 | 24 samples give three entries, built from samples 0, 8 and 16 |
| `Text.Strip` | app.py:64 | `strip()` returns a slice of the input, and everything before and after that slice is whitespace, so only whitespace is removed. Neither end of the result is whitespace. The result is empty iff the input is all whitespace |
| `Text.Lower` | app.py:40 | `lower()` keeps the length. Each character is kept or replaced by its lower-case partner. Lowering the result again changes nothing |
| `Text.Capitalize` | app.py:92 | `capitalize()` keeps the length. The first character is its title-case form, and every later character is its lower-case form. The result equals the input once case is ignored |
| `Text.TrimBothEmpty` | app.py:64-65 | After trimming both ends the value is empty iff every character is whitespace, so a whitespace-only form counts as no city |
| `Text.StripIdempotent` | app.py:64 | Stripping twice equals stripping once |
| `Text.LowerCapitalize` | app.py:92 | The lower-cased form of a capitalized string is the lower-cased original. Lowering is idempotent |
| `Text.ContainsAt` | app.py:40 | An occurrence at any index makes the substring test true |
| `Text.ContainsOnlyIfOccurs` | app.py:40-43 | The substring test is true only when the pattern occurs at some index. With `ContainsAt`, `p in s` holds iff `p` is a slice of `s` |
| `Text.NotContainsWithoutFirstChar` | app.py:40 | If the first character of a non-empty pattern occurs nowhere in s, the substring test is false |
| `App.ResolveCity` | app.py:64-66 | A non-empty stripped form value is the query. Otherwise a non-empty last city is the query. Otherwise there is no query, which happens iff the form is all whitespace and the last city is absent or empty. A query is never empty |
| `App.ResolveCityFallsBack` | app.py:64-66 | "" and "  " with last city "Tokyo" resolve to "Tokyo" |
| `App.ResolveCityTypedOrNone` | app.py:64-68 | "Paris" wins over "Tokyo". "" with no last city resolves to no query |
| `App.AddToHistory` | app.py:79-80 | The name is in the result. Old entries keep their places. Exactly one entry is added iff the name was absent. A duplicate-free history stays duplicate-free |
| `App.AddToHistoryTwice` | app.py:79-80 | Recording the same name twice equals recording it once |
| `App.HistoryIsCaseSensitive` | app.py:79 | Names are deduplicated by exact string equality: "paris" then "Paris" gives two entries |
| `App.Toggle` | app.py:27 | The new language is "ru" or "en" and differs from the old value. It is "en" iff the old value was "ru", so any other value becomes "ru" |
| `App.ToggleTwice` | app.py:27 | Switching twice restores "ru" or "en" |
| `App.ShowWeather` | app.py:84-108 | For a usable reply, the page shows the current conditions built from sample 0 and that sample's main condition. Its tips are `Tips` of those conditions, and its forecast is `Daily` of all samples |
| `App.Outcome` | app.py:162-189 | `fetch_weather` gives data iff the reply is usable (status "200" and at least one sample). It raises iff the transport failed. It returns None iff the status is not "200", so the empty-list failure happens only with status "200". With data, the current conditions are `CurrentOf` sample 0 under the reply's city. There are ceil(n/8) daily entries, entry k is `DayOf` sample 8k, and the first entry has the same rounded temperature and description as the current conditions |
| `App.FetchWeather` | app.py:162-189 | A transport error propagates. A non-"200" status gives None. Status "200" with no samples fails on `list[0]`. Otherwise the result is the current conditions from sample 0 plus the daily forecast. It gives a result iff the reply is usable |
| `App.Compare` | app.py:146-159 | A GET shows nothing and fetches nothing. A POST with an empty stripped city1 or city2 sets the both-cities error and fetches nothing. Otherwise the outcome is that of the two lookups. The not-found message is never set |
| `App.CompareCities` | app.py:161-198 | city1 is queried first. city2 is queried only if city1's lookup gave data. A transport error sets the server-error message and keeps data already fetched. An unknown city or an empty list makes the request fail. Two good lookups show both cities with no error. The not-found message is never set |
| `App.Session.constructor` | app.py:15-22 | A new session has empty history, language "ru" and no last city |
| `App.Session.ChangeLang` | app.py:25-29 | The language becomes `Toggle(old lang)`. History and last city do not change |
| `App.Session.History` | app.py:123-142 | A POST empties the history and redirects. A GET shows the history. Language and last city do not change |
| `App.Session.Record` | app.py:79-81 | The name joins the history as `AddToHistory` gives and becomes the last city. The language does not change. The invariant (no duplicates, valid language) is kept |
| `App.Session.Index` | app.py:49-120 | The query is `ResolveCity(form, last city)`. With no query there is no change and an empty page. A transport error or a non-"200" status gives the localized error and leaves history and last city unchanged. Status "200" sets history to `AddToHistory(history, name)` and last city to the returned name. The page then shows conditions from sample 0, `Daily` of the samples and `Tips` of the conditions, or the request fails when there are no samples. The invariant (no duplicates, valid language) is kept |

## Left out

- The HTTP request to the forecast endpoint is not modelled: no URL building (the
  city is not URL-encoded), no timeout, no JSON decoding. The upstream's answer is
  an input value.
- A reply with a missing field raises `KeyError`, and the model does not represent
  this. It also takes `cod` to be a string. A numeric `cod` compares unequal to
  "200", just like any other non-"200" string.
- The date label `strftime("%a %d.%m")` of the parsed `dt_txt` is a function
  parameter, because it depends on the library and the locale. The `ValueError`
  that `strptime` raises on a malformed timestamp is not modelled.
- `Text.Strip` models only the whitespace set of `str.isspace`.
- `Text.Lower` and `Text.Capitalize` model case mapping only for ASCII, the
  Latin-1 letters other than "ÿ" and "µ", and Cyrillic U+0400-U+045F. Everything
  else is left unchanged. That includes "ÿ" and "µ", which `capitalize()` maps to
  U+0178 and U+039C, and the rest of Cyrillic (such as "Ґ", U+0490). Mappings
  that change a string's length (such as "ß" or "İ") are also outside the model.
- JSON numbers are modelled as exact reals, not as binary64 floats. `round()`
  and the `wind > 8` test therefore see the decimal value. Halves are exact in
  binary64, but a number within half an ulp of one decodes to it. So
  2.5000000000000001 becomes the float 2.5, which Python rounds to 2, while the
  model rounds the exact value to 3. Likewise, a wind of 8.0000000000000001
  decodes to 8.0, which gives no wind tip, but the model gives one.
- The upstream is a pure function of (city, language). The real program makes
  a separate HTTP request for each lookup, and two requests for the same city
  can get different replies. In the comparison page, two lookups of the same
  city therefore always agree in the model.
- Flask plumbing is framework behaviour and is not modelled: routing,
  `render_template`, `redirect(request.referrer or url_for(...))`, cookie storage
  of the session, and `session.modified`. On the failure paths, whether the
  session change is saved depends on the framework configuration. The model
  keeps the in-memory change.
- `App.Session.constructor` models only a brand-new session. The `before_request`
  hook also fills in keys that are missing from a partly filled session, and the
  model does not cover that.
- The `/map` page only passes its query parameters to a template, and
  `static/buttons.js` does a button-text swap and Enter-key forwarding in the
  browser. Neither is modelled.
- The localized title and button texts of the history page are constant data.
- Concurrent requests from one user racing on the session are not modelled.
