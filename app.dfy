/**
 * The request handlers of the weather front-end, with the upstream weather
 * service as a parameter: which city the main page looks up, how a lookup
 * changes the per-user session (search history, last city, language), the
 * history page, the language switch and the two-city comparison.
 */
module App {
  import opened Wrappers
  import opened Text
  import opened Forecast
  import opened Advice

  /** The decoded JSON of one upstream forecast reply. */
  datatype Reply = Reply(cod: string, city: City, list: seq<Sample>)

  /** One upstream GET: the transport raised a RequestException, or a reply came back. */
  datatype Fetch = TransportError(detail: string) | Replied(reply: Reply)

  /** The upstream's answer to a city query in a language, `(city, lang) -> Fetch`. */
  type Upstream = (string, string) -> Fetch

  /** A usable reply: status "200" with at least one sample. */
  predicate Found(f: Fetch) {
    f.Replied? && f.reply.cod == "200" && f.reply.list != []
  }

  /** What a handler produces: a rendered page, or an exception the handler does not
      catch, which the framework turns into an internal server error. */
  datatype Response<V> = Rendered(view: V) | Crashed

  /** The `weather` value of the main page: nothing, an error message, or current conditions. */
  datatype WeatherBox = NoWeather | Failure(message: string) | Shown(current: Current)

  datatype IndexView = IndexView(
    weather: WeatherBox,
    forecast: Option<seq<Day>>,
    mainWeather: string,
    tips: seq<Tip>,
    lang: string)

  datatype CompareView = CompareView(
    city1: Option<Current>,
    city2: Option<Current>,
    forecast1: seq<Day>,
    forecast2: seq<Day>,
    error: Option<string>)

  datatype HistoryView = Redirected | HistoryPage(history: seq<string>, lang: string)

  /** What `fetch_weather` in the comparison handler ends with. */
  datatype Fetched =
    | Raised(detail: string)                  // the RequestException propagates
    | NoneReturned                            // status other than "200": returns None
    | IndexFailure                            // status "200" with an empty list: list[0] raises
    | Got(current: Current, days: seq<Day>)   // the (weather, forecast) pair

  function Localized(lang: string, ru: string, en: string): string {
    if lang == "ru" then ru else en
  }

  function NotFoundText(lang: string): string {
    Localized(lang, "Город не найден 😔", "City not found 😔")
  }

  function ServerErrorText(lang: string, detail: string): string {
    Localized(lang, "Ошибка сервера", "Server error") + ": " + detail
  }

  function BothCitiesText(lang: string): string {
    Localized(lang, "Введите оба города!", "Please enter both cities!")
  }

  /** The not-found message differs from every other message the comparison page sets. */
  lemma NotFoundDiffers(lang: string, detail: string)
    ensures BothCitiesText(lang) != NotFoundText(lang)
    ensures ServerErrorText(lang, detail) != NotFoundText(lang)
  {
    assert BothCitiesText(lang)[0] != NotFoundText(lang)[0];
    assert ServerErrorText(lang, detail)[0] != NotFoundText(lang)[0];
  }

  /** The city the main page looks up: the stripped form value when it is non-empty,
      else a non-empty last city, else none (and then nothing is fetched). */
  function ResolveCity(form: string, lastCity: Option<string>): (city: Option<string>)
    ensures city.Some? ==> city.value != []
    ensures Strip(form) != [] ==> city == Some(Strip(form))
    ensures Strip(form) == [] && city.Some? ==> Some(city.value) == lastCity
    ensures city.None? <==>
      (forall i :: 0 <= i < |form| ==> IsSpace(form[i])) && (lastCity.None? || lastCity.value == [])
  {
    var typed := Strip(form);
    if typed != [] then Some(typed)
    else if lastCity.Some? && lastCity.value != [] then lastCity
    else None
  }

  /** A blank or whitespace-only form falls back to the last city. */
  lemma ResolveCityFallsBack()
    ensures ResolveCity("", Some("Tokyo")) == Some("Tokyo")
    ensures ResolveCity("  ", Some("Tokyo")) == Some("Tokyo")
  {
    assert Strip("") == [];
    assert IsSpace("  "[0]) && IsSpace("  "[1]);
    assert Strip("  ") == [];
  }

  /** A typed city wins over the last one, and with neither nothing is looked up. */
  lemma ResolveCityTypedOrNone()
    ensures ResolveCity("Paris", Some("Tokyo")) == Some("Paris")
    ensures ResolveCity("", None) == None
  {
    assert !IsSpace("Paris"[0]) && !IsSpace("Paris"[4]);
    assert TrimStart("Paris") == "Paris";
    assert TrimEnd("Paris") == "Paris";
    assert Strip("Paris") == "Paris";
  }

  predicate NoDuplicates(h: seq<string>) {
    forall i, j :: 0 <= i < j < |h| ==> h[i] != h[j]
  }

  /** The history after a successful lookup of `name`: `name` is in it, the old
      entries keep their places, and at most `name` itself was added, at the end. */
  function AddToHistory(h: seq<string>, name: string): (r: seq<string>)
    ensures name in r
    ensures |h| <= |r| <= |h| + 1 && r[..|h|] == h
    ensures forall x :: x in r <==> x in h || x == name
    ensures |r| == |h| + 1 <==> name !in h
    ensures NoDuplicates(h) ==> NoDuplicates(r)
  {
    if name in h then h else h + [name]
  }

  /** Looking the same city up again leaves the history as it is. */
  lemma AddToHistoryTwice(h: seq<string>, name: string)
    ensures AddToHistory(AddToHistory(h, name), name) == AddToHistory(h, name)
  {
  }

  /** The history keeps exact spellings: "paris" and "Paris" are two entries. */
  lemma HistoryIsCaseSensitive()
    ensures AddToHistory(["paris"], "Paris") == ["paris", "Paris"]
  {
    assert "paris"[0] != "Paris"[0];
  }

  /** The language switch: "ru" becomes "en", anything else "ru". */
  function Toggle(lang: string): (r: string)
    ensures r == "ru" || r == "en"
    ensures r != lang
    ensures r == "en" <==> lang == "ru"
  {
    if lang == "ru" then "en" else "ru"
  }

  /** Switching twice restores either of the two languages. */
  lemma ToggleTwice(lang: string)
    requires lang == "ru" || lang == "en"
    ensures Toggle(Toggle(lang)) == lang
  {
  }

  /** What `fetch_weather` ends with, given the upstream's answer: data exactly for a
      usable reply, whose first daily entry shows the same rounded temperature and
      description as the current conditions. */
  function Outcome(f: Fetch, dateLabel: string -> string): (r: Fetched)
    ensures r.Got? <==> Found(f)
    ensures r.Raised? <==> f.TransportError?
    ensures r.NoneReturned? <==> f.Replied? && f.reply.cod != "200"
    ensures r.Got? ==> r.current == CurrentOf(f.reply.city, f.reply.list[0])
    ensures r.Got? ==> r.current.city == f.reply.city.name && |r.days| == (|f.reply.list| + 7) / 8
    ensures r.Got? ==> forall k :: 0 <= k < |r.days| ==> r.days[k] == DayOf(f.reply.list[8 * k], dateLabel)
    ensures r.Got? ==> r.days[0].temp == r.current.temp && r.days[0].desc == r.current.desc
  {
    match f
    case TransportError(e) => Raised(e)
    case Replied(reply) =>
      if reply.cod != "200" then NoneReturned
      else if reply.list == [] then IndexFailure
      else Got(CurrentOf(reply.city, reply.list[0]), Daily(reply.list, dateLabel))
  }

  /** `fetch_weather` of the comparison handler: one upstream call, then the current
      conditions from the first sample and the stride-8 daily forecast. */
  method FetchWeather(city: string, lang: string, upstream: Upstream, dateLabel: string -> string)
    returns (r: Fetched)
    ensures r == Outcome(upstream(city, lang), dateLabel)
    ensures r.Got? <==> Found(upstream(city, lang))
    ensures r.Got? ==> |r.days| == (|upstream(city, lang).reply.list| + 7) / 8
  {
    match upstream(city, lang)
    case TransportError(e) =>
      r := Raised(e);
    case Replied(reply) =>
      if reply.cod != "200" {
        r := NoneReturned;
      } else if reply.list == [] {
        r := IndexFailure;
      } else {
        var current := CurrentOf(reply.city, reply.list[0]);
        var days := SampleDaily(reply.list, dateLabel);
        r := Got(current, days);
      }
  }

  /** The comparison page. It returns the cities it queried, in order: none unless
      both stripped form values are non-empty. */
  method Compare(lang: string, isPost: bool, form1: string, form2: string, upstream: Upstream,
                 dateLabel: string -> string)
    returns (queries: seq<string>, r: Response<CompareView>)
    ensures !isPost ==> queries == [] && r == Rendered(CompareView(None, None, [], [], None))
    ensures isPost && (Strip(form1) == [] || Strip(form2) == []) ==>
      queries == [] && r == Rendered(CompareView(None, None, [], [], Some(BothCitiesText(lang))))
    ensures isPost && Strip(form1) != [] && Strip(form2) != [] ==>
      var c1, c2 := Strip(form1), Strip(form2);
      CompareFetched(lang, c1, c2, Outcome(upstream(c1, lang), dateLabel), Outcome(upstream(c2, lang), dateLabel),
                     queries, r)
    ensures r.Rendered? ==> r.view.error != Some(NotFoundText(lang))
  {
    if !isPost {
      queries := [];
      r := Rendered(CompareView(None, None, [], [], None));
      return;
    }
    var city1, city2 := Strip(form1), Strip(form2);
    if city1 == [] || city2 == [] {
      queries := [];
      r := Rendered(CompareView(None, None, [], [], Some(BothCitiesText(lang))));
      NotFoundDiffers(lang, "");
      return;
    }
    queries, r := CompareCities(lang, city1, city2, upstream, dateLabel);
  }

  /** How the two lookups of a comparison end, given what `fetch_weather` ended with for
      each city: the cities queried and the page (or the uncaught exception). */
  ghost predicate CompareFetched(lang: string, c1: string, c2: string, o1: Fetched, o2: Fetched,
                                 queries: seq<string>, r: Response<CompareView>)
  {
    && queries == (if o1.Got? then [c1, c2] else [c1])
    && (o1.Raised? ==> r == Rendered(CompareView(None, None, [], [], Some(ServerErrorText(lang, o1.detail)))))
    && (o1.NoneReturned? || o1.IndexFailure? ==> r == Crashed)
    && (o1.Got? && o2.Raised? ==>
          r == Rendered(CompareView(Some(o1.current), None, o1.days, [], Some(ServerErrorText(lang, o2.detail)))))
    && (o1.Got? && (o2.NoneReturned? || o2.IndexFailure?) ==> r == Crashed)
    && (o1.Got? && o2.Got? ==>
          r == Rendered(CompareView(Some(o1.current), Some(o2.current), o1.days, o2.days, None)))
  }

  /** The `try` block of the comparison handler: fetch city1, then city2. A city the
      upstream does not know makes `fetch_weather` return None, whose unpacking raises
      an uncaught TypeError, so the "city not found" message is never set. When the
      second fetch raises a transport error, the first city's data stays on the page. */
  method CompareCities(lang: string, city1: string, city2: string, upstream: Upstream,
                       dateLabel: string -> string)
    returns (queries: seq<string>, r: Response<CompareView>)
    ensures CompareFetched(lang, city1, city2, Outcome(upstream(city1, lang), dateLabel),
                           Outcome(upstream(city2, lang), dateLabel), queries, r)
    ensures r.Rendered? ==> r.view.error != Some(NotFoundText(lang))
  {
    queries := [city1];
    var got1 := FetchWeather(city1, lang, upstream, dateLabel);
    match got1
    case Raised(e) =>
      r := Rendered(CompareView(None, None, [], [], Some(ServerErrorText(lang, e))));
      NotFoundDiffers(lang, e);
    case NoneReturned =>
      r := Crashed;
    case IndexFailure =>
      r := Crashed;
    case Got(w1, d1) =>
      queries := queries + [city2];
      var got2 := FetchWeather(city2, lang, upstream, dateLabel);
      match got2
      case Raised(e) =>
        r := Rendered(CompareView(Some(w1), None, d1, [], Some(ServerErrorText(lang, e))));
        NotFoundDiffers(lang, e);
      case NoneReturned =>
        r := Crashed;
      case IndexFailure =>
        r := Crashed;
      case Got(w2, d2) =>
        // Both records are non-empty, so the "not found" test fails and no error is set.
        r := Rendered(CompareView(Some(w1), Some(w2), d1, d2, None));
  }

  /** The main page for a usable reply: current conditions from the first sample, its
      main condition, the tips for those conditions and the stride-8 daily forecast. */
  method ShowWeather(reply: Reply, lang: string, dateLabel: string -> string) returns (view: IndexView)
    requires reply.list != []
    ensures var current := CurrentOf(reply.city, reply.list[0]);
      view == IndexView(Shown(current), Some(Daily(reply.list, dateLabel)), reply.list[0].main, Tips(current), lang)
  {
    var current := CurrentOf(reply.city, reply.list[0]);
    var tips := GetWeatherTips(current);
    var days := SampleDaily(reply.list, dateLabel);
    view := IndexView(Shown(current), Some(days), reply.list[0].main, tips, lang);
  }

  /** The per-user session: search history, page language and last city looked up. */
  class Session {
    var history: seq<string>
    var lang: string
    var lastCity: Option<string>

    /** The language is one of the two the pages know, and no city is in the history twice. */
    ghost predicate Valid()
      reads this
    {
      (lang == "ru" || lang == "en") && NoDuplicates(history)
    }

    /** A new session: the defaults the handlers start from. */
    constructor ()
      ensures Valid()
      ensures history == [] && lang == "ru" && lastCity == None
    {
      history := [];
      lang := "ru";
      lastCity := None;
    }

    /** `/change_lang` */
    method ChangeLang()
      requires Valid()
      modifies this
      ensures Valid()
      ensures lang == Toggle(old(lang))
      ensures history == old(history) && lastCity == old(lastCity)
    {
      lang := Toggle(lang);
    }

    /** `/history`: a POST clears the history and redirects, a GET shows it. */
    method History(isPost: bool) returns (r: HistoryView)
      requires Valid()
      modifies this
      ensures Valid()
      ensures lang == old(lang) && lastCity == old(lastCity)
      ensures isPost ==> history == [] && r == Redirected
      ensures !isPost ==> history == old(history) && r == HistoryPage(history, lang)
    {
      if isPost {
        history := [];
        r := Redirected;
      } else {
        r := HistoryPage(history, lang);
      }
    }

    /** The session update of a successful lookup: the city joins the history unless it
        is already there, and becomes the last city. */
    method Record(name: string)
      requires Valid()
      modifies this
      ensures Valid() && lang == old(lang)
      ensures history == AddToHistory(old(history), name) && lastCity == Some(name)
    {
      if name !in history {
        history := history + [name];
      }
      lastCity := Some(name);
    }

    /** `/`: resolve the city, look it up, record it on success and build the page.
        `query` is the city sent upstream, if any. On status "200" the history and the
        last city are updated before the first sample is read, so an empty sample list
        fails after the session has changed. */
    method Index(form: string, upstream: Upstream, dateLabel: string -> string)
      returns (query: Option<string>, r: Response<IndexView>)
      requires Valid()
      modifies this
      ensures Valid() && lang == old(lang)
      ensures query == ResolveCity(form, old(lastCity))
      ensures query.None? ==>
        && history == old(history) && lastCity == old(lastCity)
        && r == Rendered(IndexView(NoWeather, None, "Clear", [], lang))
      ensures query.Some? ==>
        var fetched := upstream(query.value, lang);
        && (fetched.TransportError? ==>
              && history == old(history) && lastCity == old(lastCity)
              && r == Rendered(IndexView(Failure(ServerErrorText(lang, fetched.detail)), None, "Clear", [], lang)))
        && (fetched.Replied? && fetched.reply.cod != "200" ==>
              && history == old(history) && lastCity == old(lastCity)
              && r == Rendered(IndexView(Failure(NotFoundText(lang)), None, "Clear", [], lang)))
        && (fetched.Replied? && fetched.reply.cod == "200" ==>
              var reply := fetched.reply;
              && history == AddToHistory(old(history), reply.city.name)
              && lastCity == Some(reply.city.name)
              && (reply.list == [] ==> r == Crashed)
              && (reply.list != [] ==>
                    var current := CurrentOf(reply.city, reply.list[0]);
                    r == Rendered(IndexView(Shown(current), Some(Daily(reply.list, dateLabel)),
                                            reply.list[0].main, Tips(current), lang))))
    {
      query := ResolveCity(form, lastCity);
      if query.None? {
        r := Rendered(IndexView(NoWeather, None, "Clear", [], lang));
        return;
      }
      match upstream(query.value, lang)
      case TransportError(e) =>
        r := Rendered(IndexView(Failure(ServerErrorText(lang, e)), None, "Clear", [], lang));
      case Replied(reply) =>
        if reply.cod != "200" {
          r := Rendered(IndexView(Failure(NotFoundText(lang)), None, "Clear", [], lang));
        } else {
          Record(reply.city.name);
          if reply.list == [] {
            r := Crashed;
          } else {
            var view := ShowWeather(reply, lang, dateLabel);
            r := Rendered(view);
          }
        }
    }
  }
}
