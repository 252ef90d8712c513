/**
 * The forecast normalizer: upstream samples (one every three hours) become the
 * current-conditions record, built from the first sample, and one daily entry
 * for every eighth sample, anchored at the first one.
 */
module Forecast {
  import opened Text

  /** One element of the upstream `list`: `dt_txt`, `main.{temp,feels_like,humidity}`,
      `wind.speed` and `weather[0].{main,description,icon}`. The decoded binary
      floats are modelled as exact reals. */
  datatype Sample = Sample(
    dtTxt: string,
    temp: real,
    feelsLike: real,
    humidity: int,
    wind: real,
    main: string,
    description: string,
    icon: string)

  /** The upstream `city` descriptor. */
  datatype City = City(name: string, country: string)

  /** The `weather` record the index and compare pages show. */
  datatype Current = Current(
    city: string,
    country: string,
    temp: int,
    feelsLike: int,
    humidity: int,
    wind: real,
    desc: string,
    icon: string)

  /** One entry of the daily forecast. */
  datatype Day = Day(date: string, temp: int, desc: string, icon: string)

  /** Python's `round(x)` on a float: the nearest integer, ties to the even one. */
  function Round(x: real): (r: int)
    ensures x - 0.5 <= r as real <= x + 0.5
    ensures (r as real == x - 0.5 || r as real == x + 0.5) ==> r % 2 == 0
  {
    var f := x.Floor;
    var frac := x - f as real;
    if frac < 0.5 then f
    else if frac > 0.5 then f + 1
    else if f % 2 == 0 then f
    else f + 1
  }

  /** Rounding is unique: any integer within one half of `x`, taking the even one on a tie, is `Round(x)`. */
  lemma RoundUnique(x: real, n: int)
    requires x - 0.5 <= n as real <= x + 0.5
    requires (n as real == x - 0.5 || n as real == x + 0.5) ==> n % 2 == 0
    ensures n == Round(x)
  {
  }

  /** The current conditions, built from one sample (the first of the list): the city's
      name and country, temperatures rounded to the nearest integer, the sample's humidity,
      wind and icon, and its description with only the case changed. */
  function CurrentOf(city: City, s: Sample): (r: Current)
    ensures r.city == city.name && r.country == city.country
    ensures s.temp - 0.5 <= r.temp as real <= s.temp + 0.5
    ensures s.feelsLike - 0.5 <= r.feelsLike as real <= s.feelsLike + 0.5
    ensures r.humidity == s.humidity && r.wind == s.wind && r.icon == s.icon
    ensures r.temp == Round(s.temp) && r.feelsLike == Round(s.feelsLike)
    ensures r.desc == Capitalize(s.description)
  {
    Current(city.name, city.country, Round(s.temp), Round(s.feelsLike), s.humidity, s.wind,
            Capitalize(s.description), s.icon)
  }

  /** One daily entry built from one sample; `dateLabel` is the date label
      `strftime("%a %d.%m")` of the parsed `dt_txt`. */
  function DayOf(s: Sample, dateLabel: string -> string): (r: Day)
    ensures r.date == dateLabel(s.dtTxt) && r.icon == s.icon
    ensures s.temp - 0.5 <= r.temp as real <= s.temp + 0.5 && r.temp == Round(s.temp)
    ensures r.desc == Capitalize(s.description)
  {
    Day(dateLabel(s.dtTxt), Round(s.temp), Capitalize(s.description), s.icon)
  }

  /** The elements `range(0, len(xs), 8)` selects: ceil(n/8) of them, the k-th being `xs[8k]`. */
  function EveryEighth<T>(xs: seq<T>): (r: seq<T>)
    ensures |r| == (|xs| + 7) / 8
    ensures forall k :: 0 <= k < |r| ==> r[k] == xs[8 * k]
    decreases |xs|
  {
    if |xs| <= 8 then
      (if xs == [] then [] else [xs[0]])
    else
      var rest := EveryEighth(xs[8..]);
      assert forall k :: 1 <= k <= |rest| ==> xs[8..][8 * (k - 1)] == xs[8 * k];
      [xs[0]] + rest
  }

  /** The daily forecast: one entry for every eighth sample, anchored at the first, so it
      has ceil(n/8) entries and entry k comes from sample 8k. */
  function Daily(list: seq<Sample>, dateLabel: string -> string): (days: seq<Day>)
    ensures |days| == (|list| + 7) / 8
    ensures forall k :: 0 <= k < |days| ==> days[k] == DayOf(list[8 * k], dateLabel)
  {
    var picks := EveryEighth(list);
    seq(|picks|, k requires 0 <= k < |picks| => DayOf(picks[k], dateLabel))
  }

  /** The stride-8 loop over `range(0, len(list), 8)` that appends one entry per sample taken. */
  method SampleDaily(list: seq<Sample>, dateLabel: string -> string) returns (days: seq<Day>)
    ensures |days| == (|list| + 7) / 8
    ensures forall k :: 0 <= k < |days| ==> days[k] == DayOf(list[8 * k], dateLabel)
    ensures days == Daily(list, dateLabel)
  {
    days := [];
    var i := 0;
    while i < |list|
      invariant i == 8 * |days|
      invariant i <= |list| + 7
      invariant forall k :: 0 <= k < |days| ==> days[k] == DayOf(list[8 * k], dateLabel)
    {
      days := days + [DayOf(list[i], dateLabel)];
      i := i + 8;
    }
    DailyByEntries(list, dateLabel, days);
  }

  /** A list with ceil(n/8) entries, entry k from sample 8k, is the daily forecast. */
  lemma DailyByEntries(list: seq<Sample>, dateLabel: string -> string, days: seq<Day>)
    requires |days| == (|list| + 7) / 8
    requires forall k :: 0 <= k < |days| ==> days[k] == DayOf(list[8 * k], dateLabel)
    ensures days == Daily(list, dateLabel)
  {
  }

  /** Twenty-four samples (three days at three-hour steps) give three entries, from samples 0, 8 and 16. */
  lemma ThreeDays(list: seq<Sample>, dateLabel: string -> string)
    requires |list| == 24
    ensures Daily(list, dateLabel) == [DayOf(list[0], dateLabel), DayOf(list[8], dateLabel), DayOf(list[16], dateLabel)]
  {
  }
}
