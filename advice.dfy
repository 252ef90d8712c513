/**
 * The advice engine: from the current conditions, an ordered list of bilingual
 * tips. One temperature-band tip always comes first; an umbrella, a sunglasses
 * and a wind tip follow, in that order, each when its condition holds.
 */
module Advice {
  import opened Text
  import opened Forecast

  datatype Tip = LightClothing | DressWarmly | DressAppropriately | Umbrella | Sunglasses | Windy
  {
    /** Position of the tip in the fixed order; the three band tips share position 0. */
    function Rank(): nat {
      match this
      case LightClothing | DressWarmly | DressAppropriately => 0
      case Umbrella => 1
      case Sunglasses => 2
      case Windy => 3
    }

    predicate IsBand() {
      Rank() == 0
    }

    /** The tip's Russian text, the value under "ru". */
    function Ru(): string {
      match this
      case LightClothing => "Наденьте лёгкую одежду"
      case DressWarmly => "Оденьтесь тепло"
      case DressAppropriately => "Одевайтесь по погоде"
      case Umbrella => "Возьмите зонт"
      case Sunglasses => "Можно взять солнцезащитные очки"
      case Windy => "На улице ветрено"
    }

    /** The tip's English text, the value under "en". */
    function En(): string {
      match this
      case LightClothing => "Take light clothing"
      case DressWarmly => "Dress warmly"
      case DressAppropriately => "Dress appropriately"
      case Umbrella => "Take an umbrella"
      case Sunglasses => "Take sunglasses"
      case Windy => "It's windy outside"
    }
  }

  function BandTip(temp: int): Tip {
    if temp >= 30 then LightClothing else if temp <= 10 then DressWarmly else DressAppropriately
  }

  /** `"rain" in desc.lower()` */
  predicate MentionsRain(desc: string) {
    Contains(Lower(desc), "rain")
  }

  /** `"sun" in desc.lower() or "clear" in desc.lower()` */
  predicate MentionsSun(desc: string) {
    Contains(Lower(desc), "sun") || Contains(Lower(desc), "clear")
  }

  /** `wind > 8`, strictly. */
  predicate IsWindy(wind: real) {
    wind > 8.0
  }

  /** The band tip followed by the umbrella, sunglasses and wind tips that are switched on. */
  function Assemble(band: Tip, rain: bool, sun: bool, windy: bool): (r: seq<Tip>)
    requires band.IsBand()
    ensures 1 <= |r| <= 4 && r[0] == band
    ensures forall i, j :: 0 <= i < j < |r| ==> r[i].Rank() < r[j].Rank()
    ensures (Umbrella in r <==> rain) && (Sunglasses in r <==> sun) && (Windy in r <==> windy)
  {
    [band] + (if rain then [Umbrella] else []) + (if sun then [Sunglasses] else []) + (if windy then [Windy] else [])
  }

  /** The tips for the given conditions, with what each position of the list means. */
  function Tips(w: Current): (r: seq<Tip>)
    ensures 1 <= |r| <= 4
    ensures r[0].IsBand()
    ensures r[0] == LightClothing <==> w.temp >= 30
    ensures r[0] == DressWarmly <==> w.temp <= 10
    ensures r[0] == DressAppropriately <==> 10 < w.temp < 30
    ensures forall i, j :: 0 <= i < j < |r| ==> r[i].Rank() < r[j].Rank()
    ensures Umbrella in r <==> MentionsRain(w.desc)
    ensures Sunglasses in r <==> MentionsSun(w.desc)
    ensures Windy in r <==> IsWindy(w.wind)
  {
    Assemble(BandTip(w.temp), MentionsRain(w.desc), MentionsSun(w.desc), IsWindy(w.wind))
  }

  /** `get_weather_tips`: builds the list by successive appends. */
  method GetWeatherTips(w: Current) returns (tips: seq<Tip>)
    ensures tips == Tips(w)
  {
    var rain, sun, windy := MentionsRain(w.desc), MentionsSun(w.desc), IsWindy(w.wind);
    tips := [];
    if w.temp >= 30 {
      tips := tips + [LightClothing];
    } else if w.temp <= 10 {
      tips := tips + [DressWarmly];
    } else {
      tips := tips + [DressAppropriately];
    }
    assert tips == [BandTip(w.temp)];
    if rain {
      tips := tips + [Umbrella];
    }
    if sun {
      tips := tips + [Sunglasses];
    }
    if windy {
      tips := tips + [Windy];
    }
    assert tips == [BandTip(w.temp)] + (if rain then [Umbrella] else []) + (if sun then [Sunglasses] else [])
                   + (if windy then [Windy] else []);
  }

  /** Description matching ignores case: "Light Rain" calls for an umbrella. */
  lemma LightRainMentionsRain()
    ensures MentionsRain("Light Rain")
  {
    var low := Lower("Light Rain");
    assert low[6..10] == "rain";
    ContainsAt(low, "rain", 6);
  }

  /** ... and "CLEAR SKY" for sunglasses. */
  lemma ClearSkyMentionsSun()
    ensures MentionsSun("CLEAR SKY")
  {
    var low := Lower("CLEAR SKY");
    assert low[0..5] == "clear";
    ContainsAt(low, "clear", 0);
  }

  /** The tips read the capitalized description, and capitalizing does not change
      which tips a description calls for. */
  lemma CapitalizeKeepsTips(desc: string)
    ensures MentionsRain(Capitalize(desc)) <==> MentionsRain(desc)
    ensures MentionsSun(Capitalize(desc)) <==> MentionsSun(desc)
  {
    LowerCapitalize(desc);
  }

  /** A description without Latin letters (a Russian one, as the upstream sends when
      the page language is "ru") never calls for the umbrella or the sunglasses tip. */
  lemma {:induction false} NoLatinNoWeatherWordTips(desc: string)
    requires forall i :: 0 <= i < |desc| ==> !IsAsciiLetter(desc[i])
    ensures !MentionsRain(desc) && !MentionsSun(desc)
  {
    var low := Lower(desc);
    forall i | 0 <= i < |low| ensures !IsAsciiLetter(low[i]) {
      LowerCharAscii(desc[i]);
    }
    NotContainsWithoutFirstChar(low, "rain");
    NotContainsWithoutFirstChar(low, "sun");
    NotContainsWithoutFirstChar(low, "clear");
  }
}
