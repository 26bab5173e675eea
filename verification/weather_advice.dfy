/**
 * The weather service's activity advice: four lists of activity names (excellent, good,
 * caution, avoid) chosen by the weather code and the temperature in degrees Celsius.
 */
module WeatherAdvice {

  datatype Advice = Advice(excellent: seq<string>, good: seq<string>, caution: seq<string>, avoid: seq<string>)
  {
    predicate Empty() {
      excellent == [] && good == [] && caution == [] && avoid == []
    }
  }

  /** The kinds of weather the advice tells apart. */
  datatype Band = WarmClear | Cloudy | Rain | Snow | Other

  const WarmAbove: real := 15.0

  /**
   * The band of a reading, from the code's meaning: clear sky (0 and 1) when it is warm,
   * otherwise any code up to 3 counts as cloudy; 51 to 67 are rain, 71 to 77 snow.
   */
  function BandOf(code: int, temperature: real): Band {
    if code <= 1 && temperature > WarmAbove then WarmClear
    else if code <= 3 then Cloudy
    else if 51 <= code <= 67 then Rain
    else if 71 <= code <= 77 then Snow
    else Other
  }

  /** `getActivityRecommendations(weatherCode, temperature)`. */
  function ActivityRecommendations(code: int, temperature: real): (r: Advice)
    ensures code <= 1 && temperature > WarmAbove ==>
      r.excellent == ["Photography Expedition", "Urban Cycling Tour", "Outdoor Market Visit"]
      && r.good == ["All outdoor activities"] && r.caution == [] && r.avoid == []
    ensures !(code <= 1 && temperature > WarmAbove) && code <= 3 ==>
      r.good == ["Photography Expedition", "Walking Tours", "Outdoor Dining"]
      && r.excellent == ["Indoor activities"] && r.caution == [] && r.avoid == []
    ensures 51 <= code <= 67 ==> r.caution == ["Urban Cycling Tour"] && r.avoid != [] && r.good == []
    ensures 71 <= code <= 77 ==> "Cycling" in r.avoid && "Outdoor dining" in r.avoid && r.caution == []
    ensures 3 < code && !(51 <= code <= 67) && !(71 <= code <= 77) ==> r.Empty()
  {
    if code <= 1 && temperature > WarmAbove then
      Advice(["Photography Expedition", "Urban Cycling Tour", "Outdoor Market Visit"], ["All outdoor activities"], [], [])
    else if code <= 3 then
      Advice(["Indoor activities"], ["Photography Expedition", "Walking Tours", "Outdoor Dining"], [], [])
    else if 51 <= code <= 67 then
      Advice(["Contemporary Art Gallery", "Wine & Cheese Discovery", "Artisan Brunch Experience"], [], ["Urban Cycling Tour"], ["Photography Expedition (outdoor)"])
    else if 71 <= code <= 77 then
      Advice(["Indoor cultural activities", "Cozy cafe visits"], ["Winter photography (with proper gear)"], [], ["Cycling", "Outdoor dining"])
    else
      Advice([], [], [], [])
  }

  /** The advice depends on the reading only through its band, and is empty exactly for `Other`. */
  lemma AdviceFollowsBand(c1: int, t1: real, c2: int, t2: real)
    ensures BandOf(c1, t1) == BandOf(c2, t2) ==> ActivityRecommendations(c1, t1) == ActivityRecommendations(c2, t2)
    ensures ActivityRecommendations(c1, t1).Empty() <==> BandOf(c1, t1) == Other
  {
  }

  /** Only rain brings a caution, and only rain and snow bring something to avoid. */
  lemma CautionOnlyInRain(code: int, temperature: real)
    ensures ActivityRecommendations(code, temperature).caution != [] <==> BandOf(code, temperature) == Rain
    ensures ActivityRecommendations(code, temperature).avoid != [] <==> BandOf(code, temperature) in {Rain, Snow}
  {
  }

  /** A clear sky at 15 degrees or below gets the cloudy-day advice. */
  lemma ColdClearSkyIsCloudy(code: int, temperature: real)
    requires code <= 1 && temperature <= WarmAbove
    ensures ActivityRecommendations(code, temperature) == ActivityRecommendations(2, temperature)
  {
  }

  /** Codes outside the bands (fog at 45 and 48, showers and storms from 80 up) get no advice at all. */
  lemma GapCodesGetNoAdvice(code: int, temperature: real)
    requires 3 < code < 51 || 67 < code < 71 || 77 < code
    ensures ActivityRecommendations(code, temperature).Empty()
  {
  }
}
