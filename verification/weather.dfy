/** The weather icon producer: WMO code classification and the "weather" widget. */
module WeatherWidget {
  import opened Wrappers
  import opened Widgets
  import Assets

  datatype Weather = Cloudy | Overcast | Rain | Sunny

  /** The enum's string value, which also names its icon file. */
  function Value(w: Weather): string
  {
    match w
    case Cloudy => "cloudy"
    case Overcast => "overcast"
    case Rain => "rain"
    case Sunny => "sunny"
  }

  /** The WMO drizzle, freezing-drizzle, rain and freezing-rain codes. */
  const RAIN_CODES: set<int> := {51, 53, 55, 56, 57, 61, 63, 65, 66, 67}

  const WEATHER_WIDGET: string := "weather"
  const WEATHER_Z: int := -99

  /** `Weather.from_wmo`: total over all integers, unknown codes are sunny. */
  function FromWmo(code: int): (r: Weather)
    ensures r == Cloudy <==> code in {1, 2}
    ensures r == Overcast <==> code == 3
    ensures r == Rain <==> code in RAIN_CODES
    ensures r == Sunny <==> code !in {1, 2, 3} + RAIN_CODES
  {
    match code
    case 0 => Sunny
    case 1 => Cloudy
    case 2 => Cloudy
    case 3 => Overcast
    case 51 => Rain
    case 53 => Rain
    case 55 => Rain
    case 56 => Rain
    case 57 => Rain
    case 61 => Rain
    case 63 => Rain
    case 65 => Rain
    case 66 => Rain
    case 67 => Rain
    case _ => Sunny
  }

  lemma FromWmoExamples()
    ensures FromWmo(0) == Sunny
    ensures FromWmo(1) == Cloudy && FromWmo(2) == Cloudy
    ensures FromWmo(3) == Overcast
    ensures FromWmo(61) == Rain
    ensures FromWmo(80) == Sunny && FromWmo(-1) == Sunny
  {
  }

  /** Path of the icon for a non-sunny condition. */
  function IconPath(w: Weather): string
  {
    "assets/weather/" + Value(w) + ".bmp"
  }

  /**
   * `get_weather` given the day's WMO code in place of the HTTP fetch: a sunny day
   * is a blank layer, any other condition is its icon.
   */
  function GetWeather(code: int, store: Assets.Store): (r: Result<Widget>)
    ensures r.Ok? ==> r.value.name == WEATHER_WIDGET && r.value.z == WEATHER_Z && r.value.red == Blank()
    ensures FromWmo(code) == Sunny ==> r.Ok? && r.value.bw == Blank()
    ensures FromWmo(code) != Sunny ==> (r.Ok? <==> IconPath(FromWmo(code)) in store)
    ensures FromWmo(code) != Sunny && r.Ok? ==> r.value.bw == store[IconPath(FromWmo(code))]
    ensures r.Err? ==> r.error == ResourceMissing(IconPath(FromWmo(code)))
  {
    var weather := FromWmo(code);
    if weather == Sunny then Ok(New(WEATHER_WIDGET, WEATHER_Z, Some(Blank()), None))
    else Assets.AssetWidget(store, IconPath(weather), WEATHER_WIDGET, WEATHER_Z)
  }

  /** WMO code 61 yields the rain icon as the "weather" widget. */
  lemma RainIconForCode61(store: Assets.Store)
    requires "assets/weather/rain.bmp" in store
    ensures GetWeather(61, store) == Ok(New("weather", -99, Some(store["assets/weather/rain.bmp"]), None))
  {
    assert IconPath(Rain) == "assets/weather/rain.bmp";
  }
}
