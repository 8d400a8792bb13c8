/** The stand-ins for external services in main.py: the weather producer
    (`mock_weather_api`), the image producer (`mock_image_api`) and the web
    search (`mock_web_search`). */
module MockApis {
  import opened Text

  /** One day of a forecast, as a dictionary of `mock_weather_api`. */
  datatype DayForecast = DayForecast(
    date: string,
    day: string,
    temperature: int,
    condition: string,
    humidity: int,
    windSpeed: int)

  const Conditions: seq<string> := ["Sunny", "Cloudy", "Rainy", "Partly Cloudy", "Clear"]

  /** `range(n)` has `n` elements, or none when `n` is negative. */
  function Count(n: int): nat
  {
    if n < 0 then 0 else n
  }

  // ---------------------------------------------------------------------------
  // Weather
  // ---------------------------------------------------------------------------

  /** What the random source and the clock yield for one day: the formatted
      date and weekday of `now + i days`, and the values drawn by
      `randint(-3, 3)`, `choice(conditions)`, `randint(40, 80)` and
      `randint(5, 20)`. */
  datatype DayDraw = DayDraw(
    date: string,
    dayName: string,
    tempOffset: int,
    condition: string,
    humidity: int,
    windSpeed: int)

  /** All draws of one call: `randint(15, 25)` for the base temperature,
      then one `DayDraw` per day. */
  datatype WeatherDraws = WeatherDraws(baseTemp: int, days: seq<DayDraw>)

  /** The draws stay within the ranges the random calls promise. */
  predicate ValidDraws(w: WeatherDraws)
  {
    && 15 <= w.baseTemp <= 25
    && forall i :: 0 <= i < |w.days| ==>
         && -3 <= w.days[i].tempOffset <= 3
         && w.days[i].condition in Conditions
         && 40 <= w.days[i].humidity <= 80
         && 5 <= w.days[i].windSpeed <= 20
  }

  /** What any forecast of the producer looks like: every value in its range,
      and all temperatures within 6 degrees of each other, since they share
      one base temperature. */
  predicate PlausibleForecast(f: seq<DayForecast>)
  {
    && (forall i :: 0 <= i < |f| ==>
          && 12 <= f[i].temperature <= 28
          && f[i].condition in Conditions
          && 40 <= f[i].humidity <= 80
          && 5 <= f[i].windSpeed <= 20)
    && (forall i, j :: 0 <= i < |f| && 0 <= j < |f| ==>
          f[i].temperature - f[j].temperature <= 6)
  }

  /** `mock_weather_api(city, days)`, with its random draws and clock
      readings supplied as `draws`. The city is not consulted. */
  function MockWeatherApi(city: string, days: int, draws: WeatherDraws): (r: seq<DayForecast>)
    requires Count(days) <= |draws.days|
    ensures |r| == Count(days)
    ensures ValidDraws(draws) ==> PlausibleForecast(r)
    ensures forall i :: 0 <= i < |r| ==>
              r[i].date == draws.days[i].date && r[i].day == draws.days[i].dayName
  {
    seq(Count(days), i requires 0 <= i < Count(days) =>
      var d := draws.days[i];
      DayForecast(d.date, d.dayName, draws.baseTemp + d.tempOffset, d.condition, d.humidity, d.windSpeed))
  }

  // ---------------------------------------------------------------------------
  // Images
  // ---------------------------------------------------------------------------

  const Colors: seq<string> := ["FF6B6B", "4ECDC4", "45B7D1", "FFA07A", "98D8C8"]

  const PlaceholderHost := "https://via.placeholder.com/800x600/"

  /** The URL of photo number `i + 1`: its colour cycles through the five
      colours, and it ends in the 1-based photo number. */
  function ImageUrl(city: string, i: nat): string
  {
    PlaceholderHost + Colors[i % 5] + "/FFFFFF?text=" + Title(city) + "+Photo+" + Decimal(i + 1)
  }

  /** `mock_image_api(city, count)`: one placeholder URL per requested photo. */
  function MockImageApi(city: string, count: int): (r: seq<string>)
    ensures |r| == Count(count)
    ensures forall i :: 0 <= i < |r| ==> PlaceholderHost + Colors[i % 5] + "/" <= r[i]
    ensures forall i :: 0 <= i < |r| ==> EndsWith(r[i], "+Photo+" + Decimal(i + 1))
  {
    seq(Count(count), i requires 0 <= i => ImageUrl(city, i))
  }

  /** Every photo URL of one call is different from every other. */
  lemma ImageUrlsDistinct(city: string, count: int, i: nat, j: nat)
    requires i < Count(count) && j < Count(count) && i != j
    ensures MockImageApi(city, count)[i] != MockImageApi(city, count)[j]
  {
    var ui, uj := ImageUrl(city, i), ImageUrl(city, j);
    if ui == uj {
      var k := |PlaceholderHost + Colors[i % 5] + "/FFFFFF?text=" + Title(city) + "+Photo+"|;
      assert |Colors[i % 5]| == 6 && |Colors[j % 5]| == 6;
      assert k == |PlaceholderHost + Colors[j % 5] + "/FFFFFF?text=" + Title(city) + "+Photo+"|;
      assert ui[k..] == Decimal(i + 1);
      assert uj[k..] == Decimal(j + 1);
      DecimalInjective(i + 1, j + 1);
    }
  }

  // ---------------------------------------------------------------------------
  // Web search
  // ---------------------------------------------------------------------------

  /** The fixed paragraphs `mock_web_search` appends after the quoted
      query and a colon. */
  const SearchNote: string :=
    "    \n"
    + "This is a city or location that may be lesser-known but has its own unique characteristics. \n"
    + "While detailed information may be limited, it represents a real place with local culture, \n"
    + "history, and community. For the most accurate and up-to-date information, visitors should \n"
    + "consult official tourism websites or local resources.\n"
    + "\n"
    + "Note: This is a simulated search result. In production, this would use real web search APIs \n"
    + "like Tavily, DuckDuckGo, or Google Custom Search to fetch actual current information."

  /** The words before the quoted query. */
  const SearchLead := "Based on web search results for "

  /** `'query'` */
  function Quote(query: string): string
  {
    "'" + query + "'"
  }

  /** `mock_web_search(query)`: a canned answer that quotes the query, then
      a colon and a line break, then the fixed note. */
  function MockWebSearch(query: string): (r: string)
    ensures SearchLead + Quote(query) <= r
    ensures EndsWith(r, ":\n" + SearchNote)
  {
    var r := SearchLead + Quote(query) + (":\n" + SearchNote);
    EndsWithConcat(SearchLead + Quote(query), ":\n" + SearchNote);
    r
  }

  /** Different queries get different answers: the query can be read back
      from the answer. */
  lemma WebSearchInjective(a: string, b: string)
    requires MockWebSearch(a) == MockWebSearch(b)
    ensures a == b
  {
    var ra, rb := MockWebSearch(a), MockWebSearch(b);
    assert ra[|SearchLead| + 1..|SearchLead| + 1 + |a|] == a;
    assert rb[|SearchLead| + 1..|SearchLead| + 1 + |b|] == b;
  }
}
