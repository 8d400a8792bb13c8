/** Requests against the seeded city table, followed through the whole
    agent. The stored prose of the three cities is left as a parameter: no
    answer depends on it beyond copying it. Each request text is likewise a
    parameter pinned by `requires request == "..."`: the lemmas mean the same
    as if the literal were written in, but the verifier then reasons about
    the text symbolically instead of evaluating long string literals
    character by character, which is far cheaper. */
module Scenarios {
  import opened Wrappers
  import opened Text
  import opened CityDatabase
  import opened MockApis
  import opened AgentState
  import opened Nodes
  import opened Graph
  import opened Agent

  /** The agent over the seeded table. */
  function SeedEnv(p: string, t: string, n: string, draws: WeatherDraws, order: CompletionOrder, now: string): Env
  {
    Env(SeedCities(p, t, n), draws, order, now)
  }

  /** A bare city name without the letters of the phrases is its own
      subject. */
  lemma BareCity(x: string)
    requires |x| > 0 && Stripped(x)
    requires 'l' !in x && 't' !in x && 'W' !in x && 'w' !in x
    ensures ExtractSubject(x) == x
  {
    NoPhraseWithoutLetters(x);
    ExtractWithoutPhrase(x);
    StripStripped(x);
  }

  /** "Paris" names itself, and is looked up under "paris". */
  lemma ParisKey(request: string)
    requires request == "Paris"
    ensures ExtractSubject(request) == request
    ensures Normalize(request) == "paris"
  {
    BareCity(request);
    NormalizePadded(request, "", "paris", "");
  }

  /** The seeded Paris record, with its prose. */
  function ParisInfo(summary: string): CityInfo
  {
    CityInfo("Paris", "France", summary, "2.2 million", "CET (UTC+1)")
  }

  /** The table holds the Paris record under "paris". */
  lemma SeedParis(p: string, t: string, n: string)
    ensures SeedCities(p, t, n)["paris"] == ParisInfo(p)
  {
  }

  /** The heading of the stored Paris summary. */
  lemma ParisHeading(p: string)
    ensures "## Paris, France\n" <= DatabaseSummary(ParisInfo(p))
  {
    var info := ParisInfo(p);
    assert "## " + info.name + ", " + info.country + "\n" == "## Paris, France\n";
  }

  /** "Paris" is answered from the seeded Paris record, whose summary is
      headed "## Paris, France", with the city's forecast and photos. */
  lemma ParisFromDatabase(request: string, p: string, t: string, n: string,
                          draws: WeatherDraws, order: CompletionOrder, now: string)
    requires request == "Paris" && 5 <= |draws.days|
    ensures Process(SeedEnv(p, t, n, draws, order, now), request)
              == Record(StructuredOutput(request, Some(DatabaseSummary(ParisInfo(p))),
                                         Some(MockWeatherApi(request, 5, draws)),
                                         Some(MockImageApi(request, 5)), now))
    ensures "## Paris, France\n" <= DatabaseSummary(ParisInfo(p))
  {
    ParisKey(request);
    SeedParis(p, t, n);
    ParisHeading(p);
    StoredCityAnswer(SeedEnv(p, t, n, draws, order, now), request, "paris");
  }

  /** "tell me about Tokyo" names Tokyo, looked up under "tokyo". */
  lemma TokyoKey(request: string, city: string)
    requires request == "tell me about Tokyo" && city == "Tokyo"
    ensures ExtractSubject(request) == city
    ensures Normalize(city) == "tokyo"
  {
    TokyoSubject(request, city);
    TokyoNormal(city);
  }

  lemma TokyoSubject(request: string, city: string)
    requires request == "tell me about Tokyo" && city == "Tokyo"
    ensures ExtractSubject(request) == city
  {
    assert request == TellLower + " " + city;
    BareCityAfterPhrase(request, city);
  }

  /** "tell me about " followed by a bare city name names that city. */
  lemma BareCityAfterPhrase(request: string, city: string)
    requires request == TellLower + " " + city && Stripped(city)
    requires 'l' !in city && 't' !in city && 'W' !in city && 'w' !in city
    ensures ExtractSubject(request) == city
  {
    NoPhraseWithoutLetters(city);
    ExtractAfterTellLower(city);
    StripStripped(city);
  }

  lemma TokyoNormal(city: string)
    requires city == "Tokyo"
    ensures Normalize(city) == "tokyo"
  {
    NormalizePadded(city, "", "tokyo", "");
  }

  /** The table holds the Tokyo record under "tokyo". */
  lemma SeedTokyo(p: string, t: string, n: string)
    ensures SeedCities(p, t, n)["tokyo"] == CityInfo("Tokyo", "Japan", t, "14 million", "JST (UTC+9)")
  {
  }

  /** "tell me about Tokyo" is answered from the seeded Tokyo record: only
      the phrase is dropped from the request. */
  lemma TokyoAfterPhrase(request: string, p: string, t: string, n: string,
                         draws: WeatherDraws, order: CompletionOrder, now: string)
    requires request == "tell me about Tokyo" && 5 <= |draws.days|
    ensures Process(SeedEnv(p, t, n, draws, order, now), request)
              == Record(StructuredOutput("Tokyo",
                                         Some(DatabaseSummary(CityInfo("Tokyo", "Japan", t, "14 million", "JST (UTC+9)"))),
                                         Some(MockWeatherApi("Tokyo", 5, draws)),
                                         Some(MockImageApi("Tokyo", 5)), now))
  {
    TokyoKey(request, "Tokyo");
    SeedTokyo(p, t, n);
    StoredCityAnswer(SeedEnv(p, t, n, draws, order, now), request, "tokyo");
  }

  /** "Snohomish" names itself and is not stored. */
  lemma SnohomishKey(request: string, p: string, t: string, n: string)
    requires request == "Snohomish"
    ensures ExtractSubject(request) == request
    ensures !HasCity(SeedCities(p, t, n), request)
  {
    BareCity(request);
    SeedLacksSnohomish(p, t, n);
  }

  /** "Snohomish" is answered from the web search. */
  lemma SnohomishFromWeb(request: string, p: string, t: string, n: string,
                         draws: WeatherDraws, order: CompletionOrder, now: string)
    requires request == "Snohomish" && 5 <= |draws.days|
    ensures Process(SeedEnv(p, t, n, draws, order, now), request)
              == Record(StructuredOutput(request, Some(WebSummary(request)),
                                         Some(MockWeatherApi(request, 5, draws)),
                                         Some(MockImageApi(request, 5)), now))
  {
    SnohomishKey(request, p, t, n);
    UnknownCityAnswer(SeedEnv(p, t, n, draws, order, now), request);
  }

  /** Empty text names the empty city, which no table row matches. */
  lemma EmptyKey(request: string, p: string, t: string, n: string)
    requires request == ""
    ensures ExtractSubject(request) == ""
    ensures !HasCity(SeedCities(p, t, n), "")
  {
    assert LStrip(request) == request && RStrip(request) == request;
    assert !Occurs(request, TellUpper) && !Occurs(request, TellLower);
    assert !Occurs(request, WhatUpper) && !Occurs(request, WhatLower);
    assert RemovePhrases(request) == request;
    assert Lower(request) == request;
    assert Normalize(request) == request;
  }

  /** Empty text is not rejected: the run takes the web branch for the empty
      city, reports no error, and answers with the web record for "". */
  lemma EmptyRequest(request: string, p: string, t: string, n: string,
                     draws: WeatherDraws, order: CompletionOrder, now: string)
    requires request == "" && 5 <= |draws.days|
    ensures var r := Invoke(AgentWorkflow(SeedEnv(p, t, n, draws, order, now)), InitialState(request));
      && r.visited == [ExtractCity, CheckDatabase, WebSearch, ParallelFetch, CombineResults]
      && r.final.error == Null
    ensures Process(SeedEnv(p, t, n, draws, order, now), request)
              == Record(StructuredOutput(request, Some(WebSummary(request)),
                                         Some(MockWeatherApi(request, 5, draws)),
                                         Some(MockImageApi(request, 5)), now))
  {
    var env := SeedEnv(p, t, n, draws, order, now);
    EmptyKey(request, p, t, n);
    ProcessTranscript(env, request);
    UnknownCityAnswer(env, request);
  }
}
