/** The node functions of the workflow and its routing function. Each node
    reads the state and returns a partial update (see `AgentState.Merge`). */
module Nodes {
  import opened Wrappers
  import opened Text
  import opened CityDatabase
  import opened MockApis
  import opened AgentState

  // ---------------------------------------------------------------------------
  // extract_city
  // ---------------------------------------------------------------------------

  /** The four phrases deleted from the user's text, in the order they are
      deleted. Matching is exact-case and anywhere in the text. */
  const TellUpper := "Tell me about"
  const TellLower := "tell me about"
  const WhatUpper := "What about"
  const WhatLower := "what about"

  /** None of the four phrases occurs in `x`. */
  predicate NoPhrase(x: string)
  {
    && !Occurs(x, TellUpper) && !Occurs(x, TellLower)
    && !Occurs(x, WhatUpper) && !Occurs(x, WhatLower)
  }

  /** The city named by a message: the stripped text with every exact-case
      occurrence of the four phrases deleted, stripped again. */
  function ExtractSubject(content: string): (city: string)
    ensures Stripped(city)
  {
    Strip(RemovePhrases(Strip(content)))
  }

  /** The four deletions, one after the other. */
  function RemovePhrases(t: string): (r: string)
    ensures |r| <= |t|
    ensures NoPhrase(t) ==> r == t
  {
    var r1 := Remove(t, TellUpper);
    var r2 := Remove(r1, TellLower);
    var r3 := Remove(r2, WhatUpper);
    Remove(r3, WhatLower)
  }

  function LastMessage(messages: seq<Message>): Message
    requires |messages| > 0
  {
    messages[|messages| - 1]
  }

  /** `extract_city_node`: reads the last message. With no messages it
      reports "No message provided"; when the last message is not the user's
      it reports "Invalid message format"; otherwise it writes the extracted
      city. It writes nothing else, and never both a city and an error. */
  function ExtractCityNode(s: State): (u: Update)
    ensures u.messages == [] && u.route.None? && u.citySummary.None? && u.lastCity.None?
    ensures u.weatherForecast.None? && u.imageUrls.None?
    ensures u.city.Some? <==> u.error.None?
    ensures |s.messages| == 0 ==> u.error == Some("No message provided")
    ensures |s.messages| > 0 && !LastMessage(s.messages).Human? ==>
              u.error == Some("Invalid message format")
    ensures |s.messages| > 0 && LastMessage(s.messages).Human? ==>
              u.city == Some(ExtractSubject(LastMessage(s.messages).content))
    ensures u.city.Some? ==> Stripped(u.city.value)
  {
    if |s.messages| == 0 then
      NoUpdate.(error := Some("No message provided"))
    else
      match LastMessage(s.messages)
      case Human(content) => NoUpdate.(city := Some(ExtractSubject(content)))
      case _ => NoUpdate.(error := Some("Invalid message format"))
  }

  /** None of the four phrases begins with a space. */
  lemma SpaceStartsNoPhrase(x: string)
    requires NoPhrase(x)
    ensures NoPhrase(" " + x)
  {
    NoOccurrenceAfter(" ", x, TellUpper);
    NoOccurrenceAfter(" ", x, TellLower);
    NoOccurrenceAfter(" ", x, WhatUpper);
    NoOccurrenceAfter(" ", x, WhatLower);
  }

  lemma NoPhraseInPrefix(x: string, k: nat)
    requires NoPhrase(x) && k <= |x|
    ensures NoPhrase(x[..k])
  {
    NoOccurrenceInPrefix(x, TellUpper, k);
    NoOccurrenceInPrefix(x, TellLower, k);
    NoOccurrenceInPrefix(x, WhatUpper, k);
    NoOccurrenceInPrefix(x, WhatLower, k);
  }

  lemma NoPhraseInSuffix(x: string, k: nat)
    requires NoPhrase(x) && k <= |x|
    ensures NoPhrase(x[k..])
  {
    NoOccurrenceInSuffix(x, TellUpper, k);
    NoOccurrenceInSuffix(x, TellLower, k);
    NoOccurrenceInSuffix(x, WhatUpper, k);
    NoOccurrenceInSuffix(x, WhatLower, k);
  }

  /** `rstrip(" " + x)` is free of the phrases. */
  lemma PaddedTailNoPhrase(x: string)
    requires NoPhrase(x)
    ensures NoPhrase(RStrip(" " + x))
  {
    SpaceStartsNoPhrase(x);
    NoPhraseInPrefix(" " + x, |RStrip(" " + x)|);
  }

  /** `rstrip(" " + x)` strips to `strip(x)`. */
  lemma PaddedTailStrip(x: string)
    ensures Strip(RStrip(" " + x)) == Strip(x)
  {
    StripAfterRStrip(" " + x);
    SingleSpace(" ");
    StripPaddedLeft(" ", x);
  }

  /** A text with none of the phrases is only stripped. */
  lemma {:induction false} ExtractWithoutPhrase(x: string)
    requires NoPhrase(x)
    ensures ExtractSubject(x) == Strip(x)
  {
    var l := LStrip(x);
    NoPhraseInSuffix(x, |x| - |l|);
    NoPhraseInPrefix(l, |RStrip(l)|);
    StripIdempotent(x);
  }

  /** Deleting the phrases from "tell me about" followed by phrase-free
      text leaves that text. */
  lemma RemovePhrasesAfterTellLower(q: string)
    requires NoPhrase(q)
    ensures RemovePhrases(TellLower + q) == q
  {
    assert TellUpper[0] !in TellLower;
    NoOccurrenceAfter(TellLower, q, TellUpper);
    RemoveLeading(TellLower, q);
  }

  /** Deleting the phrases from "Tell me about" followed by phrase-free
      text leaves that text. */
  lemma RemovePhrasesAfterTellUpper(q: string)
    requires NoPhrase(q)
    ensures RemovePhrases(TellUpper + q) == q
  {
    RemoveLeading(TellUpper, q);
  }

  /** A phrase followed by a space and `x` strips to the phrase followed by
      `rstrip(" " + x)`. */
  lemma StripAfterPhrase(p: string, x: string)
    requires p == TellLower || p == TellUpper
    ensures Strip(p + " " + x) == p + RStrip(" " + x)
  {
    assert p + " " + x == p + (" " + x);
    StripAfterWord(p, " " + x);
  }

  /** "tell me about X" names the city `X.strip()`, for any X that contains
      none of the four phrases: only the opening phrase is deleted. */
  lemma ExtractAfterTellLower(x: string)
    requires NoPhrase(x)
    ensures ExtractSubject(TellLower + " " + x) == Strip(x)
  {
    PaddedTailNoPhrase(x);
    PaddedTailStrip(x);
    StripAfterPhrase(TellLower, x);
    RemovePhrasesAfterTellLower(RStrip(" " + x));
  }

  /** "Tell me about X" names the city `X.strip()`, for any X that contains
      none of the four phrases. */
  lemma ExtractAfterTellUpper(x: string)
    requires NoPhrase(x)
    ensures ExtractSubject(TellUpper + " " + x) == Strip(x)
  {
    PaddedTailNoPhrase(x);
    PaddedTailStrip(x);
    StripAfterPhrase(TellUpper, x);
    RemovePhrasesAfterTellUpper(RStrip(" " + x));
  }

  /** Text lacking the letters 'l', 't', 'W' and 'w' holds none of the
      phrases. */
  lemma NoPhraseWithoutLetters(x: string)
    requires 'l' !in x && 't' !in x && 'W' !in x && 'w' !in x
    ensures NoPhrase(x)
  {
    NoOccurrenceWithoutChar(x, TellUpper, 2);
    NoOccurrenceWithoutChar(x, TellLower, 0);
    NoOccurrenceWithoutChar(x, WhatUpper, 0);
    NoOccurrenceWithoutChar(x, WhatLower, 0);
  }

  /** The upper-case prefix "TELL ME ABOUT " cannot complete any of the
      phrases: it holds no 't', 'W' or 'w', and each of its two 'T's is
      followed by 'E' or ' ' rather than the 'e' of "Tell me about". */
  lemma ShoutedPrefixNoPhrase(shout: string, x: string)
    requires shout == "TELL ME ABOUT "
    requires NoPhrase(x)
    ensures NoPhrase(shout + x)
  {
    assert forall i :: 0 <= i < |shout| && shout[i] == TellUpper[0] ==>
      i + 1 < |shout| && shout[i + 1] != TellUpper[1];
    NoOccurrenceAfterGuarded(shout, x, TellUpper);
    assert TellLower[0] !in shout && WhatUpper[0] !in shout && WhatLower[0] !in shout;
    NoOccurrenceAfter(shout, x, TellLower);
    NoOccurrenceAfter(shout, x, WhatUpper);
    NoOccurrenceAfter(shout, x, WhatLower);
  }

  /** Other casings of a phrase are kept: "TELL ME ABOUT " followed by any
      text free of the four phrases extracts to the stripped whole, which
      for a stripped, non-empty city name is the text itself. (The prefix is
      a parameter pinned by the precondition, which keeps the proof from
      evaluating the literal.) */
  lemma ExtractKeepsOtherCasing(shout: string, city: string)
    requires shout == "TELL ME ABOUT "
    requires NoPhrase(city)
    ensures ExtractSubject(shout + city) == Strip(shout + city)
    ensures |city| > 0 && Stripped(city) ==> ExtractSubject(shout + city) == shout + city
  {
    var x := shout + city;
    ShoutedPrefixNoPhrase(shout, city);
    ExtractWithoutPhrase(x);
    if |city| > 0 && Stripped(city) {
      StrippedAfterWord(shout, city);
      StripStripped(x);
    }
  }

  // ---------------------------------------------------------------------------
  // check_database and the router
  // ---------------------------------------------------------------------------

  /** `check_database_node`: the single decision point. It writes only the
      route: "database" exactly when the city is a stored city, "web"
      otherwise. */
  function CheckDatabaseNode(db: Cities, s: State): (u: Update)
    ensures u.route == Some(Database) <==> HasCity(db, s.city)
    ensures u.route == Some(Web) <==> !HasCity(db, s.city)
    ensures u.(route := None) == NoUpdate
  {
    if HasCity(db, s.city) then NoUpdate.(route := Some(Database))
    else NoUpdate.(route := Some(Web))
  }

  /** `route_based_on_check`: the stored route; "web" only when the key is
      missing. A stored `None` comes back as `None`, which names no edge. */
  function RouteBasedOnCheck(s: State): (r: Option<Route>)
    ensures s.route.Set? ==> r == Some(s.route.value)
    ensures s.route.Absent? ==> r == Some(Web)
    ensures s.route.Null? ==> r.None?
  {
    s.route.Get(Web)
  }

  /** Once the decision node has run, the router always names an edge, and
      names the database branch exactly when the city is stored. */
  lemma RoutingTotalAndExclusive(db: Cities, s: State)
    ensures RouteBasedOnCheck(Merge(s, CheckDatabaseNode(db, s))).Some?
    ensures (RouteBasedOnCheck(Merge(s, CheckDatabaseNode(db, s))) == Some(Database))
              <==> HasCity(db, s.city)
    ensures (RouteBasedOnCheck(Merge(s, CheckDatabaseNode(db, s))) == Some(Web))
              <==> !HasCity(db, s.city)
  {
  }

  // ---------------------------------------------------------------------------
  // The two branches
  // ---------------------------------------------------------------------------

  /** The Markdown summary of a stored city: a "## name, country" heading,
      the stored prose, and the population and timezone lines. */
  function DatabaseSummary(info: CityInfo): (r: string)
    ensures "## " + info.name + ", " + info.country + "\n" <= r
    ensures Occurs(r, "**Population:** " + info.population + "\n")
    ensures EndsWith(r, "**Timezone:** " + info.timezone + "\n")
  {
    var heading := "## " + info.name + ", " + info.country + "\n";
    var body := "\n" + info.summary + "\n\n";
    var population := "**Population:** " + info.population + "\n";
    var timezone := "**Timezone:** " + info.timezone + "\n";
    SummaryShape(heading, body, population, timezone);
    heading + body + population + timezone
  }

  /** A text assembled from four parts starts with the first, contains the
      third and ends with the fourth. */
  lemma SummaryShape(a: string, b: string, c: string, d: string)
    ensures a <= a + b + c + d
    ensures Occurs(a + b + c + d, c)
    ensures EndsWith(a + b + c + d, d)
  {
    OccursFramed(a + b, c, d);
    EndsWithConcat(a + b + c, d);
  }

  /** `get_from_database_node`: for a stored city, a summary headed
      "## name, country" that carries the population and timezone lines,
      and one message; otherwise the error "Database lookup failed for
      <city>" and no summary. */
  function GetFromDatabaseNode(db: Cities, s: State): (u: Update)
    ensures u.city.None? && u.route.None? && u.lastCity.None?
    ensures u.weatherForecast.None? && u.imageUrls.None?
    ensures Search(db, s.city).Some? ==>
              && u.error.None?
              && u.citySummary == Some(DatabaseSummary(Search(db, s.city).value))
              && u.messages == [Ai("Found information about " + Search(db, s.city).value.name + " in database")]
    ensures Search(db, s.city).None? ==>
              && u.error == Some("Database lookup failed for " + s.city)
              && u.citySummary.None?
              && u.messages == []
  {
    match Search(db, s.city)
    case Some(info) =>
      NoUpdate.(
        citySummary := Some(DatabaseSummary(info)),
        messages := [Ai("Found information about " + info.name + " in database")])
    case None =>
      NoUpdate.(error := Some("Database lookup failed for " + s.city))
  }

  const WebProvenance := "*Information retrieved from web search*"

  /** The Markdown summary built around a web-search answer: a "## city"
      heading, the answer, and the provenance line. */
  function SearchSummary(city: string, answer: string): (r: string)
    ensures "## " + city + "\n\n" + answer <= r
    ensures EndsWith(r, "\n" + WebProvenance + "\n")
  {
    var r := "## " + city + "\n\n" + answer + "\n\n" + WebProvenance + "\n";
    AnswerFramed("## " + city + "\n\n", answer, [], [], WebProvenance);
    r
  }

  /** The summary `web_search_node` writes for `city`. */
  function WebSummary(city: string): string
  {
    SearchSummary(city, MockWebSearch(city))
  }

  /** The web summary quotes the city it was asked about. */
  lemma WebSummaryQuotesCity(city: string)
    ensures Occurs(WebSummary(city), Quote(city))
  {
    AnswerFramed("## " + city + "\n\n", MockWebSearch(city), SearchLead, Quote(city), WebProvenance);
  }

  /** An answer placed after a heading and followed by a blank line and a
      closing line: the result starts with heading and answer, contains
      whatever opens the answer, and ends with the closing line. */
  lemma AnswerFramed(heading: string, answer: string, lead: string, p: string, closing: string)
    requires lead + p <= answer
    ensures heading + answer <= heading + answer + "\n\n" + closing + "\n"
    ensures Occurs(heading + answer + "\n\n" + closing + "\n", p)
    ensures EndsWith(heading + answer + "\n\n" + closing + "\n", "\n" + closing + "\n")
  {
    var r := heading + answer + "\n\n" + closing + "\n";
    var rest := answer[|lead + p|..];
    assert answer == lead + p + rest;
    assert r == (heading + lead) + p + (rest + "\n\n" + closing + "\n");
    OccursFramed(heading + lead, p, rest + "\n\n" + closing + "\n");
    assert r == (heading + answer + "\n") + ("\n" + closing + "\n");
    EndsWithConcat(heading + answer + "\n", "\n" + closing + "\n");
  }

  /** `web_search_node`: never reports an error; writes the web summary and
      appends exactly one message. */
  function WebSearchNode(s: State): (u: Update)
    ensures u.error.None? && u.city.None? && u.route.None? && u.lastCity.None?
    ensures u.weatherForecast.None? && u.imageUrls.None?
    ensures u.citySummary == Some(SearchSummary(s.city, MockWebSearch(s.city)))
    ensures u.messages == [Ai("Searched web for information about " + s.city)]
  {
    NoUpdate.(
      citySummary := Some(WebSummary(s.city)),
      messages := [Ai("Searched web for information about " + s.city)])
  }

  // ---------------------------------------------------------------------------
  // parallel_fetch
  // ---------------------------------------------------------------------------

  /** Which of the two concurrent producers finishes first. */
  datatype CompletionOrder = WeatherFirst | ImagesFirst

  /** A finished producer call, tagged with the producer. */
  datatype Completion = WeatherDone(forecast: seq<DayForecast>) | ImagesDone(urls: seq<string>)

  /** The completions of the two calls, in the order they finish. */
  function Completions(order: CompletionOrder, forecast: seq<DayForecast>, urls: seq<string>): seq<Completion>
  {
    match order
    case WeatherFirst => [WeatherDone(forecast), ImagesDone(urls)]
    case ImagesFirst => [ImagesDone(urls), WeatherDone(forecast)]
  }

  /** `asyncio.gather(weather_task, images_task)`: the results in the order
      the tasks were passed, whatever order they finished in. */
  function Gather(done: seq<Completion>): (r: (seq<DayForecast>, seq<string>))
    requires |done| == 2 && (done[0].WeatherDone? <==> done[1].ImagesDone?)
    ensures forall order, f, u :: done == Completions(order, f, u) ==> r == (f, u)
  {
    if done[0].WeatherDone? then (done[0].forecast, done[1].urls)
    else (done[1].forecast, done[0].urls)
  }

  /** `parallel_fetch_node`: both producers are run for the city (five days,
      five photos) and their results written together, with one message.
      The weather producer's randomness and clock are `draws`. */
  function ParallelFetchNode(s: State, draws: WeatherDraws, order: CompletionOrder): (u: Update)
    requires 5 <= |draws.days|
    ensures u.error.None? && u.city.None? && u.route.None? && u.lastCity.None?
    ensures u.citySummary.None?
    ensures u.weatherForecast == Some(MockWeatherApi(s.city, 5, draws))
    ensures u.imageUrls == Some(MockImageApi(s.city, 5))
    ensures |u.weatherForecast.value| == 5 && |u.imageUrls.value| == 5
    ensures u.messages == [Ai("Fetched weather and images for " + s.city)]
  {
    var results := Gather(Completions(order, MockWeatherApi(s.city, 5, draws), MockImageApi(s.city, 5)));
    NoUpdate.(
      weatherForecast := Some(results.0),
      imageUrls := Some(results.1),
      messages := [Ai("Fetched weather and images for " + s.city)])
  }

  /** The fan-out's update does not depend on which producer finishes first. */
  lemma ParallelFetchOrderIndependent(s: State, draws: WeatherDraws)
    requires 5 <= |draws.days|
    ensures ParallelFetchNode(s, draws, WeatherFirst) == ParallelFetchNode(s, draws, ImagesFirst)
  {
  }

  // ---------------------------------------------------------------------------
  // combine_results
  // ---------------------------------------------------------------------------

  /** The structured record of the current state, stamped with `now`. */
  function Structured(s: State, now: string): StructuredOutput
  {
    StructuredOutput(
      s.city,
      s.citySummary.Get("No summary available"),
      s.weatherForecast.Get([]),
      s.imageUrls.Get([]),
      now)
  }

  /** `combine_results_node`: appends one message carrying the structured
      record and remembers the city as `last_city`. The record's summary,
      forecast and photos default to "No summary available", [] and [] only
      when those keys are missing from the state. */
  function CombineResultsNode(s: State, now: string): (u: Update)
    ensures u.lastCity == Some(s.city)
    ensures u.error.None? && u.city.None? && u.route.None? && u.citySummary.None?
    ensures u.weatherForecast.None? && u.imageUrls.None?
    ensures |u.messages| == 1 && u.messages[0].AiRecord?
    ensures var r := u.messages[0].record;
      && r.city == s.city
      && r.timestamp == now
      && (s.citySummary.Set? ==> r.citySummary == Some(s.citySummary.value))
      && (s.citySummary.Absent? ==> r.citySummary == Some("No summary available"))
      && (s.citySummary.Null? ==> r.citySummary.None?)
      && (s.weatherForecast.Set? ==> r.weatherForecast == Some(s.weatherForecast.value))
      && (s.weatherForecast.Absent? ==> r.weatherForecast == Some([]))
      && (s.weatherForecast.Null? ==> r.weatherForecast.None?)
      && (s.imageUrls.Set? ==> r.imageUrls == Some(s.imageUrls.value))
      && (s.imageUrls.Absent? ==> r.imageUrls == Some([]))
      && (s.imageUrls.Null? ==> r.imageUrls.None?)
  {
    NoUpdate.(
      messages := [AiRecord(Structured(s, now))],
      lastCity := Some(s.city))
  }
}
