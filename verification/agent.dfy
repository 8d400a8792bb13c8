/** The travel agent of main.py: the six nodes wired into the workflow, and
    `process_async`, which runs the workflow from a fresh state and reads the
    structured record back. */
module Agent {
  import opened Wrappers
  import opened CityDatabase
  import opened MockApis
  import opened AgentState
  import opened Nodes
  import opened Graph

  /** What the nodes read from outside the state: the city table, the weather
      producer's draws, the order in which the two producers finish, and the
      clock reading `datetime.now().isoformat()` yields. */
  datatype Env = Env(db: Cities, draws: WeatherDraws, order: CompletionOrder, now: string)

  /** The weather producer is asked for five days, so five days of draws
      must be available. */
  predicate ValidEnv(env: Env)
  {
    5 <= |env.draws.days|
  }

  /** The nodes `build_agent_graph` registers, under their labels. */
  function AgentWorkflow(env: Env): Workflow
    requires ValidEnv(env)
  {
    Workflow(
      s => ExtractCityNode(s),
      s => CheckDatabaseNode(env.db, s),
      s => GetFromDatabaseNode(env.db, s),
      s => WebSearchNode(s),
      s => ParallelFetchNode(s, env.draws, env.order),
      s => CombineResultsNode(s, env.now))
  }

  /** `w` runs the agent's nodes: each of its six functions is the node
      `build_agent_graph` registers under that label. */
  ghost predicate Wired(w: Workflow, env: Env)
  {
    && ValidEnv(env)
    && (forall s :: w.extractCity(s) == ExtractCityNode(s))
    && (forall s :: w.checkDatabase(s) == CheckDatabaseNode(env.db, s))
    && (forall s :: w.getFromDatabase(s) == GetFromDatabaseNode(env.db, s))
    && (forall s :: w.webSearch(s) == WebSearchNode(s))
    && (forall s :: w.parallelFetch(s) == ParallelFetchNode(s, env.draws, env.order))
    && (forall s :: w.combineResults(s) == CombineResultsNode(s, env.now))
  }

  /** Helper: the workflow built above is wired to the agent's nodes. */
  lemma AgentWired(env: Env)
    requires ValidEnv(env)
    ensures Wired(AgentWorkflow(env), env)
  {
  }

  /** The agent's decision node always names a route, and it names the
      database branch exactly when the city is stored. */
  lemma WiredDecisive(w: Workflow, env: Env)
    requires Wired(w, env)
    ensures Decisive(w)
    ensures forall s :: (BranchOf(w, s) == GetFromDatabase) <==> HasCity(env.db, AfterExtract(w, s).city)
  {
  }

  /** What `process_async` returns. `Record` is the combine node's record,
      read back from the last message; `Fallback` holds the state fields
      when the last message is not that record; `AgentError` stands for the
      error dictionary returned when the run raises. */
  datatype Response =
    | Record(record: StructuredOutput)
    | Fallback(
        city: string,
        citySummary: Option<string>,
        weatherForecast: Option<seq<DayForecast>>,
        imageUrls: Option<seq<string>>,
        error: Option<string>)
    | AgentError

  /** `result.get("error")`: `None` whether the key is missing or holds `None`. */
  function ErrorField(slot: Slot<string>): (e: Option<string>)
    ensures e.Some? <==> slot.Set?
    ensures slot.Set? ==> e.value == slot.value
  {
    if slot.Set? then Some(slot.value) else None
  }

  /** The tail of `process_async`: a run that raised gives the error
      dictionary; a final AI message that parses gives the record it carries;
      anything else gives the state fields, with "", [] and [] for missing
      keys. Only the combine node's message parses: the other AI messages
      are plain sentences. */
  function Respond(r: RunResult): (resp: Response)
    ensures !r.completed <==> resp.AgentError?
    ensures r.completed && |r.final.messages| > 0 && LastMessage(r.final.messages).AiRecord? ==>
              resp == Record(LastMessage(r.final.messages).record)
    ensures resp.Fallback? ==>
              && resp.city == r.final.city
              && resp.citySummary == r.final.citySummary.Get("")
              && resp.weatherForecast == r.final.weatherForecast.Get([])
              && resp.imageUrls == r.final.imageUrls.Get([])
              && (resp.error.Some? <==> r.final.error.Set?)
              && (r.final.error.Set? ==> resp.error.value == r.final.error.value)
    ensures r.completed && !(|r.final.messages| > 0 && LastMessage(r.final.messages).AiRecord?) ==>
              resp.Fallback?
  {
    if !r.completed then AgentError
    else if |r.final.messages| > 0 && LastMessage(r.final.messages).AiRecord? then
      Record(LastMessage(r.final.messages).record)
    else
      var t := r.final;
      Fallback(t.city, t.citySummary.Get(""), t.weatherForecast.Get([]), t.imageUrls.Get([]), ErrorField(t.error))
  }

  /** `process_async(user_input)`: run the workflow from the initial state
      and read the answer back. */
  function Process(env: Env, userInput: string): Response
    requires ValidEnv(env)
  {
    Respond(Invoke(AgentWorkflow(env), InitialState(userInput)))
  }

  // ---------------------------------------------------------------------------
  // The answer, stated without the graph
  // ---------------------------------------------------------------------------

  /** The summary a run writes for `city`: the stored one when the city is in
      the table, the web one otherwise. */
  function ExpectedSummary(db: Cities, city: string): string
  {
    if HasCity(db, city) then DatabaseSummary(Search(db, city).value) else WebSummary(city)
  }

  /** The record a run produces for `city`, written directly from the
      producers: its summary, five forecast days, five photos and the clock
      reading. */
  function RecordFor(env: Env, city: string): StructuredOutput
    requires ValidEnv(env)
  {
    StructuredOutput(
      city,
      Some(ExpectedSummary(env.db, city)),
      Some(MockWeatherApi(city, 5, env.draws)),
      Some(MockImageApi(city, 5)),
      env.now)
  }

  /** The record a request should produce: the record for the city named
      in the text. */
  function ExpectedRecord(env: Env, userInput: string): StructuredOutput
    requires ValidEnv(env)
  {
    RecordFor(env, ExtractSubject(userInput))
  }

  /** The message the selected branch appends for `city`. */
  function BranchMessage(db: Cities, city: string): Message
  {
    if HasCity(db, city) then Ai("Found information about " + Search(db, city).value.name + " in database")
    else Ai("Searched web for information about " + city)
  }

  /** The branch node the decision node selects for `city`. */
  function BranchFor(db: Cities, city: string): Node
  {
    if HasCity(db, city) then GetFromDatabase else WebSearch
  }

  // ---------------------------------------------------------------------------
  // One step at a time
  // ---------------------------------------------------------------------------

  /** The extract node with the user's text last writes the city it names
      and nothing else. */
  lemma ExtractEffect(s: State)
    requires |s.messages| > 0 && LastMessage(s.messages).Human?
    ensures Merge(s, ExtractCityNode(s)) == s.(city := ExtractSubject(LastMessage(s.messages).content))
  {
    assert s.messages + [] == s.messages;
  }

  /** The extract node with no message, or with a last message that is not
      the user's, writes the error and nothing else. */
  lemma ExtractErrorEffect(s: State)
    requires |s.messages| == 0 || !LastMessage(s.messages).Human?
    ensures |s.messages| == 0 ==> Merge(s, ExtractCityNode(s)) == s.(error := Set("No message provided"))
    ensures |s.messages| > 0 ==> Merge(s, ExtractCityNode(s)) == s.(error := Set("Invalid message format"))
  {
    assert s.messages + [] == s.messages;
  }

  lemma ExtractStep(w: Workflow, env: Env, s: State)
    requires Wired(w, env)
    requires |s.messages| > 0 && LastMessage(s.messages).Human?
    ensures AfterExtract(w, s) == s.(city := ExtractSubject(LastMessage(s.messages).content))
  {
    assert w.extractCity(s) == ExtractCityNode(s);
    ExtractEffect(s);
  }

  lemma ExtractStepError(w: Workflow, env: Env, s: State)
    requires Wired(w, env)
    requires |s.messages| == 0 || !LastMessage(s.messages).Human?
    ensures |s.messages| == 0 ==> AfterExtract(w, s) == s.(error := Set("No message provided"))
    ensures |s.messages| > 0 ==> AfterExtract(w, s) == s.(error := Set("Invalid message format"))
  {
    assert w.extractCity(s) == ExtractCityNode(s);
    ExtractErrorEffect(s);
  }

  /** The decision node changes only the route. */
  lemma CheckStep(db: Cities, s: State)
    ensures var t := Merge(s, CheckDatabaseNode(db, s));
      t.messages == s.messages && t.city == s.city && t.error == s.error
  {
    assert s.messages + [] == s.messages;
  }

  /** The database branch, for a stored city, adds the stored summary and
      its message, and leaves the city and the error slot alone. */
  lemma DatabaseEffect(db: Cities, s: State)
    requires HasCity(db, s.city)
    ensures var t := Merge(s, GetFromDatabaseNode(db, s));
      && t.city == s.city
      && t.citySummary == Set(ExpectedSummary(db, s.city))
      && t.messages == s.messages + [BranchMessage(db, s.city)]
      && t.error == s.error
  {
    assert Search(db, s.city).Some?;
  }

  /** The web branch adds the web summary and its message, and leaves the
      city and the error slot alone. */
  lemma WebEffect(db: Cities, s: State)
    requires !HasCity(db, s.city)
    ensures var t := Merge(s, WebSearchNode(s));
      && t.city == s.city
      && t.citySummary == Set(ExpectedSummary(db, s.city))
      && t.messages == s.messages + [BranchMessage(db, s.city)]
      && t.error == s.error
  {
  }

  /** The decision node selects the database branch exactly for a stored
      city. */
  lemma BranchChoice(w: Workflow, env: Env, s: State)
    requires Wired(w, env)
    ensures Decisive(w)
    ensures BranchOf(w, s) == BranchFor(env.db, AfterExtract(w, s).city)
    ensures AfterCheck(w, s) == Merge(AfterExtract(w, s), CheckDatabaseNode(env.db, AfterExtract(w, s)))
  {
    WiredDecisive(w, env);
  }

  /** After the selected branch: the summary and its message are added, the
      city and the error slot are untouched. */
  lemma BranchStep(w: Workflow, env: Env, s: State)
    requires Wired(w, env)
    ensures Decisive(w)
    ensures var s1 := AfterExtract(w, s);
      && BranchOf(w, s) == BranchFor(env.db, s1.city)
      && AfterBranch(w, s).city == s1.city
      && AfterBranch(w, s).citySummary == Set(ExpectedSummary(env.db, s1.city))
      && AfterBranch(w, s).messages == s1.messages + [BranchMessage(env.db, s1.city)]
      && AfterBranch(w, s).error == s1.error
  {
    BranchChoice(w, env, s);
    var s1 := AfterExtract(w, s);
    CheckStep(env.db, s1);
    if HasCity(env.db, s1.city) {
      DatabaseBranchStep(w, env, s);
    } else {
      WebBranchStep(w, env, s);
    }
  }

  lemma DatabaseBranchStep(w: Workflow, env: Env, s: State)
    requires Wired(w, env) && Decisive(w)
    requires HasCity(env.db, AfterCheck(w, s).city)
    requires BranchOf(w, s) == GetFromDatabase
    ensures var s2 := AfterCheck(w, s);
      && AfterBranch(w, s).city == s2.city
      && AfterBranch(w, s).citySummary == Set(ExpectedSummary(env.db, s2.city))
      && AfterBranch(w, s).messages == s2.messages + [BranchMessage(env.db, s2.city)]
      && AfterBranch(w, s).error == s2.error
  {
    var s2 := AfterCheck(w, s);
    assert AfterBranch(w, s) == Merge(s2, GetFromDatabaseNode(env.db, s2));
    DatabaseEffect(env.db, s2);
  }

  lemma WebBranchStep(w: Workflow, env: Env, s: State)
    requires Wired(w, env) && Decisive(w)
    requires !HasCity(env.db, AfterCheck(w, s).city)
    requires BranchOf(w, s) == WebSearch
    ensures var s2 := AfterCheck(w, s);
      && AfterBranch(w, s).city == s2.city
      && AfterBranch(w, s).citySummary == Set(ExpectedSummary(env.db, s2.city))
      && AfterBranch(w, s).messages == s2.messages + [BranchMessage(env.db, s2.city)]
      && AfterBranch(w, s).error == s2.error
  {
    var s2 := AfterCheck(w, s);
    assert AfterBranch(w, s) == Merge(s2, WebSearchNode(s2));
    WebEffect(env.db, s2);
  }

  /** The fan-out writes the forecast and the photos for the city and one
      message, and changes nothing else that the record reads. */
  lemma FetchEffect(draws: WeatherDraws, order: CompletionOrder, s: State)
    requires 5 <= |draws.days|
    ensures var t := Merge(s, ParallelFetchNode(s, draws, order));
      && t.messages == s.messages + [Ai("Fetched weather and images for " + s.city)]
      && t.weatherForecast == Set(MockWeatherApi(s.city, 5, draws))
      && t.imageUrls == Set(MockImageApi(s.city, 5))
      && t.city == s.city && t.citySummary == s.citySummary && t.error == s.error
  {
  }

  /** The combine node appends the record of the summary, forecast and
      photos in the state, and remembers the city. */
  lemma CombineEffect(now: string, s: State, summary: string, forecast: seq<DayForecast>, urls: seq<string>)
    requires s.citySummary == Set(summary) && s.weatherForecast == Set(forecast) && s.imageUrls == Set(urls)
    ensures var t := Merge(s, CombineResultsNode(s, now));
      && t.messages == s.messages + [AiRecord(StructuredOutput(s.city, Some(summary), Some(forecast), Some(urls), now))]
      && t.lastCity == Set(s.city)
      && t.city == s.city && t.error == s.error
  {
  }

  /** The last two nodes, after a branch that wrote `summary`. */
  lemma FinishEffect(env: Env, s: State, summary: string)
    requires ValidEnv(env)
    requires s.citySummary == Set(summary)
    ensures var t := Merge(s, ParallelFetchNode(s, env.draws, env.order));
      var u := Merge(t, CombineResultsNode(t, env.now));
      var rec := StructuredOutput(s.city, Some(summary), Some(MockWeatherApi(s.city, 5, env.draws)),
                                  Some(MockImageApi(s.city, 5)), env.now);
      && u.messages == s.messages + [Ai("Fetched weather and images for " + s.city), AiRecord(rec)]
      && u.error == s.error
      && u.lastCity == Set(s.city)
      && u.city == s.city
  {
    var t := Merge(s, ParallelFetchNode(s, env.draws, env.order));
    FetchEffect(env.draws, env.order, s);
    CombineEffect(env.now, t, summary, MockWeatherApi(s.city, 5, env.draws), MockImageApi(s.city, 5));
  }

  // ---------------------------------------------------------------------------
  // Whole runs
  // ---------------------------------------------------------------------------

  /** The extract node appends no message. */
  lemma ExtractKeepsMessages(w: Workflow, env: Env, s: State)
    requires Wired(w, env)
    ensures AfterExtract(w, s).messages == s.messages
  {
    assert s.messages + [] == s.messages;
  }

  /** The state a run ends in, node by node. */
  lemma WiredFinal(w: Workflow, env: Env, s: State)
    requires Wired(w, env)
    ensures Decisive(w)
    ensures var s1 := AfterExtract(w, s);
      && BranchOf(w, s) == BranchFor(env.db, s1.city)
      && AfterCombine(w, s).messages
           == s1.messages + [BranchMessage(env.db, s1.city)]
              + [Ai("Fetched weather and images for " + s1.city), AiRecord(RecordFor(env, s1.city))]
      && AfterCombine(w, s).error == s1.error
      && AfterCombine(w, s).lastCity == Set(s1.city)
      && AfterCombine(w, s).city == s1.city
  {
    BranchStep(w, env, s);
    var s1 := AfterExtract(w, s);
    var s3 := AfterBranch(w, s);
    assert AfterFetch(w, s) == Merge(s3, ParallelFetchNode(s3, env.draws, env.order));
    FinishEffect(env, s3, ExpectedSummary(env.db, s1.city));
  }

  /** Every run of the agent, from any state, reaches `END` through one
      branch and appends three messages: the branch's, the fan-out's and the
      record for the city the extract node left in the state. The error the
      extract node may have reported is kept, not acted on. */
  lemma WiredRun(w: Workflow, env: Env, s: State)
    requires Wired(w, env)
    ensures var s1 := AfterExtract(w, s);
      && Invoke(w, s).completed
      && Invoke(w, s).visited
           == [ExtractCity, CheckDatabase, BranchFor(env.db, s1.city), ParallelFetch, CombineResults]
      && Invoke(w, s).final.messages
           == s.messages + [BranchMessage(env.db, s1.city),
                            Ai("Fetched weather and images for " + s1.city),
                            AiRecord(RecordFor(env, s1.city))]
      && Invoke(w, s).final.error == s1.error
      && Invoke(w, s).final.lastCity == Set(s1.city)
      && Invoke(w, s).final.city == s1.city
  {
    WiredFinal(w, env, s);
    RunShape(w, s);
    ExtractKeepsMessages(w, env, s);
    var c := AfterExtract(w, s).city;
    AppendThree(s.messages, BranchMessage(env.db, c),
                Ai("Fetched weather and images for " + c), AiRecord(RecordFor(env, c)));
  }

  lemma AppendThree(xs: seq<Message>, a: Message, b: Message, c: Message)
    ensures xs + [a] + [b, c] == xs + [a, b, c]
  {
  }

  /** The answer is the last of three appended messages. */
  lemma RespondToRun(r: RunResult, xs: seq<Message>, a: Message, b: Message, rec: StructuredOutput)
    requires r.completed && r.final.messages == xs + [a, b, AiRecord(rec)]
    ensures Respond(r) == Record(rec)
  {
    assert LastMessage(r.final.messages) == AiRecord(rec);
  }

  // ---------------------------------------------------------------------------
  // process_async
  // ---------------------------------------------------------------------------

  /** Every request is answered with the record for the city its text
      names: the run never raises, and the structured record is read back
      from the last message. */
  lemma ProcessRecord(env: Env, userInput: string)
    requires ValidEnv(env)
    ensures Process(env, userInput) == Record(ExpectedRecord(env, userInput))
  {
    var w := AgentWorkflow(env);
    var s0 := InitialState(userInput);
    AgentWired(env);
    ExtractStep(w, env, s0);
    WiredRun(w, env, s0);
    var c := ExtractSubject(userInput);
    RespondToRun(Invoke(w, s0), s0.messages, BranchMessage(env.db, c),
                 Ai("Fetched weather and images for " + c), ExpectedRecord(env, userInput));
  }

  /** The conversation a request leaves behind: the user's text, the
      branch's message, the fan-out's message and the record; the run visits
      the database branch exactly when the named city is stored, and reports
      no error. */
  lemma ProcessTranscript(env: Env, userInput: string)
    requires ValidEnv(env)
    ensures var r := Invoke(AgentWorkflow(env), InitialState(userInput));
      var c := ExtractSubject(userInput);
      && r.visited == [ExtractCity, CheckDatabase, BranchFor(env.db, c), ParallelFetch, CombineResults]
      && r.final.messages
           == [Human(userInput), BranchMessage(env.db, c),
               Ai("Fetched weather and images for " + c), AiRecord(ExpectedRecord(env, userInput))]
      && r.final.error == Null
      && r.final.lastCity == Set(c)
  {
    AgentWired(env);
    WiredTranscript(AgentWorkflow(env), env, userInput);
  }

  lemma WiredTranscript(w: Workflow, env: Env, userInput: string)
    requires Wired(w, env)
    ensures var r := Invoke(w, InitialState(userInput));
      var c := ExtractSubject(userInput);
      && r.visited == [ExtractCity, CheckDatabase, BranchFor(env.db, c), ParallelFetch, CombineResults]
      && r.final.messages
           == [Human(userInput), BranchMessage(env.db, c),
               Ai("Fetched weather and images for " + c), AiRecord(ExpectedRecord(env, userInput))]
      && r.final.error == Null
      && r.final.lastCity == Set(c)
  {
    var s0 := InitialState(userInput);
    ExtractStep(w, env, s0);
    WiredRun(w, env, s0);
    var c := ExtractSubject(userInput);
    PrependOne(Human(userInput), BranchMessage(env.db, c), Ai("Fetched weather and images for " + c),
               AiRecord(RecordFor(env, c)));
  }

  lemma PrependOne(x: Message, a: Message, b: Message, c: Message)
    ensures [x] + [a, b, c] == [x, a, b, c]
  {
  }

  /** A run from a state with no message still reaches `END`: the extract
      node's error stays in the state, and the record is built for the city
      the state already held. */
  lemma NoMessageStillCompletes(w: Workflow, env: Env, s: State)
    requires Wired(w, env)
    requires |s.messages| == 0
    ensures Invoke(w, s).completed
    ensures Invoke(w, s).final.error == Set("No message provided")
    ensures Respond(Invoke(w, s)) == Record(RecordFor(env, s.city))
  {
    ExtractStepError(w, env, s);
    WiredRun(w, env, s);
    RespondToRun(Invoke(w, s), s.messages, BranchMessage(env.db, s.city),
                 Ai("Fetched weather and images for " + s.city), RecordFor(env, s.city));
  }

  /** A run whose last message is not the user's also reaches `END`, with
      the error "Invalid message format" kept in the state. */
  lemma InvalidMessageStillCompletes(w: Workflow, env: Env, s: State)
    requires Wired(w, env)
    requires |s.messages| > 0 && !LastMessage(s.messages).Human?
    ensures Invoke(w, s).completed
    ensures Invoke(w, s).final.error == Set("Invalid message format")
    ensures Respond(Invoke(w, s)) == Record(RecordFor(env, s.city))
  {
    ExtractStepError(w, env, s);
    WiredRun(w, env, s);
    RespondToRun(Invoke(w, s), s.messages, BranchMessage(env.db, s.city),
                 Ai("Fetched weather and images for " + s.city), RecordFor(env, s.city));
  }

  /** A request naming a stored city is answered from the table: the record
      carries that city's stored summary. */
  lemma StoredCityAnswer(env: Env, userInput: string, key: string)
    requires ValidEnv(env)
    requires key in env.db && Normalize(ExtractSubject(userInput)) == key
    ensures var c := ExtractSubject(userInput);
      Process(env, userInput)
        == Record(StructuredOutput(c, Some(DatabaseSummary(env.db[key])),
                                   Some(MockWeatherApi(c, 5, env.draws)), Some(MockImageApi(c, 5)), env.now))
  {
    ProcessRecord(env, userInput);
  }

  /** A request naming any other city is answered from the web search. */
  lemma UnknownCityAnswer(env: Env, userInput: string)
    requires ValidEnv(env)
    requires !HasCity(env.db, ExtractSubject(userInput))
    ensures var c := ExtractSubject(userInput);
      Process(env, userInput)
        == Record(StructuredOutput(c, Some(WebSummary(c)),
                                   Some(MockWeatherApi(c, 5, env.draws)), Some(MockImageApi(c, 5)), env.now))
  {
    ProcessRecord(env, userInput);
  }
}
