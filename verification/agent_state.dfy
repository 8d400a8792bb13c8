/** The state threaded through the workflow graph (`AgentState` in main.py),
    the partial updates that nodes return, and the rule by which the graph
    folds an update into the state. */
module AgentState {
  import opened Wrappers
  import opened MockApis

  /** One key of the state dictionary: missing, present with `None`, or
      present with a value. `state.get(key, default)` tells the first two
      apart, so the model does too. */
  datatype Slot<T> = Absent | Null | Set(value: T) {

    /** `state.get(key, default)`: the default only when the key is missing;
        a stored `None` is returned as `None`. */
    function Get(default: T): Option<T>
    {
      match this
      case Absent => Some(default)
      case Null => None
      case Set(v) => Some(v)
    }
  }

  /** The two values `check_database_node` stores under "route". */
  datatype Route = Database | Web

  /** The structured record `combine_results_node` builds; `citySummary`,
      `weatherForecast` and `imageUrls` hold `None` when the state held
      `None` there. */
  datatype StructuredOutput = StructuredOutput(
    city: string,
    citySummary: Option<string>,
    weatherForecast: Option<seq<DayForecast>>,
    imageUrls: Option<seq<string>>,
    timestamp: string)

  /** A conversation message. The combine node's message carries the
      structured record itself in place of its JSON text. */
  datatype Message =
    | Human(content: string)
    | Ai(content: string)
    | AiRecord(record: StructuredOutput)

  /** The state dictionary. `city` is a plain string: every reader asks for
      it with the default "", so a missing key and "" read alike. */
  datatype State = State(
    messages: seq<Message>,
    city: string,
    route: Slot<Route>,
    citySummary: Slot<string>,
    weatherForecast: Slot<seq<DayForecast>>,
    imageUrls: Slot<seq<string>>,
    error: Slot<string>,
    lastCity: Slot<string>)

  /** The dictionary a node returns: the messages it appends and, for every
      other key, the value it writes (`None` = key not returned). */
  datatype Update = Update(
    messages: seq<Message>,
    city: Option<string>,
    route: Option<Route>,
    citySummary: Option<string>,
    weatherForecast: Option<seq<DayForecast>>,
    imageUrls: Option<seq<string>>,
    error: Option<string>,
    lastCity: Option<string>)

  /** The update that returns no key. */
  const NoUpdate := Update([], None, None, None, None, None, None, None)

  /** Overwrite a slot when the update carries a value. */
  function Overwrite<T>(slot: Slot<T>, written: Option<T>): Slot<T>
  {
    match written
    case Some(v) => Set(v)
    case None => slot
  }

  /** How the graph applies a node's update: "messages" is reduced with
      `operator.add`, so the returned messages are appended after the old
      ones; every other returned key overwrites the stored value. The
      history of messages is only ever extended. */
  function Merge(s: State, u: Update): (t: State)
    ensures s.messages <= t.messages
    ensures t.messages[|s.messages|..] == u.messages
  {
    State(
      s.messages + u.messages,
      u.city.GetOr(s.city),
      Overwrite(s.route, u.route),
      Overwrite(s.citySummary, u.citySummary),
      Overwrite(s.weatherForecast, u.weatherForecast),
      Overwrite(s.imageUrls, u.imageUrls),
      Overwrite(s.error, u.error),
      Overwrite(s.lastCity, u.lastCity))
  }

  /** Each key the update returns overwrites the stored value; each key it
      does not return keeps its value. */
  lemma MergeRule(s: State, u: Update)
    ensures var t := Merge(s, u);
      && (u.city.Some? ==> t.city == u.city.value)
      && (u.city.None? ==> t.city == s.city)
      && (u.route.Some? ==> t.route == Set(u.route.value))
      && (u.route.None? ==> t.route == s.route)
      && (u.citySummary.Some? ==> t.citySummary == Set(u.citySummary.value))
      && (u.citySummary.None? ==> t.citySummary == s.citySummary)
      && (u.weatherForecast.Some? ==> t.weatherForecast == Set(u.weatherForecast.value))
      && (u.weatherForecast.None? ==> t.weatherForecast == s.weatherForecast)
      && (u.imageUrls.Some? ==> t.imageUrls == Set(u.imageUrls.value))
      && (u.imageUrls.None? ==> t.imageUrls == s.imageUrls)
      && (u.error.Some? ==> t.error == Set(u.error.value))
      && (u.error.None? ==> t.error == s.error)
      && (u.lastCity.Some? ==> t.lastCity == Set(u.lastCity.value))
      && (u.lastCity.None? ==> t.lastCity == s.lastCity)
  {
  }

  /** Later-wins composition of two updates: the messages of both, in order,
      and for every other key the second update's value when it has one. */
  function Then(u: Update, v: Update): Update
  {
    Update(
      u.messages + v.messages,
      if v.city.Some? then v.city else u.city,
      if v.route.Some? then v.route else u.route,
      if v.citySummary.Some? then v.citySummary else u.citySummary,
      if v.weatherForecast.Some? then v.weatherForecast else u.weatherForecast,
      if v.imageUrls.Some? then v.imageUrls else u.imageUrls,
      if v.error.Some? then v.error else u.error,
      if v.lastCity.Some? then v.lastCity else u.lastCity)
  }

  /** Applying two updates one after the other is applying their composition. */
  lemma MergeThen(s: State, u: Update, v: Update)
    ensures Merge(Merge(s, u), v) == Merge(s, Then(u, v))
  {
    assert (s.messages + u.messages) + v.messages == s.messages + (u.messages + v.messages);
  }

  /** An update that returns no key leaves the state as it was. */
  lemma MergeNoUpdate(s: State)
    ensures Merge(s, NoUpdate) == s
  {
    assert s.messages + [] == s.messages;
  }

  /** The state `process_async` starts every run from: the user's text as the
      only message, `city` empty, and every optional key present with
      `None`. (`conversation_context` is never read by a node and is not
      modelled.) */
  function InitialState(userInput: string): State
  {
    State([Human(userInput)], "", Null, Null, Null, Null, Null, Null)
  }
}
