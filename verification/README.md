# City travel agent workflow: a Dafny model

This project models the workflow of the city travel agent in `main.py`.
A user's request ("Tell me about Paris", "Snohomish", …) is passed through a fixed graph of six registered nodes (main.py:404-409):

1. `extract_city` pulls the city name out of the last human message.
2. `check_database` looks that name up in a small in-memory city table, whose keys are normalised by lowercasing and stripping whitespace, and stores the route.
3. `get_from_database` writes the stored summary; the router sends the run here when the city is in the table.
4. `web_search` writes a summary from a canned mock search; the router sends the run here otherwise.
5. `parallel_fetch` gathers a five-day mock weather forecast and five placeholder image URLs.
6. `combine_results` packs everything into a structured record.

Outside the graph, `TravelAgent.process_async` (main.py:453-500) builds the initial state from the request, runs the graph, and reads the record back from the last message as the answer.

Every node returns a partial update. The graph merges each update into the state: the `messages` history is appended to, and every other returned key overwrites the stored value.

The model is functional. Modules follow the program's structure:

| module | file | contents |
|---|---|---|
| `Wrappers` | `wrappers.dfy` | `Option` |
| `Text` | `text.dfy` | Python's `strip`, `lower`, `title`, `replace(p, "")`, `str(int)` on sequences of characters |
| `CityDatabase` | `city_database.dfy` | the table, `search`, `has_city` |
| `MockApis` | `mock_apis.dfy` | the weather, image and web-search stand-ins |
| `AgentState` | `agent_state.dfy` | the state dictionary, node updates and the merge rule |
| `Nodes` | `nodes.dfy` | the six node functions and the router |
| `Graph` | `graph.dfy` | the compiled graph, as a walk over node labels for any six node functions, plus an executing loop |
| `Agent` | `agent.dfy` | the graph with the nodes of `main.py` plugged in, `process_async`, and whole-run properties |
| `Scenarios` | `scenarios.dfy` | whole-request answers for concrete requests against the seeded table |

Design choices:

- **Dictionary keys.** A key can be missing, present with `None`, or present with a value. `Slot<T> = Absent | Null | Set(v)` models these three cases, so `state.get(key, default)` behaves as in Python: the default is returned only for a missing key.
- **Randomness and the clock.** The random draws and the clock reading of `mock_weather_api`, and the clock reading of `combine_results_node`, are parameters.
- **`asyncio.gather`.** It is modelled as two completions arriving in either order.

Behaviour of `main.py` worth noting:

- **Empty requests** (main.py:195-208). An empty request is still a human message, so `messages` is not empty. It yields the city `""` and no error.
- **Phrase removal** (main.py:204-205). The four phrases are removed with exact-case `replace`, wherever they occur in the text. Other casings, such as "TELL ME ABOUT", are kept.
- **Errors** (main.py:412-435). No edge tests `error`, so no node halts the run. An extraction error leaves `city` as it was, and the run continues through routing, a branch, the fan-out and the combine step.
- **Line endings.** The source file has CRLF line endings, which Python reads as `"\n"` inside its triple-quoted strings. The model's texts use `"\n"`.

## Model

| member | source | states |
|---|---|---|
| AgentState.Merge | main.py:52 | The history of messages after a merge extends the history before it, and what was appended is exactly the messages the node returned. |
| AgentState.MergeRule | main.py:48-68 | Every non-message key the update returns overwrites the stored value, and every key it does not return keeps its value. |
| AgentState.MergeThen | main.py:52 | Merging two updates in turn equals merging their later-wins composition. Message lists concatenate in order. |
| AgentState.MergeNoUpdate | main.py:48-68 | An update returning no key leaves the state unchanged. |
| Text.Strip | main.py:119 | The result of `strip()` is the input with only a run of leading and a run of trailing whitespace removed (Python's `isspace` set). It has no leading or trailing whitespace, and it is empty exactly when the input is all whitespace. |
| Text.StripCharacterized | main.py:119 | These properties determine `strip()`: any text that is a stripped, whitespace-trimmed piece of the input, empty exactly for all-whitespace input, is `strip()` of it. |
| Text.LStrip | main.py:119 | The result is the suffix left after removing a run of leading whitespace, and it starts with a non-space. |
| Text.RStrip | main.py:119 | The result is the prefix left after removing a run of trailing whitespace, and it ends with a non-space. |
| Text.StripPadded | main.py:119 | Whitespace added on either side does not change what `strip()` returns. |
| Text.StripIdempotent | main.py:202-206 | Stripping twice is stripping once. |
| Text.Remove | main.py:204-205 | `replace(p, "")` never lengthens the text. It leaves the text unchanged when `p` does not occur, and strictly shortens it when `p` does occur. |
| Text.RemoveIdentityIff | main.py:204-205 | `replace(p, "")` returns its input exactly when `p` does not occur in it. |
| Text.RemoveLeading | main.py:204-205 | A leading occurrence of `p` is deleted and the scan continues after it. |
| Text.RemoveAtFirst | main.py:204-205 | `replace(p, "")` keeps everything before the first occurrence of `p` verbatim, deletes that occurrence, and continues on the text after it. |
| Text.Decimal | main.py:163 | `str(n)` is a non-empty string of digits ending in the last digit of `n`. It is a single digit for `n < 10` and has no leading zero for `n > 0`. |
| Text.DecimalValue | main.py:163 | The digits of `str(n)`, read in base ten, spell `n`. |
| Text.DecimalInjective | main.py:163 | Different numbers print differently. |
| Text.Title | main.py:163 | `title()` keeps the length of the text. |
| CityDatabase.HasCity | main.py:117-124 | `has_city(c)` holds exactly when `search(c)` returns a record. |
| CityDatabase.SearchFindsVariants | main.py:117-124 | For a stored normalised key, any case variant padded with whitespace on either side is found by `search` and `has_city`, and `search` returns that key's record. |
| CityDatabase.SearchRespectsNormalization | main.py:117-124 | Two queries with the same lowercased, stripped form get the same answer from `search` and from `has_city`. |
| CityDatabase.SeedCities | main.py:77-115 | The seeded table has exactly the keys "paris", "tokyo" and "new york". |
| CityDatabase.SeedWellKeyed | main.py:78-115 | Every seeded key is already in normalised form, so each seeded entry can be found. |
| CityDatabase.SeedFindsPaddedUpperCase | main.py:117-120 | `search(" PARIS ")` returns the Paris record. |
| CityDatabase.SeedLacksSnohomish | main.py:122-124 | "Snohomish" is not in the seeded table. |
| CityDatabase.NormalizePadded | main.py:119 | A query that lowercases to a stripped key with any whitespace before it and any, possibly different, whitespace after it normalises to that key. |
| MockApis.MockWeatherApi | main.py:133-157 | The forecast has one entry per requested day. Each entry carries that day's date and weekday. When the draws respect the ranges of the random calls, every temperature lies in 12..28, every condition is one of the five, humidity lies in 40..80, wind in 5..20, and any two days differ in temperature by at most 6, since they share one base temperature. |
| MockApis.MockImageApi | main.py:159-165 | `mock_image_api(city, count)` returns `count` URLs (none for a negative count). URL `i` starts with the placeholder host and colour `colors[i % 5]`, and ends in `+Photo+{i+1}`. |
| MockApis.ImageUrlsDistinct | main.py:162-165 | The URLs of one call are pairwise different. |
| MockApis.MockWebSearch | main.py:169-183 | The answer starts with "Based on web search results for '{query}'" and ends with a colon, a line break and the fixed note. |
| MockApis.WebSearchInjective | main.py:169-183 | Different queries get different answers, so the query can be read back from the answer. |
| Nodes.ExtractSubject | main.py:202-206 | The extracted city has no leading or trailing whitespace. |
| Nodes.RemovePhrases | main.py:204-205 | Removing the four phrases never lengthens the text, and leaves text containing none of them unchanged. |
| Nodes.ExtractCityNode | main.py:189-210 | Outcomes by case. An empty history gives the error "No message provided". A last message that is not human gives "Invalid message format". A human last message gives its extracted subject as `city`. The node returns a city exactly when it returns no error, and it touches no other key. |
| Nodes.ExtractWithoutPhrase | main.py:201-208 | Text containing none of the four phrases extracts to its stripped self. |
| Nodes.ExtractAfterTellLower | main.py:201-208 | "tell me about X", where X contains none of the phrases, extracts to `X.strip()`. |
| Nodes.ExtractAfterTellUpper | main.py:201-208 | "Tell me about X", where X contains none of the phrases, extracts to `X.strip()`. |
| Nodes.ShoutedPrefixNoPhrase | main.py:204-205 | "TELL ME ABOUT " followed by any text free of the four phrases contains none of them either. |
| Nodes.ExtractKeepsOtherCasing | main.py:204-205 | Other casings of a phrase are kept: for any X free of the four phrases, "TELL ME ABOUT X" extracts to its stripped self, which is the whole text when X is a stripped, non-empty name. |
| Nodes.CheckDatabaseNode | main.py:212-224 | The node writes the route "database" exactly when `has_city(city)` holds, and "web" exactly when it does not. It returns no other key. |
| Nodes.RouteBasedOnCheck | main.py:382-388 | The router returns the stored route. It defaults to "web" only for a missing key, and a stored `None` gives no route. |
| Nodes.RoutingTotalAndExclusive | main.py:212-224 | After the decision node, the router always names a route. That route is "database" exactly when the city is in the table, and "web" exactly when it is not. |
| Nodes.DatabaseSummary | main.py:234-240 | The stored-city summary starts with "## {name}, {country}", contains the population line and ends with the timezone line. |
| Nodes.GetFromDatabaseNode | main.py:226-246 | For a found city, the node writes its summary and appends exactly the one "Found information about {name} in database" message. For an unknown city, it writes only the error "Database lookup failed for {city}". |
| Nodes.SearchSummary | main.py:257-262 | The web summary starts with "## {city}", a blank line and the search text, and ends with the provenance line. |
| Nodes.WebSummaryQuotesCity | main.py:255-262 | The web summary quotes the city as `'city'`. |
| Nodes.WebSearchNode | main.py:248-267 | The web branch writes the web summary for `city` and appends exactly one message. It never sets an error or any other key. |
| Nodes.Gather | main.py:295 | Whichever producer finishes first, `gather` returns the forecast and the URLs in call order. |
| Nodes.ParallelFetchNode | main.py:281-303 | The fan-out sets the five-day forecast and the five image URLs for `city` together and appends one message. It touches no other key. |
| Nodes.ParallelFetchOrderIndependent | main.py:291-295 | The fan-out's update does not depend on which producer finishes first. |
| Nodes.CombineResultsNode | main.py:305-327 | The combine node sets `last_city = city` and appends exactly one record. That record carries `city`, the clock reading, and each of summary, forecast and URLs as stored. Missing keys get "No summary available", [] and []. A stored `None` stays `None`. |
| Graph.Next | main.py:412-435 | Every edge leads to a node closer to `END`. Every node except the decision node always has an outgoing edge. |
| Graph.RunFrom | main.py:412-435 | A walk never shortens the message history, visits at most as many nodes as the rank of its start, never runs `END`, and starts at the node it is given. |
| Graph.RunShape | main.py:404-435 | For any decisive choice of node functions, a run from any state reaches `END`. It visits extract, check, the selected branch, fan-out and combine, in that order, and ends in the state the five merges produce. |
| Graph.ExactlyOneBranch | main.py:418-429 | Each run visits exactly one of the two branch nodes. |
| Graph.Execute | main.py:404-435 | The stepping loop visits the same nodes, ends in the same state and reports the same completion as the recursive walk. It only extends the history. |
| Agent.WiredDecisive | main.py:418-425 | With the agent's nodes, the decision node always names a route. The database branch is selected exactly when the extracted city is in the table. |
| Agent.Respond | main.py:472-500 | A run that fails gives the error answer. A completed run whose last message is the record gives that record. Any other completed run gives the state's fields, with "", [] and [] for missing keys, and `result.get("error")` (main.py:490): the stored error string, or `None` when the key is missing or holds `None`. |
| Agent.ExtractEffect | main.py:198-208 | With a human last message, the extract step changes only `city`, to the extracted subject. |
| Agent.ExtractErrorEffect | main.py:195-210 | With no message or a non-human last message, the extract step changes only `error`. |
| Agent.DatabaseEffect | main.py:226-244 | For a stored city, the database step sets the stored summary and appends the "Found information" message. |
| Agent.WebEffect | main.py:248-267 | For any other city, the web step sets the web summary and appends the "Searched web" message. |
| Agent.BranchStep | main.py:226-267 | After the branch step, the summary is the stored or the web one, as the table decides. The branch's message is appended and the error is kept. |
| Agent.FinishEffect | main.py:281-327 | The fan-out and combine steps append the "Fetched" message and the record for the city, and set `last_city`. |
| Agent.WiredRun | main.py:404-435 | From any state, a run of the agent reaches `END` through the branch the table selects. It appends the branch's message, the fan-out's message and the record for the extracted city, keeps the error, and sets `last_city`. |
| Agent.ProcessRecord | main.py:453-491 | The answer to any request is the record for the city named in the text. That record has the stored summary if the city is in the table and the web summary otherwise, plus five forecast days, five image URLs and the clock reading. |
| Agent.ProcessTranscript | main.py:453-473 | A request leaves the user's text, the branch's message, the fan-out's message and the record in the history. It visits the database branch exactly when the city is stored, and reports no error. |
| Agent.NoMessageStillCompletes | main.py:195-196 | A run with no message still completes, keeping the error "No message provided", and answers for the city already in the state. |
| Agent.InvalidMessageStillCompletes | main.py:198-210 | A run whose last message is not human still completes, keeping "Invalid message format", and answers for the city already in the state. |
| Agent.StoredCityAnswer | main.py:226-244 | A request naming a stored city, in any case or padding, is answered with that city's stored summary. |
| Agent.UnknownCityAnswer | main.py:248-267 | A request naming a city outside the table is answered with the web summary for it. |
| Scenarios.ParisFromDatabase | main.py:79-90 | The request "Paris" is answered from the table, with a summary headed "## Paris, France". |
| Scenarios.TokyoAfterPhrase | main.py:201-208 | The request "tell me about Tokyo" extracts "Tokyo" and is answered with Tokyo's stored record. |
| Scenarios.SnohomishFromWeb | main.py:248-267 | The request "Snohomish" is answered with the web summary. |
| Scenarios.EmptyRequest | main.py:195-208 | An empty request yields city "", goes down the web branch, reports no error, and is answered with the web summary for "". |

## Left out

- `app.py`, `generate_graph.py` and `test_images_only.py`: user interface, charts, graph rendering and file output, outside the workflow.
- The language-model and ChromaDB setup (main.py:29-42): nothing in the graph uses it.
- The manual tool executor (main.py:333-376): it is not registered in the graph and depends on language-model tool-call objects.
- `asyncio.sleep` latency and real concurrency (main.py:269-279): the two producers are independent pure calls. Only the order in which they complete is modelled.
- The `print` calls in the nodes: console output only.
- The `MemorySaver` checkpointer and `thread_id` (main.py:437-439, 470): every request is modelled as a fresh run from the initial state. What the checkpointer would carry between calls on one thread is library behaviour not shown in the source.
- `conversation_context` (main.py:68, 466): no node reads or writes it.
- `datetime.now()` and the random calls: they are parameters. The date strings and weekday names come with the draws, so `strftime` formatting is not modelled.
- `json.dumps` / `json.loads` (main.py:325, 480): the record message carries the record itself. Reading it back is modelled as the identity, and the other AI messages, which are plain sentences, are modelled as not parsing.
- The text of a raised exception (main.py:495): a failed run gives `AgentError` without the message.
- The unreachable `return base_urls[:count]` (main.py:167): dead code.
- `Text.Title`: only the length is stated. `title()` is modelled on ASCII letters only, and the image URLs use it as an opaque string of the city.
- `Text.Lower`: ASCII letters only. Python's Unicode case mapping is not modelled.
- `Nodes.DatabaseSummary`: states the heading, the population line and the timezone line rather than the whole text. The stored summary sits between them.
- `MockApis.MockWeatherApi`: the random values come in as draws, so the ranges are stated under the assumption that the draws respect the ranges of `randint` and `choice`.
- `CityDatabase.SeedCities`: the seeded summaries are parameters, so that proofs about the table do not depend on the long texts. `DefaultCities` supplies the exact texts.
