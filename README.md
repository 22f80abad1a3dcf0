# Streaming tool-call orchestration, modelled in Dafny

This project models the chat backend's streaming endpoint. The endpoint takes a conversation and
streams the model's answer back as server-sent events. When the model asks for a tool, it runs the
tool and streams a second, final answer. The model covers the core of `backend/main.py`:

- **Tool-call accumulator** (`ToolCalls`). Streamed tool-call deltas are reassembled, keyed by
  position index. A builder `{id, name, arguments}` is created the first time an index is seen.
  Every fragment is then appended to it. The class `Accumulator` holds the dictionary as a map plus
  the indices in first-seen order, which is the order a Python dictionary iterates in. Its method
  `Add` is proved against the specification function `Apply`, and the stream loops of the round
  driver against `Accumulate`.
- **Round driver** (`Orchestrator`). `StreamGeneratorSse` and its loop methods do the following:
  - stream the first round, forwarding text and announcing tool starts;
  - append one assistant message and then one tool message per call to a copy of the history;
  - run each call in first-seen order;
  - stream a second, tool-less round that forwards text only.

  The driver is proved equal to the function `Orchestrate`, and the lemmas state its properties.
  The upstream model is a function from a request (the history sent, and whether the tool schema is
  offered) to the chunks of its stream. The JSON decoder is a function that may fail with an error
  text.
- **Mock weather tool** (`Weather`). `get_current_weather` does a case-insensitive substring
  dispatch over Tokyo, San Francisco and Paris, in that order, with `"celsius"` as the default
  unit. The module also models the keyword binding that `get_current_weather(**args)` performs on
  the decoded arguments, including the exceptions it raises.
- **Request projection** (`Messages.Project`): each request message becomes `{role, content}`.

The model follows the code as written, including these behaviours:

- A `tool_start` event is emitted for every delta with a non-empty id fragment, not only the first
  one for an index. It carries the fragment, not the accumulated id, and the delta's own name
  fragment, or `"unknown"` (`Orchestrator.SplitIdStartsTwice` shows a call announced twice).
- A call whose arguments do not decode, or whose execution raises, gets a tool message holding the
  error text but no `tool_result` event.
- A call to an unknown tool whose arguments decode is not treated as a failure. It gets both a
  tool message and a `tool_result` with the payload `{"error": "Unknown function"}`. The arguments
  are decoded before the name is tested, so an unknown tool whose arguments do not decode gets the
  error text and no `tool_result`.

## Model

| member | source | states |
|---|---|---|
| `Weather.Lower` | backend/main.py:63 | lower-casing keeps the length and maps each character on its own |
| `Weather.Contains` | backend/main.py:63 | the substring test holds exactly when the needle occurs at some position |
| `Json.Get` | backend/main.py:134-138 | a key is found exactly when some member has it, and the value is that of its last member, as in the dictionary the decoder builds |
| `Weather.FirstMatch` | backend/main.py:63-69 | the city found is the first of the table whose key occurs in the lower-cased text: every earlier city's key is absent; none is found exactly when no city's key occurs |
| `Weather.GetCurrentWeather` | backend/main.py:59-70 | a record carries the given unit and a forecast together, and then a known temperature; without them it echoes the location with temperature "unknown" |
| `Weather.GetCurrentWeatherMatchesTable` | backend/main.py:59-70 | the result is the record of the first city, in the order tokyo, san francisco, paris, whose key occurs in the lower-cased location, with the given unit; otherwise the location is echoed with temperature "unknown" and no unit or forecast |
| `Weather.CaseInsensitive` | backend/main.py:63-70 | two locations that lower-case alike select the same city; a matched city gives the same record, otherwise each location is echoed with the same unknown temperature |
| `Weather.UnitOnlyForKnownCities` | backend/main.py:63-70 | the unit is reported exactly when a city matched; the temperature is "unknown" exactly when none did |
| `Weather.TokyoIsRainy` | backend/main.py:63-64 | "Tokyo" in celsius gives the rainy record at 10 degrees |
| `Weather.FirstUnexpected` | backend/main.py:138 | no keyword is reported exactly when all keys are parameters; the reported keyword is the first key, in dictionary order, that names no parameter (every earlier key is a parameter) |
| `Weather.ErrorText` | backend/main.py:153-159 | the text of a binding error starts with the function's name and the attribute error's does not; the text names the unexpected keyword or the offending type |
| `Weather.Call` | backend/main.py:138 | binding succeeds exactly for a mapping whose keys are parameters and whose location is present and a string; it then returns the lookup with the given or default unit; otherwise the error is, in this order of precedence: the "must be a mapping" error for a non-mapping, the first unexpected keyword in dictionary order, the missing location, then the missing `lower` attribute of a non-string location, naming its type |
| `Weather.DefaultUnitIsCelsius` | backend/main.py:59-68 | without a unit argument a known city is reported in celsius |
| `Weather.LocationOnly` | backend/main.py:59-70 | arguments holding only a location string are looked up in the default unit |
| `ToolCalls.Apply` | backend/main.py:96-109 | one delta keeps the table well formed: each key is recorded once in the order |
| `ToolCalls.ApplyShape` | backend/main.py:97-109 | an entry is created only for an unseen index, and the order grows by that index; a present entry is only appended to; other entries are untouched |
| `ToolCalls.Accumulate` | backend/main.py:84-109 | the table after any delta sequence is well formed |
| `ToolCalls.Values` | backend/main.py:117-122 | every dictionary entry is listed exactly once (as many values as keys), in insertion order |
| `ToolCalls.AccumulateFragments` | backend/main.py:96-109 | an index has an entry exactly when some delta carried it, and its id, name and arguments are the in-order concatenations of that index's fragments |
| `ToolCalls.ValuesAreFragments` | backend/main.py:114-128 | each finished call, in dictionary order, is the concatenated fragments of its index |
| `ToolCalls.AccumulateMonotone` | backend/main.py:96-109 | later deltas never remove, reset or reorder: earlier entries survive with their fields as prefixes, and the earlier order is a prefix |
| `ToolCalls.AccumulateOrder` | backend/main.py:97-98 | the dictionary order is first-seen order |
| `ToolCalls.EmptyIffNoDeltas` | backend/main.py:97-98 | the dictionary is empty exactly when no delta arrived |
| `ToolCalls.Accumulator.constructor` | backend/main.py:84 | the dictionary starts empty |
| `ToolCalls.Accumulator.Add` | backend/main.py:96-109 | the dictionary after one delta is `Apply` of the old one, and stays well formed |
| `Messages.Project` | backend/main.py:177 | the projection keeps the number and order of the messages and keeps each message's role and content |
| `Messages.ProjectRoundTrip` | backend/main.py:177 | the request can be read back from its projection |
| `Orchestrator.StartEvents` | backend/main.py:100-103 | the events of a run of deltas are all tool_starts, at most one per delta |
| `Orchestrator.StartEventsCount` | backend/main.py:100-103 | there is exactly one tool_start per delta that carries an id fragment |
| `Orchestrator.StartEventsAt` | backend/main.py:100-103 | each id-carrying delta is announced, in delta order, by a tool_start with its own id fragment and its name fragment or "unknown" |
| `Orchestrator.ChunkEvents` | backend/main.py:89-103 | within a chunk the text event comes first and every later event is a tool_start |
| `Orchestrator.FirstRoundEvents` | backend/main.py:86-103 | the first round emits only text and tool_start events |
| `Orchestrator.TextEvents` | backend/main.py:170-173 | the second round emits only non-empty text events, at most one per chunk |
| `Orchestrator.TextEventsCount` | backend/main.py:172-173 | there is exactly one text event per chunk that carries text |
| `Orchestrator.TextEventsAt` | backend/main.py:172-173 | every chunk's non-empty text is forwarded unchanged, in chunk order |
| `Orchestrator.ExecuteCall` | backend/main.py:128-160 | one call gives a tool message with the call's id and name; a tool_result is emitted exactly when that message carries a payload, and with the same payload |
| `Orchestrator.ExecuteCallDispatch` | backend/main.py:133-160 | undecodable arguments give the decoder's error text and no event; an unknown name gives the "Unknown function" payload and its tool_result; the weather tool emits a result exactly when its call does not raise; on success the tool message carries the weather record, and otherwise the exception text |
| `Orchestrator.ToolPhase` | backend/main.py:128-160 | one tool message per call, in call order, each produced by executing that call |
| `Orchestrator.Orchestrate` | backend/main.py:72-173 | one or two upstream requests, the first sending the received history with tools; the final history extends the received one; the last request sends the final history |
| `Orchestrator.StreamFirstRound` | backend/main.py:84-109 | the first loop builds `Accumulate` of all the deltas and emits the first-round events |
| `Orchestrator.FeedChunk` | backend/main.py:87-109 | one chunk's events, and the table extended by its deltas |
| `Orchestrator.FeedDeltas` | backend/main.py:94-109 | the inner loop extends the table by the chunk's deltas and emits their tool_start events |
| `Orchestrator.ExecuteToolCalls` | backend/main.py:128-160 | the execution loop over the dictionary's values appends `ToolPhase`'s tool messages to the history and emits its tool_result events |
| `Orchestrator.RunToolCall` | backend/main.py:129-160 | the try/except body computes `ExecuteCall` |
| `Orchestrator.StreamFinalRound` | backend/main.py:170-173 | the second loop emits exactly the second round's text events |
| `Orchestrator.StreamGeneratorSse` | backend/main.py:72-173 | the generator produces exactly `Orchestrate`'s events, upstream requests and history |
| `Orchestrator.FirstRoundEventKinds` | backend/main.py:86-109 | the first round's text events are the chunk texts in order; its tool_start events are one per delta with an id fragment, in delta order |
| `Orchestrator.NoDeltasOnlyText` | backend/main.py:86-109 | a first round without deltas emits only its text events |
| `Orchestrator.ToolResultsMatchReplies` | backend/main.py:142-160 | the tool_result events are exactly the payloads of the tool messages, in the same order |
| `Orchestrator.SingleRoundIffNoToolDeltas` | backend/main.py:86-112 | only one upstream call is made exactly when the first round has no tool delta; then the history is unchanged and the output is that round's text events |
| `Orchestrator.ToolRoundHistory` | backend/main.py:112-168 | with calls, the history is the original messages, one assistant message listing the calls in first-seen order, then one tool message per call with its id and name; the second request sends that history without tools |
| `Orchestrator.ToolRoundEvents` | backend/main.py:112-173 | with calls, the output is the first round's events, the tool_results of the tool messages that carry a payload, then the second round's text |
| `Orchestrator.AtMostTwoRounds` | backend/main.py:76-168 | at most two upstream calls are made: the first sends the received history with tools, a second one sends the final history without tools |
| `Orchestrator.RunToolStarts` | backend/main.py:100-103 | across the whole output the tool_start events are exactly those of the first round's deltas |
| `Orchestrator.RunTexts` | backend/main.py:170-173 | across the whole output the text events are the first round's text followed by the second round's |
| `Orchestrator.SplitIdStartsTwice` | backend/main.py:100-103 | an id split over two deltas of one call announces that call twice, each time with the fragment, while the stored id is the whole |
| `Orchestrator.SingleCallExchange` | backend/main.py:86-173 | a first round of one chunk with one delta that has an id announces the call once, runs it, appends the assistant message and its one tool message, and makes the second request with that history |
| `Orchestrator.WeatherExchange` | backend/main.py:59-173 | a single weather call whose arguments hold only a location yields the tool_start, then the tool_result holding that location's lookup in celsius, then the second round's text |

## Left out

- The FastAPI application, CORS middleware, environment loading, request validation and the streaming response wrapper are framework plumbing.
- The completion client is a network service. It becomes the `Upstream` function. The model name, the tool schema and `tool_choice="auto"` are reduced to the `offersTools` flag of a request.
- JSON encoding and decoding come from a library. Decoding is the abstract `Parser`, and events and payloads are datatypes rather than serialised text. A tool message's payload content stands for its serialisation, and the `tool_result` carries the same payload, so decoding the tool's own output is taken to give that payload back. The `data: ...` framing of each event is not modelled.
- The one-second sleep and the asynchronous generator are timing and concurrency. The events are collected into one sequence, in the order they are yielded.
- Printing the tool error is I/O.
- Client disconnect, cancellation and upstream stream failures are left out. The model has no exceptions from the streams: every chunk is assumed to have at least one choice.
- A delta whose `function` field is absent is modelled with an empty name and empty arguments. The crash such a delta would cause when it carries an id is not modelled.
- Weather.Lower: maps ASCII letters only. The full Unicode case mapping of `str.lower` is not modelled.
- Weather.ErrorText: gives the CPython 3 wording of the binding errors. The exact text, including any module prefix on the function name, depends on the Python version.
- Json.Value: whether a number decodes as an int or a float is left to the parser. Duplicate keys follow the dictionary rule that the last value wins, with the key kept at its first position.
