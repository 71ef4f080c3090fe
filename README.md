# adk-project core, modelled in Dafny

This project models the deterministic core of a small agent web service
and its Telegram bridge:

- **Session monitor** (`session_monitor.dfy`, module `Sessions`). This is the in-memory
  registry of chat sessions. Each session has counters, a status derived from its latest
  event, a bounded list of events and a buffer of alerts that is emptied on read. The
  summary and detail text reports are part of it. `SessionMonitor` is a class. Its
  `sessions` map and its insertion `order` are updated in place. A ghost `history` keeps
  every event ever logged, so that "the newest events" can be stated.
- **Request statistics and the chat turn** (`app.dfy`, module `App`). The `Stats` class
  holds the counters, the 200-sample latency window and the per-tool histogram. The
  module also has the error-counting middleware and the average and 95th percentile
  that `/stats` reports. The chat endpoint is the sequence of monitor and statistics
  calls around one agent run. The run itself is an input.
- **Telegram bridge** (`telegram.dfy`, module `TelegramBridge`). This covers token
  extraction from raw environment or file text, and the `/chat` command's prompt,
  session id and replies. The regular expression of the token step is modelled
  literally. It is a raw string with doubled backslashes, so it matches the text
  backslash, `b`, backslash, one or more `d`, `:` and token characters. It does not
  match a digit run. The model therefore needs no regular-expression engine.
  `TokenPatternNeedsBackslash` proves that it never fires on text without a backslash.
- **Secret loading** (`secrets.dfy`, module `Secrets`). This covers the resource name of
  a secret version, the check that a short secret id needs a project, and the in-place
  update of the process environment (class `Environment`).
- **Agent tools** (`agent.dfy`, module `AgentTools`; `tool_reply.dfy`). These are the
  weather mock, the time-zone choice, the delegation session id and replies, and the
  monitor reports wrapped in the `{"status", "report"}` envelope.
- **Knowledge search** (`vertex.dfy`, module `Vertex`). This covers the configuration
  check, the location and endpoint, the request, the shaping of each result and the
  error envelope. The search client is a function parameter.

Shared helpers are `Wrappers` (Option, Result), `Text` (Python's `strip`, `lower`, `in`,
`split(sep, 1)`, `partition`, `splitlines`, `join` and integer formatting) and `Seqs` (the
slice `xs[-cap:]` and map sums).

The clock is always an explicit parameter (`now`, `startedAt`, `finishedAt`). The
rendering of a timestamp (`time.ctime`) is a function parameter `ctime`. The process
environment is a `map<string, string>`.

## Model

| member | source | states |
|---|---|---|
| Sessions.SessionMonitor.constructor | my_agent/session_monitor.py:35-37 | the registry starts empty, with the given event cap (default 50) |
| Sessions.SessionMonitor.GetOrCreate | my_agent/session_monitor.py:39-46 | hands back the stored session or a new one; a new id is appended to the insertion order; the registry invariant is kept |
| Sessions.LookupKeepsFirst | my_agent/session_monitor.py:39-46 | for a known id the stored session is returned whatever user or agent the later call names |
| Sessions.SessionMonitor.LogEvent | my_agent/session_monitor.py:48-92 | the registry becomes `AfterLog` of the old one; the invariant (events are the newest `cap` of the history) is kept |
| Sessions.ApplyEvent | my_agent/session_monitor.py:57-79 | the in-place update of one session equals `WithEvent` |
| Sessions.Classify | my_agent/session_monitor.py:60-66 | the status an event type sets; its cases are stated by `ClassifyIgnoresCase`, `ClassifyExamples` and `WithEventStatus` |
| Sessions.WithEvent | my_agent/session_monitor.py:57-79 | one session after `log_event`; its effects are stated by `WithEventStatus`, `WithEventKeepsNewest`, `WithEventZeroCap` and `WithEventOneAlert` |
| Sessions.ClassifyIgnoresCase | my_agent/session_monitor.py:60-66 | the status depends on the lower-cased event type only |
| Sessions.ClassifyExamples | my_agent/session_monitor.py:60-66 | error/failed give error, completed/ended/finished give completed, created and message_received give active |
| Sessions.WithEventStatus | my_agent/session_monitor.py:57-66 | error types set error and raise the error count by exactly one; completion types set completed; others set active with the error count unchanged; message count kept |
| Sessions.WithEventKeepsNewest | my_agent/session_monitor.py:68-71 | with a positive cap the event list holds at most cap events, ending with the new one |
| Sessions.WithEventZeroCap | my_agent/session_monitor.py:68-71 | with cap 0 the slice `[-0:]` keeps every event |
| Sessions.RetainsNewestAppend | my_agent/session_monitor.py:68-71 | appending and trimming keeps the list equal to the newest cap events of the whole history |
| Sessions.ConsistentBounded | my_agent/session_monitor.py:68-71 | in the monitor every event list has at most cap events, the newest ones in arrival order |
| Sessions.WithEventOneAlert | my_agent/session_monitor.py:74-79 | each logged event appends exactly one alert after the earlier ones |
| Sessions.BuildAlert | my_agent/session_monitor.py:74-79 | the alert built step by step equals `AlertText` |
| Sessions.AlertForm | my_agent/session_monitor.py:74-79 | the alert is `Session {id}: {type}`, then a bar and the detail only for a non-empty detail, then a bar and `error={error}` only for a non-empty error |
| Sessions.SessionMonitor.RecordMessage | my_agent/session_monitor.py:94-97 | the registry becomes `AfterMessage` of the old one; invariant kept |
| Sessions.WithMessageKeeps | my_agent/session_monitor.py:94-97 | message count plus one, last-event time updated, status, errors, events and alerts unchanged |
| Sessions.SessionMonitor.PopAlerts | my_agent/session_monitor.py:99-105 | returns the buffered alerts in order and empties the buffer; an unknown id gives `[]` and adds no session |
| Sessions.SessionMonitor.GetSummary | my_agent/session_monitor.py:107-120 | the loop builds `Summary` over the sessions in insertion order |
| Sessions.Summary | my_agent/session_monitor.py:107-120 | the summary report; stated by `SummarySentinelIff`, `SummaryLineMentions`, `SummaryListsEach` and `SummaryOne` |
| Sessions.SummarySentinelIff | my_agent/session_monitor.py:108-109 | the summary is "No sessions recorded." exactly when the registry is empty |
| Sessions.SummaryLineMentions | my_agent/session_monitor.py:113-119 | a line names the session and shows `status=`, `messages=` and `errors=` with its values |
| Sessions.SummaryListsEach | my_agent/session_monitor.py:111-120 | every registered session's line appears in the summary |
| Sessions.SummaryOne | my_agent/session_monitor.py:111-120 | one session summarises as its line alone |
| Sessions.SessionMonitor.GetDetails | my_agent/session_monitor.py:122-140 | the loop builds `Details`; nothing in the registry changes |
| Sessions.Details | my_agent/session_monitor.py:122-140 | the detail report; stated by `DetailsUnknown`, `DetailLinesShape`, `DetailsHoldEventLine` and `DetailsShowEvent` |
| Sessions.DetailsUnknown | my_agent/session_monitor.py:123-125 | an unknown id gets "No session found for id …", naming the id |
| Sessions.DetailLinesShape | my_agent/session_monitor.py:126-140 | six header lines, then one line per event for at most the newest ten |
| Sessions.EventLineShows | my_agent/session_monitor.py:135-139 | an event line shows the type, the non-empty detail and "error=" with the non-empty error |
| Sessions.DetailsHoldEventLine | my_agent/session_monitor.py:134-140 | the line of each of the newest ten events is in the joined report |
| Sessions.DetailsShowEvent | my_agent/session_monitor.py:134-139 | each of the newest ten events shows its type, its non-empty detail and its non-empty error |
| Sessions.SummaryScenario | tests/test_session_monitor.py:14-22 | created, one message, completed: the summary holds "s1", "messages=1", "status=completed" |
| Sessions.ScenarioSession | tests/test_session_monitor.py:25-35 | an error then a recovery leave two alerts and details that name both |
| Sessions.DetailsAndAlertsScenario | tests/test_session_monitor.py:25-35 | error then recovery: details show both, the first drain returns two alerts, the second none |
| Seqs.KeepLastPositive | my_agent/session_monitor.py:70-71 | with a positive cap, `xs[-cap:]` is the last cap elements |
| Seqs.KeepLastZero | my_agent/session_monitor.py:70-71 | with cap 0, `xs[-0:]` is the whole list |
| Seqs.KeepLastNegative | my_agent/session_monitor.py:70-71 | with a negative cap, the slice drops that many elements from the front |
| Seqs.LastNAppend | app.py:209-211 | the newest n after an append are the newest n of the old list plus the new element, trimmed |
| App.Stats.constructor | app.py:44-51 | all counters zero, empty window and histogram |
| App.Stats.RecordLatency | app.py:208-211 | appends and trims to 200; the window stays the newest 200 samples of all ever recorded |
| App.Stats.LatencyWindow | app.py:208-211 | the window has at most 200 samples, is the newest stretch of all samples, and is full once 200 have been seen |
| App.Stats.RecordToolCall | app.py:189-191 | the total and that tool's count each rise by one; histogram sum equals total |
| Seqs.MapSumIncrement | app.py:191 | raising one count by one raises the sum of the histogram by one |
| App.TallySum | app.py:189-191 | counting n names raises the histogram's sum by n |
| App.TallyCounts | app.py:189-191 | each name's count rises by the number of times it was detected |
| App.DetectedTool | app.py:182-188 | the tool name an event reports, if any; its precedence is stated by `DetectedToolPrecedence` |
| App.DetectedToolPrecedence | app.py:182-188 | the tool's name wins, then its string form, then the tool call's name; a detected name is non-empty |
| App.Stats.ConsumeEvent | app.py:182-207 | one event: its tool (if any) is counted and its non-empty part texts returned |
| App.Stats.ConsumeEvents | app.py:174-207 | the loop collects every part text in order and counts every detected tool |
| App.ToolNamesAppend | app.py:174-191 | the detected tools of two runs concatenated are the two lists concatenated |
| App.ResponseTextAppend | app.py:202-207 | the reply of two runs concatenated is the two replies concatenated |
| App.Sort | app.py:76 | sorted, and a permutation of the input |
| App.CeilPercent95IsCeiling | app.py:77 | the least whole number at least 95% of n |
| App.P95Index | app.py:77 | for n >= 1 the index lies in [0, n-1] |
| App.P95IndexIsNearestRank | app.py:77 | the index is the nearest rank: ceil(0.95 n) - 1 |
| App.P95 | app.py:74-78 | the nearest-rank 95th percentile; stated by `P95IsRankedSample` and `EmptyFigures` |
| App.P95IsRankedSample | app.py:74-78 | the reported p95 is one of the samples, no smaller than the sorted samples up to its rank and no larger than those after |
| App.Mean | app.py:73 | the average latency; stated by `MeanBounds` and `EmptyFigures` |
| App.MeanBounds | app.py:73 | the average lies between any lower and upper bound of the samples |
| App.EmptyFigures | app.py:73-75 | with no samples both average and p95 are 0 |
| App.Stats.Report | app.py:70-89 | the `/stats` payload; stated by `ReportBasics` and, for its figures, by `P95IsRankedSample` and `MeanBounds` |
| App.Stats.ReportBasics | app.py:70-89 | no samples give 0 for both figures; the agent name is `gemini_adk_agent` and the model `gemini-2.0-flash-exp`, which names Gemini |
| App.CountRequests | app.py:93-104 | the outcome passes through; the error count rises by one exactly for status >= 500 or a raised exception |
| App.OpenTurn | app.py:126-142 | one request counted; `message_received` logged, then one message recorded |
| App.FinishTurn | app.py:212-230 | `completed` logged with its fixed detail; the session's alerts drained |
| App.RecordRunLatency | app.py:208-211 | a finished run's latency enters the window of the newest 200; a failed run records none |
| App.FailTurn | app.py:233-244 | one more error counted; `error` logged with the exception's text |
| App.CloseTurn | app.py:212-244 | the success branch or the failure branch by how the run ended; the error count grows only on failure |
| App.TallyRun | app.py:174-211 | every tool counted and the reply text collected; a finished run's latency enters the window, a failed run's does not |
| App.RunTurn | app.py:158-254 | tools counted, reply collected, then the success or the failure branch |
| App.ChatEndpoint | app.py:124-254 | request count plus one; test mode echoes "[test-mode] " + message after the opening calls only; otherwise the run's effects on stats and monitor and its reply |
| App.ReceivedEffects | app.py:134-142 | the opening registers a new session, counts one message, marks it active and buffers one alert, and touches no other session |
| App.CloseEffects | app.py:212-244 | the close touches only the turn's session: completed with no alerts after a finished run, in error with one more error after a failed run |
| App.TurnEffects | app.py:135-156 | only the turn's session changes; it has one more message; test mode leaves it active; a finished run leaves it completed with no alerts; a failed run leaves it in error with one more error |
| TelegramBridge.MarkerValue | my_agent/telegram_bot.py:33-35 | the marker step; stated by `MarkerValueFirstHit`, `MarkerValueNone` and `MarkerValueNoOuterSpace` |
| TelegramBridge.MarkerValueFirstHit | my_agent/telegram_bot.py:33-35 | markers are tried in list order; the first that occurs gives the stripped text after its first occurrence |
| TelegramBridge.MarkerValueNone | my_agent/telegram_bot.py:33-35 | the marker step gives nothing exactly when no marker occurs |
| TelegramBridge.MarkerValueNoOuterSpace | my_agent/telegram_bot.py:35 | a marker's value has no outer whitespace |
| TelegramBridge.MatchAt | my_agent/telegram_bot.py:37 | a match at j starts with the literal backslash-b-backslash |
| TelegramBridge.SearchFrom | my_agent/telegram_bot.py:37-39 | the result is the group of the leftmost match, and nothing exactly when no position matches |
| TelegramBridge.TokenPatternShape | my_agent/telegram_bot.py:37-39 | a captured group is a backslash, one or more d's, `:` and one or more token characters; it occurs in the text and has no outer whitespace |
| TelegramBridge.TokenPatternNeedsBackslash | my_agent/telegram_bot.py:37 | text without a backslash never matches |
| TelegramBridge.FirstNonEmpty | my_agent/telegram_bot.py:41-44 | an index found holds a non-empty stripped line |
| TelegramBridge.FirstNonEmptySkips | my_agent/telegram_bot.py:41-44 | every stripped line before the one found is empty, and with none found all are empty |
| TelegramBridge.FirstNonEmptyAt | my_agent/telegram_bot.py:41-44 | a non-empty stripped line preceded only by empty ones is the one found |
| TelegramBridge.FirstNonEmptyNone | my_agent/telegram_bot.py:41-49 | when every stripped line is empty none is found |
| TelegramBridge.FirstLineValue | my_agent/telegram_bot.py:41-49 | the line step; stated by `FirstLineValueAt`, `FirstLineValueBlank` and `FirstLineValueNoOuterSpace` |
| TelegramBridge.FirstLineValueAt | my_agent/telegram_bot.py:41-48 | the first non-empty stripped line decides: text after its first `=` stripped, or the line itself |
| TelegramBridge.FirstLineValueBlank | my_agent/telegram_bot.py:41-49 | with no non-empty line the result is "" |
| TelegramBridge.FirstLineValueNoOuterSpace | my_agent/telegram_bot.py:42-48 | the line step's value has no outer whitespace |
| TelegramBridge.ExtractToken | my_agent/telegram_bot.py:27-49 | `_extract_token`; stated by `ExtractTokenNoOuterSpace`, `ExtractTokenBlank`, `ExtractTokenMarker`, `ExtractTokenFallback` and the two round trips |
| TelegramBridge.ExtractTokenNoOuterSpace | my_agent/telegram_bot.py:27-49 | no branch returns a token with leading or trailing whitespace |
| TelegramBridge.ExtractTokenBlank | my_agent/telegram_bot.py:29-31 | empty or whitespace-only input gives "" |
| TelegramBridge.ExtractTokenMarker | my_agent/telegram_bot.py:31-35 | on the stripped input the first occurring marker decides |
| TelegramBridge.ExtractTokenFullMarker | my_agent/telegram_bot.py:33-35 | input holding `TELEGRAM_BOT_TOKEN=` is read through that marker |
| TelegramBridge.ExtractTokenFallback | my_agent/telegram_bot.py:40-48 | with no marker and no pattern match, the first non-empty line decides |
| TelegramBridge.EnvLineRoundTrip | my_agent/telegram_bot.py:27-35 | `TELEGRAM_BOT_TOKEN=<t>` gives back t for any non-empty t without outer whitespace |
| TelegramBridge.BareTokenRoundTrip | my_agent/telegram_bot.py:27-48 | a bare one-line token without `=` or backslash is returned unchanged |
| TelegramBridge.ChatCommand | my_agent/telegram_bot.py:72-83 | what `/chat` does with an update; stated by `ChatCommandForwards` and `ChatCommandAlone` |
| TelegramBridge.Prompt | my_agent/telegram_bot.py:78 | the stripped text after the first space; stated by `ChatCommandForwards` |
| TelegramBridge.ChatCommandForwards | my_agent/telegram_bot.py:74-83 | a message is forwarded exactly when the stripped text after the first space is non-empty, with that prompt and session `tg_<id>`; no message is ignored |
| TelegramBridge.ChatCommandAlone | my_agent/telegram_bot.py:78-81 | the command word alone gets the usage reply |
| TelegramBridge.SessionIdFor | my_agent/telegram_bot.py:83 | `tg_{user id}`; stated by `SessionIdRoundTrip` and `SessionIdInjective` |
| TelegramBridge.SessionIdRoundTrip | my_agent/telegram_bot.py:83 | the session id starts with `tg_` and the user id can be read back |
| TelegramBridge.SessionIdInjective | my_agent/telegram_bot.py:83 | different users get different session ids |
| TelegramBridge.ReplyFor | my_agent/telegram_bot.py:94-107 | the text sent back; stated by `ReplyForCases` |
| TelegramBridge.ReplyForCases | my_agent/telegram_bot.py:96-107 | the endpoint's reply as it is, "(no response)" without one, a fixed apology when unreachable |
| Secrets.BuildSecretName | my_agent/secret_manager.py:17-27 | the resource name of a secret version; stated by `BuildSecretNameForm`, `BuildSecretNameIdempotent` and `BuildSecretNameParts` |
| Secrets.BuildSecretNameForm | my_agent/secret_manager.py:25-27 | a `projects/` id is returned unchanged; any other gives exactly `projects/{p}/secrets/{s}/versions/{v}`; the result is always qualified |
| Secrets.BuildSecretNameIdempotent | my_agent/secret_manager.py:25-27 | building a name from a built name changes nothing |
| Secrets.BuildSecretNameParts | my_agent/secret_manager.py:27 | project, id and version can be read back from the built name |
| Secrets.GetSecretValue | my_agent/secret_manager.py:30-56 | `get_secret_value` with project and version defaulting to none and `latest`; stated by `GetSecretValueValidation` and `GetSecretValueShortId` |
| Secrets.GetSecretValueValidation | my_agent/secret_manager.py:49-51 | ValueError exactly when the id is short and no non-empty project is given or configured; a qualified id needs no project |
| Secrets.GetSecretValueShortId | my_agent/secret_manager.py:49-56 | a short id with a project reads the built version name; an explicit project wins over the environment |
| Secrets.LoadedEnv | my_agent/secret_manager.py:59-90 | the environment after `load_secret_into_env` and what it raises; stated by the four `LoadedEnv…` lemmas |
| Secrets.LoadedEnvNoOp | my_agent/secret_manager.py:74-79 | the environment is unchanged when the target is already set or the secret id variable is unset or empty |
| Secrets.LoadedEnvSets | my_agent/secret_manager.py:81-83 | on success the target holds the value and nothing else changes |
| Secrets.LoadedEnvFailure | my_agent/secret_manager.py:86-90 | a failed read leaves the environment alone and is raised exactly when there is no logger |
| Secrets.LoadedEnvIdempotent | my_agent/secret_manager.py:59-90 | a second load after one that did not raise changes nothing |
| Secrets.Environment.LoadSecretIntoEnv | my_agent/secret_manager.py:59-90 | the new environment and what is raised are `LoadedEnv` of the old environment |
| Secrets.LoadScenarios | tests/test_secret_manager.py:17-44 | the three loader tests: value stored, nothing set without a secret id, ValueError for a short id without a project |
| AgentTools.GetWeather | my_agent/agent.py:6-36 | the weather mock; stated by `GetWeatherReports` and `GetWeatherIgnoresCase` |
| AgentTools.GetWeatherReports | my_agent/agent.py:6-36 | always success; New York and London match in any case with fixed reports; any other city is embedded as given and can be read back |
| AgentTools.GetWeatherIgnoresCase | my_agent/agent.py:16-31 | spellings of the two known cities differing only in case get the same report |
| AgentTools.ZoneFor | my_agent/agent.py:48-60 | the time zone chosen for a city; stated by `ZoneForChoice` and `ZoneForExamples` |
| AgentTools.GetCurrentTime | my_agent/agent.py:38-70 | `get_current_time` with the clock as a parameter; stated by `GetCurrentTimeReport` |
| AgentTools.ZoneForChoice | my_agent/agent.py:48-60 | known cities get their table zone in any case; exactly the unknown ones get UTC |
| AgentTools.ZoneForExamples | my_agent/agent.py:48-60 | Tokyo, LOS ANGELES and Paris get their zones |
| AgentTools.GetCurrentTimeReport | my_agent/agent.py:62-70 | the clock is read in the chosen zone; success names the city; a clock failure becomes the error message |
| AgentTools.DelegationSession | my_agent/agent.py:97 | the delegation session id; stated by `DelegationSessionChoice` |
| AgentTools.DelegationSessionChoice | my_agent/agent.py:97 | a non-empty session id is used as given, otherwise `delegation_<user>`, distinct per user |
| AgentTools.DelegationReply | my_agent/agent.py:125-132 | what `ask_devops` returns; stated by `DelegationReplyCases` |
| AgentTools.DelegationReplyCases | my_agent/agent.py:125-132 | the run's text as is, the fixed time-out reply, or the error after "Error calling DevOps agent: " |
| AgentTools.GetSessionSummary | my_agent/agent.py:134-136 | success with the monitor's summary; "No sessions recorded." for an empty registry |
| AgentTools.GetSessionDetails | my_agent/agent.py:139-141 | success with the monitor's details; an unknown id gets "No session found for id …" naming it |
| Vertex.RequestShape | my_agent/vertex_tools.py:15-45 | location defaults to europe-west4; endpoint `{location}-discoveryengine.googleapis.com`, none for global; page size 3 |
| Vertex.SnippetText | my_agent/vertex_tools.py:55-62 | the snippet shown for a result; stated by `SnippetCases` |
| Vertex.SnippetCases | my_agent/vertex_tools.py:55-62 | snippets, else extractive answers; the first element's snippet or content if a dict, its string form otherwise; "" for none |
| Vertex.Entry | my_agent/vertex_tools.py:54-64 | one result's entry; stated by `EntryForm` |
| Vertex.EntryForm | my_agent/vertex_tools.py:54-64 | an entry is `Title: {t}\nSnippet: {s}\nLink: {l}` with "No Title" and "" as defaults |
| Vertex.Entries | my_agent/vertex_tools.py:49-64 | one entry per result, in result order |
| Vertex.FormatResults | my_agent/vertex_tools.py:49-69 | the loop builds the report of the entries |
| Vertex.Search | my_agent/vertex_tools.py:6-75 | the reply of `search_knowledge_base`; stated by `NotConfiguredIgnoresClient`, `SearchFailure` and `SearchSuccess` |
| Vertex.SearchKnowledgeBase | my_agent/vertex_tools.py:6-75 | the tool's reply equals `Search` |
| Vertex.NotConfiguredIgnoresClient | my_agent/vertex_tools.py:19-23 | without project or data store: error "… not configured", whatever the client would do |
| Vertex.SearchFailure | my_agent/vertex_tools.py:71-75 | a raising client gives error "Search failed: " + its message |
| Vertex.SearchSuccess | my_agent/vertex_tools.py:66-69 | success; "No results found." exactly when there are no results; every entry appears, the first at the start |
| Vertex.SearchExample | tests/test_vertex.py:20-41 | the test document's title and snippet appear in a success report |

## Left out

- HTTP and UI layers are not modelled: FastAPI routing, CORS, static files, request validation, the `X-Trace-Id` header and the browser dashboard.
- The agent runtime (ADK runner, session service, event streaming, `asyncio.wait_for`) is not modelled. A run is an input: its events and how it ended (`App.AgentRun`, `AgentTools.DelegationOutcome`).
- The cloud clients (Secret Manager, Vertex AI Search, Pub/Sub, Cloud Logging) are not modelled. They are a map of secret payloads and a search function parameter. `my_agent/devops_tools.py` is not part of this model.
- `read_token`, `main`, HTTP forwarding and message sending in the Telegram bridge are not modelled, nor the root `telegram_bot.py`, `register_agent.py` or the DevOps agent's configuration. These are I/O or configuration.
- Logging calls are not modelled: each is a side-effect sink, and only whether a logger was given affects the secret loader.
- App.Mean: latencies are whole numbers and the mean is an exact real. The float division and the millisecond rounding of `/stats` are not modelled.
- App.P95Index: `math.ceil(0.95 * n)` is computed in exact arithmetic. It agrees with the float computation for all window sizes up to 200.
- Text.Lower: maps A-Z and the Kelvin sign U+212A (which Python lowers to `k`) and leaves every other character as it is. Python's `str.lower` also folds other alphabets, but those characters lower to non-ASCII text (İ becomes `i` followed by U+0307), so a comparison with the ASCII event types and city names comes out the same.
- Vertex.Value: numbers in search results are whole numbers, and `str()` of a non-string value is an opaque parameter.
- Secrets.GetSecretValue: the UTF-8 decode of the payload is not modelled; the store holds strings.
- AgentTools.GetCurrentTime: the zone lookup and the clock read are one parameter. An invalid zone raises inside it.
- Concurrency: the monitor and the statistics are shared by concurrent requests, and each operation here is modelled as atomic.
- The serving-config path formatting of the search client is not modelled. The request carries its parts instead.
- The expectations of tests/test_agent.py:15-29 are not modelled: the weather and time tools absent from the agent, and a test-mode reply of `ask_devops`. The code does not do either.
