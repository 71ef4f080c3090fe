/** The request statistics and the chat turn of the web front end (app.py):
    the global `stats` record with its counters, its latency window of 200
    samples and its tool-call histogram; the figures `get_stats` derives from
    it (mean and nearest-rank 95th percentile); the error-counting
    middleware; and the order in which a chat turn calls the session
    monitor.

    Latencies are integer samples in one fixed unit (the source keeps
    float seconds and reports rounded milliseconds). The agent run is an
    input: the events it yielded and whether it finished or raised. */
module App {
  import opened Wrappers
  import opened Text
  import opened Seqs
  import opened Sessions

  /** How many latency samples the record keeps. */
  const LatencyCap := 200
  const AgentName := "gemini_adk_agent"
  const AgentModel := "gemini-2.0-flash-exp"
  /** The user every web chat turn is logged under. */
  const ChatUser := "default_user"
  const TestModeVar := "ADK_TEST_MODE"
  const TestModePrefix := "[test-mode] "
  const ReceivedDetail := "User message received"
  const CompletedDetail := "Chat response generated"
  const ErrorReply := "I'm sorry, I encountered an error processing your request."

  // -----------------------------------------------------------------------
  // Sorting, mean and the 95th percentile (get_stats)
  // -----------------------------------------------------------------------

  /** Each sample is no larger than the next. */
  predicate IsSorted(s: seq<int>) {
    forall i :: 0 < i < |s| ==> s[i - 1] <= s[i]
  }

  /** In a sorted list every sample is no larger than any later one. */
  lemma {:induction false} SortedOrdered(s: seq<int>, i: nat, j: nat)
    requires IsSorted(s) && i <= j < |s|
    ensures s[i] <= s[j]
    decreases j - i
  {
    if i < j {
      SortedOrdered(s, i, j - 1);
    }
  }

  function Insert(x: int, s: seq<int>): (r: seq<int>)
    requires IsSorted(s)
    ensures IsSorted(r)
    ensures multiset(r) == multiset(s) + multiset{x}
    ensures |r| == |s| + 1
    ensures r[0] == x || (s != [] && r[0] == s[0])
  {
    if s == [] then [x]
    else if x <= s[0] then [x] + s
    else
      assert s == [s[0]] + s[1..];
      [s[0]] + Insert(x, s[1..])
  }

  /** Python's `sorted` on integers. */
  function Sort(s: seq<int>): (r: seq<int>)
    ensures IsSorted(r)
    ensures multiset(r) == multiset(s)
    ensures |r| == |s|
  {
    if s == [] then []
    else
      assert s == [s[0]] + s[1..];
      Insert(s[0], Sort(s[1..]))
  }

  /** `math.ceil(0.95 * n)` in exact arithmetic. */
  function CeilPercent95(n: nat): nat {
    (95 * n + 99) / 100
  }

  /** It is the least whole number at least 95% of `n`. */
  lemma CeilPercent95IsCeiling(n: nat)
    ensures 100 * CeilPercent95(n) >= 95 * n
    ensures 100 * (CeilPercent95(n) - 1) < 95 * n
  {
  }

  /** `min(n - 1, ceil(0.95 * n) - 1)`: the nearest-rank position of the 95th
      percentile in a sorted list of `n` samples. */
  function P95Index(n: nat): (i: int)
    requires n >= 1
    ensures 0 <= i < n
  {
    Min(n - 1, CeilPercent95(n) - 1)
  }

  /** The position is the nearest rank: at least 95% of the samples sit at or
      below it and fewer than 95% strictly below; the `min` never binds. */
  lemma P95IndexIsNearestRank(n: nat)
    requires n >= 1
    ensures P95Index(n) == CeilPercent95(n) - 1
    ensures 100 * (P95Index(n) + 1) >= 95 * n
    ensures 100 * P95Index(n) < 95 * n
  {
    CeilPercent95IsCeiling(n);
  }

  /** The reported 95th percentile; 0 with no samples. */
  function P95(samples: seq<int>): int {
    if samples == [] then 0 else Sort(samples)[P95Index(|samples|)]
  }

  /** For a non-empty list the percentile is one of the samples, no smaller
      than any sample sorted at or below its position and no larger than any
      sorted above it. */
  lemma P95IsRankedSample(samples: seq<int>)
    requires samples != []
    ensures P95(samples) in samples
    ensures var sorted := Sort(samples);
      && (forall k :: 0 <= k <= P95Index(|samples|) ==> sorted[k] <= P95(samples))
      && (forall k :: P95Index(|samples|) <= k < |samples| ==> P95(samples) <= sorted[k])
  {
    var sorted := Sort(samples);
    var i := P95Index(|samples|);
    var r := sorted[i];
    assert r in multiset(sorted);
    assert r in multiset(samples);
    forall k | 0 <= k <= i
      ensures sorted[k] <= r
    {
      SortedOrdered(sorted, k, i);
    }
    forall k | i <= k < |samples|
      ensures r <= sorted[k]
    {
      SortedOrdered(sorted, i, k);
    }
  }

  function Sum(s: seq<int>): int
    decreases |s|
  {
    if s == [] then 0 else Sum(s[..|s| - 1]) + s[|s| - 1]
  }

  /** `sum(latencies) / len(latencies) if latencies else 0.0`, exactly. */
  function Mean(samples: seq<int>): real {
    if samples == [] then 0.0 else (Sum(samples) as real) / (|samples| as real)
  }

  lemma {:induction false} SumBounds(s: seq<int>, lo: int, hi: int)
    requires forall k :: 0 <= k < |s| ==> lo <= s[k] <= hi
    ensures |s| * lo <= Sum(s) <= |s| * hi
    decreases |s|
  {
    if s != [] {
      var init := s[..|s| - 1];
      forall k | 0 <= k < |init| ensures lo <= init[k] <= hi {
        assert init[k] == s[k];
      }
      SumBounds(init, lo, hi);
      assert Sum(s) == Sum(init) + s[|s| - 1];
      MulSucc(|init|, lo);
      MulSucc(|init|, hi);
    }
  }

  lemma MulSucc(n: int, x: int)
    ensures (n + 1) * x == n * x + x
  {
  }

  /** The mean lies between the least and the greatest sample bound. */
  lemma MeanBounds(samples: seq<int>, lo: int, hi: int)
    requires samples != []
    requires forall k :: 0 <= k < |samples| ==> lo <= samples[k] <= hi
    ensures lo as real <= Mean(samples) <= hi as real
  {
    SumBounds(samples, lo, hi);
    var n := |samples| as real;
    CastProduct(|samples|, lo);
    CastProduct(|samples|, hi);
    DivideBounds(Sum(samples) as real, n, lo as real, hi as real);
  }

  lemma CastProduct(a: int, b: int)
    ensures (a * b) as real == (a as real) * (b as real)
  {
  }

  lemma NonNegativeFactor(a: real, n: real)
    requires n > 0.0 && a * n >= 0.0
    ensures a >= 0.0
  {
  }

  lemma DivideBounds(total: real, n: real, lo: real, hi: real)
    requires n > 0.0
    requires n * lo <= total <= n * hi
    ensures lo <= total / n <= hi
  {
    var q := total / n;
    assert q * n == total;
    assert (q - lo) * n == total - lo * n;
    NonNegativeFactor(q - lo, n);
    assert (hi - q) * n == hi * n - total;
    NonNegativeFactor(hi - q, n);
  }

  /** With no samples both figures are 0. */
  lemma EmptyFigures()
    ensures Mean([]) == 0.0 && P95([]) == 0
  {
  }

  // -----------------------------------------------------------------------
  // What one agent run yields
  // -----------------------------------------------------------------------

  /** An event's `tool` attribute: its `name` attribute and its `str()`. */
  datatype ToolObject = ToolObject(name: Option<string>, shown: string)

  /** An event's `tool_call` attribute: its `name` attribute. */
  datatype ToolCall = ToolCall(name: Option<string>)

  /** One event of the run: the optional `tool` and `tool_call` attributes,
      and the texts of `event.content.parts` (`None` when the event has no
      content or its content no parts). */
  datatype AgentEvent = AgentEvent(tool: Option<ToolObject>, toolCall: Option<ToolCall>,
                                   parts: Option<seq<Option<string>>>)

  /** How the agent run ended: it finished, or it raised after yielding
      some events. */
  datatype AgentRun =
    | Finished(events: seq<AgentEvent>, finishedAt: int)
    | Raised(events: seq<AgentEvent>, error: string, failedAt: int)

  /** The tool name counted for an event: the tool's name, else its string
      form; a tool call's name only when that gave nothing; `None` when the
      outcome is empty. */
  function DetectedTool(e: AgentEvent): Option<string> {
    var fromTool := if e.tool.None? then None
                    else if Truthy(e.tool.value.name) then e.tool.value.name
                    else Some(e.tool.value.shown);
    var name := if !Truthy(fromTool) && e.toolCall.Some? then e.toolCall.value.name else fromTool;
    if Truthy(name) then name else None
  }

  /** A named tool wins over its string form and over any tool call; the tool
      call is consulted exactly when the tool gives nothing; a detected name is
      never empty. */
  lemma DetectedToolPrecedence(e: AgentEvent)
    ensures DetectedTool(e).Some? ==> DetectedTool(e).value != []
    ensures e.tool.Some? && Truthy(e.tool.value.name) ==> DetectedTool(e) == e.tool.value.name
    ensures e.tool.Some? && !Truthy(e.tool.value.name) && e.tool.value.shown != [] ==>
              DetectedTool(e) == Some(e.tool.value.shown)
    ensures (e.tool.None? || (!Truthy(e.tool.value.name) && e.tool.value.shown == [])) ==>
              DetectedTool(e) == (if e.toolCall.Some? && Truthy(e.toolCall.value.name)
                                  then e.toolCall.value.name else None)
  {
  }

  /** The tool names counted over a run, in event order. */
  function ToolNames(events: seq<AgentEvent>): seq<string>
    decreases |events|
  {
    if events == [] then []
    else
      var last := DetectedTool(events[|events| - 1]);
      ToolNames(events[..|events| - 1]) + (if last.Some? then [last.value] else [])
  }

  /** The text of an event's parts: the non-empty ones, concatenated. */
  function PartsText(parts: seq<Option<string>>): string
    decreases |parts|
  {
    if parts == [] then ""
    else
      var last := parts[|parts| - 1];
      PartsText(parts[..|parts| - 1]) + (if Truthy(last) then last.value else "")
  }

  function EventText(e: AgentEvent): string {
    if e.parts.Some? then PartsText(e.parts.value) else ""
  }

  /** The reply of a finished run: every non-empty part text, in order. */
  function ResponseText(events: seq<AgentEvent>): string
    decreases |events|
  {
    if events == [] then ""
    else ResponseText(events[..|events| - 1]) + EventText(events[|events| - 1])
  }

  lemma {:induction false} ToolNamesAppend(a: seq<AgentEvent>, b: seq<AgentEvent>)
    ensures ToolNames(a + b) == ToolNames(a) + ToolNames(b)
    decreases |b|
  {
    if b != [] {
      var b' := b[..|b| - 1];
      assert (a + b)[..|a + b| - 1] == a + b';
      ToolNamesAppend(a, b');
    } else {
      assert a + b == a;
    }
  }

  lemma {:induction false} ResponseTextAppend(a: seq<AgentEvent>, b: seq<AgentEvent>)
    ensures ResponseText(a + b) == ResponseText(a) + ResponseText(b)
    decreases |b|
  {
    if b != [] {
      var b' := b[..|b| - 1];
      assert (a + b)[..|a + b| - 1] == a + b';
      ResponseTextAppend(a, b');
    } else {
      assert a + b == a;
    }
  }

  // -----------------------------------------------------------------------
  // The tool histogram
  // -----------------------------------------------------------------------

  function Get(m: map<string, nat>, k: string): nat {
    if k in m then m[k] else 0
  }

  /** `by_name[name] = by_name.get(name, 0) + 1`. */
  function Bump(m: map<string, nat>, k: string): map<string, nat> {
    m[k := Get(m, k) + 1]
  }

  /** The histogram after counting `names` in order. */
  function Tally(m: map<string, nat>, names: seq<string>): map<string, nat>
    decreases |names|
  {
    if names == [] then m else Bump(Tally(m, names[..|names| - 1]), names[|names| - 1])
  }

  /** One more event extends the reply and the histogram by that event's
      part. */
  lemma ToolNamesSnoc(events: seq<AgentEvent>, i: nat, m: map<string, nat>)
    requires i < |events|
    ensures var t := DetectedTool(events[i]);
      && ToolNames(events[..i + 1]) == ToolNames(events[..i]) + (if t.Some? then [t.value] else [])
      && |ToolNames(events[..i + 1])| == |ToolNames(events[..i])| + (if t.Some? then 1 else 0)
      && Tally(m, ToolNames(events[..i + 1]))
         == (if t.Some? then Bump(Tally(m, ToolNames(events[..i])), t.value) else Tally(m, ToolNames(events[..i])))
      && ResponseText(events[..i + 1]) == ResponseText(events[..i]) + EventText(events[i])
  {
    assert events[..i + 1][..i] == events[..i];
    var names := ToolNames(events[..i]);
    var t := DetectedTool(events[i]);
    if t.Some? {
      var ns := names + [t.value];
      assert ns[..|ns| - 1] == names && ns[|ns| - 1] == t.value;
      assert Tally(m, ns) == Bump(Tally(m, names), t.value);
    } else {
      assert ToolNames(events[..i + 1]) == names;
    }
  }

  /** Counting raises the histogram's total by the number of names. */
  lemma {:induction false} TallySum(m: map<string, nat>, names: seq<string>)
    ensures MapSum(Tally(m, names)) == MapSum(m) + |names|
    decreases |names|
  {
    if names != [] {
      TallySum(m, names[..|names| - 1]);
      MapSumIncrement(Tally(m, names[..|names| - 1]), names[|names| - 1]);
    }
  }

  /** Each name's count rises by the number of times it was detected; every
      other count is kept. */
  lemma {:induction false} TallyCounts(m: map<string, nat>, names: seq<string>, k: string)
    ensures Get(Tally(m, names), k) == Get(m, k) + multiset(names)[k]
    decreases |names|
  {
    if names != [] {
      var init := names[..|names| - 1];
      TallyCounts(m, init, k);
      assert names == init + [names[|names| - 1]];
    }
  }

  // -----------------------------------------------------------------------
  // The statistics record
  // -----------------------------------------------------------------------

  /** The figures `/stats` reports. */
  datatype StatsReport = StatsReport(
    requestCount: nat,
    errorCount: nat,
    uptime: int,
    agentName: string,
    model: string,
    latencyAvg: real,
    latencyP95: int,
    toolCallsTotal: nat,
    toolCallsByName: map<string, nat>)

  /** A request outcome as the middleware sees it. */
  datatype HttpOutcome = Responded(status: int) | Threw(error: string)

  /** Whether the middleware counts the outcome as an error. */
  predicate IsServerFailure(outcome: HttpOutcome) {
    outcome.Threw? || outcome.status >= 500
  }

  class Stats {
    const startTime: int
    var requestCount: nat
    var errorCount: nat
    /** The newest samples, oldest first. */
    var latencies: seq<int>
    var toolCallsTotal: nat
    var toolCallsByName: map<string, nat>
    /** Every latency sample ever appended, oldest first. */
    ghost var allLatencies: seq<int>

    /** The window holds the newest 200 samples, and the histogram sums to
        the total. */
    ghost predicate Valid()
      reads this
    {
      && latencies == LastN(allLatencies, LatencyCap)
      && MapSum(toolCallsByName) == toolCallsTotal
    }

    constructor (startTime: int)
      ensures Valid()
      ensures this.startTime == startTime
      ensures requestCount == 0 && errorCount == 0 && latencies == [] && allLatencies == []
      ensures toolCallsTotal == 0 && toolCallsByName == map[]
    {
      this.startTime := startTime;
      requestCount := 0;
      errorCount := 0;
      latencies := [];
      toolCallsTotal := 0;
      toolCallsByName := map[];
      allLatencies := [];
    }

    /** The window never exceeds 200 samples and is the newest stretch of the
        whole history, in arrival order. */
    lemma LatencyWindow()
      requires Valid()
      ensures |latencies| <= LatencyCap
      ensures latencies == allLatencies[|allLatencies| - |latencies|..]
      ensures |allLatencies| >= LatencyCap ==> |latencies| == LatencyCap
    {
    }

    /** `stats["latencies"].append(latency)` and the trim to 200. */
    method RecordLatency(latency: int)
      requires Valid()
      modifies this`latencies, this`allLatencies
      ensures Valid()
      ensures latencies == KeepLast(old(latencies) + [latency], LatencyCap)
      ensures allLatencies == old(allLatencies) + [latency]
    {
      LastNAppend(allLatencies, latency, LatencyCap);
      latencies := latencies + [latency];
      if |latencies| > LatencyCap {
        latencies := SliceFrom(latencies, -LatencyCap);
      }
      allLatencies := allLatencies + [latency];
    }

    /** One detected tool event. */
    method RecordToolCall(name: string)
      requires Valid()
      modifies this`toolCallsTotal, this`toolCallsByName
      ensures Valid()
      ensures toolCallsTotal == old(toolCallsTotal) + 1
      ensures toolCallsByName == Bump(old(toolCallsByName), name)
    {
      MapSumIncrement(toolCallsByName, name);
      toolCallsTotal := toolCallsTotal + 1;
      toolCallsByName := toolCallsByName[name := Get(toolCallsByName, name) + 1];
    }

    /** The body of the event loop for one event: counts its tool, if one is
        detected, and collects the texts of its parts. */
    method ConsumeEvent(event: AgentEvent) returns (text: string)
      requires Valid()
      modifies this`toolCallsTotal, this`toolCallsByName
      ensures Valid()
      ensures text == EventText(event)
      ensures var t := DetectedTool(event);
        && toolCallsTotal == old(toolCallsTotal) + (if t.Some? then 1 else 0)
        && toolCallsByName == (if t.Some? then Bump(old(toolCallsByName), t.value) else old(toolCallsByName))
    {
      var toolName: Option<string> := None;
      if event.tool.Some? {
        toolName := if Truthy(event.tool.value.name) then event.tool.value.name
                    else Some(event.tool.value.shown);
      }
      if !Truthy(toolName) && event.toolCall.Some? {
        toolName := event.toolCall.value.name;
      }
      if Truthy(toolName) {
        RecordToolCall(toolName.value);
      }
      text := "";
      if event.parts.Some? {
        var parts := event.parts.value;
        var j := 0;
        while j < |parts|
          invariant 0 <= j <= |parts|
          invariant text == PartsText(parts[..j])
        {
          assert parts[..j + 1][..j] == parts[..j];
          if Truthy(parts[j]) {
            text := text + parts[j].value;
          }
          j := j + 1;
        }
        assert parts[..j] == parts;
      }
    }

    /** The event loop of a chat turn: counts each detected tool and collects
        the reply text. */
    method ConsumeEvents(events: seq<AgentEvent>) returns (text: string)
      requires Valid()
      modifies this`toolCallsTotal, this`toolCallsByName
      ensures Valid()
      ensures text == ResponseText(events)
      ensures toolCallsTotal == old(toolCallsTotal) + |ToolNames(events)|
      ensures toolCallsByName == Tally(old(toolCallsByName), ToolNames(events))
    {
      text := "";
      var i := 0;
      while i < |events|
        invariant 0 <= i <= |events|
        invariant Valid()
        invariant text == ResponseText(events[..i])
        invariant toolCallsTotal == old(toolCallsTotal) + |ToolNames(events[..i])|
        invariant toolCallsByName == Tally(old(toolCallsByName), ToolNames(events[..i]))
      {
        ToolNamesSnoc(events, i, old(toolCallsByName));
        var piece := ConsumeEvent(events[i]);
        text := text + piece;
        i := i + 1;
      }
      assert events[..i] == events;
    }

    /** The figures of `get_stats` at time `now`. */
    function Report(now: int): StatsReport
      reads this
    {
      StatsReport(requestCount, errorCount, now - startTime, AgentName, AgentModel,
                  Mean(latencies), P95(latencies), toolCallsTotal, toolCallsByName)
    }

    /** With no samples the report shows 0 for both latency figures; it names
        the Gemini agent and a Gemini model. */
    lemma ReportBasics(now: int)
      ensures latencies == [] ==> Report(now).latencyAvg == 0.0 && Report(now).latencyP95 == 0
      ensures Report(now).agentName == "gemini_adk_agent"
      ensures Report(now).model == "gemini-2.0-flash-exp"
      ensures IsSubstring("gemini", Lower(Report(now).model))
    {
      assert Lower(AgentModel) == AgentModel;
      assert OccursAt(AgentModel, "gemini", 0);
    }
  }

  /** The `count_requests` middleware: the outcome passes through unchanged,
      and a status of 500 or more or a raised exception counts one error. */
  method CountRequests(stats: Stats, outcome: HttpOutcome) returns (passed: HttpOutcome)
    modifies stats`errorCount
    ensures passed == outcome
    ensures stats.errorCount == old(stats.errorCount) + (if IsServerFailure(outcome) then 1 else 0)
  {
    match outcome
    case Threw(_) =>
      stats.errorCount := stats.errorCount + 1;
      passed := outcome;
    case Responded(status) =>
      if status >= 500 {
        stats.errorCount := stats.errorCount + 1;
      }
      passed := outcome;
  }

  // -----------------------------------------------------------------------
  // The chat turn
  // -----------------------------------------------------------------------

  /** `os.getenv("ADK_TEST_MODE", "").lower() == "true"`. */
  predicate TestMode(env: map<string, string>) {
    Lower(if TestModeVar in env then env[TestModeVar] else "") == "true"
  }

  /** The registry after the turn's opening calls: `message_received` is
      logged, then one message is recorded. */
  function Received(sessions: map<string, SessionInfo>, sessionId: string, now: int, cap: int)
    : map<string, SessionInfo>
  {
    AfterMessage(AfterLog(sessions, sessionId, ChatUser, AgentName, "message_received", now,
                          Some(ReceivedDetail), None, cap),
                 sessionId, ChatUser, AgentName, now)
  }

  /** The registry after the whole turn. */
  function TurnSessions(sessions: map<string, SessionInfo>, env: map<string, string>, sessionId: string,
                        startedAt: int, run: AgentRun, cap: int): map<string, SessionInfo>
  {
    var start := Received(sessions, sessionId, startedAt, cap);
    if TestMode(env) then start
    else CloseSessions(start, sessionId, run, cap)
  }

  /** The reply of the turn. */
  function TurnReply(env: map<string, string>, message: string, run: AgentRun): string {
    if TestMode(env) then TestModePrefix + message
    else match run
      case Finished(events, _) => ResponseText(events)
      case Raised(_, _, _) => ErrorReply
  }

  /** What a turn does to the registry: only the turn's session is touched,
      and it exists afterwards with one more message. In test mode it is left
      active with the `message_received` alert still buffered; a finished run
      leaves it completed with its alert buffer drained; a failed run leaves
      it in error with one more error counted. */
  lemma TurnEffects(sessions: map<string, SessionInfo>, env: map<string, string>, sessionId: string,
                    startedAt: int, run: AgentRun, cap: int)
    ensures var after := TurnSessions(sessions, env, sessionId, startedAt, run, cap);
            var before := Lookup(sessions, sessionId, ChatUser, AgentName, startedAt);
      && after.Keys == sessions.Keys + {sessionId}
      && (forall k :: k in sessions && k != sessionId ==> after[k] == sessions[k])
      && after[sessionId].userId == before.userId
      && after[sessionId].messageCount == before.messageCount + 1
      && (TestMode(env) ==>
            && after[sessionId].status == Active
            && |after[sessionId].alerts| == |before.alerts| + 1)
      && (!TestMode(env) && run.Finished? ==>
            && after[sessionId].status == Completed
            && after[sessionId].alerts == []
            && after[sessionId].errorCount == before.errorCount)
      && (!TestMode(env) && run.Raised? ==>
            && after[sessionId].status == Error
            && after[sessionId].errorCount == before.errorCount + 1)
  {
    ReceivedEffects(sessions, sessionId, startedAt, cap);
    if !TestMode(env) {
      CloseEffects(Received(sessions, sessionId, startedAt, cap), sessionId, run, cap);
    }
  }

  /** The opening of a turn registers the session if it is new, counts the
      message, marks the session active and buffers one alert. */
  lemma ReceivedEffects(sessions: map<string, SessionInfo>, sessionId: string, now: int, cap: int)
    ensures var start := Received(sessions, sessionId, now, cap);
            var before := Lookup(sessions, sessionId, ChatUser, AgentName, now);
      && start.Keys == sessions.Keys + {sessionId}
      && (forall k :: k in sessions && k != sessionId ==> start[k] == sessions[k])
      && start[sessionId].userId == before.userId
      && start[sessionId].messageCount == before.messageCount + 1
      && start[sessionId].status == Active
      && start[sessionId].errorCount == before.errorCount
      && |start[sessionId].alerts| == |before.alerts| + 1
  {
    ClassifyExamples();
  }

  /** The close of a turn touches only its own session: a finished run
      completes it and drains its alerts, a failed run puts it in error. */
  lemma CloseEffects(start: map<string, SessionInfo>, sessionId: string, run: AgentRun, cap: int)
    requires sessionId in start
    ensures var after := CloseSessions(start, sessionId, run, cap);
      && after.Keys == start.Keys
      && (forall k :: k in start && k != sessionId ==> after[k] == start[k])
      && after[sessionId].userId == start[sessionId].userId
      && after[sessionId].messageCount == start[sessionId].messageCount
      && (run.Finished? ==>
            && after[sessionId].status == Completed
            && after[sessionId].alerts == []
            && after[sessionId].errorCount == start[sessionId].errorCount)
      && (run.Raised? ==>
            && after[sessionId].status == Error
            && after[sessionId].errorCount == start[sessionId].errorCount + 1)
  {
    ClassifyExamples();
  }

  /** The opening of `chat_endpoint`: the request is counted, then the
      monitor logs `message_received` and counts the user's message. */
  method OpenTurn(stats: Stats, monitor: SessionMonitor, sessionId: string, startedAt: int)
    requires stats.Valid() && monitor.Valid()
    modifies stats`requestCount, monitor`sessions, monitor`order, monitor`history
    ensures stats.Valid() && monitor.Valid()
    ensures stats.requestCount == old(stats.requestCount) + 1
    ensures monitor.sessions == Received(old(monitor.sessions), sessionId, startedAt, monitor.maxEvents)
  {
    stats.requestCount := stats.requestCount + 1;
    monitor.LogEvent(sessionId, ChatUser, AgentName, "message_received", startedAt, detail := Some(ReceivedDetail));
    monitor.RecordMessage(sessionId, ChatUser, AgentName, startedAt);
  }

  /** The success branch after the latency: `completed` is logged and the
      session's alerts are drained. */
  method FinishTurn(monitor: SessionMonitor, sessionId: string, finishedAt: int)
    requires monitor.Valid()
    modifies monitor`sessions, monitor`order, monitor`history
    ensures monitor.Valid()
    ensures monitor.sessions == AfterPop(AfterLog(old(monitor.sessions), sessionId, ChatUser, AgentName, "completed",
                                                  finishedAt, Some(CompletedDetail), None, monitor.maxEvents),
                                         sessionId)
  {
    monitor.LogEvent(sessionId, ChatUser, AgentName, "completed", finishedAt, detail := Some(CompletedDetail));
    var _ := monitor.PopAlerts(sessionId);
  }

  /** The latency of a finished run goes into the window; a failed run
      records none. */
  method RecordRunLatency(stats: Stats, startedAt: int, run: AgentRun)
    requires stats.Valid()
    modifies stats`latencies, stats`allLatencies
    ensures stats.Valid()
    ensures stats.latencies == if run.Finished?
                               then KeepLast(old(stats.latencies) + [run.finishedAt - startedAt], LatencyCap)
                               else old(stats.latencies)
  {
    if run.Finished? {
      stats.RecordLatency(run.finishedAt - startedAt);
    }
  }

  /** The failure branch: one more error is counted and `error` is logged
      with the exception's text. */
  method FailTurn(stats: Stats, monitor: SessionMonitor, sessionId: string, error: string, failedAt: int)
    requires stats.Valid() && monitor.Valid()
    modifies stats`errorCount, monitor`sessions, monitor`order, monitor`history
    ensures stats.Valid() && monitor.Valid()
    ensures stats.errorCount == old(stats.errorCount) + 1
    ensures monitor.sessions == AfterLog(old(monitor.sessions), sessionId, ChatUser, AgentName, "error",
                                         failedAt, None, Some(error), monitor.maxEvents)
  {
    stats.errorCount := stats.errorCount + 1;
    monitor.LogEvent(sessionId, ChatUser, AgentName, "error", failedAt, error := Some(error));
  }

  /** The agent part of a turn outside test mode: the run's tools are
      counted and its reply collected, then the success or failure branch
      runs. */
  method RunTurn(stats: Stats, monitor: SessionMonitor, sessionId: string, startedAt: int, run: AgentRun)
    returns (reply: string)
    requires stats.Valid() && monitor.Valid()
    modifies stats`errorCount, stats`latencies, stats`allLatencies,
             stats`toolCallsTotal, stats`toolCallsByName, monitor`sessions, monitor`order, monitor`history
    ensures stats.Valid() && monitor.Valid()
    ensures reply == (if run.Finished? then ResponseText(run.events) else ErrorReply)
    ensures monitor.sessions == CloseSessions(old(monitor.sessions), sessionId, run, monitor.maxEvents)
    ensures stats.errorCount == old(stats.errorCount) + (if run.Raised? then 1 else 0)
    ensures stats.latencies == if run.Finished?
                               then KeepLast(old(stats.latencies) + [run.finishedAt - startedAt], LatencyCap)
                               else old(stats.latencies)
    ensures stats.toolCallsTotal == old(stats.toolCallsTotal) + |ToolNames(run.events)|
    ensures stats.toolCallsByName == Tally(old(stats.toolCallsByName), ToolNames(run.events))
  {
    var text := TallyRun(stats, startedAt, run);
    CloseTurn(stats, monitor, sessionId, run);
    reply := if run.Finished? then text else ErrorReply;
  }

  /** What the run leaves in the counters: its tool calls are counted, its
      latency recorded when it finished, and its reply text collected. */
  method TallyRun(stats: Stats, startedAt: int, run: AgentRun) returns (text: string)
    requires stats.Valid()
    modifies stats`latencies, stats`allLatencies, stats`toolCallsTotal, stats`toolCallsByName
    ensures stats.Valid()
    ensures text == ResponseText(run.events)
    ensures stats.latencies == if run.Finished?
                               then KeepLast(old(stats.latencies) + [run.finishedAt - startedAt], LatencyCap)
                               else old(stats.latencies)
    ensures stats.toolCallsTotal == old(stats.toolCallsTotal) + |ToolNames(run.events)|
    ensures stats.toolCallsByName == Tally(old(stats.toolCallsByName), ToolNames(run.events))
  {
    text := stats.ConsumeEvents(run.events);
    RecordRunLatency(stats, startedAt, run);
  }

  /** The registry after the success or the failure branch. */
  function CloseSessions(sessions: map<string, SessionInfo>, sessionId: string, run: AgentRun, cap: int)
    : map<string, SessionInfo>
  {
    match run
    case Finished(_, t) =>
      AfterPop(AfterLog(sessions, sessionId, ChatUser, AgentName, "completed", t, Some(CompletedDetail), None, cap),
               sessionId)
    case Raised(_, e, t) =>
      AfterLog(sessions, sessionId, ChatUser, AgentName, "error", t, None, Some(e), cap)
  }

  /** The monitor calls and the error count of the branch on how the run
      ended. */
  method CloseTurn(stats: Stats, monitor: SessionMonitor, sessionId: string, run: AgentRun)
    requires stats.Valid() && monitor.Valid()
    modifies stats`errorCount, monitor`sessions, monitor`order, monitor`history
    ensures stats.Valid() && monitor.Valid()
    ensures monitor.sessions == CloseSessions(old(monitor.sessions), sessionId, run, monitor.maxEvents)
    ensures stats.errorCount == old(stats.errorCount) + (if run.Raised? then 1 else 0)
  {
    match run
    case Finished(_, finishedAt) =>
      FinishTurn(monitor, sessionId, finishedAt);
    case Raised(_, error, failedAt) =>
      FailTurn(stats, monitor, sessionId, error, failedAt);
  }

  /** `chat_endpoint`: one request counted; the monitor sees
      `message_received` and a message, then `completed` and a drain or an
      `error`; the statistics see the run's tools and, on success, its
      latency, or on failure one more error. In test mode the echo is
      returned right after the opening calls. */
  method ChatEndpoint(stats: Stats, monitor: SessionMonitor, env: map<string, string>, message: string,
                      sessionId: string, startedAt: int, run: AgentRun)
    returns (reply: string)
    requires stats.Valid() && monitor.Valid()
    modifies stats`requestCount, stats`errorCount, stats`latencies, stats`allLatencies,
             stats`toolCallsTotal, stats`toolCallsByName, monitor`sessions, monitor`order, monitor`history
    ensures stats.Valid() && monitor.Valid()
    ensures reply == TurnReply(env, message, run)
    ensures monitor.sessions == TurnSessions(old(monitor.sessions), env, sessionId, startedAt, run, monitor.maxEvents)
    ensures stats.requestCount == old(stats.requestCount) + 1
    ensures stats.errorCount == old(stats.errorCount) + (if !TestMode(env) && run.Raised? then 1 else 0)
    ensures stats.latencies == if !TestMode(env) && run.Finished?
                               then KeepLast(old(stats.latencies) + [run.finishedAt - startedAt], LatencyCap)
                               else old(stats.latencies)
    ensures stats.toolCallsTotal == old(stats.toolCallsTotal) + (if TestMode(env) then 0 else |ToolNames(run.events)|)
    ensures stats.toolCallsByName == if TestMode(env) then old(stats.toolCallsByName)
                                     else Tally(old(stats.toolCallsByName), ToolNames(run.events))
  {
    OpenTurn(stats, monitor, sessionId, startedAt);
    if TestMode(env) {
      return TestModePrefix + message;
    }
    reply := RunTurn(stats, monitor, sessionId, startedAt, run);
  }
}
