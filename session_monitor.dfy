/** The in-memory session monitor (my_agent/session_monitor.py): a registry
    of sessions keyed by session id, each with its counters, a status derived
    from the latest event, a bounded event list and an alert buffer that is
    emptied on read, plus the summary and detail text reports.

    Clock reads (`time.time()`) are the explicit parameter `now`; the
    rendering of a timestamp (`time.ctime`) is the parameter `ctime`. */
module Sessions {
  import opened Wrappers
  import opened Text
  import opened Seqs

  const DefaultMaxEvents := 50
  /** How many of the newest events the detail report lists. */
  const RecentEventsShown := 10
  const NoSessionsText := "No sessions recorded."

  datatype Status = Created | Active | Completed | Error {
    function Name(): string {
      match this
      case Created => "created"
      case Active => "active"
      case Completed => "completed"
      case Error => "error"
    }
  }

  datatype SessionEvent = SessionEvent(timestamp: int, eventType: string,
                                       detail: Option<string>, error: Option<string>)

  datatype SessionInfo = SessionInfo(
    sessionId: string,
    userId: string,
    agentName: string,
    createdAt: int,
    lastEventAt: int,
    status: Status,
    messageCount: nat,
    errorCount: nat,
    events: seq<SessionEvent>,
    alerts: seq<string>)

  // -----------------------------------------------------------------------
  // One session, as values
  // -----------------------------------------------------------------------

  /** A fresh `SessionInfo` with the dataclass defaults. */
  function NewSession(sessionId: string, userId: string, agentName: string, now: int): SessionInfo {
    SessionInfo(sessionId, userId, agentName, now, now, Created, 0, 0, [], [])
  }

  /** What `_get_or_create` hands back: the stored session, or a new one. */
  function Lookup(sessions: map<string, SessionInfo>, sessionId: string, userId: string,
                  agentName: string, now: int): SessionInfo
  {
    if sessionId in sessions then sessions[sessionId] else NewSession(sessionId, userId, agentName, now)
  }

  predicate IsErrorType(eventType: string) {
    Lower(eventType) in {"error", "failed"}
  }

  predicate IsCompletionType(eventType: string) {
    Lower(eventType) in {"completed", "ended", "finished"}
  }

  /** The status an event of this type leaves its session in. */
  function Classify(eventType: string): Status {
    if IsErrorType(eventType) then Error
    else if IsCompletionType(eventType) then Completed
    else Active
  }

  /** The pieces `log_event` joins with " | " into an alert. */
  function AlertParts(sessionId: string, eventType: string, detail: Option<string>,
                      error: Option<string>): seq<string>
  {
    ["Session " + sessionId + ": " + eventType]
    + (if Truthy(detail) then [detail.value] else [])
    + (if Truthy(error) then ["error=" + error.value] else [])
  }

  function AlertText(sessionId: string, eventType: string, detail: Option<string>,
                     error: Option<string>): string
  {
    Join(AlertParts(sessionId, eventType, detail, error), " | ")
  }

  /** The alert `log_event` buffers: the session and event type, then the
      detail and the error when they are non-empty, joined with " | ". */
  method BuildAlert(sessionId: string, eventType: string, detail: Option<string>, error: Option<string>)
    returns (alert: string)
    ensures alert == AlertText(sessionId, eventType, detail, error)
  {
    var parts := ["Session " + sessionId + ": " + eventType];
    if Truthy(detail) {
      parts := parts + [detail.value];
    }
    if Truthy(error) {
      parts := parts + ["error=" + error.value];
    }
    assert parts == AlertParts(sessionId, eventType, detail, error);
    alert := Join(parts, " | ");
  }

  /** The body of `log_event` between the lookup and the store: touches the
      session, sets its status (and error count) from the event type,
      appends the event and trims the list, and buffers the alert. */
  method ApplyEvent(info: SessionInfo, now: int, eventType: string, detail: Option<string>,
                    error: Option<string>, maxEvents: int)
    returns (session: SessionInfo, event: SessionEvent)
    ensures event == SessionEvent(now, eventType, detail, error)
    ensures session == WithEvent(info, now, eventType, detail, error, maxEvents)
    ensures session.sessionId == info.sessionId
    ensures session.events == KeepLast(info.events + [event], maxEvents)
  {
    session := info.(lastEventAt := now);
    if IsErrorType(eventType) {
      session := session.(status := Error, errorCount := session.errorCount + 1);
    } else if IsCompletionType(eventType) {
      session := session.(status := Completed);
    } else {
      session := session.(status := Active);
    }

    event := SessionEvent(now, eventType, detail, error);
    var events := session.events + [event];
    if |events| > maxEvents {
      events := SliceFrom(events, -maxEvents);
    }
    session := session.(events := events);

    var alert := BuildAlert(info.sessionId, eventType, detail, error);
    session := session.(alerts := session.alerts + [alert]);
  }

  /** The session after `log_event` has updated it. */
  function WithEvent(info: SessionInfo, now: int, eventType: string, detail: Option<string>,
                     error: Option<string>, maxEvents: int): SessionInfo
  {
    var status := Classify(eventType);
    info.(lastEventAt := now,
          status := status,
          errorCount := if status == Error then info.errorCount + 1 else info.errorCount,
          events := KeepLast(info.events + [SessionEvent(now, eventType, detail, error)], maxEvents),
          alerts := info.alerts + [AlertText(info.sessionId, eventType, detail, error)])
  }

  /** The session after `record_message` has updated it. */
  function WithMessage(info: SessionInfo, now: int): SessionInfo {
    info.(messageCount := info.messageCount + 1, lastEventAt := now)
  }

  /** The session after `pop_alerts` has emptied its buffer. */
  function Drained(info: SessionInfo): SessionInfo {
    info.(alerts := [])
  }

  // -----------------------------------------------------------------------
  // The registry after each operation, as values
  // -----------------------------------------------------------------------

  /** The insertion order after `_get_or_create`: a new id goes last. */
  function Registered(order: seq<string>, sessions: map<string, SessionInfo>, sessionId: string): seq<string> {
    if sessionId in sessions then order else order + [sessionId]
  }

  /** The registry after `log_event`. */
  function AfterLog(sessions: map<string, SessionInfo>, sessionId: string, userId: string, agentName: string,
                    eventType: string, now: int, detail: Option<string>, error: Option<string>,
                    cap: int): map<string, SessionInfo>
  {
    sessions[sessionId := WithEvent(Lookup(sessions, sessionId, userId, agentName, now), now, eventType,
                                    detail, error, cap)]
  }

  /** The registry after `record_message`. */
  function AfterMessage(sessions: map<string, SessionInfo>, sessionId: string, userId: string,
                        agentName: string, now: int): map<string, SessionInfo>
  {
    sessions[sessionId := WithMessage(Lookup(sessions, sessionId, userId, agentName, now), now)]
  }

  /** The registry after `pop_alerts`; an unknown id changes nothing. */
  function AfterPop(sessions: map<string, SessionInfo>, sessionId: string): map<string, SessionInfo> {
    if sessionId in sessions then sessions[sessionId := Drained(sessions[sessionId])] else sessions
  }

  /** What `pop_alerts` hands back. */
  function Popped(sessions: map<string, SessionInfo>, sessionId: string): seq<string> {
    if sessionId in sessions then sessions[sessionId].alerts else []
  }

  /** The bounded event list holds the newest `cap` events of the whole
      history for a positive cap, and the whole history for a cap of 0 (the
      slice `[-0:]` keeps everything). */
  ghost predicate RetainsNewest(history: seq<SessionEvent>, events: seq<SessionEvent>, cap: int) {
    && (cap >= 1 ==> events == LastN(history, cap))
    && (cap == 0 ==> events == history)
  }

  /** Logging one more event keeps the retained list equal to the newest
      events of the extended history. */
  lemma RetainsNewestAppend(history: seq<SessionEvent>, events: seq<SessionEvent>, e: SessionEvent, cap: int)
    requires RetainsNewest(history, events, cap)
    ensures RetainsNewest(history + [e], KeepLast(events + [e], cap), cap)
  {
    if cap >= 1 {
      LastNAppend(history, e, cap);
    } else if cap == 0 {
      KeepLastZero(events + [e]);
    }
  }

  /** The registry invariant: `order` lists each registered id exactly once,
      every session is stored under its own id, and its bounded event list
      holds the newest entries of its full history. */
  ghost predicate Consistent(sessions: map<string, SessionInfo>, order: seq<string>,
                             history: map<string, seq<SessionEvent>>, cap: int)
  {
    && (forall i, j :: 0 <= i < j < |order| ==> order[i] != order[j])
    && (forall id :: id in sessions <==> id in order)
    && history.Keys == sessions.Keys
    && (forall id :: id in sessions ==> sessions[id].sessionId == id)
    && (forall id :: id in sessions ==> RetainsNewest(history[id], sessions[id].events, cap))
  }

  /** Replacing a registered session by one with the same id whose events are
      the newest of the new history keeps the registry consistent. */
  lemma ConsistentStore(sessions: map<string, SessionInfo>, order: seq<string>,
                        history: map<string, seq<SessionEvent>>, cap: int,
                        id: string, info: SessionInfo, h: seq<SessionEvent>)
    requires Consistent(sessions, order, history, cap)
    requires id in sessions && info.sessionId == id
    requires RetainsNewest(h, info.events, cap)
    ensures Consistent(sessions[id := info], order, history[id := h], cap)
  {
  }

  // -----------------------------------------------------------------------
  // Reports, as values
  // -----------------------------------------------------------------------

  /** The pieces of one summary line, in order. */
  function SummaryParts(info: SessionInfo, now: int): seq<string> {
    ["- ", info.sessionId, " (user=", info.userId, ", agent=", info.agentName, "): ",
            "status=", info.status.Name(),
            ", ", "messages=", IntToString(info.messageCount),
            ", ", "errors=", IntToString(info.errorCount),
            ", age=", IntToString(now - info.createdAt),
            "s, last_event=", IntToString(now - info.lastEventAt), "s ago"]
  }

  function SummaryLine(info: SessionInfo, now: int): string {
    Concat(SummaryParts(info, now))
  }

  function SummaryLines(sessions: map<string, SessionInfo>, ids: seq<string>, now: int): (lines: seq<string>)
    requires forall k :: 0 <= k < |ids| ==> ids[k] in sessions
    ensures |lines| == |ids|
    ensures forall k :: 0 <= k < |ids| ==> lines[k] == SummaryLine(sessions[ids[k]], now)
  {
    seq(|ids|, k requires 0 <= k < |ids| => SummaryLine(sessions[ids[k]], now))
  }

  /** Extending the listed ids by one extends the lines by that id's line. */
  lemma SummaryLinesSnoc(sessions: map<string, SessionInfo>, ids: seq<string>, i: nat, now: int)
    requires i < |ids|
    requires forall k :: 0 <= k < |ids| ==> ids[k] in sessions
    ensures SummaryLines(sessions, ids[..i + 1], now)
            == SummaryLines(sessions, ids[..i], now) + [SummaryLine(sessions[ids[i]], now)]
  {
  }

  /** The text of `get_summary`, listing the sessions in the order `ids`. */
  function Summary(sessions: map<string, SessionInfo>, ids: seq<string>, now: int): string
    requires forall k :: 0 <= k < |ids| ==> ids[k] in sessions
  {
    if sessions == map[] then NoSessionsText else Join(SummaryLines(sessions, ids, now), "\n")
  }

  /** The pieces of one event line, in order. */
  function EventParts(e: SessionEvent, ctime: int -> string): seq<string> {
    ["  - ", ctime(e.timestamp), " | ", e.eventType]
    + (if Truthy(e.detail) then [" | ", e.detail.value] else [])
    + (if Truthy(e.error) then [" | ", "error=", e.error.value] else [])
  }

  function EventLine(e: SessionEvent, ctime: int -> string): string {
    Concat(EventParts(e, ctime))
  }

  function EventLines(events: seq<SessionEvent>, ctime: int -> string): (lines: seq<string>)
    ensures |lines| == |events|
    ensures forall k :: 0 <= k < |events| ==> lines[k] == EventLine(events[k], ctime)
  {
    seq(|events|, k requires 0 <= k < |events| => EventLine(events[k], ctime))
  }

  lemma EventLinesSnoc(events: seq<SessionEvent>, i: nat, ctime: int -> string)
    requires i < |events|
    ensures EventLines(events[..i + 1], ctime) == EventLines(events[..i], ctime) + [EventLine(events[i], ctime)]
  {
  }

  function DetailHeader(sessionId: string, info: SessionInfo, ctime: int -> string): (lines: seq<string>)
    ensures |lines| == 6 && lines[5] == "Recent events:"
  {
    [ Concat(["Session ", sessionId, " (user=", info.userId, ", agent=", info.agentName, ")"]),
      "Status: " + info.status.Name(),
      Concat(["Messages: ", IntToString(info.messageCount), ", Errors: ", IntToString(info.errorCount)]),
      "Created: " + ctime(info.createdAt),
      "Last event: " + ctime(info.lastEventAt),
      "Recent events:" ]
  }

  function DetailLines(sessionId: string, info: SessionInfo, ctime: int -> string): seq<string> {
    DetailHeader(sessionId, info, ctime) + EventLines(SliceFrom(info.events, -RecentEventsShown), ctime)
  }

  function NotFoundText(sessionId: string): string {
    Concat(["No session found for id ", sessionId, "."])
  }

  /** The text of `get_details`. */
  function Details(sessions: map<string, SessionInfo>, sessionId: string, ctime: int -> string): string {
    if sessionId !in sessions then NotFoundText(sessionId)
    else Join(DetailLines(sessionId, sessions[sessionId], ctime), "\n")
  }

  // -----------------------------------------------------------------------
  // Properties of one session's updates
  // -----------------------------------------------------------------------

  /** Status classification looks at the lower-cased event type only. */
  lemma ClassifyIgnoresCase(a: string, b: string)
    requires Lower(a) == Lower(b)
    ensures Classify(a) == Classify(b)
  {
  }

  /** The classification on spellings the callers use; "created" is not a
      status an event can set. */
  lemma ClassifyExamples()
    ensures Classify("error") == Error && Classify("ERROR") == Error && Classify("Failed") == Error
    ensures Classify("completed") == Completed && Classify("Ended") == Completed
    ensures Classify("FINISHED") == Completed
    ensures Classify("created") == Active && Classify("message_received") == Active
  {
    assert Lower("ERROR") == "error";
    assert Lower("Failed") == "failed";
    assert Lower("Ended") == "ended";
    assert Lower("FINISHED") == "finished";
    assert Lower("created") == "created";
    assert Lower("completed") == "completed";
    assert Lower("error") == "error";
  }

  /** What `log_event` does to a session's status and counters: `error` or
      `failed` (in any letter case) set status error and raise the error count
      by exactly one; `completed`, `ended` or `finished` set completed; any
      other type sets active; nothing sets created; the message count and the
      identity fields are kept. */
  lemma WithEventStatus(info: SessionInfo, now: int, eventType: string, detail: Option<string>,
                        error: Option<string>, cap: int)
    ensures var r := WithEvent(info, now, eventType, detail, error, cap);
      && (r.status == Error <==> Lower(eventType) == "error" || Lower(eventType) == "failed")
      && (r.status == Completed <==> !IsErrorType(eventType)
                                     && Lower(eventType) in {"completed", "ended", "finished"})
      && r.status != Created
      && r.errorCount == (if r.status == Error then info.errorCount + 1 else info.errorCount)
      && r.lastEventAt == now
      && r.messageCount == info.messageCount
      && r.sessionId == info.sessionId && r.userId == info.userId && r.agentName == info.agentName
      && r.createdAt == info.createdAt
  {
  }

  /** For a positive cap the event list never exceeds the cap and holds the
      newest events in arrival order, the new one last. */
  lemma WithEventKeepsNewest(info: SessionInfo, now: int, eventType: string, detail: Option<string>,
                             error: Option<string>, cap: int)
    requires cap >= 1
    ensures var r := WithEvent(info, now, eventType, detail, error, cap);
      && |r.events| <= cap
      && r.events == LastN(info.events + [SessionEvent(now, eventType, detail, error)], cap)
      && r.events[|r.events| - 1] == SessionEvent(now, eventType, detail, error)
  {
    KeepLastPositive(info.events + [SessionEvent(now, eventType, detail, error)], cap);
  }

  /** With a cap of 0 the slice `[-0:]` keeps every event. */
  lemma WithEventZeroCap(info: SessionInfo, now: int, eventType: string, detail: Option<string>,
                         error: Option<string>)
    ensures WithEvent(info, now, eventType, detail, error, 0).events
            == info.events + [SessionEvent(now, eventType, detail, error)]
  {
    KeepLastZero(info.events + [SessionEvent(now, eventType, detail, error)]);
  }

  /** Each logged event buffers exactly one alert, after the earlier ones. */
  lemma WithEventOneAlert(info: SessionInfo, now: int, eventType: string, detail: Option<string>,
                          error: Option<string>, cap: int)
    ensures var r := WithEvent(info, now, eventType, detail, error, cap);
      && |r.alerts| == |info.alerts| + 1
      && r.alerts[..|info.alerts|] == info.alerts
      && r.alerts[|info.alerts|] == AlertText(info.sessionId, eventType, detail, error)
  {
  }

  /** The alert reads "Session {id}: {type}", then " | {detail}" only for a
      non-empty detail, then " | error={error}" only for a non-empty error. */
  lemma AlertForm(sessionId: string, eventType: string, detail: Option<string>, error: Option<string>)
    ensures AlertText(sessionId, eventType, detail, error)
            == "Session " + sessionId + ": " + eventType
               + (if Truthy(detail) then " | " + detail.value else "")
               + (if Truthy(error) then " | " + ("error=" + error.value) else "")
  {
    var head := "Session " + sessionId + ": " + eventType;
    var parts := AlertParts(sessionId, eventType, detail, error);
    if Truthy(detail) && Truthy(error) {
      assert parts == [head, detail.value, "error=" + error.value];
      assert parts[1..] == [detail.value, "error=" + error.value];
      assert Join(parts[1..], " | ") == detail.value + " | " + ("error=" + error.value);
    } else if Truthy(detail) {
      assert parts == [head, detail.value];
    } else if Truthy(error) {
      assert parts == [head, "error=" + error.value];
      assert parts[1..] == ["error=" + error.value];
      assert Join(parts, " | ") == head + " | " + ("error=" + error.value);
      assert head + "" + (" | " + ("error=" + error.value)) == head + " | " + ("error=" + error.value);
    } else {
      assert parts == [head];
    }
  }

  /** `record_message` raises the message count by one and touches the
      session; status, error count, events and alerts are kept. */
  lemma WithMessageKeeps(info: SessionInfo, now: int)
    ensures var r := WithMessage(info, now);
      && r.messageCount == info.messageCount + 1 && r.lastEventAt == now
      && r.status == info.status && r.errorCount == info.errorCount
      && r.events == info.events && r.alerts == info.alerts
      && r.sessionId == info.sessionId && r.userId == info.userId && r.agentName == info.agentName
  {
  }

  /** `_get_or_create` on a known id hands back the stored session whatever
      user and agent are passed; on a new id, a session with zero counters and
      no events or alerts. */
  lemma LookupKeepsFirst(sessions: map<string, SessionInfo>, sessionId: string, userId: string,
                         agentName: string, now: int)
    ensures var r := Lookup(sessions, sessionId, userId, agentName, now);
      && (sessionId in sessions ==> r.userId == sessions[sessionId].userId
                                    && r.agentName == sessions[sessionId].agentName)
      && (sessionId !in sessions ==> && r.userId == userId && r.agentName == agentName
                                     && r.status == Created && r.messageCount == 0 && r.errorCount == 0
                                     && r.events == [] && r.alerts == [])
  {
  }

  /** In a consistent registry with a positive cap every event list is
      bounded by the cap and holds the newest events of the history. */
  lemma ConsistentBounded(sessions: map<string, SessionInfo>, order: seq<string>,
                          history: map<string, seq<SessionEvent>>, cap: int, id: string)
    requires Consistent(sessions, order, history, cap)
    requires id in sessions && cap >= 1
    ensures |sessions[id].events| <= cap
    ensures sessions[id].events == LastN(history[id], cap)
  {
  }

  // -----------------------------------------------------------------------
  // Properties of the reports
  // -----------------------------------------------------------------------

  /** A summary line names the session and shows its status, message count
      and error count. */
  lemma SummaryLineMentions(info: SessionInfo, now: int)
    ensures IsSubstring(info.sessionId, SummaryLine(info, now))
    ensures IsSubstring("status=" + info.status.Name(), SummaryLine(info, now))
    ensures IsSubstring("messages=" + IntToString(info.messageCount), SummaryLine(info, now))
    ensures IsSubstring("errors=" + IntToString(info.errorCount), SummaryLine(info, now))
  {
    var parts := SummaryParts(info, now);
    ConcatContainsPart(parts, 1);
    ConcatContainsPair(parts, 7);
    ConcatContainsPair(parts, 10);
    ConcatContainsPair(parts, 13);
  }

  /** The summary is the sentinel exactly when no session is registered. */
  lemma SummarySentinelIff(sessions: map<string, SessionInfo>, ids: seq<string>, now: int)
    requires forall k :: 0 <= k < |ids| ==> ids[k] in sessions
    ensures Summary(sessions, ids, now) == NoSessionsText <==> sessions == map[]
  {
    if sessions != map[] && |ids| >= 1 {
      var lines := SummaryLines(sessions, ids, now);
      var info := sessions[ids[0]];
      JoinStartsWith(lines, "\n");
      ConcatStartsWith(SummaryParts(info, now));
      assert lines[0][0] == '-';
      assert Summary(sessions, ids, now)[0] == '-';
    }
  }

  /** A registry of one session summarises as that session's line alone. */
  lemma SummaryOne(info: SessionInfo, now: int)
    ensures Summary(map[info.sessionId := info], [info.sessionId], now) == SummaryLine(info, now)
  {
    var m := map[info.sessionId := info];
    assert info.sessionId in m;
    assert SummaryLines(m, [info.sessionId], now) == [SummaryLine(info, now)];
  }

  /** Every listed session's line appears in the summary. */
  lemma SummaryListsEach(sessions: map<string, SessionInfo>, ids: seq<string>, now: int, k: nat)
    requires forall k :: 0 <= k < |ids| ==> ids[k] in sessions
    requires k < |ids|
    ensures IsSubstring(SummaryLine(sessions[ids[k]], now), Summary(sessions, ids, now))
  {
    JoinContainsPart(SummaryLines(sessions, ids, now), "\n", k);
  }

  /** An unknown id gets the not-found sentinel, which names the id. */
  lemma DetailsUnknown(sessions: map<string, SessionInfo>, sessionId: string, ctime: int -> string)
    requires sessionId !in sessions
    ensures StartsWith(Details(sessions, sessionId, ctime), "No session found for id ")
    ensures IsSubstring(sessionId, Details(sessions, sessionId, ctime))
  {
    var parts := ["No session found for id ", sessionId, "."];
    ConcatStartsWith(parts);
    ConcatContainsPart(parts, 1);
  }

  /** The detail report of a known session has six header lines, then one
      line per event for the newest ten (or fewer), oldest first. */
  lemma DetailLinesShape(sessionId: string, info: SessionInfo, ctime: int -> string)
    ensures var lines := DetailLines(sessionId, info, ctime);
            var recent := LastN(info.events, RecentEventsShown);
      && |recent| == Min(|info.events|, RecentEventsShown)
      && |lines| == 6 + |recent|
      && lines[5] == "Recent events:"
      && forall i :: 0 <= i < |recent| ==> lines[6 + i] == EventLine(recent[i], ctime)
  {
    var header := DetailHeader(sessionId, info, ctime);
    var recent := LastN(info.events, RecentEventsShown);
    DetailLinesSplit(sessionId, info, ctime);
    HeaderThenEventLines(header, recent, ctime);
  }

  lemma DetailLinesSplit(sessionId: string, info: SessionInfo, ctime: int -> string)
    ensures DetailLines(sessionId, info, ctime)
            == DetailHeader(sessionId, info, ctime) + EventLines(LastN(info.events, RecentEventsShown), ctime)
  {
  }

  lemma HeaderThenEventLines(header: seq<string>, recent: seq<SessionEvent>, ctime: int -> string)
    requires |header| == 6
    ensures var lines := header + EventLines(recent, ctime);
      && |lines| == 6 + |recent|
      && lines[5] == header[5]
      && forall i :: 0 <= i < |recent| ==> lines[6 + i] == EventLine(recent[i], ctime)
  {
  }

  /** Each of the newest ten events shows its type, its non-empty detail and
      its non-empty error in the detail report. */
  lemma DetailsShowEvent(sessions: map<string, SessionInfo>, sessionId: string, ctime: int -> string, k: nat)
    requires sessionId in sessions
    requires |sessions[sessionId].events| - RecentEventsShown <= k < |sessions[sessionId].events|
    ensures var e := sessions[sessionId].events[k];
            var d := Details(sessions, sessionId, ctime);
      && IsSubstring(e.eventType, d)
      && (Truthy(e.detail) ==> IsSubstring(e.detail.value, d))
      && (Truthy(e.error) ==> IsSubstring("error=" + e.error.value, d))
  {
    var e := sessions[sessionId].events[k];
    var d := Details(sessions, sessionId, ctime);
    DetailsHoldEventLine(sessions[sessionId], sessionId, ctime, k);
    EventLineShows(e, ctime);
    SubstringTrans(e.eventType, EventLine(e, ctime), d);
    if Truthy(e.detail) {
      SubstringTrans(e.detail.value, EventLine(e, ctime), d);
    }
    if Truthy(e.error) {
      SubstringTrans("error=" + e.error.value, EventLine(e, ctime), d);
    }
  }

  /** The line of each of the newest ten events is part of the report. */
  lemma DetailsHoldEventLine(info: SessionInfo, sessionId: string, ctime: int -> string, k: nat)
    requires |info.events| - RecentEventsShown <= k < |info.events|
    ensures IsSubstring(EventLine(info.events[k], ctime), Join(DetailLines(sessionId, info, ctime), "\n"))
  {
    var j := DetailLineOf(info, sessionId, ctime, k);
    JoinContainsPart(DetailLines(sessionId, info, ctime), "\n", j);
  }

  /** Where the line of one of the newest ten events sits in the report. */
  lemma DetailLineOf(info: SessionInfo, sessionId: string, ctime: int -> string, k: nat) returns (j: nat)
    requires |info.events| - RecentEventsShown <= k < |info.events|
    ensures j < |DetailLines(sessionId, info, ctime)|
    ensures DetailLines(sessionId, info, ctime)[j] == EventLine(info.events[k], ctime)
  {
    DetailLinesSplit(sessionId, info, ctime);
    j := RecentLineOf(DetailHeader(sessionId, info, ctime), info.events, ctime, k);
  }

  /** After a six-line header, the line of one of the newest ten events. */
  lemma RecentLineOf(header: seq<string>, events: seq<SessionEvent>, ctime: int -> string, k: nat) returns (j: nat)
    requires |header| == 6
    requires |events| - RecentEventsShown <= k < |events|
    ensures var lines := header + EventLines(LastN(events, RecentEventsShown), ctime);
      j < |lines| && lines[j] == EventLine(events[k], ctime)
  {
    var recent := LastN(events, RecentEventsShown);
    var i := k - (|events| - |recent|);
    assert recent[i] == events[k];
    HeaderThenEventLines(header, recent, ctime);
    j := 6 + i;
  }

  /** An event line shows the type, the non-empty detail and the non-empty
      error of its event. */
  lemma EventLineShows(e: SessionEvent, ctime: int -> string)
    ensures IsSubstring(e.eventType, EventLine(e, ctime))
    ensures Truthy(e.detail) ==> IsSubstring(e.detail.value, EventLine(e, ctime))
    ensures Truthy(e.error) ==> IsSubstring("error=" + e.error.value, EventLine(e, ctime))
  {
    var parts := EventParts(e, ctime);
    ConcatContainsPart(parts, 3);
    if Truthy(e.detail) {
      ConcatContainsPart(parts, 5);
    }
    if Truthy(e.error) {
      ConcatContainsPair(parts, if Truthy(e.detail) then 7 else 5);
    }
  }

  lemma UpdateTwice<K, V>(m: map<K, V>, k: K, a: V, b: V)
    ensures m[k := a][k := b] == m[k := b]
  {
  }

  // -----------------------------------------------------------------------
  // The registry
  // -----------------------------------------------------------------------

  class SessionMonitor {
    var sessions: map<string, SessionInfo>
    /** The keys of `sessions` in insertion order (a Python dict keeps it). */
    var order: seq<string>
    const maxEvents: int
    /** Every event ever logged per session, oldest first. */
    ghost var history: map<string, seq<SessionEvent>>

    ghost predicate Valid()
      reads this
    {
      Consistent(sessions, order, history, maxEvents)
    }

    constructor (maxEvents: int := DefaultMaxEvents)
      ensures Valid()
      ensures sessions == map[] && order == [] && this.maxEvents == maxEvents
    {
      sessions := map[];
      order := [];
      history := map[];
      this.maxEvents := maxEvents;
    }

    /** `_get_or_create`: inserts a new session only when the id is absent;
        an existing entry, with its user and agent, is left as it is. */
    method GetOrCreate(sessionId: string, userId: string, agentName: string, now: int)
      returns (info: SessionInfo)
      requires Valid()
      modifies this`sessions, this`order, this`history
      ensures Valid()
      ensures info == Lookup(old(sessions), sessionId, userId, agentName, now)
      ensures sessions == old(sessions)[sessionId := info]
      ensures order == Registered(old(order), old(sessions), sessionId)
      ensures history == if sessionId in old(sessions) then old(history) else old(history)[sessionId := []]
    {
      if sessionId !in sessions {
        sessions := sessions[sessionId := NewSession(sessionId, userId, agentName, now)];
        order := order + [sessionId];
        history := history[sessionId := []];
      }
      info := sessions[sessionId];
    }

    /** `log_event`. */
    method LogEvent(sessionId: string, userId: string, agentName: string, eventType: string, now: int,
                    detail: Option<string> := None, error: Option<string> := None)
      requires Valid()
      modifies this`sessions, this`order, this`history
      ensures Valid()
      ensures sessions == AfterLog(old(sessions), sessionId, userId, agentName, eventType, now, detail, error, maxEvents)
      ensures order == Registered(old(order), old(sessions), sessionId)
    {
      var got := GetOrCreate(sessionId, userId, agentName, now);
      var session, event := ApplyEvent(got, now, eventType, detail, error, maxEvents);
      UpdateTwice(old(sessions), sessionId, got, session);
      ghost var h := history[sessionId];
      RetainsNewestAppend(h, got.events, event, maxEvents);
      ConsistentStore(sessions, order, history, maxEvents, sessionId, session, h + [event]);
      sessions := sessions[sessionId := session];
      history := history[sessionId := h + [event]];
    }

    /** `record_message`. */
    method RecordMessage(sessionId: string, userId: string, agentName: string, now: int)
      requires Valid()
      modifies this`sessions, this`order, this`history
      ensures Valid()
      ensures sessions == AfterMessage(old(sessions), sessionId, userId, agentName, now)
      ensures order == Registered(old(order), old(sessions), sessionId)
    {
      var session := GetOrCreate(sessionId, userId, agentName, now);
      ghost var got := session;
      session := session.(messageCount := session.messageCount + 1);
      session := session.(lastEventAt := now);
      assert session == WithMessage(got, now);
      UpdateTwice(old(sessions), sessionId, got, session);
      ghost var h := history[sessionId];
      assert session.events == sessions[sessionId].events;
      ConsistentStore(sessions, order, history, maxEvents, sessionId, session, h);
      assert history[sessionId := h] == history;
      sessions := sessions[sessionId := session];
    }

    /** `pop_alerts`: hands back the buffered alerts in insertion order and
        empties the buffer; an unknown id yields [] and creates nothing. */
    method PopAlerts(sessionId: string) returns (alerts: seq<string>)
      requires Valid()
      modifies this`sessions
      ensures Valid()
      ensures alerts == Popped(old(sessions), sessionId)
      ensures sessions == AfterPop(old(sessions), sessionId)
    {
      if sessionId !in sessions {
        return [];
      }
      var session := sessions[sessionId];
      alerts := session.alerts;
      sessions := sessions[sessionId := session.(alerts := [])];
    }

    /** `get_summary`: the sentinel for an empty registry, otherwise one line
        per session in insertion order. */
    method GetSummary(now: int) returns (r: string)
      requires Valid()
      ensures r == Summary(sessions, order, now)
    {
      if sessions == map[] {
        return NoSessionsText;
      }
      assert forall k :: 0 <= k < |order| ==> order[k] in sessions;
      var parts: seq<string> := [];
      var i := 0;
      while i < |order|
        invariant 0 <= i <= |order|
        invariant parts == SummaryLines(sessions, order[..i], now)
      {
        SummaryLinesSnoc(sessions, order, i, now);
        parts := parts + [SummaryLine(sessions[order[i]], now)];
        i := i + 1;
      }
      assert order[..i] == order;
      r := Join(parts, "\n");
    }

    /** `get_details`: the not-found sentinel for an unknown id, otherwise six
        header lines followed by one line per event for the newest ten. */
    method GetDetails(sessionId: string, ctime: int -> string) returns (r: string)
      ensures r == Details(sessions, sessionId, ctime)
    {
      if sessionId !in sessions {
        return NotFoundText(sessionId);
      }
      var info := sessions[sessionId];
      var lines := DetailHeader(sessionId, info, ctime);
      var recent := SliceFrom(info.events, -RecentEventsShown);
      var i := 0;
      while i < |recent|
        invariant 0 <= i <= |recent|
        invariant lines == DetailHeader(sessionId, info, ctime) + EventLines(recent[..i], ctime)
      {
        EventLinesSnoc(recent, i, ctime);
        lines := lines + [EventLine(recent[i], ctime)];
        i := i + 1;
      }
      assert recent[..i] == recent;
      r := Join(lines, "\n");
    }
  }

  // -----------------------------------------------------------------------
  // The behaviour the monitor's tests pin, as runs of the model
  // -----------------------------------------------------------------------

  /** Log a creation, one message and a completion: the summary names the
      session with one message and status completed. */
  method SummaryScenario(t1: int, t2: int, t3: int) returns (summary: string)
    ensures IsSubstring("s1", summary)
    ensures IsSubstring("messages=1", summary)
    ensures IsSubstring("status=completed", summary)
  {
    var m := new SessionMonitor(5);
    m.LogEvent("s1", "u1", "agent", "created", t1, Some("created session"));
    ghost var i1 := WithEvent(NewSession("s1", "u1", "agent", t1), t1, "created", Some("created session"), None, 5);
    assert m.sessions == map["s1" := i1] && m.order == ["s1"];
    m.RecordMessage("s1", "u1", "agent", t2);
    ghost var i2 := WithMessage(i1, t2);
    UpdateTwice(map[], "s1", i1, i2);
    assert m.sessions == map["s1" := i2] && m.order == ["s1"];
    m.LogEvent("s1", "u1", "agent", "completed", t3, Some("done"));
    ghost var i3 := WithEvent(i2, t3, "completed", Some("done"), None, 5);
    UpdateTwice(map[], "s1", i2, i3);
    assert m.sessions == map["s1" := i3] && m.order == ["s1"];
    summary := m.GetSummary(t3);
    SummaryOne(i3, t3);
    CompletedLineMentions(i2, t3);
  }

  /** The summary line of session "s1" with one message once "completed"
      has been logged. */
  lemma CompletedLineMentions(info: SessionInfo, now: int)
    requires info.sessionId == "s1" && info.messageCount == 1
    ensures var line := SummaryLine(WithEvent(info, now, "completed", Some("done"), None, 5), now);
      IsSubstring("s1", line) && IsSubstring("messages=1", line) && IsSubstring("status=completed", line)
  {
    var r := WithEvent(info, now, "completed", Some("done"), None, 5);
    ClassifyExamples();
    WithEventStatus(info, now, "completed", Some("done"), None, 5);
    assert r.status == Completed && r.messageCount == 1 && r.sessionId == "s1";
    SummaryLineMentions(r, now);
    ScenarioTexts();
  }

  lemma ScenarioTexts()
    ensures "messages=" + IntToString(1) == "messages=1"
    ensures "status=" + Completed.Name() == "status=completed"
    ensures IsSubstring("boom", "error=" + "boom")
  {
    assert IntToString(1) == "1";
    assert "status=" + "completed" == "status=completed";
    assert "messages=" + "1" == "messages=1";
    assert OccursAt("error=" + "boom", "boom", 6);
  }

  /** The session the scenario below builds: two alerts, and details that
      name the error and the recovery. */
  lemma ScenarioSession(t1: int, t2: int, ctime: int -> string)
    ensures var i1 := WithEvent(NewSession("s2", "u2", "agent", t1), t1, "error", None, Some("boom"), 5);
            var i2 := WithEvent(i1, t2, "active", Some("recovered"), None, 5);
            var d := Details(map["s2" := i2], "s2", ctime);
      |i2.alerts| == 2 && IsSubstring("boom", d) && IsSubstring("recovered", d)
  {
    var i1 := WithEvent(NewSession("s2", "u2", "agent", t1), t1, "error", None, Some("boom"), 5);
    var i2 := WithEvent(i1, t2, "active", Some("recovered"), None, 5);
    WithEventOneAlert(i1, t2, "active", Some("recovered"), None, 5);
    WithEventKeepsNewest(i1, t2, "active", Some("recovered"), None, 5);
    assert |i2.events| == 2;
    assert i2.events[0].error == Some("boom") && i2.events[1].detail == Some("recovered");
    DetailsShowEvent(map["s2" := i2], "s2", ctime, 0);
    DetailsShowEvent(map["s2" := i2], "s2", ctime, 1);
    ScenarioTexts();
    SubstringTrans("boom", "error=" + "boom", Details(map["s2" := i2], "s2", ctime));
  }

  /** Log an error and a recovery: the details show both, the first drain
      hands back both alerts and the second hands back none. */
  method DetailsAndAlertsScenario(t1: int, t2: int, ctime: int -> string)
    returns (details: string, alerts: seq<string>, again: seq<string>)
    ensures IsSubstring("boom", details) && IsSubstring("recovered", details)
    ensures |alerts| == 2 && again == []
  {
    var m := new SessionMonitor(5);
    ghost var i1 := WithEvent(NewSession("s2", "u2", "agent", t1), t1, "error", None, Some("boom"), 5);
    ghost var i2 := WithEvent(i1, t2, "active", Some("recovered"), None, 5);
    m.LogEvent("s2", "u2", "agent", "error", t1, error := Some("boom"));
    assert m.sessions == map["s2" := i1];
    m.LogEvent("s2", "u2", "agent", "active", t2, Some("recovered"));
    UpdateTwice(map[], "s2", i1, i2);
    assert m.sessions == map["s2" := i2];
    ScenarioSession(t1, t2, ctime);
    details := m.GetDetails("s2", ctime);
    alerts := m.PopAlerts("s2");
    again := m.PopAlerts("s2");
  }
}
