/** The agent's own tool functions (my_agent/agent.py): the weather mock,
    the time-zone choice of the clock tool, the session id and the replies of
    the delegation tool, and the two monitor reports wrapped in the tool
    envelope.

    The wall clock read through a time zone is the parameter `clock`; the
    delegated agent run is its outcome. */
module AgentTools {
  import opened Wrappers
  import opened Text
  import opened ToolReplies
  import Sessions

  const NewYorkReport := "The weather in New York is sunny with a temperature of 25 degrees Celsius (77 degrees Fahrenheit)."
  const LondonReport := "The weather in London is rainy with a temperature of 15 degrees Celsius (59 degrees Fahrenheit)."
  const WeatherPrefix := "The weather in "
  const WeatherSuffix := " is partly cloudy with a temperature of 20 degrees Celsius."
  const DefaultZone := "UTC"
  const DelegationPrefix := "delegation_"
  const DefaultDelegationUser := "main_agent"
  const TimeoutReply := "DevOps agent timed out while processing the request."
  const DelegationErrorPrefix := "Error calling DevOps agent: "

  // -----------------------------------------------------------------------
  // Weather
  // -----------------------------------------------------------------------

  /** `get_weather`: fixed reports for New York and London in any letter
      case, a generic report naming the city for any other. */
  function GetWeather(city: string): ToolReply {
    if Lower(city) == "new york" then Ok(NewYorkReport)
    else if Lower(city) == "london" then Ok(LondonReport)
    else Ok(WeatherPrefix + city + WeatherSuffix)
  }

  /** The city a generic weather report names. */
  function CityOfReport(report: string): string
    requires |report| >= |WeatherPrefix| + |WeatherSuffix|
  {
    report[|WeatherPrefix|..|report| - |WeatherSuffix|]
  }

  /** The report is always a success; the two known cities match in any
      letter case; any other city is embedded exactly as given and can be
      read back. */
  lemma GetWeatherReports(city: string)
    ensures GetWeather(city).Status() == "success"
    ensures Lower(city) == "new york" ==> GetWeather(city).report == NewYorkReport
    ensures Lower(city) == "london" ==> GetWeather(city).report == LondonReport
    ensures Lower(city) != "new york" && Lower(city) != "london" ==>
              && StartsWith(GetWeather(city).report, "The weather in " + city)
              && CityOfReport(GetWeather(city).report) == city
  {
    var report := GetWeather(city).report;
    if Lower(city) != "new york" && Lower(city) != "london" {
      assert report[..|WeatherPrefix| + |city|] == WeatherPrefix + city;
      assert report[|WeatherPrefix|..|report| - |WeatherSuffix|] == city;
    }
  }

  /** Two spellings of New York or London that differ only in letter case
      get the same report. */
  lemma GetWeatherIgnoresCase(a: string, b: string)
    requires Lower(a) == Lower(b) && Lower(a) in {"new york", "london"}
    ensures GetWeather(a) == GetWeather(b)
  {
  }

  // -----------------------------------------------------------------------
  // Time
  // -----------------------------------------------------------------------

  /** The five known cities, by lower-cased name. */
  const Zones: map<string, string> := map[
    "new york" := "America/New_York",
    "london" := "Europe/London",
    "tokyo" := "Asia/Tokyo",
    "sydney" := "Australia/Sydney",
    "los angeles" := "America/Los_Angeles"]

  /** The zone `get_current_time` reads the clock in. */
  function ZoneFor(city: string): string {
    var key := Lower(city);
    if key in Zones && Zones[key] != "" then Zones[key] else DefaultZone
  }

  /** The zone depends on the lower-cased name only; a known city gets its
      table entry and exactly the unknown ones get UTC. */
  lemma ZoneForChoice(city: string)
    ensures Lower(city) in Zones ==> ZoneFor(city) == Zones[Lower(city)]
    ensures ZoneFor(city) == "UTC" <==> Lower(city) !in Zones
    ensures forall other :: Lower(other) == Lower(city) ==> ZoneFor(other) == ZoneFor(city)
  {
    assert forall k :: k in Zones ==> Zones[k] != "UTC" && Zones[k] != "";
  }

  lemma ZoneForExamples()
    ensures ZoneFor("Tokyo") == "Asia/Tokyo"
    ensures ZoneFor("LOS ANGELES") == "America/Los_Angeles"
    ensures ZoneFor("Paris") == "UTC"
  {
    assert Lower("Tokyo") == "tokyo";
    assert Lower("LOS ANGELES") == "los angeles";
    assert Lower("Paris") == "paris";
  }

  /** `get_current_time`: `clock(zone)` is the formatted current time in the
      zone, or the text of the error raised while reading it. */
  function GetCurrentTime(city: string, clock: string -> Result<string, string>): ToolReply {
    match clock(ZoneFor(city))
    case Success(now) => Ok("The current time in " + city + " is " + now)
    case Failure(e) => Err(e)
  }

  /** The clock is read in the chosen zone; the report names the city as
      given; a failure is passed on as the error message. */
  lemma GetCurrentTimeReport(city: string, clock: string -> Result<string, string>)
    ensures clock(ZoneFor(city)).Success? ==>
              && GetCurrentTime(city, clock).Status() == "success"
              && StartsWith(GetCurrentTime(city, clock).report, "The current time in " + city + " is ")
    ensures clock(ZoneFor(city)).Failure? ==>
              GetCurrentTime(city, clock) == Err(clock(ZoneFor(city)).error)
  {
    if clock(ZoneFor(city)).Success? {
      var prefix := "The current time in " + city + " is ";
      assert GetCurrentTime(city, clock).report[..|prefix|] == prefix;
    }
  }

  // -----------------------------------------------------------------------
  // Delegation
  // -----------------------------------------------------------------------

  /** `session_id or f"delegation_{user_id}"`. */
  function DelegationSession(sessionId: Option<string> := None, userId: string := DefaultDelegationUser): string {
    if Truthy(sessionId) then sessionId.value else DelegationPrefix + userId
  }

  /** A given non-empty session id is used as it is; otherwise each user
      gets one stable session `delegation_<user>`, different users different
      sessions. */
  lemma DelegationSessionChoice(sessionId: Option<string>, userId: string, otherUser: string)
    ensures Truthy(sessionId) ==> DelegationSession(sessionId, userId) == sessionId.value
    ensures !Truthy(sessionId) ==>
              && StartsWith(DelegationSession(sessionId, userId), "delegation_")
              && DelegationSession(sessionId, userId)[11..] == userId
              && (DelegationSession(sessionId, userId) == DelegationSession(sessionId, otherUser) <==> userId == otherUser)
  {
    if !Truthy(sessionId) {
      var a := DelegationSession(sessionId, userId);
      var b := DelegationSession(sessionId, otherUser);
      assert a[11..] == userId && b[11..] == otherUser;
      assert a[..11] == "delegation_";
    }
  }

  /** How the delegated run ended. */
  datatype DelegationOutcome = Answered(text: string) | TimedOut | Crashed(error: string)

  /** What `ask_devops` returns. */
  function DelegationReply(outcome: DelegationOutcome): string {
    match outcome
    case Answered(text) => text
    case TimedOut => TimeoutReply
    case Crashed(e) => DelegationErrorPrefix + e
  }

  /** The run's text is passed on as it is; a time-out has its fixed reply,
      and a failure names the error after a fixed prefix. */
  lemma DelegationReplyCases(outcome: DelegationOutcome)
    ensures outcome.Answered? ==> DelegationReply(outcome) == outcome.text
    ensures outcome.TimedOut? ==> DelegationReply(outcome) == "DevOps agent timed out while processing the request."
    ensures outcome.Crashed? ==> && StartsWith(DelegationReply(outcome), "Error calling DevOps agent: ")
                                 && DelegationReply(outcome)[28..] == outcome.error
  {
    if outcome.Crashed? {
      assert DelegationReply(outcome)[..28] == "Error calling DevOps agent: ";
    }
  }

  // -----------------------------------------------------------------------
  // The monitor reports
  // -----------------------------------------------------------------------

  /** `get_session_summary`: always a success carrying the monitor's summary;
      the scope argument is not used. */
  method GetSessionSummary(monitor: Sessions.SessionMonitor, now: int, scope: string := "active")
    returns (reply: ToolReply)
    requires monitor.Valid()
    ensures reply.Status() == "success"
    ensures reply.report == Sessions.Summary(monitor.sessions, monitor.order, now)
    ensures monitor.sessions == map[] ==> reply.report == "No sessions recorded."
  {
    var report := monitor.GetSummary(now);
    reply := Ok(report);
  }

  /** `get_session_details`: always a success carrying the monitor's detail
      report; for an unknown id it names the id after "No session found". */
  method GetSessionDetails(monitor: Sessions.SessionMonitor, sessionId: string, ctime: int -> string)
    returns (reply: ToolReply)
    ensures reply.Status() == "success"
    ensures reply.report == Sessions.Details(monitor.sessions, sessionId, ctime)
    ensures sessionId !in monitor.sessions ==>
              && StartsWith(reply.report, "No session found for id ")
              && IsSubstring(sessionId, reply.report)
  {
    var report := monitor.GetDetails(sessionId, ctime);
    reply := Ok(report);
    if sessionId !in monitor.sessions {
      Sessions.DetailsUnknown(monitor.sessions, sessionId, ctime);
    }
  }
}
