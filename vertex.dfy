/** The knowledge-base search tool (my_agent/vertex_tools.py): the
    configuration check, the choice of location and API endpoint, the search
    request, and the shaping of each search result into a text entry.

    The environment is a map from names to values. The search client is the
    function `client` from the request to an outcome: the documents' derived
    data, or the text of the exception it raised. Result data are JSON-like
    values; `str()` of a value that is not a string is the parameter `repr`. */
module Vertex {
  import opened Wrappers
  import opened Text
  import opened ToolReplies

  const ProjectVar := "GCP_PROJECT_ID"
  const LocationVar := "GCP_LOCATION"
  const DataStoreVar := "VERTEX_SEARCH_DATA_STORE_ID"
  const DefaultLocation := "europe-west4"
  const GlobalLocation := "global"
  const EndpointSuffix := "-discoveryengine.googleapis.com"
  const ServingConfigId := "default_config"
  const PageSize := 3
  const NotConfiguredMessage := "GCP_PROJECT_ID or VERTEX_SEARCH_DATA_STORE_ID not configured."
  const NoResultsText := "No results found."
  const FailurePrefix := "Search failed: "

  /** A value of a result's derived data (numbers are whole numbers here). */
  datatype Value =
    | Null
    | Bool(b: bool)
    | Num(n: int)
    | Str(s: string)
    | List(items: seq<Value>)
    | Dict(fields: map<string, Value>)

  /** Python truthiness of a value. */
  predicate IsTruthy(v: Value) {
    match v
    case Null => false
    case Bool(b) => b
    case Num(n) => n != 0
    case Str(s) => s != ""
    case List(items) => items != []
    case Dict(fields) => fields != map[]
  }

  /** How an f-string shows a value: a string as it is, anything else by its
      `str()`. */
  function Render(v: Value, repr: Value -> string): string {
    if v.Str? then v.s else repr(v)
  }

  /** `d.get(key, default)`. */
  function Get(d: map<string, Value>, key: string, default: Value): Value {
    if key in d then d[key] else default
  }

  /** `os.getenv(name)`. */
  function GetEnv(env: map<string, string>, name: string): Option<string> {
    if name in env then Some(env[name]) else None
  }

  // -----------------------------------------------------------------------
  // Configuration and the request
  // -----------------------------------------------------------------------

  predicate Configured(env: map<string, string>) {
    Truthy(GetEnv(env, ProjectVar)) && Truthy(GetEnv(env, DataStoreVar))
  }

  /** `os.getenv("GCP_LOCATION") or "europe-west4"`. */
  function Location(env: map<string, string>): string {
    var l := GetEnv(env, LocationVar);
    if Truthy(l) then l.value else DefaultLocation
  }

  /** The `api_endpoint` of the client options; no options for "global". */
  function Endpoint(location: string): Option<string> {
    if location != GlobalLocation then Some(location + EndpointSuffix) else None
  }

  /** What reaches the search client: the endpoint, the serving config's
      parts, the query and the page size. */
  datatype SearchRequest = SearchRequest(endpoint: Option<string>, project: string, location: string,
                                         dataStore: string, servingConfig: string, query: string,
                                         pageSize: nat)

  /** How the client call ended. */
  datatype SearchOutcome = Found(results: seq<map<string, Value>>) | Raised(message: string)

  function Request(env: map<string, string>, query: string): SearchRequest
    requires Configured(env)
  {
    var location := Location(env);
    SearchRequest(Endpoint(location), env[ProjectVar], location, env[DataStoreVar], ServingConfigId, query, PageSize)
  }

  /** The location is the configured one when it is set and non-empty,
      otherwise europe-west4; the endpoint is `{location}-discoveryengine.googleapis.com`
      except for the global location, which gets none. */
  lemma RequestShape(env: map<string, string>, query: string)
    requires Configured(env)
    ensures var r := Request(env, query);
      && (LocationVar in env && env[LocationVar] != "" ==> r.location == env[LocationVar])
      && (LocationVar !in env || env[LocationVar] == "" ==> r.location == "europe-west4")
      && (r.endpoint.None? <==> r.location == "global")
      && (r.endpoint.Some? ==> r.endpoint.value == r.location + "-discoveryengine.googleapis.com")
      && r.project == env[ProjectVar] && r.dataStore == env[DataStoreVar]
      && r.query == query && r.pageSize == 3 && r.servingConfig == "default_config"
  {
  }

  // -----------------------------------------------------------------------
  // One result
  // -----------------------------------------------------------------------

  /** `data.get("snippets") or data.get("extractive_answers") or []`. */
  function SnippetSource(data: map<string, Value>): Value {
    var snippets := Get(data, "snippets", Null);
    if IsTruthy(snippets) then snippets
    else
      var answers := Get(data, "extractive_answers", Null);
      if IsTruthy(answers) then answers else List([])
  }

  /** The snippet text: from the first element of a non-empty source list,
      its `snippet` (or else its `content`) when it is a dictionary, its
      `str()` otherwise; "" when the source is not a non-empty list. */
  function SnippetText(data: map<string, Value>, repr: Value -> string): string {
    var source := SnippetSource(data);
    if source.List? && source.items != [] then
      var first := source.items[0];
      if first.Dict? then
        var snippet := Get(first.fields, "snippet", Null);
        Render(if IsTruthy(snippet) then snippet else Get(first.fields, "content", Str("")), repr)
      else Render(first, repr)
    else ""
  }

  function Entry(data: map<string, Value>, repr: Value -> string): string {
    "Title: " + Render(Get(data, "title", Str("No Title")), repr)
    + "\nSnippet: " + SnippetText(data, repr)
    + "\nLink: " + Render(Get(data, "link", Str("")), repr)
  }

  function Entries(results: seq<map<string, Value>>, repr: Value -> string): (entries: seq<string>)
    ensures |entries| == |results|
    ensures forall k :: 0 <= k < |results| ==> entries[k] == Entry(results[k], repr)
  {
    seq(|results|, k requires 0 <= k < |results| => Entry(results[k], repr))
  }

  /** The snippet is taken from `snippets` when that is truthy, else from
      `extractive_answers`; a dictionary's `snippet` wins over its `content`,
      which defaults to ""; a first element that is a string is used as it
      is; an empty or missing list gives "". */
  lemma SnippetCases(data: map<string, Value>, repr: Value -> string)
    ensures "snippets" in data && IsTruthy(data["snippets"]) ==> SnippetSource(data) == data["snippets"]
    ensures (!("snippets" in data && IsTruthy(data["snippets"])) && "extractive_answers" in data
             && IsTruthy(data["extractive_answers"])) ==> SnippetSource(data) == data["extractive_answers"]
    ensures var source := SnippetSource(data);
      && (!source.List? || source.items == [] ==> SnippetText(data, repr) == "")
      && (source.List? && source.items != [] && source.items[0].Str? ==>
            SnippetText(data, repr) == source.items[0].s)
      && (source.List? && source.items != [] && source.items[0].Dict? ==>
            var f := source.items[0].fields;
            && ("snippet" in f && f["snippet"].Str? && f["snippet"].s != "" ==> SnippetText(data, repr) == f["snippet"].s)
            && (("snippet" !in f || !IsTruthy(f["snippet"])) && "content" !in f ==> SnippetText(data, repr) == ""))
  {
  }

  /** An entry reads `Title: {t}\nSnippet: {s}\nLink: {l}`: the title
      defaults to "No Title" and the link to "". */
  lemma EntryForm(data: map<string, Value>, repr: Value -> string)
    ensures var title := if "title" in data then Render(data["title"], repr) else "No Title";
            var link := if "link" in data then Render(data["link"], repr) else "";
      Entry(data, repr) == "Title: " + title + "\nSnippet: " + SnippetText(data, repr) + "\nLink: " + link
    ensures StartsWith(Entry(data, repr), "Title: ")
    ensures "title" in data && data["title"].Str? ==> IsSubstring(data["title"].s, Entry(data, repr))
    ensures IsSubstring(SnippetText(data, repr), Entry(data, repr))
  {
    var title := Render(Get(data, "title", Str("No Title")), repr);
    var link := Render(Get(data, "link", Str("")), repr);
    ThreeFieldsShow(title, SnippetText(data, repr), link);
  }

  /** The three labelled fields of an entry each appear in it. */
  lemma ThreeFieldsShow(title: string, snippet: string, link: string)
    ensures var e := "Title: " + title + "\nSnippet: " + snippet + "\nLink: " + link;
      StartsWith(e, "Title: ") && IsSubstring(title, e) && IsSubstring(snippet, e)
  {
    var e := "Title: " + title + "\nSnippet: " + snippet + "\nLink: " + link;
    assert e[..7] == "Title: ";
    var rest := "\nSnippet: " + snippet + "\nLink: " + link;
    assert e == "Title: " + title + rest;
    SubstringInConcat("Title: ", title, rest);
    var head := "Title: " + title + "\nSnippet: ";
    var tail := "\nLink: " + link;
    assert e == head + snippet + tail;
    SubstringInConcat(head, snippet, tail);
  }

  // -----------------------------------------------------------------------
  // The whole tool
  // -----------------------------------------------------------------------

  /** The report of a successful search: the entries joined by a blank line,
      or the sentinel when there are none. */
  function ReportOf(entries: seq<string>): string {
    if entries == [] then NoResultsText else Join(entries, "\n\n")
  }

  /** What `search_knowledge_base` returns. */
  function Search(query: string, env: map<string, string>, client: SearchRequest -> SearchOutcome,
                  repr: Value -> string): ToolReply
  {
    if !Configured(env) then Err(NotConfiguredMessage)
    else
      match client(Request(env, query))
      case Raised(message) => Err(FailurePrefix + message)
      case Found(results) => Ok(ReportOf(Entries(results, repr)))
  }

  /** The loop over the results, one entry per result in result order, and
      the report built from them. */
  method FormatResults(results: seq<map<string, Value>>, repr: Value -> string) returns (report: string)
    ensures report == ReportOf(Entries(results, repr))
  {
    var entries: seq<string> := [];
    var i := 0;
    while i < |results|
      invariant 0 <= i <= |results|
      invariant entries == Entries(results[..i], repr)
    {
      entries := entries + [Entry(results[i], repr)];
      i := i + 1;
    }
    assert results[..i] == results;
    report := if entries != [] then Join(entries, "\n\n") else NoResultsText;
  }

  /** `search_knowledge_base`. */
  method SearchKnowledgeBase(query: string, env: map<string, string>, client: SearchRequest -> SearchOutcome,
                             repr: Value -> string)
    returns (reply: ToolReply)
    ensures reply == Search(query, env, client, repr)
  {
    if !Configured(env) {
      return Err(NotConfiguredMessage);
    }
    match client(Request(env, query))
    case Raised(message) =>
      reply := Err(FailurePrefix + message);
    case Found(results) =>
      var report := FormatResults(results, repr);
      reply := Ok(report);
  }

  /** Without a project id or a data store id the tool answers the fixed
      "not configured" error whatever the client would do, so the client is
      never consulted. */
  lemma NotConfiguredIgnoresClient(query: string, env: map<string, string>,
                                   client: SearchRequest -> SearchOutcome, other: SearchRequest -> SearchOutcome,
                                   repr: Value -> string)
    requires !Truthy(GetEnv(env, "GCP_PROJECT_ID")) || !Truthy(GetEnv(env, "VERTEX_SEARCH_DATA_STORE_ID"))
    ensures Search(query, env, client, repr) == Search(query, env, other, repr)
    ensures var r := Search(query, env, client, repr);
      r.Status() == "error" && IsSubstring("not configured", r.errorMessage)
  {
    assert NotConfiguredMessage[46..60] == "not configured";
    assert OccursAt(NotConfiguredMessage, "not configured", 46);
  }

  /** A raising client gives an error whose message is `Search failed: `
      followed by the exception's text. */
  lemma SearchFailure(query: string, env: map<string, string>, client: SearchRequest -> SearchOutcome,
                      repr: Value -> string)
    requires Configured(env) && client(Request(env, query)).Raised?
    ensures var r := Search(query, env, client, repr);
      && r.Status() == "error"
      && StartsWith(r.errorMessage, "Search failed: ")
      && r.errorMessage[15..] == client(Request(env, query)).message
      && IsSubstring(client(Request(env, query)).message, r.errorMessage)
  {
    var m := client(Request(env, query)).message;
    assert OccursAt(FailurePrefix + m, m, 15);
  }

  /** A successful search lists every result's entry, in result order; the
      report is the sentinel exactly when there are no results. */
  lemma SearchSuccess(query: string, env: map<string, string>, client: SearchRequest -> SearchOutcome,
                      repr: Value -> string, k: nat)
    requires Configured(env) && client(Request(env, query)).Found?
    ensures var r := Search(query, env, client, repr);
            var results := client(Request(env, query)).results;
      && r.Status() == "success"
      && (r.report == "No results found." <==> results == [])
      && (k < |results| ==> IsSubstring(Entry(results[k], repr), r.report))
      && (results != [] ==> StartsWith(r.report, Entry(results[0], repr)))
  {
    var results := client(Request(env, query)).results;
    var entries := Entries(results, repr);
    if results != [] {
      JoinStartsWith(entries, "\n\n");
      EntryForm(results[0], repr);
      var report := Join(entries, "\n\n");
      assert report[..7] == entries[0][..7] == "Title: ";
      assert report[0] == 'T' && NoResultsText[0] == 'N';
    }
    if k < |results| {
      JoinContainsPart(entries, "\n\n", k);
    }
  }

  /** The search of the tool's test: one document titled "Test Doc" with one
      snippet dictionary; the report names the title and the snippet. */
  lemma SearchExample(env: map<string, string>, client: SearchRequest -> SearchOutcome, repr: Value -> string)
    requires Configured(env)
    requires client(Request(env, "test query"))
             == Found([map["title" := Str("Test Doc"),
                           "snippets" := List([Dict(map["snippet" := Str("This is a test snippet.")])]),
                           "link" := Str("http://example.com")]])
    ensures var r := Search("test query", env, client, repr);
      r.Status() == "success" && IsSubstring("Test Doc", r.report) && IsSubstring("This is a test snippet.", r.report)
  {
    var data := map["title" := Str("Test Doc"),
                    "snippets" := List([Dict(map["snippet" := Str("This is a test snippet.")])]),
                    "link" := Str("http://example.com")];
    assert SnippetSource(data) == List([Dict(map["snippet" := Str("This is a test snippet.")])]);
    assert SnippetText(data, repr) == "This is a test snippet.";
    EntryForm(data, repr);
    SearchSuccess("test query", env, client, repr, 0);
    SubstringTrans("Test Doc", Entry(data, repr), Search("test query", env, client, repr).report);
    SubstringTrans("This is a test snippet.", Entry(data, repr), Search("test query", env, client, repr).report);
  }
}
