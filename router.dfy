/** Keyword routing of a request to one of the three agents: an ordered route table of
    (keywords, agent) entries, matched by substring against the lower-cased request; the
    first entry with a matching keyword wins, and no match falls back to a default agent. */
module Router {
  import opened Wrappers
  import opened Text

  datatype Agent = GcpTask | DevOpsQuery | BaseLlm {
    /** The agent name reported in the response envelope. */
    function Name(): (name: string) {
      match this
      case GcpTask => "GCP Task Agent"
      case DevOpsQuery => "DevOps Query Agent"
      case BaseLlm => "Base LLM Agent"
    }
  }

  datatype RouteEntry = RouteEntry(keywords: seq<string>, agent: Agent)

  /** `any(keyword in text for keyword in keywords)`: some keyword of the list occurs in the
      text, wherever it stands in the list. */
  predicate AnyKeyword(keywords: seq<string>, text: string)
    ensures AnyKeyword(keywords, text) <==> exists k :: k in keywords && Contains(text, k)
    ensures keywords == [] ==> !AnyKeyword(keywords, text)
  {
    var found := exists i :: 0 <= i < |keywords| && Contains(text, keywords[i]);
    assert found <== exists k :: k in keywords && Contains(text, k) by {
      if k :| k in keywords && Contains(text, k) {
        var i :| 0 <= i < |keywords| && keywords[i] == k;
        assert Contains(text, keywords[i]);
      }
    }
    found
  }

  /** The index of the first table entry with a keyword occurring in `text`. */
  function FirstMatch(table: seq<RouteEntry>, text: string): (r: Option<nat>)
    ensures r.None? <==> forall i :: 0 <= i < |table| ==> !AnyKeyword(table[i].keywords, text)
    ensures r.Some? ==> r.value < |table| && AnyKeyword(table[r.value].keywords, text)
    ensures r.Some? ==> forall j :: 0 <= j < r.value ==> !AnyKeyword(table[j].keywords, text)
    decreases |table|
  {
    if |table| == 0 then None
    else if AnyKeyword(table[0].keywords, text) then Some(0)
    else match FirstMatch(table[1..], text)
      case None => None
      case Some(j) => Some(j + 1)
  }

  /** The agent a request is sent to: the if/elif/else chain over the lower-cased request.
      It is the agent of the first entry with a keyword in the request, or the fallback when
      no entry has one. */
  function Route(table: seq<RouteEntry>, fallback: Agent, request: string): (r: Agent)
    ensures (forall j :: 0 <= j < |table| ==> !AnyKeyword(table[j].keywords, Lower(request))) ==> r == fallback
    ensures (exists i :: 0 <= i < |table| && AnyKeyword(table[i].keywords, Lower(request))) ==>
      exists i :: 0 <= i < |table| && table[i].agent == r && AnyKeyword(table[i].keywords, Lower(request)) &&
        forall j :: 0 <= j < i ==> !AnyKeyword(table[j].keywords, Lower(request))
  {
    match FirstMatch(table, Lower(request))
    case Some(i) => table[i].agent
    case None => fallback
  }

  const TaskKeywords: seq<string> := ["task", "firestore"]
  const ApiDevOpsKeywords: seq<string> := ["log", "bigquery", "sql"]
  const UiDevOpsKeywords: seq<string> := ["log", "bigquery", "sql", "query"]

  /** The table of the HTTP endpoint `invoke_agent`. */
  const ApiRoutes: seq<RouteEntry> := [RouteEntry(TaskKeywords, GcpTask), RouteEntry(ApiDevOpsKeywords, DevOpsQuery)]
  /** The table of the chat handler `chat_interface`: its DevOps entry also has "query". */
  const UiRoutes: seq<RouteEntry> := [RouteEntry(TaskKeywords, GcpTask), RouteEntry(UiDevOpsKeywords, DevOpsQuery)]

  /** `invoke_agent`'s choice: a task keyword sends the request to the GCP Task Agent whatever
      else it contains, because the task entry is tested first; otherwise a DevOps keyword sends
      it to the DevOps Query Agent; otherwise it goes to the Base LLM Agent. */
  function ApiRoute(request: string): (r: Agent)
    ensures r == GcpTask <==> AnyKeyword(TaskKeywords, Lower(request))
    ensures r == DevOpsQuery <==>
      !AnyKeyword(TaskKeywords, Lower(request)) && AnyKeyword(ApiDevOpsKeywords, Lower(request))
    ensures r == BaseLlm <==>
      !AnyKeyword(TaskKeywords, Lower(request)) && !AnyKeyword(ApiDevOpsKeywords, Lower(request))
  {
    TwoEntryRoute(ApiRoutes[0], ApiRoutes[1], BaseLlm, request);
    Route(ApiRoutes, BaseLlm, request)
  }

  /** `chat_interface`'s choice: the same chain over the UI's table. */
  function UiRoute(request: string): (r: Agent)
    ensures r == GcpTask <==> AnyKeyword(TaskKeywords, Lower(request))
    ensures r == DevOpsQuery <==>
      !AnyKeyword(TaskKeywords, Lower(request)) && AnyKeyword(UiDevOpsKeywords, Lower(request))
    ensures r == BaseLlm <==>
      !AnyKeyword(TaskKeywords, Lower(request)) && !AnyKeyword(UiDevOpsKeywords, Lower(request))
  {
    TwoEntryRoute(UiRoutes[0], UiRoutes[1], BaseLlm, request);
    Route(UiRoutes, BaseLlm, request)
  }

  /** The three agent names are distinct, so the name in an envelope identifies the agent. */
  lemma NameInjective(a: Agent, b: Agent)
    ensures a.Name() == b.Name() <==> a == b
  {
  }

  /** Routing by any table is first-match: the request goes to the agent of the first entry
      with a matching keyword, or to the fallback when no entry matches. */
  lemma RouteFirstMatch(table: seq<RouteEntry>, fallback: Agent, request: string, i: nat)
    requires i < |table| && AnyKeyword(table[i].keywords, Lower(request))
    requires forall j :: 0 <= j < i ==> !AnyKeyword(table[j].keywords, Lower(request))
    ensures Route(table, fallback, request) == table[i].agent
  {
  }

  /** Routing is case-insensitive: a request and its lower-cased form route alike, and so
      do any two requests that differ only in the case of ASCII letters. */
  lemma RouteIgnoresCase(table: seq<RouteEntry>, fallback: Agent, a: string, b: string)
    requires SameIgnoringCase(a, b)
    ensures Route(table, fallback, a) == Route(table, fallback, b)
    ensures Route(table, fallback, a) == Route(table, fallback, Lower(a))
  {
    SameIgnoringCaseLower(a, b);
    LowerIdempotent(a);
  }

  /** A two-entry table is an if/elif/else chain. */
  lemma TwoEntryRoute(first: RouteEntry, second: RouteEntry, fallback: Agent, request: string)
    ensures Route([first, second], fallback, request) ==
      if AnyKeyword(first.keywords, Lower(request)) then first.agent
      else if AnyKeyword(second.keywords, Lower(request)) then second.agent
      else fallback
  {
    var table, text := [first, second], Lower(request);
    assert table[1..] == [second];
    assert [second][1..] == [];
    if !AnyKeyword(first.keywords, text) {
      assert FirstMatch(table, text) == match FirstMatch([second], text)
        case None => None
        case Some(j) => Some(j + 1);
    }
  }

  /** Matching the chat UI's DevOps keywords is matching the endpoint's or finding "query". */
  lemma UiDevOpsKeywordsExtend(text: string)
    ensures AnyKeyword(UiDevOpsKeywords, text) <==>
      AnyKeyword(ApiDevOpsKeywords, text) || Contains(text, "query")
  {
    assert UiDevOpsKeywords == ApiDevOpsKeywords + ["query"];
    if AnyKeyword(UiDevOpsKeywords, text) {
      var i :| 0 <= i < |UiDevOpsKeywords| && Contains(text, UiDevOpsKeywords[i]);
      if i < 3 {
        assert Contains(text, ApiDevOpsKeywords[i]);
      }
    }
    if Contains(text, "query") {
      assert Contains(text, UiDevOpsKeywords[3]);
    }
    if AnyKeyword(ApiDevOpsKeywords, text) {
      var i :| 0 <= i < |ApiDevOpsKeywords| && Contains(text, ApiDevOpsKeywords[i]);
      assert Contains(text, UiDevOpsKeywords[i]);
    }
  }

  /** The chat UI and the HTTP endpoint agree on the task route; whatever the endpoint sends to
      the DevOps agent the UI sends there too; and they differ only on a request without task
      or endpoint DevOps keyword that contains "query", which the UI alone sends to DevOps. */
  lemma UiAgreesWithApi(request: string)
    ensures ApiRoute(request) == GcpTask <==> UiRoute(request) == GcpTask
    ensures ApiRoute(request) == DevOpsQuery ==> UiRoute(request) == DevOpsQuery
    ensures ApiRoute(request) != UiRoute(request) <==>
      ApiRoute(request) == BaseLlm && Contains(Lower(request), "query")
    ensures ApiRoute(request) != UiRoute(request) ==> UiRoute(request) == DevOpsQuery
  {
    UiDevOpsKeywordsExtend(Lower(request));
  }

  // ----- Keywords inside longer requests -----

  /** Matching is by substring: "log" inside a word, as in "catalog" or "login", still takes
      the request away from the general agent. */
  lemma LogInsideWordMatches(before: string, after: string)
    ensures ApiRoute(before + "log" + after) != BaseLlm
    ensures UiRoute(before + "log" + after) != BaseLlm
  {
    var request := before + "log" + after;
    LowerConcat(before + "log", after);
    LowerConcat(before, "log");
    assert Lower("log") == "log";
    var t := Lower(request);
    assert t[|before|..] == "log" + Lower(after);
    ContainsAt(t, "log", |before|);
    assert Contains(t, ApiDevOpsKeywords[0]);
    UiAgreesWithApi(request);
  }

  /** "task" anywhere, in any case, sends the request to the task agent from both entry points. */
  lemma TaskAnywhereWins(before: string, word: string, after: string)
    requires Lower(word) == "task"
    ensures ApiRoute(before + word + after) == GcpTask
    ensures UiRoute(before + word + after) == GcpTask
  {
    var request := before + word + after;
    LowerConcat(before + word, after);
    LowerConcat(before, word);
    var t := Lower(request);
    assert t[|before|..] == "task" + Lower(after);
    ContainsAt(t, "task", |before|);
    assert Contains(t, TaskKeywords[0]);
    UiAgreesWithApi(request);
  }

  /** The capitalised "TASK" routes like "task": one instance of `TaskAnywhereWins`. */
  lemma UpperCaseTask()
    ensures ApiRoute("TASK") == GcpTask
  {
    assert Lower("TASK") == "task";
    assert "" + "TASK" + "" == "TASK";
    TaskAnywhereWins("", "TASK", "");
  }
}
