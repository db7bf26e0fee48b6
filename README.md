# Agent router and GCP tool functions, in Dafny

This project models the first-party logic of an "All-in-One AI DevOps Agent": a FastAPI
endpoint and a Gradio chat handler that route a natural-language request, by keyword, to one of
three agents (GCP Task Agent, DevOps Query Agent, Base LLM Agent), and the tool functions those
agents call, which turn cloud calls into text replies.

- `wrappers.dfy` (module `Wrappers`): `Option` and `Result`.
- `text.dfy` (module `Text`): ASCII lower-casing, substring containment (Python's `k in s`),
  first occurrence of a character and `a, b = s.split(sep, 1)` with its failure.
- `router.dfy` (module `Router`): the agents, an ordered route table matched first-to-last against
  the lower-cased request with a fallback agent, the endpoint's table
  (`task`,`firestore` / `log`,`bigquery`,`sql`) and the chat UI's table (the same, plus `query`).
- `app.py` is modelled by `app.dfy` (module `App`): the response envelope of `invoke_agent`, the
  reply of `chat_interface`, and the chat history as a class whose list of turns the handler
  appends to in place. An agent executor is a parameter `run(agent, text)` that says whether its
  `invoke` returned (with or without an `output` key) or raised.
- `utils/gcp_helpers.py` is modelled by `gcp_helpers.dfy` (module `GcpHelpers`): the six tool
  functions. Every SDK call, the HTTP POST, `json.loads` and `json.dumps` are function parameters;
  a call that raises is `Failure(text)`, with `text` standing for `str(e)`. What is verified is the
  splitting of the tool input, the Terraform filter and projection, and the choice of reply text:
  data, a fixed "nothing found" message, or a tool-specific error text.

Where the tools raise by themselves, the model uses Python's own exception texts: a failed
two-way unpacking says `not enough values to unpack (expected 2, got 1)`, a missing dictionary key
`k` prints as `'k'`, and indexing an empty list says `list index out of range`.

`history = history or []` replaces an empty history too (an empty list is false in Python), so the
handler appends to the caller's list only when it is non-empty; `ChatInterface` models that.

## Model

| member | source | states |
|---|---|---|
| `Text.Lower` | app.py:26 | the lower-cased request has the request's length and lowers each ASCII capital |
| `Text.LowerIdempotent` | app.py:26 | lower-casing an already lower-cased request changes nothing |
| `Text.SameIgnoringCaseLower` | app.py:46 | requests that differ only in ASCII case have the same lower-cased form |
| `Text.LowerConcat` | app.py:26 | lower-casing distributes over concatenation |
| `Text.Contains` | app.py:27 | `k in s`: a contained string is no longer than the text and has no character the text lacks |
| `Text.ContainsIff` | app.py:27 | `k in s` holds exactly when `k` starts at some position of `s` |
| `Text.ContainsAt` | app.py:30 | a keyword at a known position of the request is found |
| `Text.IndexOf` | utils/gcp_helpers.py:86 | returns the first position of the separator (none before it), or nothing exactly when it is absent |
| `Text.SplitOnce` | utils/gcp_helpers.py:86 | the unpacking fails exactly when the separator is absent; otherwise head + separator + tail is the input and the head has no separator |
| `Text.SplitOnceJoin` | utils/gcp_helpers.py:104 | splitting `head + sep + tail` with `sep` not in `head` gives back `head` and the whole `tail`, separators included |
| `Router.AnyKeyword` | app.py:27 | `any(keyword in text ...)` holds exactly when some keyword of the list occurs in the text; never for an empty list |
| `Router.FirstMatch` | app.py:27-35 | the first table entry with a keyword in the text, none exactly when no entry matches |
| `Router.Route` | app.py:26-35 | the chosen agent is the fallback when no entry has a keyword in the lower-cased request, and otherwise the agent of the first entry that has one, no earlier entry matching |
| `Router.RouteFirstMatch` | app.py:27-32 | a request goes to the agent of the first matching entry, whatever later entries say |
| `Router.RouteIgnoresCase` | app.py:26-35 | requests equal up to ASCII case route alike, and route like their lower-cased form |
| `Router.ApiRoute` | app.py:26-35 | the endpoint picks the GCP Task Agent exactly when "task" or "firestore" occurs, whatever else occurs; the DevOps Query Agent exactly when no task keyword but "log", "bigquery" or "sql" occurs; the Base LLM Agent exactly when no keyword occurs |
| `Router.UiRoute` | app.py:46-52 | the chat UI picks the task agent exactly when a task keyword occurs; DevOps exactly when none does but "log", "bigquery", "sql" or "query" occurs; the base agent exactly when no keyword occurs |
| `Router.TwoEntryRoute` | app.py:27-35 | a two-entry table is exactly the if/elif/else chain of the handlers |
| `Router.UiDevOpsKeywordsExtend` | app.py:49 | the UI's DevOps keywords match exactly when the endpoint's do or "query" occurs |
| `Router.UiAgreesWithApi` | app.py:47-52 | UI and endpoint agree on the task route; endpoint DevOps implies UI DevOps; they differ exactly on requests the endpoint sends to the base agent that contain "query", which the UI sends to DevOps |
| `Router.NameInjective` | app.py:28-34 | the three agent names are distinct |
| `Router.LogInsideWordMatches` | app.py:30 | "log" inside a word ("catalog", "login") keeps the request away from the base agent on both entry points |
| `Router.TaskAnywhereWins` | app.py:47 | a word lower-casing to "task" anywhere sends the request to the task agent on both entry points |
| `Router.UpperCaseTask` | app.py:26-29 | "TASK" routes to the task agent |
| `App.InvokeAgent` | app.py:26-41 | the envelope names the routed agent, whose executor got the original query; it is a response exactly when the executor returned, with its output or the fallback text, and otherwise an error of "An error occurred: " and the exception text; the agent names come from `Router.Agent.Name` |
| `App.OutputOr` | app.py:38 | `response.get('output', fallback)`: the output when the key is present, the fallback only when it is missing |
| `App.EnvelopeIdentifiesAgent` | app.py:39-41 | the envelope's agent name is a given agent's name exactly when the query was routed to it |
| `App.MissingOutputFallsBack` | app.py:38 | a result without `output` gives a response envelope with the fixed fallback text |
| `App.ErrorEnvelopeText` | app.py:40-41 | a raising executor gives an error envelope whose text starts with the prefix and continues with the exception text |
| `App.ChatReply` | app.py:46-57 | the chat reply is the UI-routed executor's output, the UI fallback text, or the warning prefix and the exception text |
| `App.ChatHistory.constructor` | app.py:44 | a new history holds the given turns |
| `App.ChatHistory.Append` | app.py:58 | appends one turn at the end and keeps the earlier turns |
| `App.ChatInterface` | app.py:43-59 | a missing or empty history is replaced by a fresh one and the caller's is left as it was; a non-empty one is updated in place; exactly one (input, reply) turn is appended at the end; the textbox text is empty |
| `GcpHelpers.AddTaskToFirestore` | utils/gcp_helpers.py:24-30 | writes a record with the description and status "pending" to "tasks"; replies with the success prefix and the new id, or the error prefix and the exception text |
| `GcpHelpers.AddTaskReplyIsUnambiguous` | utils/gcp_helpers.py:27-30 | the reply starts with the error prefix exactly when the write failed and with the success prefix exactly when it succeeded; the id can be read back from a success reply |
| `GcpHelpers.Payloads` | utils/gcp_helpers.py:36 | one payload per log entry, in order |
| `GcpHelpers.QueryGcpLogs` | utils/gcp_helpers.py:32-39 | the listing asks for 5 entries per page; a failure gives "Error querying GCP logs: " and its text, no entries "No logs found.", otherwise the encoded payloads |
| `GcpHelpers.ExecuteBigQueryQuery` | utils/gcp_helpers.py:40-47 | a failure gives "Error executing BigQuery query: " and its text, no rows "Query returned no results.", otherwise the encoded rows |
| `GcpHelpers.SummarizeSeries` | utils/gcp_helpers.py:70-73 | a series becomes its resource labels and one (value, time) pair per point, in order |
| `GcpHelpers.SummarizeAll` | utils/gcp_helpers.py:69-75 | one summary per series, in order |
| `GcpHelpers.QueryGcpMetrics` | utils/gcp_helpers.py:49-78 | the request names "projects/<id>", carries the filter and the full view; a failure gives "Error querying GCP metrics: " and its text, no series "No metric data found.", otherwise the encoded summaries |
| `GcpHelpers.HasType` | utils/gcp_helpers.py:92 | a resource matches only if its "type" is present and equal to the requested type |
| `GcpHelpers.FirstAttributes` | utils/gcp_helpers.py:90 | `res["instances"][0]["attributes"]` yields the first instance's attributes exactly when instances exist, are non-empty and the first has attributes; otherwise the KeyError or IndexError text of the missing step: `'instances'` without instances, "list index out of range" for no instances, `'attributes'` when the first has none |
| `GcpHelpers.SelectAttributes` | utils/gcp_helpers.py:89-93 | succeeds exactly when every resource of the requested type has reachable first-instance attributes; a failure carries the error of the first such resource that fails |
| `GcpHelpers.MatchingIndices` | utils/gcp_helpers.py:91-92 | the positions of the resources of the requested type, increasing, all of them |
| `GcpHelpers.SelectAttributesInOrder` | utils/gcp_helpers.py:89-93 | on success the result is, position by position, the first-instance attributes of exactly the resources of the requested type, in their original order |
| `GcpHelpers.SelectAttributesAppend` | utils/gcp_helpers.py:89-93 | selecting from a concatenation: the first failure wins, otherwise the results concatenate |
| `GcpHelpers.SelectNoneOfType` | utils/gcp_helpers.py:92 | resources none of which has the type select nothing and raise nothing, whatever their instances |
| `GcpHelpers.TerraformReply` | utils/gcp_helpers.py:88-96 | a missing "resources" key counts as empty; a failed read or parse and a failed projection give the tool's error text around the exception text; nothing selected gives "No resources of type '<type>' found."; otherwise the encoded attributes; `NoResourcesMessage` and `TerraformError` build these two texts |
| `GcpHelpers.QueryTerraformState` | utils/gcp_helpers.py:80-96 | an input without '/' gives "Error reading Terraform state from GCS: ", the unpacking error and ". Ensure the bucket and file exist."; otherwise "terraform.tfstate" is read from the bucket before the first '/' and filtered by the rest |
| `GcpHelpers.TerraformSplitsAtFirstSlash` | utils/gcp_helpers.py:86-88 | "bucket/type" reads "terraform.tfstate" from the bucket before the first '/' and filters by everything after it, '/' included |
| `GcpHelpers.TerraformNoneOfType` | utils/gcp_helpers.py:91-94 | a state with no resource of the type, or no "resources" key, gives "No resources of type '<type>' found." |
| `GcpHelpers.TriggerSplitsAtFirstSpace` | utils/gcp_helpers.py:104-110 | "url payload" posts to the text before the first space the payload decoded from everything after it |
| `GcpHelpers.TriggerCloudFunction` | utils/gcp_helpers.py:98-112 | an input without a space gives "Error triggering Cloud Function: " and the unpacking error; the reply is the success prefix and the response body exactly when splitting, decoding and posting all succeed, and starts with the error prefix otherwise |

## Left out

- The reasoning loop of each agent (prompting, action parsing, `max_iterations`, parse-error handling) is LangChain's `AgentExecutor`, which is not part of this model; an executor is the parameter `run`.
- The agent construction in `agents/*.py` (model loading, tool names and descriptions) has no logic of its own and is not modelled.
- `get_tasks_from_firestore`, imported by `agents/gcp_task_agent.py`, is not defined in `utils/gcp_helpers.py` and is not part of this model.
- The calculator (`eval`), date and Wikipedia tools of the base agent: a general interpreter, the clock and a foreign library.
- All cloud clients and their module-level initialisation from credentials and environment variables: network I/O; the project id of the metrics request is a parameter.
- The ten-minute window of the metrics request: it is read from the clock (twice).
- `json.dumps` and `json.loads`: opaque parameters; `json.dumps` is taken never to raise, because the model has no notion of which Python objects it cannot encode. In `query_gcp_metrics` the resource labels are a protobuf map, not a `dict`, so the real `json.dumps` may raise there, and the reply would then be "Error querying GCP metrics: " and its text where the model gives the encoded summaries.
- Terraform state of the wrong JSON shape (a top-level value that is not an object, `resources` or `instances` that is not a list) is not modelled: the parsed state is typed.
- The conversion `dict(row)` of BigQuery rows is taken as part of the query parameter.
- `Text.Lower`: lowers ASCII letters only, whereas Python's `str.lower()` also lowers other Unicode letters (for example the Kelvin sign becomes "k"), so such characters route differently.
- Concurrent chat calls on one history, and the FastAPI, Gradio and uvicorn wiring (HTTP status, UI layout, example prompts).
