/** The tool functions the agents call. Each takes the text the agent produced and always
    returns text: data on success, a fixed message when there is nothing to report, and a
    tool-specific "Error ..." text when anything fails. The cloud calls (Firestore, Cloud
    Logging, BigQuery, Cloud Monitoring, Cloud Storage, the HTTP POST) and JSON encoding and
    decoding are parameters; a failing call is `Failure(text)`, `text` standing for the
    exception's `str(e)`. */
module GcpHelpers {
  import opened Wrappers
  import opened Text

  // ----- Python's own exception texts for the failures the tools raise themselves -----

  /** `a, b = s.split(sep, 1)` on a string without `sep`. */
  const UnpackErrorText := "not enough values to unpack (expected 2, got 1)"
  /** `str(KeyError("instances"))` and `str(KeyError("attributes"))`. */
  const MissingInstancesText := "'instances'"
  const MissingAttributesText := "'attributes'"
  /** `[][0]`. */
  const IndexErrorText := "list index out of range"

  // ----- add_task_to_firestore -----

  /** The document written to the "tasks" collection. */
  datatype TaskRecord = TaskRecord(description: string, status: string)

  const TasksCollection := "tasks"
  const TaskAddedPrefix := "Successfully added task with ID: "
  const TaskErrorPrefix := "Error adding task to Firestore: "

  /** `add(collection, record)` is the Firestore write; on success it yields the new document id. */
  function AddTaskToFirestore(description: string, add: (string, TaskRecord) -> Result<string, string>): (r: string)
    ensures add(TasksCollection, TaskRecord(description, "pending")).Success? ==>
      r == TaskAddedPrefix + add(TasksCollection, TaskRecord(description, "pending")).value
    ensures add(TasksCollection, TaskRecord(description, "pending")).Failure? ==>
      r == TaskErrorPrefix + add(TasksCollection, TaskRecord(description, "pending")).error
  {
    match add(TasksCollection, TaskRecord(description, "pending"))
    case Success(id) => TaskAddedPrefix + id
    case Failure(e) => TaskErrorPrefix + e
  }

  /** The reply tells success from failure, and a success reply gives the new id back. */
  lemma AddTaskReplyIsUnambiguous(description: string, add: (string, TaskRecord) -> Result<string, string>)
    ensures var r := AddTaskToFirestore(description, add);
      (TaskErrorPrefix <= r <==> add(TasksCollection, TaskRecord(description, "pending")).Failure?) &&
      (TaskAddedPrefix <= r <==> add(TasksCollection, TaskRecord(description, "pending")).Success?)
    ensures add(TasksCollection, TaskRecord(description, "pending")).Success? ==>
      AddTaskToFirestore(description, add)[|TaskAddedPrefix|..] == add(TasksCollection, TaskRecord(description, "pending")).value
  {
    var r := AddTaskToFirestore(description, add);
    assert TaskErrorPrefix[0] != TaskAddedPrefix[0];
    assert |r| > 0 && (r[0] == 'S' || r[0] == 'E');
    if TaskErrorPrefix <= r { assert r[0] == 'E'; }
    if TaskAddedPrefix <= r { assert r[0] == 'S'; }
  }

  // ----- query_gcp_logs -----

  datatype LogEntry<P> = LogEntry(payload: P)

  const LogPageSize := 5
  const NoLogsMessage := "No logs found."
  const LogsErrorPrefix := "Error querying GCP logs: "

  /** `[entry.payload for entry in entries]`. */
  function Payloads<P>(entries: seq<LogEntry<P>>): (r: seq<P>)
    ensures |r| == |entries|
    ensures forall i :: 0 <= i < |entries| ==> r[i] == entries[i].payload
  {
    seq(|entries|, i requires 0 <= i < |entries| => entries[i].payload)
  }

  /** `query_gcp_logs(filter)`. `list(filter, pageSize)` is the complete listing, fetched
      `pageSize` entries per page. A failure gives the error prefix and its text, no entries
      the fixed message, and otherwise the encoded payloads. */
  function QueryGcpLogs<P>(filter: string, list: (string, nat) -> Result<seq<LogEntry<P>>, string>,
                           dumps: seq<P> -> string): (r: string)
    ensures list(filter, LogPageSize).Failure? ==> r == LogsErrorPrefix + list(filter, LogPageSize).error
    ensures list(filter, LogPageSize) == Success([]) ==> r == NoLogsMessage
    ensures list(filter, LogPageSize).Success? && list(filter, LogPageSize).value != [] ==>
      r == dumps(Payloads(list(filter, LogPageSize).value))
  {
    match list(filter, LogPageSize)
    case Failure(e) => LogsErrorPrefix + e
    case Success(entries) =>
      var logList := Payloads(entries);
      if |logList| > 0 then dumps(logList) else NoLogsMessage
  }

  // ----- execute_bigquery_query -----

  const NoRowsMessage := "Query returned no results."
  const BigQueryErrorPrefix := "Error executing BigQuery query: "

  /** `execute_bigquery_query(sql)`. `query(sql)` runs the job and yields its rows, each
      already taken as a dictionary. A failure gives the error prefix and its text, no rows the
      fixed message, and otherwise the encoded rows. */
  function ExecuteBigQueryQuery<R>(sql: string, query: string -> Result<seq<R>, string>,
                                   dumps: seq<R> -> string): (r: string)
    ensures query(sql).Failure? ==> r == BigQueryErrorPrefix + query(sql).error
    ensures query(sql) == Success([]) ==> r == NoRowsMessage
    ensures query(sql).Success? && query(sql).value != [] ==> r == dumps(query(sql).value)
  {
    match query(sql)
    case Failure(e) => BigQueryErrorPrefix + e
    case Success(rows) => if |rows| > 0 then dumps(rows) else NoRowsMessage
  }

  // ----- query_gcp_metrics -----

  /** A time series as Cloud Monitoring returns it; `endTime` is the point's end time already
      rendered by `isoformat()`. */
  datatype Point<V> = Point(value: V, endTime: string)
  datatype TimeSeries<L, V> = TimeSeries(resourceLabels: L, points: seq<Point<V>>)
  /** `{"value": ..., "time": ...}` and `{"resource": ..., "points": [...]}`. */
  datatype PointSummary<V> = PointSummary(value: V, time: string)
  datatype SeriesSummary<L, V> = SeriesSummary(resource: L, points: seq<PointSummary<V>>)

  /** The request: the project's resource name, the caller's filter, the FULL view. */
  datatype MetricsRequest = MetricsRequest(name: string, filter: string, fullView: bool)

  const NoMetricsMessage := "No metric data found."
  const MetricsErrorPrefix := "Error querying GCP metrics: "

  function SummarizeSeries<L, V>(s: TimeSeries<L, V>): (r: SeriesSummary<L, V>)
    ensures r.resource == s.resourceLabels && |r.points| == |s.points|
    ensures forall i :: 0 <= i < |s.points| ==>
      r.points[i] == PointSummary(s.points[i].value, s.points[i].endTime)
  {
    SeriesSummary(s.resourceLabels,
      seq(|s.points|, i requires 0 <= i < |s.points| => PointSummary(s.points[i].value, s.points[i].endTime)))
  }

  function SummarizeAll<L, V>(results: seq<TimeSeries<L, V>>): (r: seq<SeriesSummary<L, V>>)
    ensures |r| == |results|
    ensures forall i :: 0 <= i < |results| ==> r[i] == SummarizeSeries(results[i])
  {
    seq(|results|, i requires 0 <= i < |results| => SummarizeSeries(results[i]))
  }

  /** `query_gcp_metrics(metric_filter)`: the request names "projects/<id>" and carries the
      filter and the full view. A failure gives the error prefix and its text, no series the
      fixed message, and otherwise the encoded summaries. */
  function QueryGcpMetrics<L, V>(metricFilter: string, projectId: string,
                                 list: MetricsRequest -> Result<seq<TimeSeries<L, V>>, string>,
                                 dumps: seq<SeriesSummary<L, V>> -> string): (r: string)
    ensures var res := list(MetricsRequest("projects/" + projectId, metricFilter, true));
      && (res.Failure? ==> r == MetricsErrorPrefix + res.error)
      && (res == Success([]) ==> r == NoMetricsMessage)
      && (res.Success? && res.value != [] ==> r == dumps(SummarizeAll(res.value)))
  {
    match list(MetricsRequest("projects/" + projectId, metricFilter, true))
    case Failure(e) => MetricsErrorPrefix + e
    case Success(results) =>
      var output := SummarizeAll(results);
      if |output| > 0 then dumps(output) else NoMetricsMessage
  }

  // ----- query_terraform_state -----

  /** A resource of a parsed Terraform state; `None` marks a missing key. */
  datatype Instance<A> = Instance(attributes: Option<A>)
  datatype TfResource<A> = TfResource(rtype: Option<string>, instances: Option<seq<Instance<A>>>)
  datatype TfState<A> = TfState(resources: Option<seq<TfResource<A>>>)

  const StateObjectName := "terraform.tfstate"
  const TerraformErrorPrefix := "Error reading Terraform state from GCS: "
  const TerraformErrorSuffix := ". Ensure the bucket and file exist."

  /** `res.get("type") == resource_type`: a resource without a "type" key never matches. */
  predicate HasType<A>(res: TfResource<A>, rtype: string)
    ensures res.rtype.None? ==> !HasType(res, rtype)
    ensures HasType(res, rtype) ==> res.rtype.value == rtype
  {
    res.rtype == Some(rtype)
  }

  /** `res["instances"][0]["attributes"]`, failing as Python does: it yields the first
      instance's attributes when the instances exist, are not empty and the first has
      attributes, and otherwise raises the KeyError or IndexError of the missing step. */
  function FirstAttributes<A>(res: TfResource<A>): (r: Result<A, string>)
    ensures r.Success? <==>
      res.instances.Some? && |res.instances.value| > 0 && res.instances.value[0].attributes.Some?
    ensures r.Success? ==> r.value == res.instances.value[0].attributes.value
    ensures res.instances.None? ==> r == Failure(MissingInstancesText)
    ensures res.instances == Some([]) ==> r == Failure(IndexErrorText)
    ensures res.instances.Some? && |res.instances.value| > 0 && res.instances.value[0].attributes.None? ==>
      r == Failure(MissingAttributesText)
  {
    match res.instances
    case None => Failure(MissingInstancesText)
    case Some(instances) =>
      if |instances| == 0 then Failure(IndexErrorText)
      else match instances[0].attributes
        case None => Failure(MissingAttributesText)
        case Some(a) => Success(a)
  }

  /** Resource `i` is the first resource of type `rtype` whose attributes cannot be reached,
      and reaching them raises with text `e`. */
  predicate FirstFailureAt<A>(resources: seq<TfResource<A>>, rtype: string, i: int, e: string) {
    && 0 <= i < |resources|
    && HasType(resources[i], rtype)
    && FirstAttributes(resources[i]) == Failure(e)
    && forall j :: 0 <= j < i && HasType(resources[j], rtype) ==> FirstAttributes(resources[j]).Success?
  }

  lemma FirstFailureShift<A>(resources: seq<TfResource<A>>, rtype: string, k: int, e: string)
    requires |resources| > 0 && FirstFailureAt(resources[1..], rtype, k, e)
    requires HasType(resources[0], rtype) ==> FirstAttributes(resources[0]).Success?
    ensures FirstFailureAt(resources, rtype, k + 1, e)
  {
  }

  /** The list comprehension of `query_terraform_state`: resources are visited in order, the type test
      comes first, and the first matching resource whose attributes cannot be reached
      raises, which ends the comprehension. */
  function SelectAttributes<A>(resources: seq<TfResource<A>>, rtype: string): (r: Result<seq<A>, string>)
    ensures r.Success? <==>
      forall i :: 0 <= i < |resources| && HasType(resources[i], rtype) ==> FirstAttributes(resources[i]).Success?
    ensures r.Failure? ==> exists i :: FirstFailureAt(resources, rtype, i, r.error)
    decreases |resources|
  {
    if |resources| == 0 then Success([])
    else
      var rest := SelectAttributes(resources[1..], rtype);
      if !HasType(resources[0], rtype) then
        assert rest.Failure? ==> exists i :: FirstFailureAt(resources, rtype, i, rest.error) by {
          if rest.Failure? {
            var k :| FirstFailureAt(resources[1..], rtype, k, rest.error);
            FirstFailureShift(resources, rtype, k, rest.error);
          }
        }
        rest
      else match FirstAttributes(resources[0])
        case Failure(e) =>
          assert FirstFailureAt(resources, rtype, 0, e);
          Failure(e)
        case Success(a) =>
          match rest
          case Failure(e) =>
            assert exists i :: FirstFailureAt(resources, rtype, i, e) by {
              var k :| FirstFailureAt(resources[1..], rtype, k, e);
              FirstFailureShift(resources, rtype, k, e);
            }
            Failure(e)
          case Success(attrs) => Success([a] + attrs)
  }

  /** Selecting from a concatenation: the first failure wins, otherwise the results concatenate. */
  lemma {:induction false} SelectAttributesAppend<A>(a: seq<TfResource<A>>, b: seq<TfResource<A>>, rtype: string)
    ensures SelectAttributes(a + b, rtype) ==
      match SelectAttributes(a, rtype)
      case Failure(e) => Failure(e)
      case Success(va) =>
        match SelectAttributes(b, rtype)
        case Failure(e) => Failure(e)
        case Success(vb) => Success(va + vb)
    decreases |a|
  {
    if |a| == 0 {
      assert a + b == b;
      assert SelectAttributes(b, rtype).Success? ==> [] + SelectAttributes(b, rtype).value == SelectAttributes(b, rtype).value;
    } else {
      assert (a + b)[1..] == a[1..] + b;
      SelectAttributesAppend(a[1..], b, rtype);
      match SelectAttributes(a[1..], rtype)
      case Failure(e) =>
      case Success(va) =>
        match SelectAttributes(b, rtype)
        case Failure(e) =>
        case Success(vb) =>
          if HasType(a[0], rtype) && FirstAttributes(a[0]).Success? {
            assert [FirstAttributes(a[0]).value] + (va + vb) == ([FirstAttributes(a[0]).value] + va) + vb;
          }
    }
  }

  /** The positions, in increasing order, of the resources of type `rtype`. */
  ghost function MatchingIndices<A>(resources: seq<TfResource<A>>, rtype: string): (idx: seq<nat>)
    ensures forall k :: 0 <= k < |idx| ==> idx[k] < |resources| && HasType(resources[idx[k]], rtype)
    ensures forall k, l :: 0 <= k < l < |idx| ==> idx[k] < idx[l]
    ensures forall i :: 0 <= i < |resources| && HasType(resources[i], rtype) ==> i in idx
    decreases |resources|
  {
    if |resources| == 0 then []
    else
      var n := |resources| - 1;
      var before := MatchingIndices(resources[..n], rtype);
      if HasType(resources[n], rtype) then before + [n] else before
  }

  /** On success the comprehension yields, in the original order, the first instance's
      attributes of exactly the resources of type `rtype`. */
  lemma {:induction false} SelectAttributesInOrder<A>(resources: seq<TfResource<A>>, rtype: string)
    requires SelectAttributes(resources, rtype).Success?
    ensures var attrs, idx := SelectAttributes(resources, rtype).value, MatchingIndices(resources, rtype);
      |attrs| == |idx| && forall k :: 0 <= k < |idx| ==> FirstAttributes(resources[idx[k]]) == Success(attrs[k])
    decreases |resources|
  {
    if |resources| > 0 {
      var n := |resources| - 1;
      var before, last := resources[..n], resources[n..];
      assert before + last == resources;
      SelectAttributesAppend(before, last, rtype);
      SelectAttributesInOrder(before, rtype);
      assert last[1..] == [];
    }
  }

  /** Nothing of the requested type selects nothing, and raises nothing. */
  lemma {:induction false} SelectNoneOfType<A>(resources: seq<TfResource<A>>, rtype: string)
    requires forall i :: 0 <= i < |resources| ==> !HasType(resources[i], rtype)
    ensures SelectAttributes(resources, rtype) == Success([])
    decreases |resources|
  {
    if |resources| > 0 {
      assert !HasType(resources[0], rtype);
      SelectNoneOfType(resources[1..], rtype);
    }
  }

  /** "No resources of type '<type>' found." */
  function NoResourcesMessage(rtype: string): (msg: string) {
    "No resources of type '" + rtype + "' found."
  }

  /** The tool's error reply: the detail between "Error reading Terraform state from GCS: "
      and ". Ensure the bucket and file exist.". */
  function TerraformError(detail: string): (msg: string) {
    TerraformErrorPrefix + detail + TerraformErrorSuffix
  }

  /** What the tool replies once it knows the resource type and the outcome of reading and
      parsing the state object. A missing "resources" key counts as no resources; a failed
      read or parse and a failed projection are both reported inside the tool's error text;
      nothing selected gives the no-resources message naming the type; otherwise the encoded
      attributes. */
  function TerraformReply<A>(rtype: string, fetched: Result<TfState<A>, string>, dumps: seq<A> -> string): (r: string)
    ensures fetched.Failure? ==> r == TerraformError(fetched.error)
    ensures fetched.Success? ==>
      var resources := if fetched.value.resources.Some? then fetched.value.resources.value else [];
      var selected := SelectAttributes(resources, rtype);
      && (selected.Failure? ==> r == TerraformError(selected.error))
      && (selected == Success([]) ==> r == NoResourcesMessage(rtype))
      && (selected.Success? && selected.value != [] ==> r == dumps(selected.value))
  {
    match fetched
    case Failure(e) => TerraformError(e)
    case Success(state) =>
      var resources := match state.resources case Some(rs) => rs case None => [];
      match SelectAttributes(resources, rtype)
      case Failure(e) => TerraformError(e)
      case Success(attrs) => if |attrs| > 0 then dumps(attrs) else NoResourcesMessage(rtype)
  }

  /** `query_terraform_state("<bucket>/<type>")`; `download(bucket, object)` reads the object
      from Cloud Storage and parses it as JSON. Without a '/' the unpacking fails and the reply
      is the tool's error text; otherwise "terraform.tfstate" is read from the bucket named
      before the first '/' and filtered by everything after it. */
  function QueryTerraformState<A>(bucketAndResourceType: string,
                                  download: (string, string) -> Result<TfState<A>, string>,
                                  dumps: seq<A> -> string): (r: string)
    ensures '/' !in bucketAndResourceType ==> r == TerraformError(UnpackErrorText)
    ensures '/' !in bucketAndResourceType ==> TerraformErrorPrefix <= r
    ensures var split := SplitOnce(bucketAndResourceType, '/');
      split.Some? ==> r == TerraformReply(split.value.1, download(split.value.0, StateObjectName), dumps)
  {
    match SplitOnce(bucketAndResourceType, '/')
    case None => TerraformError(UnpackErrorText)
    case Some((bucket, rtype)) => TerraformReply(rtype, download(bucket, StateObjectName), dumps)
  }

  /** The input splits at its first '/': the bucket is the text before it, the resource type
      is all that follows, and may itself contain '/'. */
  lemma TerraformSplitsAtFirstSlash<A>(bucket: string, rtype: string,
                                       download: (string, string) -> Result<TfState<A>, string>,
                                       dumps: seq<A> -> string)
    requires '/' !in bucket
    ensures QueryTerraformState(bucket + "/" + rtype, download, dumps) ==
      TerraformReply(rtype, download(bucket, StateObjectName), dumps)
  {
    SplitOnceJoin(bucket, '/', rtype);
  }

  /** A state without resources of the requested type, or without a "resources" key at all,
      yields the no-resources message naming that type. */
  lemma TerraformNoneOfType<A>(rtype: string, state: TfState<A>, dumps: seq<A> -> string)
    requires state.resources.Some? ==>
      forall i :: 0 <= i < |state.resources.value| ==> !HasType(state.resources.value[i], rtype)
    ensures TerraformReply(rtype, Success(state), dumps) == NoResourcesMessage(rtype)
  {
    if state.resources.Some? {
      SelectNoneOfType(state.resources.value, rtype);
    }
  }

  // ----- trigger_cloud_function -----

  // Written as two literals: Dafny does not see into the characters of a string literal
  // this long, and TriggerCloudFunction's contract needs its first character.
  const TriggerSuccessPrefix := "Successfully triggered Cloud Function." + " Response: "
  const TriggerErrorPrefix := "Error triggering Cloud Function: "

  /** `trigger_cloud_function("<url> <json>")`: `loads` parses the payload, `post(url, data)`
      sends it and yields the response body, failing also on an error status code. Without a
      space the unpacking fails. The reply starts with the success prefix, followed by the
      response body, exactly when splitting, decoding and posting all succeed, and with the
      error prefix otherwise, so the agent can tell the two apart. */
  function TriggerCloudFunction<J>(functionUrlAndData: string, loads: string -> Result<J, string>,
                                   post: (string, J) -> Result<string, string>): (r: string)
    ensures ' ' !in functionUrlAndData ==> r == TriggerErrorPrefix + UnpackErrorText
    ensures var split := SplitOnce(functionUrlAndData, ' ');
      var sent := split.Some? && loads(split.value.1).Success? &&
        post(split.value.0, loads(split.value.1).value).Success?;
      && (TriggerSuccessPrefix <= r <==> sent)
      && (TriggerErrorPrefix <= r <==> !sent)
      && (sent ==> r == TriggerSuccessPrefix + post(split.value.0, loads(split.value.1).value).value)
  {
    assert TriggerErrorPrefix[0] != TriggerSuccessPrefix[0];
    match SplitOnce(functionUrlAndData, ' ')
    case None => TriggerErrorPrefix + UnpackErrorText
    case Some((url, dataStr)) =>
      match loads(dataStr)
      case Failure(e) => TriggerErrorPrefix + e
      case Success(data) =>
        match post(url, data)
        case Failure(e) => TriggerErrorPrefix + e
        case Success(text) => TriggerSuccessPrefix + text
  }

  /** The input splits at its first space: the URL is the text before it and the payload is
      everything after, spaces included. */
  lemma TriggerSplitsAtFirstSpace<J>(url: string, dataStr: string, loads: string -> Result<J, string>,
                                     post: (string, J) -> Result<string, string>)
    requires ' ' !in url
    ensures TriggerCloudFunction(url + " " + dataStr, loads, post) ==
      match loads(dataStr)
      case Failure(e) => TriggerErrorPrefix + e
      case Success(data) =>
        match post(url, data)
        case Failure(e) => TriggerErrorPrefix + e
        case Success(text) => TriggerSuccessPrefix + text
  {
    SplitOnceJoin(url, ' ', dataStr);
  }
}
