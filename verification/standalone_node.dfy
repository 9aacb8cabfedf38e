/** The standalone node (nodes/GoogleMapsScraper/GoogleMapsScraper.node.ts):
    typed create parameters posted as a body with fixed and conditional keys,
    absolute URLs under the credential's base URL, success records without
    provenance, and an abort that wraps the error with the failing item's
    index. */
module StandaloneNode {
  import opened Data
  import opened Dispatch
  import opened Records
  import Batch

  /** The create parameters of one item. `keywords` and `proxies` hold the
      `value` of each entry of the collections' `keyword` and `proxy` arrays,
      in entry order, and are None when the collection has no such array. */
  datatype CreateParams = CreateParams(
    jobName: string,
    keywords: Option<seq<string>>,
    lang: string,
    zoom: int,
    lat: string,
    lon: string,
    fastMode: Option<bool>,
    radius: int,
    depth: int,
    email: bool,
    maxTime: int,
    proxies: Option<seq<string>>)

  /** Everything the node may read for one item; which fields it reads
      depends on the operation. */
  datatype ItemParams = ItemParams(create: CreateParams, jobId: string)

  /** The job a create body describes: every field, with an absent optional
      key read as its falsy value (empty string, 0, no fast mode, no proxies). */
  datatype JobSpec = JobSpec(
    name: string,
    keywords: seq<string>,
    lang: string,
    zoom: int,
    lat: string,
    lon: string,
    fastMode: Option<bool>,
    radius: int,
    depth: int,
    email: bool,
    maxTime: int,
    proxies: seq<string>)

  /** The entries of a repeated group, unfiltered; none when the array is missing. */
  function EntryValues(group: Option<seq<string>>): seq<string>
  {
    match group
    case None => []
    case Some(values) => values
  }

  /** The job the create parameters of an item describe. */
  function SpecOf(p: CreateParams): JobSpec
  {
    JobSpec(p.jobName, EntryValues(p.keywords), p.lang, p.zoom, p.lat, p.lon,
            p.fastMode, p.radius, p.depth, p.email, p.maxTime, EntryValues(p.proxies))
  }

  const RequiredKeys: set<string> := {"name", "keywords", "lang", "zoom", "depth", "email", "max_time"}
  const OptionalKeys: set<string> := {"lat", "lon", "fast_mode", "radius", "proxies"}

  /** The keys every create body has. */
  function RequiredFields(p: CreateParams): (m: map<string, Json>)
    ensures m.Keys == RequiredKeys
    ensures m["name"] == JStr(p.jobName) && m["lang"] == JStr(p.lang)
    ensures m["keywords"] == JArr(Strings(EntryValues(p.keywords)))
    ensures m["zoom"] == JNum(p.zoom) && m["depth"] == JNum(p.depth)
    ensures m["email"] == JBool(p.email) && m["max_time"] == JNum(p.maxTime)
  {
    map[
      "name" := JStr(p.jobName),
      "keywords" := JArr(Strings(EntryValues(p.keywords))),
      "lang" := JStr(p.lang),
      "zoom" := JNum(p.zoom),
      "depth" := JNum(p.depth),
      "email" := JBool(p.email),
      "max_time" := JNum(p.maxTime)]
  }

  /** A key that is added only under a condition. */
  function FieldIf(condition: bool, key: string, value: Json): (m: map<string, Json>)
    ensures key in m <==> condition
    ensures m.Keys <= {key}
    ensures key in m ==> m[key] == value
  {
    if condition then map[key := value] else map[]
  }

  /** The coordinates, each present only when not empty. */
  function Coordinates(p: CreateParams): (m: map<string, Json>)
    ensures m.Keys <= {"lat", "lon"}
    ensures ("lat" in m <==> p.lat != "") && ("lat" in m ==> m["lat"] == JStr(p.lat))
    ensures ("lon" in m <==> p.lon != "") && ("lon" in m ==> m["lon"] == JStr(p.lon))
  {
    FieldIf(p.lat != "", "lat", JStr(p.lat)) + FieldIf(p.lon != "", "lon", JStr(p.lon))
  }

  /** The search settings, each present only under its own condition. */
  function Settings(p: CreateParams): (m: map<string, Json>)
    ensures m.Keys <= {"fast_mode", "radius", "proxies"}
    ensures ("fast_mode" in m <==> p.fastMode.Some?)
    ensures "fast_mode" in m ==> m["fast_mode"] == JBool(p.fastMode.value)
    ensures ("radius" in m <==> p.radius != 0) && ("radius" in m ==> m["radius"] == JNum(p.radius))
    ensures ("proxies" in m <==> |EntryValues(p.proxies)| > 0)
    ensures "proxies" in m ==> m["proxies"] == JArr(Strings(EntryValues(p.proxies)))
  {
    var proxies := EntryValues(p.proxies);
    var fast := FieldIf(p.fastMode.Some?, "fast_mode", JBool(if p.fastMode.Some? then p.fastMode.value else false));
    var radius := FieldIf(p.radius != 0, "radius", JNum(p.radius));
    var listed := FieldIf(|proxies| > 0, "proxies", JArr(Strings(proxies)));
    fast + radius + listed
  }

  /** The keys a create body has only under their conditions. */
  function OptionalFields(p: CreateParams): (m: map<string, Json>)
    ensures m.Keys <= OptionalKeys
    ensures ("lat" in m <==> p.lat != "") && ("lat" in m ==> m["lat"] == JStr(p.lat))
    ensures ("lon" in m <==> p.lon != "") && ("lon" in m ==> m["lon"] == JStr(p.lon))
    ensures ("fast_mode" in m <==> p.fastMode.Some?)
    ensures "fast_mode" in m ==> m["fast_mode"] == JBool(p.fastMode.value)
    ensures ("radius" in m <==> p.radius != 0) && ("radius" in m ==> m["radius"] == JNum(p.radius))
    ensures ("proxies" in m <==> |EntryValues(p.proxies)| > 0)
    ensures "proxies" in m ==> m["proxies"] == JArr(Strings(EntryValues(p.proxies)))
  {
    Coordinates(p) + Settings(p)
  }

  /** The create body. The seven required keys are always present, with the
      keywords unfiltered and in entry order and `max_time` carrying
      `maxTime`; `lat`, `lon` and `radius` are present only when truthy,
      `fast_mode` whenever it is defined, `proxies` only when some proxy
      entry exists; no other key ever appears. */
  function CreateBody(p: CreateParams): (body: map<string, Json>)
    ensures RequiredKeys <= body.Keys <= RequiredKeys + OptionalKeys
    ensures body["name"] == JStr(p.jobName) && body["lang"] == JStr(p.lang)
    ensures body["keywords"] == JArr(Strings(EntryValues(p.keywords)))
    ensures body["zoom"] == JNum(p.zoom) && body["depth"] == JNum(p.depth)
    ensures body["email"] == JBool(p.email) && body["max_time"] == JNum(p.maxTime)
    ensures ("lat" in body <==> p.lat != "") && ("lat" in body ==> body["lat"] == JStr(p.lat))
    ensures ("lon" in body <==> p.lon != "") && ("lon" in body ==> body["lon"] == JStr(p.lon))
    ensures ("fast_mode" in body <==> p.fastMode.Some?)
    ensures "fast_mode" in body ==> body["fast_mode"] == JBool(p.fastMode.value)
    ensures ("radius" in body <==> p.radius != 0) && ("radius" in body ==> body["radius"] == JNum(p.radius))
    ensures ("proxies" in body <==> |EntryValues(p.proxies)| > 0)
    ensures "proxies" in body ==> body["proxies"] == JArr(Strings(EntryValues(p.proxies)))
  {
    KeySetsDisjoint();
    RequiredFields(p) + OptionalFields(p)
  }

  lemma KeySetsDisjoint()
    ensures RequiredKeys !! OptionalKeys
  {
  }

  // ---------------------------------------------------------------------
  // Reading a create body back.

  /** A string key that may be absent, read as the empty string then. */
  function OptionalString(body: map<string, Json>, key: string): Option<string>
  {
    if key !in body then Some("")
    else if body[key].JStr? then Some(body[key].s)
    else None
  }

  /** The job a body describes, when it has the shape of a create body. */
  function DecodeCreateBody(body: map<string, Json>): (r: Option<JobSpec>)
    ensures r.Some? ==> RequiredKeys <= body.Keys
    ensures r.Some? ==> body["name"] == JStr(r.value.name) && body["max_time"] == JNum(r.value.maxTime)
  {
    if && RequiredKeys <= body.Keys
       && body["name"].JStr? && body["lang"].JStr?
       && body["keywords"].JArr? && AsStrings(body["keywords"].items).Some?
       && body["zoom"].JNum? && body["depth"].JNum? && body["email"].JBool? && body["max_time"].JNum?
       && OptionalString(body, "lat").Some? && OptionalString(body, "lon").Some?
       && ("fast_mode" in body ==> body["fast_mode"].JBool?)
       && ("radius" in body ==> body["radius"].JNum?)
       && ("proxies" in body ==> body["proxies"].JArr? && AsStrings(body["proxies"].items).Some?)
    then
      Some(JobSpec(
        body["name"].s,
        AsStrings(body["keywords"].items).value,
        body["lang"].s,
        body["zoom"].n,
        OptionalString(body, "lat").value,
        OptionalString(body, "lon").value,
        if "fast_mode" in body then Some(body["fast_mode"].b) else None,
        if "radius" in body then body["radius"].n else 0,
        body["depth"].n,
        body["email"].b,
        body["max_time"].n,
        if "proxies" in body then AsStrings(body["proxies"].items).value else []))
    else None
  }

  /** The create body loses nothing: every parameter can be read back from
      it, the omitted optional keys standing for their falsy values. */
  lemma CreateBodyRoundTrip(p: CreateParams)
    ensures DecodeCreateBody(CreateBody(p)) == Some(SpecOf(p))
  {
    AsStringsOfStrings(EntryValues(p.keywords));
    AsStringsOfStrings(EntryValues(p.proxies));
  }

  /** Keywords are sent as entered: an empty or blank entry is kept. */
  lemma KeywordsUnfiltered(p: CreateParams)
    requires p.keywords.Some?
    ensures var kws := CreateBody(p)["keywords"].items;
      |kws| == |p.keywords.value| &&
      forall k :: 0 <= k < |kws| ==> kws[k] == JStr(p.keywords.value[k])
  {
  }

  // ---------------------------------------------------------------------
  // Requests and responses.

  /** The request an item issues: the operation's route under the base URL,
      with the create body for `create` and no body otherwise. */
  function ItemRequest(op: Operation, baseUrl: string, item: ItemParams): (req: Request)
    ensures var route := RouteOf(op, item.jobId);
      req.verb == route.verb && req.url == baseUrl + route.path && req.mode == route.mode
    ensures req.body.Some? <==> op == Create
    ensures op == Create ==> req.body.value == JObj(CreateBody(item.create))
  {
    var route := RouteOf(op, item.jobId);
    Request(route.verb, baseUrl + route.path, if op == Create then Some(JObj(CreateBody(item.create))) else None, route.mode)
  }

  /** The acknowledgement `delete` emits. */
  function DeleteAck(jobId: string): Json
  {
    JObj(map["success" := JBool(true), "message" := JStr("Job " + jobId + " deleted successfully")])
  }

  /** The records one successful call turns into. None carries provenance;
      only `download` carries an attachment: the response bytes as CSV under
      the job's results file name, with an empty JSON part. */
  function Normalise(op: Operation, jobId: string, response: Response): (rs: seq<Record>)
    requires Conforms(ModeOf(op), Replied(response))
    ensures op != GetAll ==> |rs| == 1
    ensures op == GetAll ==> rs == FanOut(response.json, None)
    ensures op == Create || op == Get ==> rs[0].json == response.json
    ensures op == Delete ==> rs[0].json == DeleteAck(jobId)
    ensures op == Download ==> rs[0].json == JObj(map[])
    ensures op == Download ==> rs[0].binary == Some(Binary(response.bytes, CsvMimeType, ResultsFileName(jobId)))
    ensures forall k :: 0 <= k < |rs| ==> rs[k].pairedItem.None? && (rs[k].binary.Some? <==> op == Download)
  {
    match op
    case Create => [Record(response.json, None, None)]
    case Get => [Record(response.json, None, None)]
    case GetAll => FanOut(response.json, None)
    case Delete => [Record(DeleteAck(jobId), None, None)]
    case Download =>
      [Record(JObj(map[]), Some(Binary(response.bytes, CsvMimeType, ResultsFileName(jobId))), None)]
  }

  /** `delete` trusts nothing in the response: any two bodies give the same
      acknowledgement, and its message names the job. */
  lemma DeleteIgnoresResponse(jobId: string, r1: Response, r2: Response)
    requires r1.JsonBody? && r2.JsonBody?
    ensures Normalise(Delete, jobId, r1) == Normalise(Delete, jobId, r2)
    ensures var m := Normalise(Delete, jobId, r1)[0].json.fields["message"].s;
      m[4..|m| - 21] == jobId && Normalise(Delete, jobId, r1)[0].json.fields["success"] == JBool(true)
  {
    var m := "Job " + jobId + " deleted successfully";
    assert m[4..|m| - 21] == jobId;
  }

  /** The records one item contributes when the node catches its error. */
  function ItemRecords(op: Operation, item: ItemParams, reply: Reply, i: nat): seq<Record>
    requires Conforms(ModeOf(op), reply)
  {
    match reply
    case Failed(message) => [ErrorRecord(message, i)]
    case Replied(response) => Normalise(op, item.jobId, response)
  }

  /** Processing item `i`: nothing at all unless the resource is `job` and
      the operation is one of the five; otherwise exactly one request, whose
      failure is the item's only way to throw. */
  function ProcessItem(resource: string, op: Option<Operation>, baseUrl: string, item: ItemParams, reply: Reply, i: nat): (o: Batch.ItemOutcome)
    requires op.Some? ==> Conforms(ModeOf(op.value), reply)
    ensures resource != JobResource || op.None? ==> o == Batch.Emitted([], [])
    ensures resource == JobResource && op.Some? ==> o.calls == [ItemRequest(op.value, baseUrl, item)]
    ensures o.Threw? <==> resource == JobResource && op.Some? && reply.Failed?
    ensures o.Threw? ==> o.failure == RequestFailed(reply.message)
    ensures o.Emitted? && resource == JobResource && op.Some? ==>
      o.records == Normalise(op.value, item.jobId, reply.response)
  {
    if resource != JobResource || op.None? then Batch.Emitted([], [])
    else
      var req := ItemRequest(op.value, baseUrl, item);
      match reply
      case Failed(message) => Batch.Threw([req], RequestFailed(message))
      case Replied(response) => Batch.Emitted([req], Normalise(op.value, item.jobId, response))
  }

  // ---------------------------------------------------------------------
  // The batch.

  /** Every reply has the shape the request helper gives for the mode of the
      batch's operation. */
  predicate RepliesConform(operation: string, replies: seq<Reply>)
  {
    ParseOperation(operation).Some? ==>
      forall k :: 0 <= k < |replies| ==> Conforms(ModeOf(ParseOperation(operation).value), replies[k])
  }

  /** What each item does; resource and operation are the batch's, read once. */
  function Outcomes(resource: string, operation: string, baseUrl: string, items: seq<ItemParams>, replies: seq<Reply>): (outs: seq<Batch.ItemOutcome>)
    requires |replies| == |items| && RepliesConform(operation, replies)
    ensures |outs| == |items|
    ensures forall k :: 0 <= k < |items| ==> outs[k] == ProcessItem(resource, ParseOperation(operation), baseUrl, items[k], replies[k], k)
  {
    seq(|items|, k requires 0 <= k < |items| => ProcessItem(resource, ParseOperation(operation), baseUrl, items[k], replies[k], k))
  }

  /** The loop over a batch once `resource` and `operation` have been read.
      `replies[k]` is what the request of item `k` returns, if it issues one. */
  function RunBatch(resource: string, operation: string, baseUrl: string, items: seq<ItemParams>, replies: seq<Reply>, continueOnFail: bool): Execution
    requires |replies| == |items| && RepliesConform(operation, replies)
  {
    var run := Batch.Fold(Outcomes(resource, operation, baseUrl, items, replies), continueOnFail);
    Execution(run.calls, match run.result
      case Ok(records) => Ok(records)
      case Err(abort) => Err(NodeOperationError(abort.failure.message, abort.index)))
  }

  /** One run of the node over its input items. `resource` and `operation`
      are evaluated for item 0 only, before the loop, and govern every item;
      an empty batch does nothing. With continue-on-fail the run completes;
      otherwise it fails exactly when some request of a `job` batch of a
      known operation fails, and then with the first failed request's
      message and that item's index. */
  function Execute(baseUrl: string, items: seq<Input<ItemParams>>, replies: seq<Reply>, continueOnFail: bool): (r: Execution)
    requires |replies| == |items|
    requires |items| > 0 ==> RepliesConform(items[0].operation, replies)
    ensures continueOnFail ==> r.result.Ok?
    ensures r.result.Err? ==>
      |items| > 0 && items[0].resource == JobResource && ParseOperation(items[0].operation).Some?
    ensures r.result.Err? ==>
      (exists i :: && 0 <= i < |items| && replies[i].Failed?
                   && (forall k :: 0 <= k < i ==> replies[k].Replied?)
                   && r.result.error == NodeOperationError(replies[i].message, i))
    ensures (&& !continueOnFail && |items| > 0 && items[0].resource == JobResource
             && ParseOperation(items[0].operation).Some?
             && exists i :: 0 <= i < |items| && replies[i].Failed?) ==> r.result.Err?
  {
    if |items| == 0 then Execution([], Ok([]))
    else
      var outs := Outcomes(items[0].resource, items[0].operation, baseUrl, ParamsOf(items), replies);
      Batch.FoldAbortsIff(outs, continueOnFail);
      RunBatch(items[0].resource, items[0].operation, baseUrl, ParamsOf(items), replies, continueOnFail)
  }

  /** Only item 0's `resource` and `operation` matter: batches whose items
      agree on everything else, and whose first items agree on these two,
      run identically, whatever later items' own values are. */
  lemma ParametersReadOnce(baseUrl: string, items: seq<Input<ItemParams>>, items': seq<Input<ItemParams>>,
                           replies: seq<Reply>, continueOnFail: bool)
    requires |replies| == |items| == |items'|
    requires |items| > 0 ==> RepliesConform(items[0].operation, replies)
    requires |items| > 0 ==> items'[0].resource == items[0].resource && items'[0].operation == items[0].operation
    requires forall k :: 0 <= k < |items| ==> items'[k].params == items[k].params
    ensures Execute(baseUrl, items, replies, continueOnFail) == Execute(baseUrl, items', replies, continueOnFail)
  {
    if |items| > 0 {
      assert ParamsOf(items) == ParamsOf(items');
    }
  }

  /** A batch whose resource is not `job`, or whose operation is none of the
      five, issues nothing and emits nothing, whatever its items. */
  lemma UnknownOperationEmitsNothing(resource: string, operation: string, baseUrl: string, items: seq<ItemParams>, replies: seq<Reply>, continueOnFail: bool)
    requires |replies| == |items| && RepliesConform(operation, replies)
    requires resource != JobResource || ParseOperation(operation).None?
    ensures RunBatch(resource, operation, baseUrl, items, replies, continueOnFail) == Execution([], Ok([]))
  {
    var outs := Outcomes(resource, operation, baseUrl, items, replies);
    Batch.FoldCompletes(outs, continueOnFail);
    ConcatOfEmpties(Batch.CallLists(outs));
    ConcatOfEmpties(Batch.Contributions(outs));
  }

  lemma {:induction false} ConcatOfEmpties<T>(ss: seq<seq<T>>)
    requires forall k :: 0 <= k < |ss| ==> ss[k] == []
    ensures Batch.Concat(ss) == []
    decreases |ss|
  {
    if |ss| > 0 {
      ConcatOfEmpties(ss[1..]);
    }
  }

  lemma {:induction false} ConcatOfSingletons<T>(ss: seq<seq<T>>)
    requires forall k :: 0 <= k < |ss| ==> |ss[k]| == 1
    ensures Batch.Concat(ss) == seq(|ss|, k requires 0 <= k < |ss| => ss[k][0])
    decreases |ss|
  {
    if |ss| > 0 {
      ConcatOfSingletons(ss[1..]);
    }
  }

  /** The requests a batch of a known operation issues for its first `n`
      items: one per item, in item order. */
  function RequestsUpTo(op: Operation, baseUrl: string, items: seq<ItemParams>, n: nat): (reqs: seq<Request>)
    requires n <= |items|
    ensures |reqs| == n
    ensures forall k :: 0 <= k < n ==> reqs[k] == ItemRequest(op, baseUrl, items[k])
  {
    seq(n, k requires 0 <= k < n => ItemRequest(op, baseUrl, items[k]))
  }

  /** The first `n` items of a batch of a known operation issue one request
      each, in item order. */
  lemma BatchRequests(operation: string, baseUrl: string, items: seq<ItemParams>, replies: seq<Reply>, n: nat)
    requires |replies| == |items| && RepliesConform(operation, replies)
    requires ParseOperation(operation).Some? && n <= |items|
    ensures Batch.Concat(Batch.CallLists(Outcomes(JobResource, operation, baseUrl, items, replies))[..n])
         == RequestsUpTo(ParseOperation(operation).value, baseUrl, items, n)
  {
    var op := ParseOperation(operation).value;
    var cs := Batch.CallLists(Outcomes(JobResource, operation, baseUrl, items, replies))[..n];
    assert forall k :: 0 <= k < |cs| ==> cs[k] == [ItemRequest(op, baseUrl, items[k])];
    ConcatOfSingletons(cs);
    assert seq(|cs|, k requires 0 <= k < |cs| => cs[k][0]) == RequestsUpTo(op, baseUrl, items, n);
  }

  /** Continue-on-fail: the batch always completes. Every item issues its one
      request in item order, and the output is each item's records in item
      order, a failed item contributing exactly one `{error}` record paired
      with its index. */
  lemma ContinueOnFailCompletes(operation: string, baseUrl: string, items: seq<ItemParams>, replies: seq<Reply>)
    requires |replies| == |items| && RepliesConform(operation, replies)
    requires ParseOperation(operation).Some?
    ensures var op := ParseOperation(operation).value;
      RunBatch(JobResource, operation, baseUrl, items, replies, true)
      == Execution(RequestsUpTo(op, baseUrl, items, |items|),
                   Ok(Batch.Concat(seq(|items|, k requires 0 <= k < |items| => ItemRecords(op, items[k], replies[k], k)))))
  {
    var op := ParseOperation(operation).value;
    var outs := Outcomes(JobResource, operation, baseUrl, items, replies);
    Batch.FoldCompletes(outs, true);
    BatchRequests(operation, baseUrl, items, replies, |items|);
    assert Batch.CallLists(outs)[..|items|] == Batch.CallLists(outs);
    assert Batch.Contributions(outs) == seq(|items|, k requires 0 <= k < |items| => ItemRecords(op, items[k], replies[k], k));
  }

  /** Without continue-on-fail, the first failed request ends the batch with
      a NodeOperationError carrying that item's index and the request's
      message; the items before it and it alone issued requests. */
  lemma AbortsAtFirstFailure(operation: string, baseUrl: string, items: seq<ItemParams>, replies: seq<Reply>, i: nat)
    requires |replies| == |items| && RepliesConform(operation, replies)
    requires ParseOperation(operation).Some?
    requires i < |items| && replies[i].Failed?
    requires forall k :: 0 <= k < i ==> replies[k].Replied?
    ensures RunBatch(JobResource, operation, baseUrl, items, replies, false)
      == Execution(RequestsUpTo(ParseOperation(operation).value, baseUrl, items, i + 1),
                   Err(NodeOperationError(replies[i].message, i)))
  {
    var op := ParseOperation(operation).value;
    var outs := Outcomes(JobResource, operation, baseUrl, items, replies);
    forall k | 0 <= k < i ensures outs[k].Emitted? {
      assert outs[k] == ProcessItem(JobResource, Some(op), baseUrl, items[k], replies[k], k);
    }
    assert outs[i] == ProcessItem(JobResource, Some(op), baseUrl, items[i], replies[i], i);
    assert Batch.FirstThrow(outs, i);
    Batch.FoldAbortsAtFirstThrow(outs, i);
    BatchRequests(operation, baseUrl, items, replies, i + 1);
    var abort := Batch.Abort(i, RequestFailed(replies[i].message));
    assert Batch.Fold(outs, false) == Batch.Run(RequestsUpTo(op, baseUrl, items, i + 1), Err(abort));
  }

  /** Without any failure the continuation flag makes no difference. */
  lemma NoFailureNoDifference(resource: string, operation: string, baseUrl: string, items: seq<ItemParams>, replies: seq<Reply>)
    requires |replies| == |items| && RepliesConform(operation, replies)
    requires forall k :: 0 <= k < |replies| ==> replies[k].Replied?
    ensures RunBatch(resource, operation, baseUrl, items, replies, false)
         == RunBatch(resource, operation, baseUrl, items, replies, true)
  {
    var outs := Outcomes(resource, operation, baseUrl, items, replies);
    Batch.FoldCompletes(outs, false);
    Batch.FoldCompletes(outs, true);
  }
}
