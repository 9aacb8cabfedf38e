/** The packaged node (n8n-nodes-googlemaps-scraper/nodes/GoogleMapsScraper/
    GoogleMapsScraper.node.ts): keyword and proxy collections projected with
    empty values dropped, an untyped `additionalFields` object spread into the
    create body, URLs written as relative paths, provenance on
    every record, and an uncaught error rethrown as it is. */
module PackagedNode {
  import opened Data
  import opened Dispatch
  import opened Records
  import Batch

  /** The create parameters of one item, as the host hands them over: the
      keywords collection and the additional fields are plain JSON, read
      with JavaScript's property access. */
  datatype CreateParams = CreateParams(
    name: string,
    keywords: Json,
    lang: string,
    additionalFields: map<string, Json>)

  /** Everything the node may read for one item; which fields it reads
      depends on the operation. */
  datatype ItemParams = ItemParams(create: CreateParams, jobId: string)

  /** The names the node's code gives the two collections, which the
      JavaScript engine quotes in the TypeError it raises on a bad shape. */
  const KeywordsName: string := "keywordsCollection"
  const ProxiesName: string := "proxiesCollection"

  function ReadError(of: string, property: string): Failure
  {
    TypeError("Cannot read properties of " + of + " (reading '" + property + "')")
  }

  /** `item.field` on one element of a collection: undefined (None) when the
      element has no such property, a TypeError when the element is null. */
  function Property(item: Json, field: string): Result<Option<Json>, Failure>
  {
    match item
    case JNull => Err(ReadError("null", field))
    case JObj(fields) => Ok(if field in fields then Some(fields[field]) else None)
    case _ => Ok(None)
  }

  /** What one non-null element adds to the projection: its field value when
      that is truthy, nothing otherwise. */
  function Kept(item: Json, field: string): seq<Json>
  {
    match Property(item, field)
    case Ok(Some(v)) => if Truthy(v) then [v] else []
    case _ => []
  }

  /** `items.map(item => item.field).filter(Boolean)`, element by element:
      reading the field of a null element throws; otherwise each element
      adds what it keeps, in element order. */
  function Projection(items: seq<Json>, field: string): Result<seq<Json>, Failure>
    decreases |items|
  {
    if |items| == 0 then Ok([])
    else match Property(items[0], field)
      case Err(f) => Err(f)
      case Ok(_) =>
        match Projection(items[1..], field)
        case Err(f) => Err(f)
        case Ok(rest) => Ok(Kept(items[0], field) + rest)
  }

  /** What the projection promises: it throws a TypeError on reading the
      field of null exactly when some element is null; otherwise it keeps
      every truthy `field` value of an object element and nothing else. */
  predicate IsTruthyProjection(items: seq<Json>, field: string, r: Result<seq<Json>, Failure>)
  {
    && (r.Ok? <==> forall k :: 0 <= k < |items| ==> items[k] != JNull)
    && (r.Err? ==> r.error == ReadError("null", field))
    && (r.Ok? ==> |r.value| <= |items|)
    && (r.Ok? ==> forall x :: x in r.value ==> Truthy(x))
    && (r.Ok? ==> forall x :: x in r.value ==>
          (exists k :: 0 <= k < |items| && items[k].JObj? && field in items[k].fields && items[k].fields[field] == x))
    && (r.Ok? ==> forall k :: (0 <= k < |items| && items[k].JObj? && field in items[k].fields
                  && Truthy(items[k].fields[field])) ==> items[k].fields[field] in r.value)
  }

  lemma {:induction false} ProjectionFacts(items: seq<Json>, field: string)
    ensures IsTruthyProjection(items, field, Projection(items, field))
    decreases |items|
  {
    if |items| > 0 && items[0] != JNull {
      var tail := items[1..];
      ProjectionFacts(tail, field);
      var rest := Projection(tail, field);
      if rest.Ok? {
        var kept := Kept(items[0], field);
        var r := kept + rest.value;
        assert Projection(items, field) == Ok(r);
        forall x | x in r
          ensures Truthy(x)
          ensures exists k :: 0 <= k < |items| && items[k].JObj? && field in items[k].fields && items[k].fields[field] == x
        {
          if x in kept {
            assert items[0].JObj? && field in items[0].fields && items[0].fields[field] == x;
          } else {
            assert x in rest.value;
            var j :| 0 <= j < |tail| && tail[j].JObj? && field in tail[j].fields && tail[j].fields[field] == x;
            assert items[j + 1] == tail[j];
          }
        }
        forall k | 0 <= k < |items| && items[k].JObj? && field in items[k].fields && Truthy(items[k].fields[field])
          ensures items[k].fields[field] in r
        {
          if k > 0 {
            assert tail[k - 1] == items[k];
          }
        }
        forall k | 0 <= k < |items| ensures items[k] != JNull {
          if k > 0 {
            assert tail[k - 1] == items[k];
          }
        }
      } else {
        var j :| 0 <= j < |tail| && tail[j] == JNull;
        assert items[j + 1] == JNull;
      }
    }
  }

  /** `items.map(item => item.field).filter(Boolean)`: the truthy `field`
      values in element order; a TypeError if any element is null. */
  function ProjectTruthy(items: seq<Json>, field: string): (r: Result<seq<Json>, Failure>)
    ensures IsTruthyProjection(items, field, r)
  {
    ProjectionFacts(items, field);
    Projection(items, field)
  }

  /** Projecting two runs of elements one after the other is projecting
      their concatenation. */
  lemma {:induction false} ProjectionAppend(a: seq<Json>, b: seq<Json>, field: string)
    requires Projection(a, field).Ok? && Projection(b, field).Ok?
    ensures Projection(a + b, field) == Ok(Projection(a, field).value + Projection(b, field).value)
    decreases |a|
  {
    var pb := Projection(b, field).value;
    if |a| == 0 {
      assert a + b == b;
      assert [] + pb == pb;
    } else {
      var pa := Projection(a[1..], field).value;
      var kept := Kept(a[0], field);
      assert Projection(a, field) == Ok(kept + pa);
      ProjectionAppend(a[1..], b, field);
      assert (a + b)[0] == a[0] && (a + b)[1..] == a[1..] + b;
      assert Projection(a + b, field) == Ok(kept + (pa + pb));
      assert kept + (pa + pb) == (kept + pa) + pb;
    }
  }

  /** The projection keeps element order: projecting two runs of elements one
      after the other is projecting their concatenation. */
  lemma ProjectTruthyAppend(a: seq<Json>, b: seq<Json>, field: string)
    requires ProjectTruthy(a, field).Ok? && ProjectTruthy(b, field).Ok?
    ensures ProjectTruthy(a + b, field) == Ok(ProjectTruthy(a, field).value + ProjectTruthy(b, field).value)
  {
    ProjectionAppend(a, b, field);
  }

  /** `collection.values.map(item => item.field).filter(Boolean)`, with the
      TypeError JavaScript raises when `values` is missing, null, or not an
      array. */
  function CollectValues(collection: Json, field: string, name: string): (r: Result<seq<Json>, Failure>)
    ensures r.Ok? <==> && collection.JObj? && "values" in collection.fields
                       && collection.fields["values"].JArr?
                       && forall k :: 0 <= k < |collection.fields["values"].items| ==>
                            collection.fields["values"].items[k] != JNull
    ensures r.Ok? ==> r == ProjectTruthy(collection.fields["values"].items, field)
    ensures r.Err? ==> r.error.TypeError?
  {
    match collection
    case JNull => Err(ReadError("null", "values"))
    case JObj(fields) =>
      if "values" !in fields then Err(ReadError("undefined", "map"))
      else (match fields["values"]
        case JNull => Err(ReadError("null", "map"))
        case JArr(items) => ProjectTruthy(items, field)
        case _ => Err(TypeError(name + ".values.map is not a function")))
    case JArr(_) => Err(TypeError(name + ".values.map is not a function"))
    case _ => Err(ReadError("undefined", "map"))
  }

  /** A collection as the host builds it from entered strings. */
  function Entries(field: string, values: seq<string>): (es: seq<Json>)
    ensures |es| == |values|
    ensures forall k :: 0 <= k < |es| ==> es[k] == JObj(map[field := JStr(values[k])])
  {
    seq(|values|, k requires 0 <= k < |values| => JObj(map[field := JStr(values[k])]))
  }

  /** The entered strings that are not empty, in order. */
  function NonEmpty(values: seq<string>): (r: seq<string>)
    ensures forall s :: s in r <==> s in values && s != ""
    ensures (forall k :: 0 <= k < |values| ==> values[k] != "") ==> r == values
    decreases |values|
  {
    if |values| == 0 then []
    else if values[0] == "" then NonEmpty(values[1..])
    else
      assert values == [values[0]] + values[1..];
      [values[0]] + NonEmpty(values[1..])
  }

  /** On entered strings the projection is exactly "drop the empty ones":
      nothing is trimmed, so a blank entry such as " " is kept. */
  lemma {:induction false} EntriesProjection(field: string, values: seq<string>)
    ensures ProjectTruthy(Entries(field, values), field) == Ok(Strings(NonEmpty(values)))
    decreases |values|
  {
    if |values| > 0 {
      var es := Entries(field, values);
      assert es[1..] == Entries(field, values[1..]);
      EntriesProjection(field, values[1..]);
      var rest := Strings(NonEmpty(values[1..]));
      assert Projection(es[1..], field) == Ok(rest);
      assert Property(es[0], field) == Ok(Some(JStr(values[0])));
      assert Projection(es, field) == Ok(Kept(es[0], field) + rest);
      if values[0] != "" {
        assert NonEmpty(values) == [values[0]] + NonEmpty(values[1..]);
        StringsCons(values[0], NonEmpty(values[1..]));
      } else {
        assert NonEmpty(values) == NonEmpty(values[1..]);
        assert [] + rest == rest;
      }
    }
  }


  const BaseKeys: set<string> := {"name", "keywords", "lang"}

  /** The proxies collection is present and truthy, so the node rewrites it. */
  predicate RewritesProxies(p: CreateParams)
  {
    "proxies" in p.additionalFields && Truthy(p.additionalFields["proxies"])
  }

  /** The create body: `name`, `keywords` and `lang`, overlaid by every
      additional field as given, and then, when a proxies collection was
      given, `proxies` replaced by its projected list, which may be empty.
      The keywords are projected first; a collection of the wrong shape
      raises its TypeError. */
  function CreateBody(p: CreateParams): (r: Result<map<string, Json>, Failure>)
    ensures var kws := CollectValues(p.keywords, "keyword", KeywordsName);
      r.Ok? <==> kws.Ok? && (RewritesProxies(p) ==>
        CollectValues(p.additionalFields["proxies"], "proxy", ProxiesName).Ok?)
    ensures r.Err? ==> r.error.TypeError?
    ensures r.Ok? ==> r.value.Keys == BaseKeys + p.additionalFields.Keys
    ensures r.Ok? ==> forall k :: k in p.additionalFields && !(k == "proxies" && RewritesProxies(p)) ==>
      r.value[k] == p.additionalFields[k]
    ensures r.Ok? && "name" !in p.additionalFields ==> r.value["name"] == JStr(p.name)
    ensures r.Ok? && "lang" !in p.additionalFields ==> r.value["lang"] == JStr(p.lang)
    ensures r.Ok? && "keywords" !in p.additionalFields ==>
      r.value["keywords"] == JArr(CollectValues(p.keywords, "keyword", KeywordsName).value)
    ensures r.Ok? && RewritesProxies(p) ==>
      r.value["proxies"] == JArr(CollectValues(p.additionalFields["proxies"], "proxy", ProxiesName).value)
  {
    match CollectValues(p.keywords, "keyword", KeywordsName)
    case Err(f) => Err(f)
    case Ok(keywords) =>
      var body := map["name" := JStr(p.name), "keywords" := JArr(keywords), "lang" := JStr(p.lang)]
                  + p.additionalFields;
      if RewritesProxies(p) then
        match CollectValues(p.additionalFields["proxies"], "proxy", ProxiesName)
        case Err(f) => Err(f)
        case Ok(proxies) => Ok(body["proxies" := JArr(proxies)])
      else Ok(body)
  }

  /** Keywords entered as strings arrive as the non-empty ones, in order. */
  lemma KeywordsOfEnteredStrings(p: CreateParams, keywords: seq<string>)
    requires p.keywords == JObj(map["values" := JArr(Entries("keyword", keywords))])
    requires "keywords" !in p.additionalFields
    ensures CreateBody(p).Ok? ==> CreateBody(p).value["keywords"] == JArr(Strings(NonEmpty(keywords)))
  {
    EntriesProjection("keyword", keywords);
  }

  /** Proxy URLs given as entered strings arrive as the non-empty ones, in
      order; an all-empty collection still sends an empty list. */
  lemma ProxiesRewritten(p: CreateParams, proxies: seq<string>)
    requires "proxies" in p.additionalFields
    requires p.additionalFields["proxies"] == JObj(map["values" := JArr(Entries("proxy", proxies))])
    requires CollectValues(p.keywords, "keyword", KeywordsName).Ok?
    ensures CreateBody(p).Ok?
    ensures CreateBody(p).value["proxies"] == JArr(Strings(NonEmpty(proxies)))
  {
    EntriesProjection("proxy", proxies);
  }

  // ---------------------------------------------------------------------
  // Requests and responses.

  /** The request an item issues, with its URL the relative path as written. */
  function ItemRequest(op: Operation, item: ItemParams): (req: Request)
    requires op == Create ==> CreateBody(item.create).Ok?
    ensures var route := RouteOf(op, item.jobId);
      req.verb == route.verb && req.url == route.path && req.mode == route.mode
    ensures req.body.Some? <==> op == Create
    ensures op == Create ==> req.body.value == JObj(CreateBody(item.create).value)
  {
    var route := RouteOf(op, item.jobId);
    Request(route.verb, route.path, if op == Create then Some(JObj(CreateBody(item.create).value)) else None, route.mode)
  }

  /** The acknowledgement `delete` emits. */
  function DeleteAck(jobId: string): Json
  {
    JObj(map["success" := JBool(true), "jobId" := JStr(jobId), "message" := JStr("Job deleted successfully")])
  }

  /** The records one successful call of item `i` turns into, all paired with
      `i`. `download` emits one record whose JSON part names the same file
      and mime type as its attachment and carries the text of the bytes
      (`toText` stands for the buffer's `toString`). */
  function Normalise(op: Operation, jobId: string, response: Response, toText: seq<Byte> -> string, i: nat): (rs: seq<Record>)
    requires Conforms(ModeOf(op), Replied(response))
    ensures op != GetAll ==> |rs| == 1
    ensures op == GetAll ==> rs == FanOut(response.json, Some(i))
    ensures forall k :: 0 <= k < |rs| ==> rs[k].pairedItem == Some(i) && (rs[k].binary.Some? <==> op == Download)
    ensures op == Create || op == Get ==> rs[0].json == response.json
    ensures op == Delete ==> rs[0].json == DeleteAck(jobId)
    ensures op == Download ==>
      var bin := rs[0].binary.value;
      && bin == Binary(response.bytes, CsvMimeType, ResultsFileName(jobId))
      && rs[0].json.JObj? && rs[0].json.fields.Keys == {"jobId", "filename", "data", "mimeType"}
      && rs[0].json.fields["filename"] == JStr(bin.fileName)
      && rs[0].json.fields["mimeType"] == JStr(bin.mimeType)
      && rs[0].json.fields["jobId"] == JStr(jobId)
      && rs[0].json.fields["data"] == JStr(toText(bin.data))
  {
    match op
    case Create => [Record(response.json, None, Some(i))]
    case Get => [Record(response.json, None, Some(i))]
    case GetAll => FanOut(response.json, Some(i))
    case Delete => [Record(DeleteAck(jobId), None, Some(i))]
    case Download =>
      var fileName := ResultsFileName(jobId);
      [Record(JObj(map["jobId" := JStr(jobId), "filename" := JStr(fileName),
                       "data" := JStr(toText(response.bytes)), "mimeType" := JStr(CsvMimeType)]),
              Some(Binary(response.bytes, CsvMimeType, fileName)), Some(i))]
  }

  /** `delete` trusts nothing in the response: any two bodies give the same
      acknowledgement, which names the job. */
  lemma DeleteIgnoresResponse(jobId: string, r1: Response, r2: Response, toText: seq<Byte> -> string, i: nat)
    requires r1.JsonBody? && r2.JsonBody?
    ensures Normalise(Delete, jobId, r1, toText, i) == Normalise(Delete, jobId, r2, toText, i)
    ensures Normalise(Delete, jobId, r1, toText, i)[0].json.fields["jobId"] == JStr(jobId)
  {
  }

  /** Item `i` throws: its create body cannot be built, or its request fails. */
  predicate ItemFails(op: Operation, item: ItemParams, reply: Reply)
  {
    (op == Create && CreateBody(item.create).Err?) || reply.Failed?
  }

  /** The error item `i` throws: a create body's TypeError comes first, since
      no request is then made. */
  function ItemFailure(op: Operation, item: ItemParams, reply: Reply): Failure
    requires ItemFails(op, item, reply)
  {
    if op == Create && CreateBody(item.create).Err? then CreateBody(item.create).error
    else RequestFailed(reply.message)
  }

  /** The requests item `i` issues: none when its create body cannot be
      built, its one request otherwise. */
  function ItemCalls(op: Operation, item: ItemParams): seq<Request>
  {
    if op == Create && CreateBody(item.create).Err? then [] else [ItemRequest(op, item)]
  }

  /** The records item `i` contributes when the node catches its error. */
  function ItemRecords(op: Operation, item: ItemParams, reply: Reply, toText: seq<Byte> -> string, i: nat): seq<Record>
    requires Conforms(ModeOf(op), reply)
  {
    if ItemFails(op, item, reply) then [ErrorRecord(ItemFailure(op, item, reply).message, i)]
    else Normalise(op, item.jobId, reply.response, toText, i)
  }

  /** Processing item `i`: nothing at all unless the resource is `job` and
      the operation is one of the five; otherwise the item's calls, and its
      records or its error. */
  function ProcessItem(resource: string, op: Option<Operation>, item: ItemParams, reply: Reply, toText: seq<Byte> -> string, i: nat): (o: Batch.ItemOutcome)
    requires op.Some? ==> Conforms(ModeOf(op.value), reply)
    ensures resource != JobResource || op.None? ==> o == Batch.Emitted([], [])
    ensures resource == JobResource && op.Some? ==> o.calls == ItemCalls(op.value, item)
    ensures o.Threw? <==> resource == JobResource && op.Some? && ItemFails(op.value, item, reply)
    ensures o.Threw? ==> o.failure == ItemFailure(op.value, item, reply)
    ensures o.Emitted? && resource == JobResource && op.Some? ==>
      o.records == Normalise(op.value, item.jobId, reply.response, toText, i)
    ensures o.Emitted? ==> forall a :: 0 <= a < |o.records| ==> o.records[a].pairedItem == Some(i)
  {
    if resource != JobResource || op.None? then Batch.Emitted([], [])
    else if op.value == Create && CreateBody(item.create).Err? then
      Batch.Threw([], CreateBody(item.create).error)
    else
      var req := ItemRequest(op.value, item);
      match reply
      case Failed(message) => Batch.Threw([req], RequestFailed(message))
      case Replied(response) => Batch.Emitted([req], Normalise(op.value, item.jobId, response, toText, i))
  }

  // ---------------------------------------------------------------------
  // The batch.

  /** Every reply has the shape the request helper gives for the mode of the
      batch's operation. */
  predicate RepliesConform(operation: string, replies: seq<Reply>)
  {
    ParseOperation(operation).Some? ==>
      forall k :: 0 <= k < |replies| ==> Conforms(ModeOf(ParseOperation(operation).value), replies[k])
  }

  /** What each item does; resource and operation are the batch's, read once. */
  function Outcomes(resource: string, operation: string, items: seq<ItemParams>, replies: seq<Reply>, toText: seq<Byte> -> string): (outs: seq<Batch.ItemOutcome>)
    requires |replies| == |items| && RepliesConform(operation, replies)
    ensures |outs| == |items|
    ensures forall k :: 0 <= k < |items| ==> outs[k] == ProcessItem(resource, ParseOperation(operation), items[k], replies[k], toText, k)
  {
    seq(|items|, k requires 0 <= k < |items| => ProcessItem(resource, ParseOperation(operation), items[k], replies[k], toText, k))
  }

  /** The loop over a batch once `resource` and `operation` have been read.
      `replies[k]` is what the request of item `k` returns, if it issues one. */
  function RunBatch(resource: string, operation: string, items: seq<ItemParams>, replies: seq<Reply>, toText: seq<Byte> -> string, continueOnFail: bool): Execution
    requires |replies| == |items| && RepliesConform(operation, replies)
  {
    var run := Batch.Fold(Outcomes(resource, operation, items, replies, toText), continueOnFail);
    Execution(run.calls, match run.result
      case Ok(records) => Ok(records)
      case Err(abort) => Err(Rethrown(abort.failure)))
  }

  /** One run of the node over its input items. `resource` and `operation`
      are evaluated for item 0 only, before the loop, and govern every item;
      an empty batch does nothing. With continue-on-fail the run completes;
      otherwise it fails exactly when some item of a `job` batch of a known
      operation fails, and then rethrows the first failing item's own error. */
  function Execute(items: seq<Input<ItemParams>>, replies: seq<Reply>, toText: seq<Byte> -> string, continueOnFail: bool): (r: Execution)
    requires |replies| == |items|
    requires |items| > 0 ==> RepliesConform(items[0].operation, replies)
    ensures continueOnFail ==> r.result.Ok?
    ensures r.result.Err? ==>
      |items| > 0 && items[0].resource == JobResource && ParseOperation(items[0].operation).Some?
    ensures r.result.Err? ==>
      var op := ParseOperation(items[0].operation).value;
      (exists i :: && 0 <= i < |items| && ItemFails(op, items[i].params, replies[i])
                   && (forall k :: 0 <= k < i ==> !ItemFails(op, items[k].params, replies[k]))
                   && r.result.error == Rethrown(ItemFailure(op, items[i].params, replies[i])))
    ensures (&& !continueOnFail && |items| > 0 && items[0].resource == JobResource
             && ParseOperation(items[0].operation).Some?
             && exists i :: 0 <= i < |items| && ItemFails(ParseOperation(items[0].operation).value, items[i].params, replies[i]))
            ==> r.result.Err?
  {
    if |items| == 0 then Execution([], Ok([]))
    else
      var outs := Outcomes(items[0].resource, items[0].operation, ParamsOf(items), replies, toText);
      Batch.FoldAbortsIff(outs, continueOnFail);
      RunBatch(items[0].resource, items[0].operation, ParamsOf(items), replies, toText, continueOnFail)
  }

  /** Only item 0's `resource` and `operation` matter: batches whose items
      agree on everything else, and whose first items agree on these two,
      run identically, whatever later items' own values are. */
  lemma ParametersReadOnce(items: seq<Input<ItemParams>>, items': seq<Input<ItemParams>>,
                           replies: seq<Reply>, toText: seq<Byte> -> string, continueOnFail: bool)
    requires |replies| == |items| == |items'|
    requires |items| > 0 ==> RepliesConform(items[0].operation, replies)
    requires |items| > 0 ==> items'[0].resource == items[0].resource && items'[0].operation == items[0].operation
    requires forall k :: 0 <= k < |items| ==> items'[k].params == items[k].params
    ensures Execute(items, replies, toText, continueOnFail) == Execute(items', replies, toText, continueOnFail)
  {
    if |items| > 0 {
      assert ParamsOf(items) == ParamsOf(items');
    }
  }

  /** Provenance: every record of a completed run, fan-out and `{error}`
      records included, is paired with an input item, in input order. */
  lemma OutputPairedInOrder(resource: string, operation: string, items: seq<ItemParams>, replies: seq<Reply>, toText: seq<Byte> -> string, continueOnFail: bool)
    requires |replies| == |items| && RepliesConform(operation, replies)
    ensures var e := RunBatch(resource, operation, items, replies, toText, continueOnFail);
      e.result.Ok? ==> Batch.Traced(e.result.value, 0, |items|)
  {
    var outs := Outcomes(resource, operation, items, replies, toText);
    assert Batch.PairsOwnRecords(outs);
    Batch.OutputTraced(outs, continueOnFail);
  }

  /** Continue-on-fail: the batch always completes, issuing each item's
      requests in item order, and its output is each item's records in item
      order, a failed item contributing exactly one `{error}` record paired
      with its index. */
  lemma ContinueOnFailCompletes(operation: string, items: seq<ItemParams>, replies: seq<Reply>, toText: seq<Byte> -> string)
    requires |replies| == |items| && RepliesConform(operation, replies)
    requires ParseOperation(operation).Some?
    ensures var op := ParseOperation(operation).value;
      RunBatch(JobResource, operation, items, replies, toText, true)
      == Execution(Batch.Concat(seq(|items|, k requires 0 <= k < |items| => ItemCalls(op, items[k]))),
                   Ok(Batch.Concat(seq(|items|, k requires 0 <= k < |items| => ItemRecords(op, items[k], replies[k], toText, k)))))
  {
    var op := ParseOperation(operation).value;
    var outs := Outcomes(JobResource, operation, items, replies, toText);
    Batch.FoldCompletes(outs, true);
    assert Batch.CallLists(outs) == seq(|items|, k requires 0 <= k < |items| => ItemCalls(op, items[k]));
    assert Batch.Contributions(outs) == seq(|items|, k requires 0 <= k < |items| => ItemRecords(op, items[k], replies[k], toText, k));
  }

  /** Without continue-on-fail, the first item that fails ends the batch by
      rethrowing its own error, without an item index; only the items up to
      it issued requests. */
  lemma AbortsAtFirstFailure(operation: string, items: seq<ItemParams>, replies: seq<Reply>, toText: seq<Byte> -> string, i: nat)
    requires |replies| == |items| && RepliesConform(operation, replies)
    requires ParseOperation(operation).Some?
    requires i < |items| && ItemFails(ParseOperation(operation).value, items[i], replies[i])
    requires forall k :: 0 <= k < i ==> !ItemFails(ParseOperation(operation).value, items[k], replies[k])
    ensures var op := ParseOperation(operation).value;
      RunBatch(JobResource, operation, items, replies, toText, false)
      == Execution(Batch.Concat(seq(i + 1, k requires 0 <= k <= i => ItemCalls(op, items[k]))),
                   Err(Rethrown(ItemFailure(op, items[i], replies[i]))))
  {
    var op := ParseOperation(operation).value;
    var outs := Outcomes(JobResource, operation, items, replies, toText);
    assert Batch.FirstThrow(outs, i);
    Batch.FoldAbortsAtFirstThrow(outs, i);
    assert Batch.CallLists(outs)[..i + 1] == seq(i + 1, k requires 0 <= k <= i => ItemCalls(op, items[k]));
  }

  /** Nothing after the first failing item matters when errors are not
      caught: batches that agree up to it run identically. */
  lemma LaterItemsIgnored(operation: string, items: seq<ItemParams>, replies: seq<Reply>,
                          items': seq<ItemParams>, replies': seq<Reply>, toText: seq<Byte> -> string, i: nat)
    requires |replies| == |items| && RepliesConform(operation, replies)
    requires |replies'| == |items'| && RepliesConform(operation, replies')
    requires ParseOperation(operation).Some?
    requires i < |items| && i < |items'|
    requires items[..i + 1] == items'[..i + 1] && replies[..i + 1] == replies'[..i + 1]
    requires ItemFails(ParseOperation(operation).value, items[i], replies[i])
    requires forall k :: 0 <= k < i ==> !ItemFails(ParseOperation(operation).value, items[k], replies[k])
    ensures RunBatch(JobResource, operation, items, replies, toText, false)
         == RunBatch(JobResource, operation, items', replies', toText, false)
  {
    var outs := Outcomes(JobResource, operation, items, replies, toText);
    var outs' := Outcomes(JobResource, operation, items', replies', toText);
    assert Batch.FirstThrow(outs, i);
    forall k | 0 <= k <= i
      ensures outs[k] == outs'[k]
    {
      assert items[k] == items[..i + 1][k] && items'[k] == items'[..i + 1][k];
      assert replies[k] == replies[..i + 1][k] && replies'[k] == replies'[..i + 1][k];
    }
    assert outs[..i + 1] == outs'[..i + 1];
    Batch.LaterItemsIgnored(outs, outs', i);
  }
}
