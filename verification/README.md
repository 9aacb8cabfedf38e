# Google Maps Scraper node — request/response core in Dafny

This project models the `execute` method of the Google Maps Scraper
workflow node. The repository ships the method twice, in two node variants
that differ in detail:

- the **standalone node**, `nodes/GoogleMapsScraper/GoogleMapsScraper.node.ts`, module `StandaloneNode`;
- the **packaged node**, `n8n-nodes-googlemaps-scraper/nodes/GoogleMapsScraper/GoogleMapsScraper.node.ts`, module `PackagedNode`.

Both variants handle a batch of input items in order. For each item they do four things:

- build a job-creation body (`create` only);
- issue one HTTP request against the job resource `/api/v1/jobs`;
- turn the response into output records;
- either catch a failure as an `{error}` record (continue-on-fail) or end the batch with it.

The HTTP call is not executed. Each item's call is an input: a `Reply` that
holds either a response (parsed JSON, or raw bytes in binary mode) or the
error message the request helper raised. A run is a pure function of the
batch. It yields an `Execution`: the requests issued, in order, and either
the output records or the error the batch ends with.

Modules:

- `Data`: `Option`, `Result`, bytes, JSON values, and JavaScript truthiness on JSON.
- `Dispatch`: the five operations, the `operation` parameter values that
  select them, and the verb, path and response mode of each (`RouteOf`).
- `Records`: responses, replies, failures, output records with their
  attachment and `pairedItem` provenance, the `getAll` fan-out, the
  `job_{jobId}_results.csv` file name, and the `{error}` record.
- `Batch`: the try/catch loop shared by both variants. It is a fold over
  per-item outcomes (`Fold`). `Process` writes the same loop imperatively,
  with an accumulator, and is proved equal to the fold. The lemmas cover
  completion, abort at the first failure, and provenance.
- `StandaloneNode`, `PackagedNode`: each variant's create body, requests,
  response normalisation, per-item processing and batch run.
- `Variants`: what the two variants share and where they differ.

The model follows the code in these details:

- Keywords are not trimmed. The standalone node keeps every keyword entry, including empty
  ones. The packaged node drops only empty strings (`filter(Boolean)`), so
  blank entries such as `" "` are kept.
- An unknown operation, or a resource other than `job`, does not fail.
  The item silently emits nothing and issues no request.
- Resource and operation are read once, from item 0, for the whole batch.
  Each input item carries values of the two parameters (`Input`). This is more general
  than the host, which gives every item the same values because neither parameter
  accepts data expressions. `Execute` reads item 0's values and hands them to
  `RunBatch`, the loop, and `ParametersReadOnce` shows that the other items' values never matter.
- Only the standalone node annotates an uncaught error with the item index
  (`NodeOperationError` with `itemIndex`). The packaged node rethrows the
  original error.

## Model

| member | source | states |
|---|---|---|
| `Dispatch.OperationName` | nodes/GoogleMapsScraper/GoogleMapsScraper.node.ts:320-428 | each operation's parameter value selects that operation again |
| `Dispatch.ParseOperationInvertsName` | nodes/GoogleMapsScraper/GoogleMapsScraper.node.ts:320-428 | a parameter value selects an operation exactly when it is that operation's name |
| `Dispatch.RouteOf` | nodes/GoogleMapsScraper/GoogleMapsScraper.node.ts:368-436 | create is POST, delete is DELETE, and the rest are GET. Only download reads raw bytes. create and getAll use `/api/v1/jobs`; get and delete use `/api/v1/jobs/{jobId}`; download adds `/download` |
| `Dispatch.ModeOf` | nodes/GoogleMapsScraper/GoogleMapsScraper.node.ts:432-436 | an operation's response mode does not depend on the job id |
| `Dispatch.JobPathInjective` | nodes/GoogleMapsScraper/GoogleMapsScraper.node.ts:401-405 | a job's path determines its id |
| `Dispatch.RouteOfInjective` | n8n-nodes-googlemaps-scraper/nodes/GoogleMapsScraper/GoogleMapsScraper.node.ts:343-421 | two requests are equal only for the same operation and, where a job is addressed, the same job id |
| `Records.ResultsFileName` | nodes/GoogleMapsScraper/GoogleMapsScraper.node.ts:446 | the attachment name is `job_`, then the job id, then `_results.csv` |
| `Records.FileNameRoundTrip` | nodes/GoogleMapsScraper/GoogleMapsScraper.node.ts:446 | the job id can be read back from its file name |
| `Records.FileNameParseRoundTrip` | nodes/GoogleMapsScraper/GoogleMapsScraper.node.ts:446 | every name of that shape is the file name of the id it holds |
| `Records.FileNameInjective` | n8n-nodes-googlemaps-scraper/nodes/GoogleMapsScraper/GoogleMapsScraper.node.ts:435-443 | distinct jobs get distinct file names |
| `Records.FanOut` | nodes/GoogleMapsScraper/GoogleMapsScraper.node.ts:389-395 | an array response of length N gives N records in array order; anything else gives one record holding the whole body |
| `Records.FanOutRebuildsBody` | n8n-nodes-googlemaps-scraper/nodes/GoogleMapsScraper/GoogleMapsScraper.node.ts:378-390 | the fan-out records' JSON, in order, rebuilds the array response |
| `Records.ErrorRecord` | nodes/GoogleMapsScraper/GoogleMapsScraper.node.ts:454-461 | a caught error becomes a record whose only key is `error`, holding the message, paired with the failing item |
| `Batch.Process` | nodes/GoogleMapsScraper/GoogleMapsScraper.node.ts:317-468 | the accumulating loop with an early throw computes the same run as the fold over items |
| `Batch.FoldCompletes` | nodes/GoogleMapsScraper/GoogleMapsScraper.node.ts:452-463 | if errors are caught, or none is thrown, every item's requests are issued in order. The output is every item's records in order, with one `{error}` record for each failed item |
| `Batch.FoldAbortsAtFirstThrow` | nodes/GoogleMapsScraper/GoogleMapsScraper.node.ts:464-466 | if errors are not caught, the first failing item ends the batch with its index and error, and only items up to it issued requests |
| `Batch.FoldAbortsIff` | nodes/GoogleMapsScraper/GoogleMapsScraper.node.ts:452-467 | the batch aborts exactly when errors are not caught and some item throws, and it then names the first failing item |
| `Batch.LaterItemsIgnored` | n8n-nodes-googlemaps-scraper/nodes/GoogleMapsScraper/GoogleMapsScraper.node.ts:457-458 | items after the first uncaught failure have no influence on the run |
| `Batch.OutputTraced` | n8n-nodes-googlemaps-scraper/nodes/GoogleMapsScraper/GoogleMapsScraper.node.ts:450-456 | if every item pairs its own records, the whole output is paired with input items, in input order |
| `StandaloneNode.RequiredFields` | nodes/GoogleMapsScraper/GoogleMapsScraper.node.ts:351-359 | the seven always-present keys, with `max_time` carrying `maxTime` |
| `StandaloneNode.FieldIf` | nodes/GoogleMapsScraper/GoogleMapsScraper.node.ts:362 | a conditional key is present exactly when its condition holds |
| `StandaloneNode.OptionalFields` | nodes/GoogleMapsScraper/GoogleMapsScraper.node.ts:361-366 | `lat`/`lon` only when non-empty, `radius` only when non-zero, `fast_mode` whenever defined, `proxies` only when some proxy entry exists |
| `StandaloneNode.CreateBody` | nodes/GoogleMapsScraper/GoogleMapsScraper.node.ts:335-366 | the body has the required keys and the optional ones under their conditions, and no other key. Keywords and proxies are the entries' values, in order |
| `StandaloneNode.CreateBodyRoundTrip` | nodes/GoogleMapsScraper/GoogleMapsScraper.node.ts:351-366 | every create parameter can be read back from the body; an omitted key stands for its falsy value |
| `StandaloneNode.KeywordsUnfiltered` | nodes/GoogleMapsScraper/GoogleMapsScraper.node.ts:336-341 | keyword entries are sent as entered, one per entry, in order, empty ones included |
| `StandaloneNode.ItemRequest` | nodes/GoogleMapsScraper/GoogleMapsScraper.node.ts:368-436 | the request is the operation's route under the base URL, with a body exactly for create |
| `StandaloneNode.Normalise` | nodes/GoogleMapsScraper/GoogleMapsScraper.node.ts:375-449 | one record per call, except that getAll fans out. create and get return the body. delete returns its ack. download returns empty JSON plus the bytes as `text/csv` under the results file name. No record has provenance |
| `StandaloneNode.DeleteIgnoresResponse` | nodes/GoogleMapsScraper/GoogleMapsScraper.node.ts:420-426 | the delete ack is the same whatever the response. It has `success: true` and a message naming the job |
| `StandaloneNode.ProcessItem` | nodes/GoogleMapsScraper/GoogleMapsScraper.node.ts:318-451 | an unknown resource or operation does nothing. Otherwise the item issues exactly one request, and it throws exactly when that request fails |
| `StandaloneNode.Execute` | nodes/GoogleMapsScraper/GoogleMapsScraper.node.ts:308-471 | with continue-on-fail the run completes. Otherwise it fails exactly when some request fails in a `job` batch of a known operation. It then carries the first failed request's message and that item's index, and every earlier item's request succeeded |
| `StandaloneNode.ParametersReadOnce` | nodes/GoogleMapsScraper/GoogleMapsScraper.node.ts:311-312 | only item 0's `resource` and `operation` values matter. Changing later items' values leaves the run unchanged |
| `StandaloneNode.UnknownOperationEmitsNothing` | nodes/GoogleMapsScraper/GoogleMapsScraper.node.ts:319-451 | a non-job resource or an unknown operation issues no request and emits nothing |
| `StandaloneNode.ContinueOnFailCompletes` | nodes/GoogleMapsScraper/GoogleMapsScraper.node.ts:452-463 | with continue-on-fail, there is one request per item, in order. The output is each item's records, or one `{error}` record paired with that item |
| `StandaloneNode.AbortsAtFirstFailure` | nodes/GoogleMapsScraper/GoogleMapsScraper.node.ts:464-466 | without continue-on-fail, the first failed request ends the batch with `NodeOperationError` carrying its message and item index. Only items up to it issued requests |
| `StandaloneNode.NoFailureNoDifference` | nodes/GoogleMapsScraper/GoogleMapsScraper.node.ts:452-467 | when no request fails, the continue flag changes nothing |
| `PackagedNode.ProjectTruthy` | n8n-nodes-googlemaps-scraper/nodes/GoogleMapsScraper/GoogleMapsScraper.node.ts:306 | `map(x => x.field).filter(Boolean)` raises a TypeError exactly when an element is null. Otherwise every truthy field value of an object element is in the result, and every result element is such a value |
| `PackagedNode.ProjectTruthyAppend` | n8n-nodes-googlemaps-scraper/nodes/GoogleMapsScraper/GoogleMapsScraper.node.ts:322 | the projection keeps element order |
| `PackagedNode.CollectValues` | n8n-nodes-googlemaps-scraper/nodes/GoogleMapsScraper/GoogleMapsScraper.node.ts:303-306 | the projection succeeds exactly when `values` is an array with no null element. Otherwise it is a TypeError |
| `PackagedNode.NonEmpty` | n8n-nodes-googlemaps-scraper/nodes/GoogleMapsScraper/GoogleMapsScraper.node.ts:306 | keeps exactly the non-empty strings, and keeps the list unchanged when none is empty |
| `PackagedNode.EntriesProjection` | n8n-nodes-googlemaps-scraper/nodes/GoogleMapsScraper/GoogleMapsScraper.node.ts:306 | for entered strings, the projection drops exactly the empty ones, in order, without trimming |
| `PackagedNode.CreateBody` | n8n-nodes-googlemaps-scraper/nodes/GoogleMapsScraper/GoogleMapsScraper.node.ts:302-323 | the body has `name`, `keywords` and `lang`, overlaid by every additional field unchanged. A given proxies collection is replaced by its projected list. A collection of the wrong shape raises a TypeError |
| `PackagedNode.KeywordsOfEnteredStrings` | n8n-nodes-googlemaps-scraper/nodes/GoogleMapsScraper/GoogleMapsScraper.node.ts:302-315 | keywords entered as strings arrive as the non-empty ones, in order |
| `PackagedNode.ProxiesRewritten` | n8n-nodes-googlemaps-scraper/nodes/GoogleMapsScraper/GoogleMapsScraper.node.ts:317-323 | `body.proxies` is the non-empty proxy strings in order, possibly an empty list |
| `PackagedNode.ItemRequest` | n8n-nodes-googlemaps-scraper/nodes/GoogleMapsScraper/GoogleMapsScraper.node.ts:325-421 | the request is the operation's route, with the relative path as its URL, and a body exactly for create |
| `PackagedNode.Normalise` | n8n-nodes-googlemaps-scraper/nodes/GoogleMapsScraper/GoogleMapsScraper.node.ts:338-447 | every record is paired with its item. download's JSON `filename` and `mimeType` equal its attachment's. The attachment holds the response bytes |
| `PackagedNode.DeleteIgnoresResponse` | n8n-nodes-googlemaps-scraper/nodes/GoogleMapsScraper/GoogleMapsScraper.node.ts:408-411 | the delete ack is the same whatever the response, and it carries the job id |
| `PackagedNode.ProcessItem` | n8n-nodes-googlemaps-scraper/nodes/GoogleMapsScraper/GoogleMapsScraper.node.ts:298-449 | an unknown resource or operation does nothing. A create body that cannot be built throws before any request. Otherwise there is one request, and every record is paired with the item |
| `PackagedNode.Execute` | n8n-nodes-googlemaps-scraper/nodes/GoogleMapsScraper/GoogleMapsScraper.node.ts:291-463 | with continue-on-fail the run completes. Otherwise it fails exactly when some item fails in a `job` batch of a known operation, through a bad create body or a failed request. It then rethrows the first failing item's own error, and no earlier item failed |
| `PackagedNode.ParametersReadOnce` | n8n-nodes-googlemaps-scraper/nodes/GoogleMapsScraper/GoogleMapsScraper.node.ts:294-295 | only item 0's `resource` and `operation` values matter. Changing later items' values leaves the run unchanged |
| `PackagedNode.OutputPairedInOrder` | n8n-nodes-googlemaps-scraper/nodes/GoogleMapsScraper/GoogleMapsScraper.node.ts:378-390 | every output record, fan-out and error records included, is paired with an input item, in input order |
| `PackagedNode.ContinueOnFailCompletes` | n8n-nodes-googlemaps-scraper/nodes/GoogleMapsScraper/GoogleMapsScraper.node.ts:450-456 | with continue-on-fail, the output is each item's records in order, or one `{error}` record paired with that item |
| `PackagedNode.AbortsAtFirstFailure` | n8n-nodes-googlemaps-scraper/nodes/GoogleMapsScraper/GoogleMapsScraper.node.ts:450-459 | without continue-on-fail, the first failing item's own error is rethrown without an index. Only items up to it issued requests |
| `PackagedNode.LaterItemsIgnored` | n8n-nodes-googlemaps-scraper/nodes/GoogleMapsScraper/GoogleMapsScraper.node.ts:457-458 | batches that agree up to the first uncaught failure run identically |
| `Variants.SameRequestsUnderBaseUrl` | n8n-nodes-googlemaps-scraper/nodes/GoogleMapsScraper/GoogleMapsScraper.node.ts:347-421 | apart from create, the standalone node's request equals the packaged node's request with the base URL prepended to the URL string. This compares strings, not the endpoints they reach |
| `Variants.SameCreateRouteUnderBaseUrl` | n8n-nodes-googlemaps-scraper/nodes/GoogleMapsScraper/GoogleMapsScraper.node.ts:325-333 | for create, both variants POST with a JSON body and the same response mode, and the standalone URL is the base URL followed by the packaged node's relative path, compared as strings |
| `Variants.SameRecordsUpToProvenance` | n8n-nodes-googlemaps-scraper/nodes/GoogleMapsScraper/GoogleMapsScraper.node.ts:338-447 | apart from delete, both variants emit the same number of records with the same attachments, and the same JSON outside download |
| `Variants.DeleteAcksDiffer` | n8n-nodes-googlemaps-scraper/nodes/GoogleMapsScraper/GoogleMapsScraper.node.ts:408-411 | only the packaged node's delete ack carries `jobId` as a key |

## Left out

- The HTTP transport (`helpers.request`, `helpers.requestWithAuthentication`) and async/await.
  Each item's call is an input `Reply`.
- Response shapes are assumed to match the request mode. `RepliesConform` and
  the `Conforms` preconditions require JSON in JSON mode and bytes in binary mode.
  This is the request helper's guarantee, and the node never checks it.
- Credentials. The standalone node reads them before its loop; here the base URL
  is a parameter, and a failing `getCredentials` is not modelled.
  The credential files themselves are declarative configuration.
- How the packaged node's relative URLs are resolved. The model records each
  request's path as written (`/api/v1/jobs…`). Which host such a path reaches
  is decided by the workflow host, outside the node's code, and is not modelled.
  So `Variants.SameRequestsUnderBaseUrl` compares request strings, not endpoints.
- Failures of `getNodeParameter`, the internals of `NodeOperationError`,
  and `prepareOutputData` versus `[returnData]`. Both variants return one output list.
- The node and credential description arrays (UI metadata), including the
  `minValue`/`maxValue` bounds the host UI enforces, and the lint configuration.
- Numbers are unbounded integers. Floating point and `NaN` are not modelled;
  `NaN` would make `radius` falsy. JSON object key order is not modelled.
- `Buffer.toString()` in the packaged node's download record is the uninterpreted parameter `toText`.
- StandaloneNode.CreateParams: the standalone node's keyword and proxy collections are modelled
  only as the host builds them: an optional array of string entries. Other
  shapes are not modelled. For example, an entry without `value` would push `undefined`.
- PackagedNode.ProjectTruthy: for arbitrary JSON elements, its contract gives the kept values
  as a set (exactly the truthy field values), not how often each occurs.
  The exact list is stated for entered strings (`EntriesProjection`), and
  order preservation is stated by `ProjectTruthyAppend`.
- The V8 TypeError message texts in `PackagedNode.CollectValues` are the
  engine's wording. Only their being TypeErrors is part of the contracts.
