/** The operation dispatcher: the five job operations, the node parameter
    values that select them, and the HTTP request each one issues against
    the job resource of the scraper service. */
module Dispatch {
  import opened Data

  /** The only resource either node knows. */
  const JobResource: string := "job"

  /** The collection path of the job resource. */
  const JobsPath: string := "/api/v1/jobs"

  /** The suffix that selects a job's CSV results. */
  const DownloadSuffix: string := "/download"

  datatype Operation = Create | Get | GetAll | Delete | Download

  /** The value of the `operation` node parameter that selects `op`. */
  function OperationName(op: Operation): (name: string)
    ensures ParseOperation(name) == Some(op)
  {
    match op
    case Create => "create"
    case Get => "get"
    case GetAll => "getAll"
    case Delete => "delete"
    case Download => "download"
  }

  /** The operation an `operation` parameter value selects, if any; every
      other value selects nothing. */
  function ParseOperation(s: string): (r: Option<Operation>)
  {
    if s == "create" then Some(Create)
    else if s == "get" then Some(Get)
    else if s == "getAll" then Some(GetAll)
    else if s == "delete" then Some(Delete)
    else if s == "download" then Some(Download)
    else None
  }

  /** Exactly the five names select an operation, each its own. */
  lemma ParseOperationInvertsName(s: string, op: Operation)
    ensures ParseOperation(s) == Some(op) <==> s == OperationName(op)
  {
  }

  datatype Verb = GET | POST | DELETE

  /** How the response body is read: parsed as JSON, or kept as raw bytes. */
  datatype Mode = JsonMode | BinaryMode

  /** Verb, path below the service's base URL, and response mode. */
  datatype Route = Route(verb: Verb, path: string, mode: Mode)

  /** The operations that address one job by its id. */
  predicate NeedsJobId(op: Operation)
  {
    op == Get || op == Delete || op == Download
  }

  /** The path of one job. */
  function JobPath(jobId: string): (p: string)
    ensures |p| == |JobsPath| + 1 + |jobId|
    ensures p[..|JobsPath|] == JobsPath && p[|JobsPath|] == '/'
    ensures p[|JobsPath| + 1..] == jobId
  {
    JobsPath + "/" + jobId
  }

  /** The request each operation issues. Only `download` reads raw bytes,
      only `create` posts, only `delete` deletes, the rest are GETs; the
      collection operations use the collection path and the others the job's
      own path, with `/download` appended for `download`. */
  function RouteOf(op: Operation, jobId: string): (r: Route)
    ensures r.verb == POST <==> op == Create
    ensures r.verb == DELETE <==> op == Delete
    ensures r.verb == GET <==> op in {Get, GetAll, Download}
    ensures r.mode == BinaryMode <==> op == Download
    ensures !NeedsJobId(op) ==> r.path == JobsPath
    ensures op in {Get, Delete} ==> r.path == JobPath(jobId)
    ensures op == Download ==> r.path == JobPath(jobId) + DownloadSuffix
  {
    match op
    case Create => Route(POST, JobsPath, JsonMode)
    case GetAll => Route(GET, JobsPath, JsonMode)
    case Get => Route(GET, JobPath(jobId), JsonMode)
    case Delete => Route(DELETE, JobPath(jobId), JsonMode)
    case Download => Route(GET, JobPath(jobId) + DownloadSuffix, BinaryMode)
  }

  /** The response mode of an operation, which does not depend on the job id. */
  function ModeOf(op: Operation): (m: Mode)
    ensures forall jobId :: RouteOf(op, jobId).mode == m
  {
    if op == Download then BinaryMode else JsonMode
  }

  /** One job path determines its job id. */
  lemma JobPathInjective(a: string, b: string)
    requires JobPath(a) == JobPath(b)
    ensures a == b
  {
    assert a == JobPath(a)[|JobsPath| + 1..];
  }

  /** The dispatcher loses nothing: two requests agree only when they come
      from the same operation and, where the operation addresses one job, the
      same job id. A job id that itself ends in `/download` makes `get` hit
      the download path, but in JSON mode, so even then the routes differ. */
  lemma RouteOfInjective(op1: Operation, id1: string, op2: Operation, id2: string)
    requires RouteOf(op1, id1) == RouteOf(op2, id2)
    ensures op1 == op2
    ensures NeedsJobId(op1) ==> id1 == id2
  {
    var r := RouteOf(op1, id1);
    if op1 == op2 && op1 in {Get, Delete} {
      JobPathInjective(id1, id2);
    } else if op1 == op2 && op1 == Download {
      var n := |r.path| - |DownloadSuffix|;
      assert JobPath(id1) == r.path[..n] == JobPath(id2);
      JobPathInjective(id1, id2);
    }
  }

  /** An outbound HTTP call: verb, URL, optional JSON body and response mode. */
  datatype Request = Request(verb: Verb, url: string, body: Option<Json>, mode: Mode)
}
