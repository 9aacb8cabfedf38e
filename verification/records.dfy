/** What comes back from the service and what the node emits: responses,
    per-item transport outcomes, output records with their optional binary
    attachment and provenance, and the pieces of response normalisation both
    node variants share. */
module Records {
  import opened Data
  import opened Dispatch

  /** A response body as the request helper hands it back: parsed JSON in
      JSON mode, a byte buffer in binary mode. */
  datatype Response = JsonBody(json: Json) | Bytes(bytes: seq<Byte>)

  /** The outcome of one HTTP call: a response, or the message of the error
      the request helper raised (transport error or non-2xx status). */
  datatype Reply = Replied(response: Response) | Failed(message: string)

  /** The request helper returns parsed JSON when asked for JSON and a buffer
      when asked for raw bytes; a failure fits either mode. */
  predicate Conforms(mode: Mode, reply: Reply)
  {
    match reply
    case Failed(_) => true
    case Replied(JsonBody(_)) => mode == JsonMode
    case Replied(Bytes(_)) => mode == BinaryMode
  }

  /** An error thrown while processing one item: one raised by the request
      helper, or a JavaScript TypeError raised by the node's own code. */
  datatype Failure = RequestFailed(message: string) | TypeError(message: string)

  /** A named binary attachment. */
  datatype Binary = Binary(data: seq<Byte>, mimeType: string, fileName: string)

  /** One output item: its JSON part, at most one attachment (under the key
      `data`), and the index of the input item it came from when the node
      records one. */
  datatype Record = Record(json: Json, binary: Option<Binary>, pairedItem: Option<nat>)

  /** How a batch ends when it does not complete: the standalone node wraps
      the error with the failing item's index, the packaged node rethrows it. */
  datatype Halt = NodeOperationError(message: string, itemIndex: nat) | Rethrown(failure: Failure)

  /** What one run of the node does: the requests it issued, in order, and
      either its output records or the error it ends with. */
  datatype Execution = Execution(calls: seq<Request>, result: Result<seq<Record>, Halt>)

  /** One input item as the node sees it: the values its `resource` and
      `operation` parameters evaluate to for this item, and the rest of its
      parameters. Both parameters are declared without data expressions, so
      the host gives every item the same two values; letting them differ per
      item is more general than the host allows, and shows that the node
      would read only item 0's values anyway. */
  datatype Input<P> = Input(resource: string, operation: string, params: P)

  /** The parameters of each input item, in item order. */
  function ParamsOf<P>(items: seq<Input<P>>): (ps: seq<P>)
    ensures |ps| == |items|
    ensures forall k :: 0 <= k < |items| ==> ps[k] == items[k].params
  {
    seq(|items|, k requires 0 <= k < |items| => items[k].params)
  }

  const CsvMimeType: string := "text/csv"

  const FileNamePrefix: string := "job_"
  const FileNameSuffix: string := "_results.csv"

  /** The name the CSV results of a job are attached under. */
  function ResultsFileName(jobId: string): (name: string)
    ensures |name| == |FileNamePrefix| + |jobId| + |FileNameSuffix|
    ensures name[..|FileNamePrefix|] == FileNamePrefix
    ensures name[|FileNamePrefix|..|FileNamePrefix| + |jobId|] == jobId
    ensures name[|FileNamePrefix| + |jobId|..] == FileNameSuffix
  {
    FileNamePrefix + jobId + FileNameSuffix
  }

  /** The job id a results file name was made from, if it has the shape of one. */
  function JobIdOfFileName(name: string): (r: Option<string>)
    ensures r.Some? ==> |FileNamePrefix| + |r.value| + |FileNameSuffix| == |name|
  {
    var p := |FileNamePrefix|;
    var n := |FileNameSuffix|;
    if |name| >= p + n && name[..p] == FileNamePrefix && name[|name| - n..] == FileNameSuffix
    then Some(name[p..|name| - n])
    else None
  }

  /** The file name gives the job id back. */
  lemma FileNameRoundTrip(jobId: string)
    ensures JobIdOfFileName(ResultsFileName(jobId)) == Some(jobId)
  {
    var name := ResultsFileName(jobId);
    assert name[|name| - |FileNameSuffix|..] == FileNameSuffix;
  }

  /** Every name with that shape is the file name of the job id it holds. */
  lemma FileNameParseRoundTrip(name: string)
    requires JobIdOfFileName(name).Some?
    ensures ResultsFileName(JobIdOfFileName(name).value) == name
  {
    var p := |FileNamePrefix|;
    var n := |FileNameSuffix|;
    assert name == name[..p] + name[p..|name| - n] + name[|name| - n..];
  }

  /** Distinct jobs get distinct file names. */
  lemma FileNameInjective(a: string, b: string)
    requires ResultsFileName(a) == ResultsFileName(b)
    ensures a == b
  {
    FileNameRoundTrip(a);
    FileNameRoundTrip(b);
  }

  /** The records of a `getAll` response: one per element, in order, for an
      array, and one for the whole body otherwise; all carry `paired`. */
  function FanOut(body: Json, paired: Option<nat>): (rs: seq<Record>)
    ensures body.JArr? ==> |rs| == |body.items|
    ensures body.JArr? ==> forall k :: 0 <= k < |rs| ==> rs[k].json == body.items[k]
    ensures !body.JArr? ==> |rs| == 1 && rs[0].json == body
    ensures forall k :: 0 <= k < |rs| ==> rs[k].binary.None? && rs[k].pairedItem == paired
  {
    match body
    case JArr(jobs) => seq(|jobs|, k requires 0 <= k < |jobs| => Record(jobs[k], None, paired))
    case _ => [Record(body, None, paired)]
  }

  /** The JSON parts of the fan-out, in order, rebuild the response. */
  lemma FanOutRebuildsBody(body: Json, paired: Option<nat>)
    requires body.JArr?
    ensures var rs := FanOut(body, paired);
      JArr(seq(|rs|, k requires 0 <= k < |rs| => rs[k].json)) == body
  {
    var rs := FanOut(body, paired);
    assert seq(|rs|, k requires 0 <= k < |rs| => rs[k].json) == body.items;
  }

  /** The record a caught failure becomes under continue-on-fail. */
  function ErrorRecord(message: string, item: nat): (r: Record)
    ensures r.json.JObj? && r.json.fields.Keys == {"error"}
    ensures r.json.fields["error"] == JStr(message)
    ensures r.binary.None? && r.pairedItem == Some(item)
  {
    Record(JObj(map["error" := JStr(message)]), None, Some(item))
  }
}
