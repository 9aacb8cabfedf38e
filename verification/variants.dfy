/** How the two node variants relate: the same request strings once the
    standalone node's base URL is set aside, the same JSON for fetched jobs
    and the same CSV attachment, and the
    places where they genuinely differ (provenance and the `delete`
    acknowledgement). */
module Variants {
  import opened Data
  import opened Dispatch
  import opened Records
  import StandaloneNode
  import PackagedNode

  /** Apart from `create`, whose bodies are built differently, both variants
      issue the same request for the same job, compared as strings: the
      standalone node's URL is its base URL followed by the relative path the
      packaged node writes. Which host the packaged node's relative path
      reaches is up to the workflow host and is not modelled. */
  lemma SameRequestsUnderBaseUrl(op: Operation, baseUrl: string, jobId: string,
                                 c1: StandaloneNode.CreateParams, c2: PackagedNode.CreateParams)
    requires op != Create
    ensures var r1 := StandaloneNode.ItemRequest(op, baseUrl, StandaloneNode.ItemParams(c1, jobId));
            var r2 := PackagedNode.ItemRequest(op, PackagedNode.ItemParams(c2, jobId));
      r1 == Request(r2.verb, baseUrl + r2.url, r2.body, r2.mode)
  {
  }

  /** For `create`, whose bodies are built differently, the two variants
      still agree on verb and response mode, and the standalone URL is the
      base URL followed by the packaged node's relative path. */
  lemma SameCreateRouteUnderBaseUrl(baseUrl: string, jobId: string,
                                    c1: StandaloneNode.CreateParams, c2: PackagedNode.CreateParams)
    requires PackagedNode.CreateBody(c2).Ok?
    ensures var r1 := StandaloneNode.ItemRequest(Create, baseUrl, StandaloneNode.ItemParams(c1, jobId));
            var r2 := PackagedNode.ItemRequest(Create, PackagedNode.ItemParams(c2, jobId));
      && r1.verb == r2.verb && r1.url == baseUrl + r2.url && r1.mode == r2.mode
      && r1.body.Some? && r2.body.Some?
  {
  }

  /** For every operation except `delete`, the variants emit the same records
      up to provenance: the same JSON for fetched jobs (one per element for a
      `getAll` array), and the same attachment for `download`. */
  lemma SameRecordsUpToProvenance(op: Operation, jobId: string, response: Response, toText: seq<Byte> -> string, i: nat)
    requires Conforms(ModeOf(op), Replied(response)) && op != Delete
    ensures var rs1 := StandaloneNode.Normalise(op, jobId, response);
            var rs2 := PackagedNode.Normalise(op, jobId, response, toText, i);
      && |rs1| == |rs2|
      && (forall k :: 0 <= k < |rs1| ==> rs1[k].binary == rs2[k].binary)
      && (op != Download ==> forall k :: 0 <= k < |rs1| ==> rs1[k].json == rs2[k].json)
  {
  }

  /** The `delete` acknowledgements differ: only the packaged node's carries
      the job id as a key; the standalone node's names it inside its message. */
  lemma DeleteAcksDiffer(jobId: string)
    ensures "jobId" !in StandaloneNode.DeleteAck(jobId).fields
    ensures "jobId" in PackagedNode.DeleteAck(jobId).fields
    ensures StandaloneNode.DeleteAck(jobId) != PackagedNode.DeleteAck(jobId)
  {
    assert "jobId" in PackagedNode.DeleteAck(jobId).fields;
  }
}
