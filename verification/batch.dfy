/** The per-item try/catch loop both node variants run: items are processed in
    order, each one's records are appended to the output, and a caught error
    either becomes an `{error}` record for that item (continue-on-fail) or ends
    the batch, discarding the output collected so far. */
module Batch {
  import opened Data
  import opened Dispatch
  import opened Records

  /** What processing one item did: the requests it issued, and either the
      records it emitted or the error it threw. */
  datatype ItemOutcome =
    | Emitted(calls: seq<Request>, records: seq<Record>)
    | Threw(calls: seq<Request>, failure: Failure)

  /** A batch that stopped at item `index` because of `failure`. */
  datatype Abort = Abort(index: nat, failure: Failure)

  datatype Run = Run(calls: seq<Request>, result: Result<seq<Record>, Abort>)

  /** A run preceded by some requests and, unless it aborts, some records. */
  function Prepend(calls: seq<Request>, records: seq<Record>, rest: Run): Run
  {
    Run(calls + rest.calls, if rest.result.Ok? then Ok(records + rest.result.value) else rest.result)
  }

  lemma PrependNothing(rest: Run)
    ensures Prepend([], [], rest) == rest
  {
    assert [] + rest.calls == rest.calls;
    if rest.result.Ok? {
      assert [] + rest.result.value == rest.result.value;
    }
  }

  lemma PrependTwice(c1: seq<Request>, r1: seq<Record>, c2: seq<Request>, r2: seq<Record>, rest: Run)
    ensures Prepend(c1, r1, Prepend(c2, r2, rest)) == Prepend(c1 + c2, r1 + r2, rest)
  {
    assert c1 + (c2 + rest.calls) == (c1 + c2) + rest.calls;
    if rest.result.Ok? {
      assert r1 + (r2 + rest.result.value) == (r1 + r2) + rest.result.value;
    }
  }

  /** The loop from item `i` on. */
  function FoldFrom(outs: seq<ItemOutcome>, continueOnFail: bool, i: nat): Run
    requires i <= |outs|
    decreases |outs| - i
  {
    if i == |outs| then Run([], Ok([]))
    else match outs[i]
      case Emitted(c, rs) => Prepend(c, rs, FoldFrom(outs, continueOnFail, i + 1))
      case Threw(c, f) =>
        if continueOnFail then Prepend(c, [ErrorRecord(f.message, i)], FoldFrom(outs, continueOnFail, i + 1))
        else Run(c, Err(Abort(i, f)))
  }

  /** The whole loop. */
  function Fold(outs: seq<ItemOutcome>, continueOnFail: bool): Run
  {
    FoldFrom(outs, continueOnFail, 0)
  }

  /** The loop as the node writes it: one accumulator of records, one pass,
      an early exit on an uncaught error. It computes the fold. */
  method Process(outs: seq<ItemOutcome>, continueOnFail: bool) returns (run: Run)
    ensures run == Fold(outs, continueOnFail)
  {
    var returnData: seq<Record> := [];
    var calls: seq<Request> := [];
    var i := 0;
    PrependNothing(FoldFrom(outs, continueOnFail, 0));
    while i < |outs|
      invariant 0 <= i <= |outs|
      invariant Fold(outs, continueOnFail) == Prepend(calls, returnData, FoldFrom(outs, continueOnFail, i))
      decreases |outs| - i
    {
      var o := outs[i];
      if o.Emitted? {
        PrependTwice(calls, returnData, o.calls, o.records, FoldFrom(outs, continueOnFail, i + 1));
        calls := calls + o.calls;
        returnData := returnData + o.records;
      } else if continueOnFail {
        var e := [ErrorRecord(o.failure.message, i)];
        PrependTwice(calls, returnData, o.calls, e, FoldFrom(outs, continueOnFail, i + 1));
        calls := calls + o.calls;
        returnData := returnData + e;
      } else {
        calls := calls + o.calls;
        return Run(calls, Err(Abort(i, o.failure)));
      }
      i := i + 1;
    }
    assert calls + [] == calls && returnData + [] == returnData;
    run := Run(calls, Ok(returnData));
  }

  // ---------------------------------------------------------------------
  // Reference definitions: what each item contributes, flattened in order.

  function Concat<T>(ss: seq<seq<T>>): seq<T>
    decreases |ss|
  {
    if |ss| == 0 then [] else ss[0] + Concat(ss[1..])
  }

  /** The records item `i` adds to the output when its errors are caught. */
  function Contribution(o: ItemOutcome, i: nat): seq<Record>
  {
    match o
    case Emitted(_, rs) => rs
    case Threw(_, f) => [ErrorRecord(f.message, i)]
  }

  function Contributions(outs: seq<ItemOutcome>): (cs: seq<seq<Record>>)
    ensures |cs| == |outs|
  {
    seq(|outs|, k requires 0 <= k < |outs| => Contribution(outs[k], k))
  }

  function CallLists(outs: seq<ItemOutcome>): (cs: seq<seq<Request>>)
    ensures |cs| == |outs|
  {
    seq(|outs|, k requires 0 <= k < |outs| => outs[k].calls)
  }

  /** Item `i` is the first one that throws. */
  predicate FirstThrow(outs: seq<ItemOutcome>, i: nat)
  {
    && i < |outs|
    && outs[i].Threw?
    && forall k :: 0 <= k < i ==> outs[k].Emitted?
  }

  lemma ConcatStep<T>(ss: seq<seq<T>>, i: nat)
    requires i < |ss|
    ensures Concat(ss[i..]) == ss[i] + Concat(ss[i + 1..])
  {
    assert ss[i..][1..] == ss[i + 1..];
  }

  /** When no error escapes (errors are caught, or none is thrown from item
      `i` on), every item from `i` on issues its requests and adds its
      contribution, in item order. */
  lemma {:induction false} FoldFromCompletes(outs: seq<ItemOutcome>, continueOnFail: bool, i: nat)
    requires i <= |outs|
    requires !continueOnFail ==> forall k :: i <= k < |outs| ==> outs[k].Emitted?
    ensures FoldFrom(outs, continueOnFail, i)
         == Run(Concat(CallLists(outs)[i..]), Ok(Concat(Contributions(outs)[i..])))
    decreases |outs| - i
  {
    if i < |outs| {
      FoldFromCompletes(outs, continueOnFail, i + 1);
      ConcatStep(CallLists(outs), i);
      ConcatStep(Contributions(outs), i);
    }
  }

  /** Completion: with continue-on-fail, or when no item throws, the batch
      ends normally; it issued every item's requests in order, and its output
      is every item's records in order, with an `{error}` record paired to
      each item that threw. */
  lemma FoldCompletes(outs: seq<ItemOutcome>, continueOnFail: bool)
    requires !continueOnFail ==> forall k :: 0 <= k < |outs| ==> outs[k].Emitted?
    ensures Fold(outs, continueOnFail)
         == Run(Concat(CallLists(outs)), Ok(Concat(Contributions(outs))))
  {
    FoldFromCompletes(outs, continueOnFail, 0);
    assert CallLists(outs)[0..] == CallLists(outs);
    assert Contributions(outs)[0..] == Contributions(outs);
  }

  lemma {:induction false} FoldFromAborts(outs: seq<ItemOutcome>, i: nat, j: nat)
    requires FirstThrow(outs, i) && j <= i
    ensures FoldFrom(outs, false, j) == Run(Concat(CallLists(outs)[j..i + 1]), Err(Abort(i, outs[i].failure)))
    decreases i - j
  {
    var cl := CallLists(outs);
    if j == i {
      assert cl[i..i + 1] == [outs[i].calls];
      assert Concat([outs[i].calls]) == outs[i].calls + Concat([outs[i].calls][1..]);
    } else {
      FoldFromAborts(outs, i, j + 1);
      ConcatStep(cl[..i + 1], j);
      assert cl[..i + 1][j..] == cl[j..i + 1];
      assert cl[..i + 1][j + 1..] == cl[j + 1..i + 1];
    }
  }

  /** Abort: without continue-on-fail, the first item that throws ends the
      batch with its index and error; the requests issued are exactly those
      of the items up to and including it, and no later item is processed. */
  lemma FoldAbortsAtFirstThrow(outs: seq<ItemOutcome>, i: nat)
    requires FirstThrow(outs, i)
    ensures Fold(outs, false) == Run(Concat(CallLists(outs)[..i + 1]), Err(Abort(i, outs[i].failure)))
  {
    FoldFromAborts(outs, i, 0);
    assert CallLists(outs)[0..i + 1] == CallLists(outs)[..i + 1];
  }

  /** Some item throws, and the first one is found. */
  lemma {:induction false} FirstThrowExists(outs: seq<ItemOutcome>, j: nat)
    requires j < |outs| && outs[j].Threw?
    ensures exists i :: FirstThrow(outs, i)
    decreases j
  {
    if forall k :: 0 <= k < j ==> outs[k].Emitted? {
      assert FirstThrow(outs, j);
    } else {
      var k :| 0 <= k < j && !outs[k].Emitted?;
      FirstThrowExists(outs, k);
    }
  }

  /** The batch aborts exactly when errors are not caught and some item
      throws; it then names the first such item and its error. */
  lemma FoldAbortsIff(outs: seq<ItemOutcome>, continueOnFail: bool)
    ensures Fold(outs, continueOnFail).result.Err?
        <==> !continueOnFail && exists j :: 0 <= j < |outs| && outs[j].Threw?
    ensures Fold(outs, continueOnFail).result.Err? ==>
        var a := Fold(outs, continueOnFail).result.error;
        FirstThrow(outs, a.index) && a.failure == outs[a.index].failure
  {
    if !continueOnFail && exists j :: 0 <= j < |outs| && outs[j].Threw? {
      var j :| 0 <= j < |outs| && outs[j].Threw?;
      FirstThrowExists(outs, j);
      var i :| FirstThrow(outs, i);
      FoldAbortsAtFirstThrow(outs, i);
    } else {
      FoldCompletes(outs, continueOnFail);
    }
  }

  /** Outcomes that agree up to the first throw give the same aborted run:
      nothing after the failing item influences the batch. */
  lemma LaterItemsIgnored(outs: seq<ItemOutcome>, outs': seq<ItemOutcome>, i: nat)
    requires FirstThrow(outs, i)
    requires i < |outs'| && outs[..i + 1] == outs'[..i + 1]
    ensures Fold(outs', false) == Fold(outs, false)
  {
    assert forall k :: 0 <= k <= i ==> outs'[k] == outs[..i + 1][k];
    assert FirstThrow(outs', i);
    FoldAbortsAtFirstThrow(outs, i);
    FoldAbortsAtFirstThrow(outs', i);
    assert CallLists(outs)[..i + 1] == CallLists(outs')[..i + 1];
  }

  // ---------------------------------------------------------------------
  // Provenance.

  /** Every record names an input item in `[lo, hi)`, and the named items
      never go backwards. */
  predicate Traced(rs: seq<Record>, lo: nat, hi: nat)
  {
    && (forall a :: 0 <= a < |rs| ==> rs[a].pairedItem.Some? && lo <= rs[a].pairedItem.value < hi)
    && (forall a, b :: 0 <= a <= b < |rs| ==> rs[a].pairedItem.value <= rs[b].pairedItem.value)
  }

  /** Every record an item emits is paired with that item. */
  predicate PairsOwnRecords(outs: seq<ItemOutcome>)
  {
    forall k, a :: 0 <= k < |outs| && outs[k].Emitted? && 0 <= a < |outs[k].records| ==>
      outs[k].records[a].pairedItem == Some(k)
  }

  /** Records of item `i` followed by a traced run of later items' records
      stay traced. */
  lemma TracedPrepend(head: seq<Record>, tail: seq<Record>, i: nat, hi: nat)
    requires i < hi && Traced(tail, i + 1, hi)
    requires forall a :: 0 <= a < |head| ==> head[a].pairedItem == Some(i)
    ensures Traced(head + tail, i, hi)
  {
    var rs := head + tail;
    forall a | 0 <= a < |rs|
      ensures rs[a].pairedItem.Some? && i <= rs[a].pairedItem.value < hi
    {
      if a >= |head| { assert rs[a] == tail[a - |head|]; }
    }
    forall a, b | 0 <= a <= b < |rs|
      ensures rs[a].pairedItem.value <= rs[b].pairedItem.value
    {
      if b < |head| {
        assert rs[a] == head[a] && rs[b] == head[b];
      } else if a < |head| {
        assert rs[a] == head[a] && rs[b] == tail[b - |head|];
      } else {
        assert rs[a] == tail[a - |head|] && rs[b] == tail[b - |head|];
      }
    }
  }

  lemma {:induction false} JoinedTraced(outs: seq<ItemOutcome>, i: nat)
    requires PairsOwnRecords(outs) && i <= |outs|
    ensures Traced(Concat(Contributions(outs)[i..]), i, |outs|)
    decreases |outs| - i
  {
    if i < |outs| {
      JoinedTraced(outs, i + 1);
      ConcatStep(Contributions(outs), i);
      var head := Contribution(outs[i], i);
      assert forall a :: 0 <= a < |head| ==> head[a].pairedItem == Some(i);
      TracedPrepend(head, Concat(Contributions(outs)[i + 1..]), i, |outs|);
    }
  }

  /** When every item pairs its own records, so does the whole output: each
      record points back to an input item, in input order, including the
      `{error}` records of caught failures. */
  lemma OutputTraced(outs: seq<ItemOutcome>, continueOnFail: bool)
    requires PairsOwnRecords(outs)
    ensures Fold(outs, continueOnFail).result.Ok? ==>
      Traced(Fold(outs, continueOnFail).result.value, 0, |outs|)
  {
    FoldAbortsIff(outs, continueOnFail);
    if Fold(outs, continueOnFail).result.Ok? {
      FoldCompletes(outs, continueOnFail);
      JoinedTraced(outs, 0);
      assert Contributions(outs)[0..] == Contributions(outs);
    }
  }
}
