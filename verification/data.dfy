/** Values shared by both node variants: optional and fallible results, the
    JSON values the node exchanges with its host and with the scraper service,
    and JavaScript truthiness over those values. */
module Data {

  datatype Option<+T> = None | Some(value: T)

  datatype Result<+T, +E> = Ok(value: T) | Err(error: E)

  /** One octet of a binary response body. */
  newtype Byte = b: int | 0 <= b < 256

  /** A JSON value. Numbers are integers and object keys are unordered. */
  datatype Json =
    | JNull
    | JBool(b: bool)
    | JNum(n: int)
    | JStr(s: string)
    | JArr(items: seq<Json>)
    | JObj(fields: map<string, Json>)

  /** JavaScript's `Boolean(v)` on a JSON value: null, false, 0 and the empty
      string are falsy; every array and object is truthy. */
  predicate Truthy(v: Json)
  {
    match v
    case JNull => false
    case JBool(b) => b
    case JNum(n) => n != 0
    case JStr(s) => s != ""
    case JArr(_) => true
    case JObj(_) => true
  }

  /** A list of strings as JSON strings, element by element. */
  function Strings(ss: seq<string>): (r: seq<Json>)
    ensures |r| == |ss|
    ensures forall k :: 0 <= k < |ss| ==> r[k] == JStr(ss[k])
  {
    seq(|ss|, k requires 0 <= k < |ss| => JStr(ss[k]))
  }

  /** Writing a list that starts with `s` writes `s` first. */
  lemma StringsCons(s: string, ss: seq<string>)
    ensures Strings([s] + ss) == [JStr(s)] + Strings(ss)
  {
    var l, r := Strings([s] + ss), [JStr(s)] + Strings(ss);
    assert |l| == |r|;
    forall k | 0 <= k < |l| ensures l[k] == r[k] {
      if k > 0 { assert ([s] + ss)[k] == ss[k - 1]; }
    }
  }

  /** Reads a JSON array back as strings; None when some element is not a string. */
  function AsStrings(js: seq<Json>): (r: Option<seq<string>>)
    ensures r.Some? <==> forall k :: 0 <= k < |js| ==> js[k].JStr?
    ensures r.Some? ==> Strings(r.value) == js
  {
    if |js| == 0 then Some([])
    else if !js[0].JStr? then None
    else match AsStrings(js[1..])
      case None =>
        assert exists k :: 0 <= k < |js| - 1 && !js[1..][k].JStr?;
        None
      case Some(rest) =>
        StringsCons(js[0].s, rest);
        assert [js[0]] + js[1..] == js;
        Some([js[0].s] + rest)
  }

  /** Reading back a written string list gives the list itself. */
  lemma {:induction false} AsStringsOfStrings(ss: seq<string>)
    ensures AsStrings(Strings(ss)) == Some(ss)
  {
    if |ss| > 0 {
      assert Strings(ss)[1..] == Strings(ss[1..]);
      AsStringsOfStrings(ss[1..]);
      assert [ss[0]] + ss[1..] == ss;
    }
  }
}
