/** The bookkeeping around log-message clustering (`step5_normalize_messages.py`): the masking
    of JSON found in messages, the bounded list of recent document references per cluster, and
    the assembly of the per-cluster results.

    The drain3 miner is not part of this model: the cluster a message falls into and the final
    clusters are inputs. The three regular expressions of `normalize_json` are the predicates of
    `Matchers`. */
module Normalization {
  import opened Wrappers
  import opened PyStrings
  import opened JsonValue
  import opened Sorting

  // ---------------------------------------------------------------------------------------
  // normalize_json

  /** Whole-string matches of the UUID, ISO timestamp and e-mail patterns. */
  datatype Matchers = Matchers(isUuid: string -> bool, isTimestamp: string -> bool, isEmail: string -> bool)

  /** The masks never match one another: none of them is a UUID, a timestamp or an address. */
  predicate MasksUnmatched(m: Matchers) {
    forall t :: t in {"<UUID>", "<TIMESTAMP>", "<EMAIL>", "<NUM>"} ==>
      !m.isUuid(t) && !m.isTimestamp(t) && !m.isEmail(t)
  }

  /** The mask of a string leaf, the patterns tried in order. */
  function MaskString(s: string, m: Matchers): (r: string)
    ensures r == s || r in {"<UUID>", "<TIMESTAMP>", "<EMAIL>"}
  {
    if m.isUuid(s) then "<UUID>"
    else if m.isTimestamp(s) then "<TIMESTAMP>"
    else if m.isEmail(s) then "<EMAIL>"
    else s
  }

  /** `normalize_json`: the same keys in the same order and the same list lengths, with masked
      leaves. Python's bool is an int, so booleans are masked as numbers; `None` is kept. */
  function Normalize(j: Json, m: Matchers): (r: Json)
    ensures j.JObject? ==> r.JObject? && Keys(r.fields) == Keys(j.fields)
    ensures j.JArray? ==> r.JArray? && |r.items| == |j.items|
    ensures j.JInt? || j.JBool? ==> r == JString("<NUM>")
    ensures j.JNull? ==> r == JNull
    ensures j.JString? ==> r == JString(MaskString(j.s, m))
    decreases j
  {
    match j
    case JObject(fields) =>
      var out := seq(|fields|, k requires 0 <= k < |fields| => Member(fields[k].key, Normalize(fields[k].value, m)));
      assert forall k :: 0 <= k < |fields| ==> Keys(out)[k] == Keys(fields)[k];
      JObject(out)
    case JArray(items) => JArray(seq(|items|, k requires 0 <= k < |items| => Normalize(items[k], m)))
    case JString(s) => JString(MaskString(s, m))
    case JInt(_) => JString("<NUM>")
    case JBool(_) => JString("<NUM>")
    case JNull => JNull
  }

  /** No number or boolean anywhere. */
  predicate NoNumbers(j: Json)
    decreases j
  {
    match j
    case JObject(fields) => forall k :: 0 <= k < |fields| ==> NoNumbers(fields[k].value)
    case JArray(items) => forall k :: 0 <= k < |items| ==> NoNumbers(items[k])
    case JInt(_) => false
    case JBool(_) => false
    case _ => true
  }

  /** Every number and boolean is masked, at every depth. */
  lemma {:induction false} NormalizeMasksNumbers(j: Json, m: Matchers)
    ensures NoNumbers(Normalize(j, m))
    decreases j
  {
    match j
    case JObject(fields) =>
      forall k | 0 <= k < |fields| ensures NoNumbers(Normalize(j, m).fields[k].value) {
        NormalizeMasksNumbers(fields[k].value, m);
      }
    case JArray(items) =>
      forall k | 0 <= k < |items| ensures NoNumbers(Normalize(j, m).items[k]) {
        NormalizeMasksNumbers(items[k], m);
      }
    case _ =>
  }

  /** Masking a masked value changes nothing, as long as no mask looks like what it masks. */
  lemma {:induction false} NormalizeIdempotent(j: Json, m: Matchers)
    requires MasksUnmatched(m)
    ensures Normalize(Normalize(j, m), m) == Normalize(j, m)
    decreases j
  {
    match j
    case JObject(fields) =>
      var once := Normalize(j, m).fields;
      var twice := Normalize(Normalize(j, m), m).fields;
      forall k | 0 <= k < |fields| ensures twice[k] == once[k] {
        NormalizeIdempotent(fields[k].value, m);
      }
      assert twice == once;
    case JArray(items) =>
      var once := Normalize(j, m).items;
      var twice := Normalize(Normalize(j, m), m).items;
      forall k | 0 <= k < |items| ensures twice[k] == once[k] {
        NormalizeIdempotent(items[k], m);
      }
      assert twice == once;
    case JString(s) =>
      var t := MaskString(s, m);
      assert t == s || t in {"<UUID>", "<TIMESTAMP>", "<EMAIL>", "<NUM>"};
    case JInt(_) =>
      assert "<NUM>" in {"<UUID>", "<TIMESTAMP>", "<EMAIL>", "<NUM>"};
    case JBool(_) =>
      assert "<NUM>" in {"<UUID>", "<TIMESTAMP>", "<EMAIL>", "<NUM>"};
    case JNull =>
  }

  // ---------------------------------------------------------------------------------------
  // The reference buffer of _process_document

  /** How many references a cluster keeps. */
  const Kept := 5

  /** Appending a reference to a cluster's list and dropping its oldest entry when it grows past
      five. */
  function Keep(buffer: seq<string>, ref: string): (r: seq<string>)
    ensures |buffer| <= Kept ==> |r| <= Kept
    ensures r != [] && r[|r| - 1] == ref
  {
    var grown := buffer + [ref];
    if |grown| > Kept then grown[1..] else grown
  }

  /** The list left after the references `refs` arrived in order at an empty list. */
  function KeepAll(refs: seq<string>): (r: seq<string>)
    ensures |r| <= Kept
  {
    if refs == [] then [] else Keep(KeepAll(refs[..|refs| - 1]), refs[|refs| - 1])
  }

  /** The list always holds the most recent references, at most five, oldest first. */
  lemma {:induction false} KeepAllIsMostRecent(refs: seq<string>)
    ensures KeepAll(refs) == refs[|refs| - (if |refs| < Kept then |refs| else Kept)..]
  {
    if refs != [] {
      var init := refs[..|refs| - 1];
      KeepAllIsMostRecent(init);
      var n := if |init| < Kept then |init| else Kept;
      assert init[|init| - n..] + [refs[|refs| - 1]] == refs[|refs| - n - 1..];
    }
  }

  /** `"{index}:{id}"` with `"unknown"` for a missing part. */
  function Reference(fields: seq<Member>): string {
    PyStr(Get(fields, "index", JString("unknown"))) + ":" + PyStr(Get(fields, "id", JString("unknown")))
  }

  /** `pattern_doc_references`: the recent references of every cluster seen so far. */
  class ReferenceBuffer {
    var refs: map<int, seq<string>>

    ghost predicate Valid()
      reads this
    {
      forall id :: id in refs ==> |refs[id]| <= Kept
    }

    constructor ()
      ensures refs == map[] && Valid()
    {
      refs := map[];
    }

    /** The references of one cluster, empty for a cluster not seen yet. */
    function Of(id: int): seq<string>
      reads this
    {
      if id in refs then refs[id] else []
    }

    /** `_process_document`: a document without a message is refused and changes nothing;
        otherwise its reference goes to the end of the list of the cluster its message falls
        into. `clusterOf` stands for preprocessing the message and adding it to the miner;
        preprocessing works on a str only, so any other message raises TypeError. */
    method ProcessDocument(doc: Json, clusterOf: string -> int) returns (r: Result<bool>)
      requires Valid()
      modifies this
      ensures Valid()
      ensures r != Ok(true) ==> refs == old(refs)
      ensures !doc.JObject? ==> r == Err(AttributeError)
      ensures doc.JObject? && !Truthy(Get(doc.fields, "message", JString(""))) ==> r == Ok(false)
      ensures doc.JObject? ==>
        var message := Get(doc.fields, "message", JString(""));
        (Truthy(message) && message.JString? ==> r == Ok(true))
        && (Truthy(message) && !message.JString? ==> r == Err(TypeError))
      ensures r == Ok(true) ==>
        var message := Get(doc.fields, "message", JString(""));
        message.JString? &&
        refs == old(refs)[clusterOf(message.s) := Keep(old(Of(clusterOf(message.s))), Reference(doc.fields))]
    {
      if !doc.JObject? {
        return Err(AttributeError);
      }
      var message := Get(doc.fields, "message", JString(""));
      if !Truthy(message) {
        return Ok(false);
      }
      if !message.JString? {
        return Err(TypeError);
      }
      var id := clusterOf(message.s);
      if id !in refs {
        refs := refs[id := []];
      }
      var list := refs[id] + [Reference(doc.fields)];
      if |list| > Kept {
        list := list[1..];
      }
      refs := refs[id := list];
      r := Ok(true);
    }
  }

  // ---------------------------------------------------------------------------------------
  // _prepare_results

  /** What the miner reports about one cluster. */
  datatype Cluster = Cluster(id: int, size: int, template: string, sampleLogs: seq<string>)

  datatype PatternResult = PatternResult(
    clusterId: int, count: int, pattern: string, firstSeen: string, lastSeen: string,
    sampleLogLines: seq<string>, sampleDocReferences: seq<string>)

  /** The result entry of one cluster; `postProcess` is the template clean-up. */
  function ResultOf(c: Cluster, refs: map<int, seq<string>>, postProcess: string -> string): (r: PatternResult)
    ensures r.clusterId == c.id && r.count == c.size
    ensures r.sampleDocReferences == (if c.id in refs then refs[c.id] else [])
    ensures r.sampleDocReferences == [] ==> r.firstSeen == "" && r.lastSeen == ""
    ensures r.sampleDocReferences != [] ==>
      r.firstSeen == r.sampleDocReferences[0] && r.lastSeen == r.sampleDocReferences[|r.sampleDocReferences| - 1]
  {
    var kept := if c.id in refs then refs[c.id] else [];
    PatternResult(c.id, c.size, postProcess(c.template),
                  if kept != [] then kept[0] else "",
                  if kept != [] then kept[|kept| - 1] else "",
                  c.sampleLogs, kept)
  }

  function ResultKey(r: PatternResult): Rank {
    CountRank(r.count)
  }

  /** The results of all clusters, largest count first; clusters of equal size keep the miner's
      order. */
  function Results(clusters: seq<Cluster>, refs: map<int, seq<string>>, postProcess: string -> string): seq<PatternResult> {
    SortDesc(seq(|clusters|, k requires 0 <= k < |clusters| => ResultOf(clusters[k], refs, postProcess)), ResultKey)
  }

  /** One result per cluster, ordered by count. */
  lemma {:induction false} ResultsSpec(clusters: seq<Cluster>, refs: map<int, seq<string>>, postProcess: string -> string)
    ensures var rs := Results(clusters, refs, postProcess);
      && |rs| == |clusters|
      && (forall i, j :: 0 <= i < j < |rs| ==> rs[j].count <= rs[i].count)
      && multiset(rs) == multiset(seq(|clusters|, k requires 0 <= k < |clusters| => ResultOf(clusters[k], refs, postProcess)))
  {
    var unsorted := seq(|clusters|, k requires 0 <= k < |clusters| => ResultOf(clusters[k], refs, postProcess));
    SortDescSpec(unsorted, ResultKey);
    var rs := Results(clusters, refs, postProcess);
    forall i, j | 0 <= i < j < |rs| ensures rs[j].count <= rs[i].count {
      assert RankLe(ResultKey(rs[j]), ResultKey(rs[i]));
    }
  }

  /** `_prepare_results`: one entry appended per cluster, then the list sorted in place. */
  method PrepareResults(clusters: seq<Cluster>, refs: map<int, seq<string>>, postProcess: string -> string)
    returns (results: seq<PatternResult>)
    ensures results == Results(clusters, refs, postProcess)
  {
    results := [];
    var i := 0;
    while i < |clusters|
      invariant 0 <= i <= |clusters|
      invariant |results| == i
      invariant forall k :: 0 <= k < i ==> results[k] == ResultOf(clusters[k], refs, postProcess)
    {
      results := results + [ResultOf(clusters[i], refs, postProcess)];
      i := i + 1;
    }
    assert results == seq(|clusters|, k requires 0 <= k < |clusters| => ResultOf(clusters[k], refs, postProcess));
    results := SortDesc(results, ResultKey);
  }
}
