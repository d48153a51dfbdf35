/** Combining payloads and results: `collect` and the two merges. */
module Helpers {
  import opened Wrappers
  import opened Graphs
  import opened DagModels

  /** One level of lists opened up. */
  function Flatten(values: seq<Value>): seq<Value> {
    if values == [] then []
    else
      var last := values[|values| - 1];
      Flatten(values[..|values| - 1]) + if last.List? then last.items else [last]
  }

  /** `collect`. */
  method Collect(values: seq<Value>) returns (collected: seq<Value>)
    ensures collected == Flatten(values)
  {
    collected := [];
    for i := 0 to |values|
      invariant collected == Flatten(values[..i])
    {
      assert values[..i + 1][..i] == values[..i];
      if values[i].List? {
        collected := collected + values[i].items;
      } else {
        collected := collected + [values[i]];
      }
    }
    assert values[..|values|] == values;
  }

  lemma {:induction false} FlattenAppends(a: seq<Value>, b: seq<Value>)
    ensures Flatten(a + b) == Flatten(a) + Flatten(b)
    decreases |b|
  {
    if b == [] {
      assert a + b == a;
    } else {
      var front := b[..|b| - 1];
      assert (a + b)[..|a + b| - 1] == a + front;
      FlattenAppends(a, front);
    }
  }

  function Join(separator: string, texts: seq<string>): string {
    if texts == [] then ""
    else if |texts| == 1 then texts[0]
    else texts[0] + separator + Join(separator, texts[1..])
  }

  /** `output.error or "node failed"` */
  function ErrorText(output: NodeOutput): (text: string)
    ensures text != ""
  {
    if output.error.Some? && output.error.value != "" then output.error.value else "node failed"
  }

  const DIGITS: string := "0123456789"

  function NatText(n: nat): (text: string)
    ensures text != ""
  {
    if n < 10 then [DIGITS[n]] else NatText(n / 10) + [DIGITS[n % 10]]
  }

  lemma {:induction false} NatTextInjective(m: nat, n: nat)
    requires NatText(m) == NatText(n)
    ensures m == n
  {
    var s, t := NatText(m), NatText(n);
    assert s[|s| - 1] == DIGITS[m % 10] && t[|t| - 1] == DIGITS[n % 10];
    assert m % 10 == n % 10;
    if m >= 10 && n >= 10 {
      assert NatText(m / 10) == s[..|s| - 1] == t[..|t| - 1] == NatText(n / 10);
      NatTextInjective(m / 10, n / 10);
    } else {
      assert m >= 10 ==> |s| > 1;
      assert n >= 10 ==> |t| > 1;
    }
  }

  function OkPayloads(results: seq<NodeOutput>): seq<Value> {
    if results == [] then []
    else
      var last := results[|results| - 1];
      OkPayloads(results[..|results| - 1]) + if last.ok then [last.payload] else []
  }

  function FailureTexts(results: seq<NodeOutput>): seq<string> {
    if results == [] then []
    else
      var last := results[|results| - 1];
      FailureTexts(results[..|results| - 1]) + if last.ok then [] else [ErrorText(last)]
  }

  /** The failed results by `<node>:<kind>:<index>`. */
  function FailureMap(prefix: string, results: seq<NodeOutput>): map<string, Value> {
    if results == [] then map[]
    else
      var i := |results| - 1;
      var rest := FailureMap(prefix, results[..i]);
      if results[i].ok then rest else rest[prefix + NatText(i) := Text(ErrorText(results[i]))]
  }

  datatype MergeKind = FanOutMerge | StreamMerge

  function KindName(kind: MergeKind): string {
    if kind == FanOutMerge then "fanout" else "stream"
  }

  function FailuresField(kind: MergeKind): string {
    if kind == FanOutMerge then "fan_out_failures" else "stream_failures"
  }

  function NothingProduced(kind: MergeKind): string {
    if kind == FanOutMerge then "fan_out produced no output" else "stream produced no output"
  }

  /** `_merge_fan_out_results` and `_merge_stream_results`. */
  function Merge(kind: MergeKind, node: NodeId, results: seq<NodeOutput>): NodeOutput {
    var payload := OkPayloads(results);
    var failures := FailureMap(node + ":" + KindName(kind) + ":", results);
    var text := Join("; ", FailureTexts(results));
    NodeOutput(node, payload != [], List(payload), map[FailuresField(kind) := Dict(failures)],
               if payload != [] then None else Some(if text != "" then text else NothingProduced(kind)))
  }

  ghost predicate FailedAt(prefix: string, results: seq<NodeOutput>, i: int, key: string) {
    0 <= i < |results| && !results[i].ok && key == prefix + NatText(i)
  }

  lemma {:induction false} FailureMapKeys(prefix: string, results: seq<NodeOutput>, key: string)
    ensures key in FailureMap(prefix, results) <==> exists i :: FailedAt(prefix, results, i, key)
  {
    if results != [] {
      var last := |results| - 1;
      var front := results[..last];
      FailureMapKeys(prefix, front, key);
      if i :| FailedAt(prefix, front, i, key) {
        assert FailedAt(prefix, results, i, key);
      }
      if i :| FailedAt(prefix, results, i, key) {
        assert i == last || FailedAt(prefix, front, i, key);
      }
      if !results[last].ok && key == prefix + NatText(last) {
        assert FailedAt(prefix, results, last, key);
      }
    }
  }

  lemma LastKeyIsNew(prefix: string, results: seq<NodeOutput>)
    ensures prefix + NatText(|results|) !in FailureMap(prefix, results)
  {
    var key := prefix + NatText(|results|);
    FailureMapKeys(prefix, results, key);
    if i :| FailedAt(prefix, results, i, key) {
      assert NatText(|results|) == key[|prefix|..] == NatText(i);
      NatTextInjective(|results|, i);
    }
  }

  lemma {:induction false} MergeCounts(prefix: string, results: seq<NodeOutput>)
    ensures |OkPayloads(results)| + |FailureMap(prefix, results)| == |results|
  {
    if results != [] {
      MergeCounts(prefix, results[..|results| - 1]);
      LastKeyIsNew(prefix, results[..|results| - 1]);
    }
  }

  lemma {:induction false} FailureMapText(prefix: string, results: seq<NodeOutput>, i: nat)
    requires i < |results| && !results[i].ok
    ensures prefix + NatText(i) in FailureMap(prefix, results)
    ensures FailureMap(prefix, results)[prefix + NatText(i)] == Text(ErrorText(results[i]))
  {
    var last := |results| - 1;
    if i < last {
      FailureMapText(prefix, results[..last], i);
      LastKeyIsNew(prefix, results[..last]);
    }
  }

  /** How many of the first results are successes. */
  function Successes(results: seq<NodeOutput>, n: nat): nat
    requires n <= |results|
  {
    if n == 0 then 0 else Successes(results, n - 1) + if results[n - 1].ok then 1 else 0
  }

  lemma {:induction false} SuccessesOfFront(results: seq<NodeOutput>, m: nat, n: nat)
    requires n <= m <= |results|
    ensures Successes(results[..m], n) == Successes(results, n)
  {
    if n > 0 {
      SuccessesOfFront(results, m, n - 1);
    }
  }

  lemma {:induction false} OkPayloadsInOrder(results: seq<NodeOutput>)
    ensures |OkPayloads(results)| == Successes(results, |results|)
    ensures forall i {:trigger results[i]} :: 0 <= i < |results| && results[i].ok ==>
              Successes(results, i) < |OkPayloads(results)|
                  && OkPayloads(results)[Successes(results, i)] == results[i].payload
  {
    if results != [] {
      var last := |results| - 1;
      var front := results[..last];
      OkPayloadsInOrder(front);
      SuccessesOfFront(results, last, last);
      forall i | 0 <= i < last && results[i].ok
        ensures Successes(results, i) < |OkPayloads(front)|
            && OkPayloads(front)[Successes(results, i)] == results[i].payload
      {
        SuccessesOfFront(results, last, i);
        assert front[i] == results[i];
      }
    }
  }

  /**
   A merge accounts for every result: the payloads of the successes in their order and nothing else, each failure
   with its text under a key of its own. It succeeds if any result did.
   */
  lemma MergeAccountsForAll(kind: MergeKind, node: NodeId, results: seq<NodeOutput>)
    ensures var out := Merge(kind, node, results);
      && out.payload.List? && FailuresField(kind) in out.metadata && out.metadata[FailuresField(kind)].Dict?
      && |out.payload.items| == Successes(results, |results|)
      && |out.payload.items| + |out.metadata[FailuresField(kind)].fields| == |results|
      && (out.ok <==> exists i :: 0 <= i < |results| && results[i].ok)
    ensures var out := Merge(kind, node, results);
      forall i {:trigger results[i]} :: 0 <= i < |results| ==>
        if results[i].ok then
          Successes(results, i) < |out.payload.items| && out.payload.items[Successes(results, i)] == results[i].payload
        else
          var fields, key := out.metadata[FailuresField(kind)].fields, node + ":" + KindName(kind) + ":" + NatText(i);
          key in fields && fields[key] == Text(ErrorText(results[i]))
  {
    var prefix := node + ":" + KindName(kind) + ":";
    MergeCounts(prefix, results);
    OkPayloadsInOrder(results);
    SomeSuccess(results, |results|);
    forall i | 0 <= i < |results| && !results[i].ok
      ensures prefix + NatText(i) in FailureMap(prefix, results)
      ensures FailureMap(prefix, results)[prefix + NatText(i)] == Text(ErrorText(results[i]))
    {
      FailureMapText(prefix, results, i);
    }
  }

  lemma {:induction false} SomeSuccess(results: seq<NodeOutput>, n: nat)
    requires n <= |results|
    ensures Successes(results, n) > 0 <==> exists i :: 0 <= i < n && results[i].ok
  {
    if n > 0 {
      SomeSuccess(results, n - 1);
    }
  }
}
