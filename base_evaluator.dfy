/** `BaseTrajectoryEvaluator`: invocations compared index by index, each pair
    scoring 1.0 on an exact match of its tool calls and 0.0 otherwise. */
module BaseEvaluator {
  import opened Text
  import opened JsonValues
  import opened Similarity

  /** One tool call of an invocation: its name and arguments. */
  datatype InvocationCall = InvocationCall(name: string, args: map<string, Value>)

  datatype Invocation = Invocation(toolCalls: seq<InvocationCall>)

  datatype Verdict = Match | Mismatch | ExtraInvocation | MissingInvocation
  {
    function Name(): string
    {
      match this
      case Match => "MATCH"
      case Mismatch => "MISMATCH"
      case ExtraInvocation => "EXTRA INVOCATION"
      case MissingInvocation => "MISSING INVOCATION"
    }
  }

  /** One row of the comparison: 1-based position, score, verdict and the
      tool calls on each side (empty on the side that has no invocation). */
  datatype InvocationResult = InvocationResult(
    invocation: nat, score: real, verdict: Verdict,
    actualTools: seq<InvocationCall>, expectedTools: seq<InvocationCall>)
  {
    /** The `details` text, `Invocation <n>: <verdict>`. */
    function Details(): string
    {
      "Invocation " + NatToString(invocation) + ": " + verdict.Name()
    }
  }

  datatype EvaluationResult = EvaluationResult(overallScore: real, results: seq<InvocationResult>)

  /** `_compare_invocations`: equal lengths, then the first pair that differs in
      name or arguments ends the scan with 0.0. */
  method CompareInvocations(current: Invocation, baseline: Invocation) returns (score: real)
    ensures score == 0.0 || score == 1.0
    ensures score == 1.0 <==> current.toolCalls == baseline.toolCalls
  {
    if |current.toolCalls| != |baseline.toolCalls| {
      return 0.0;
    }
    var i := 0;
    while i < |current.toolCalls|
      invariant 0 <= i <= |current.toolCalls|
      invariant current.toolCalls[..i] == baseline.toolCalls[..i]
    {
      var c, b := current.toolCalls[i], baseline.toolCalls[i];
      if c.name != b.name || c.args != b.args {
        return 0.0;
      }
      assert current.toolCalls[..i + 1] == current.toolCalls[..i] + [c];
      assert baseline.toolCalls[..i + 1] == baseline.toolCalls[..i] + [b];
      i := i + 1;
    }
    assert current.toolCalls == current.toolCalls[..i];
    assert baseline.toolCalls == baseline.toolCalls[..i];
    return 1.0;
  }

  /** The row at position `k` of the comparison. */
  function ResultAt(current: seq<Invocation>, baseline: seq<Invocation>, k: nat): (r: InvocationResult)
    requires k < |current| || k < |baseline|
    ensures r.invocation == k + 1
    ensures r.score == 0.0 || r.score == 1.0
    ensures r.score == 1.0 <==> k < |current| && k < |baseline| && current[k] == baseline[k]
    ensures r.verdict == ExtraInvocation <==> |baseline| <= k
    ensures r.verdict == MissingInvocation <==> |current| <= k
  {
    if k < |current| && k < |baseline| then
      var score := if current[k].toolCalls == baseline[k].toolCalls then 1.0 else 0.0;
      InvocationResult(k + 1, score, if score == 1.0 then Match else Mismatch,
                       current[k].toolCalls, baseline[k].toolCalls)
    else if k < |current| then
      InvocationResult(k + 1, 0.0, ExtraInvocation, current[k].toolCalls, [])
    else
      InvocationResult(k + 1, 0.0, MissingInvocation, [], baseline[k].toolCalls)
  }

  /** `sum(r.score for r in results)`. */
  function TotalScore(results: seq<InvocationResult>): real
  {
    if results == [] then 0.0 else TotalScore(results[..|results| - 1]) + results[|results| - 1].score
  }

  /** A total of scores in [0, 1] lies in [0, n], and reaches n only when every score is 1. */
  lemma {:induction false} TotalScoreBounds(results: seq<InvocationResult>)
    requires forall k :: 0 <= k < |results| ==> 0.0 <= results[k].score <= 1.0
    ensures 0.0 <= TotalScore(results) <= |results| as real
    ensures TotalScore(results) == |results| as real <==> forall k :: 0 <= k < |results| ==> results[k].score == 1.0
    decreases |results|
  {
    if results != [] {
      var init := results[..|results| - 1];
      assert forall k :: 0 <= k < |init| ==> init[k] == results[k];
      TotalScoreBounds(init);
    }
  }

  /** The overall score: the mean of the row scores, 0.0 without rows. */
  function MeanScore(results: seq<InvocationResult>): (r: real)
    requires forall k :: 0 <= k < |results| ==> 0.0 <= results[k].score <= 1.0
    ensures 0.0 <= r <= 1.0
    ensures r == 1.0 <==> results != [] && forall k :: 0 <= k < |results| ==> results[k].score == 1.0
  {
    TotalScoreBounds(results);
    if results == [] then 0.0 else Ratio(TotalScore(results), |results| as real)
  }

  /** `evaluate_invocations`: one row per position up to the longer list, and
      their mean. */
  method EvaluateInvocations(current: seq<Invocation>, baseline: seq<Invocation>) returns (e: EvaluationResult)
    ensures |e.results| == Max(|current|, |baseline|)
    ensures forall k :: 0 <= k < |e.results| ==> e.results[k] == ResultAt(current, baseline, k)
    ensures forall k :: 0 <= k < |e.results| ==> e.results[k].score == 0.0 || e.results[k].score == 1.0
    ensures e.overallScore == MeanScore(e.results)
    ensures 0.0 <= e.overallScore <= 1.0
    ensures e.overallScore == 1.0 <==> current != [] && current == baseline
    ensures current == [] && baseline == [] ==> e.overallScore == 0.0
  {
    var maxLen := Max(|current|, |baseline|);
    var results: seq<InvocationResult> := [];
    for i := 0 to maxLen
      invariant |results| == i
      invariant forall k :: 0 <= k < i ==> results[k] == ResultAt(current, baseline, k)
    {
      var r: InvocationResult;
      if i < |current| && i < |baseline| {
        var score := CompareInvocations(current[i], baseline[i]);
        r := InvocationResult(i + 1, score, if score == 1.0 then Match else Mismatch,
                              current[i].toolCalls, baseline[i].toolCalls);
      } else if i < |current| {
        r := InvocationResult(i + 1, 0.0, ExtraInvocation, current[i].toolCalls, []);
      } else {
        r := InvocationResult(i + 1, 0.0, MissingInvocation, [], baseline[i].toolCalls);
      }
      results := results + [r];
    }
    var overall := MeanScore(results);
    AllMatchIsEqual(current, baseline, results);
    e := EvaluationResult(overall, results);
  }

  /** Every row scoring 1.0 means the two lists are the same. */
  lemma AllMatchIsEqual(current: seq<Invocation>, baseline: seq<Invocation>, results: seq<InvocationResult>)
    requires |results| == Max(|current|, |baseline|)
    requires forall k :: 0 <= k < |results| ==> results[k] == ResultAt(current, baseline, k)
    ensures (results != [] && forall k :: 0 <= k < |results| ==> results[k].score == 1.0) <==> current != [] && current == baseline
  {
    if results != [] && forall k :: 0 <= k < |results| ==> results[k].score == 1.0 {
      var k := Min(|current|, |baseline|);
      assert k < |results| ==> results[k].score == 1.0;
      assert forall k :: 0 <= k < |current| ==> current[k] == baseline[k] by {
        forall k | 0 <= k < |current| ensures current[k] == baseline[k] {
          assert results[k].score == 1.0;
        }
      }
    }
  }
}
