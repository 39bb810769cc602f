/** The rules of the JSON and Markdown reports: the pass verdict, the
    renumbered per-invocation entries, the recommendation rules and the batch
    statistics. */
module Reporter {
  import opened Wrappers
  import opened Text
  import opened ToolCalls
  import opened Similarity
  import opened Evaluator
  import HtmlReporter

  // ---------------------------------------------------------------------------
  // Pass verdict

  const PassThreshold: real := 0.8

  /** `"PASS" if overall_score >= 0.8 else "FAIL"`. */
  function PassResult(overallScore: real): (r: string)
    ensures r == "PASS" || r == "FAIL"
    ensures r == "PASS" <==> overallScore >= PassThreshold
  {
    if overallScore >= PassThreshold then "PASS" else "FAIL"
  }

  /** The HTML report colours a score green exactly when it passes. */
  lemma PassIsGoodClass(score: real)
    ensures PassResult(score) == "PASS" <==> HtmlReporter.ScoreClass(score) == "good"
  {
  }

  /** `evaluation_metrics` of the comparison report. */
  datatype EvaluationMetrics = EvaluationMetrics(
    overallScore: real, toolTrajectoryScore: real, successStatusMatch: bool,
    executionTimeDiffSeconds: real, toolCountDifference: int, passThreshold: real, result: string)

  function MetricsOf(c: ComparisonResult): (m: EvaluationMetrics)
    ensures m.passThreshold == PassThreshold
    ensures m.result == "PASS" <==> c.overallScore >= PassThreshold
    ensures m.overallScore == c.overallScore && m.toolTrajectoryScore == c.toolTrajectoryScore
    ensures m.successStatusMatch == c.successStatusMatch && m.toolCountDifference == c.toolCountDiff
  {
    EvaluationMetrics(c.overallScore, c.toolTrajectoryScore, c.successStatusMatch,
                      c.executionTimeDiff, c.toolCountDiff, PassThreshold, PassResult(c.overallScore))
  }

  // ---------------------------------------------------------------------------
  // Per-invocation entries

  /** One `per_invocation_results` entry of the report. */
  datatype ReportEntry = ReportEntry(invocation: nat, score: real, outcome: Label,
                                     actualTools: Option<ToolCall>, expectedTools: Option<ToolCall>)

  /** The entries numbered 1..n in list order, everything else copied. */
  function RenumberInvocations(results: seq<InvocationResult>): (r: seq<ReportEntry>)
    ensures |r| == |results|
    ensures forall i :: 0 <= i < |r| ==> r[i].invocation == i + 1
    ensures forall i :: 0 <= i < |r| ==>
              r[i].score == results[i].score && r[i].outcome == results[i].outcome &&
              r[i].actualTools == results[i].actual && r[i].expectedTools == results[i].expected
  {
    seq(|results|, i requires 0 <= i < |results| =>
      ReportEntry(i + 1, results[i].score, results[i].outcome, results[i].actual, results[i].expected))
  }

  /** The evaluator already numbers its rows 1..n, so the report keeps each
      row's own number. */
  lemma RenumberingKeepsEvaluatorNumbers(m1: seq<ToolCall>, m2: seq<ToolCall>, results: seq<InvocationResult>, json: JsonMeasure)
    requires |results| == Max(|m1|, |m2|)
    requires forall k :: 0 <= k < |results| ==> results[k] == Evaluator.ResultAt(m1, m2, k, json)
    ensures forall i :: 0 <= i < |results| ==> RenumberInvocations(results)[i].invocation == results[i].invocation
  {
    forall i | 0 <= i < |results|
      ensures RenumberInvocations(results)[i].invocation == results[i].invocation
    {
      assert results[i] == Evaluator.ResultAt(m1, m2, i, json);
    }
  }

  // ---------------------------------------------------------------------------
  // Recommendations for one comparison

  const TrajectoryMismatchAdvice: string := "Tool trajectory mismatch detected. Review expected vs actual tool calls."
  const StatusMismatchAdvice: string := "Success status mismatch between current and baseline execution."
  const ExcellentAdvice: string := "Excellent trajectory match! Consider this execution as a new baseline."

  const ToolCountLead: string := "Significant difference in tool usage count ("
  const ToolCountTail: string := "). Consider updating baseline or investigating efficiency."

  /** The tool-count message, with the difference signed (`:+d`). */
  function ToolCountAdvice(diff: int): string
  {
    ToolCountLead + SignedIntToString(diff) + ToolCountTail
  }

  /** The messages of the rules that fire, in rule order: four rules with
      pairwise different messages. */
  function RuleMessages(f1: bool, m1: string, f2: bool, m2: string, f3: bool, m3: string, f4: bool, m4: string): (r: seq<string>)
    requires m1 != m2 && m1 != m3 && m1 != m4 && m2 != m3 && m2 != m4 && m3 != m4
    ensures |r| == (if f1 then 1 else 0) + (if f2 then 1 else 0) + (if f3 then 1 else 0) + (if f4 then 1 else 0)
    ensures (m1 in r <==> f1) && (m2 in r <==> f2) && (m3 in r <==> f3) && (m4 in r <==> f4)
    ensures f1 ==> r[0] == m1
    ensures f2 ==> r[if f1 then 1 else 0] == m2
    ensures f3 ==> r[(if f1 then 1 else 0) + (if f2 then 1 else 0)] == m3
    ensures f4 ==> r[|r| - 1] == m4
  {
    (if f1 then [m1] else []) + (if f2 then [m2] else []) + (if f3 then [m3] else []) + (if f4 then [m4] else [])
  }

  /** `_generate_recommendations`: four independent rules, each adding its
      message when it fires, in this order. */
  function Recommendations(c: ComparisonResult): (r: seq<string>)
    ensures |r| <= 4
    ensures TrajectoryMismatchAdvice in r <==> c.toolTrajectoryScore < 0.8
    ensures ToolCountAdvice(c.toolCountDiff) in r <==> (c.toolCountDiff > 2 || c.toolCountDiff < -2)
    ensures StatusMismatchAdvice in r <==> !c.successStatusMatch
    ensures ExcellentAdvice in r <==> c.overallScore >= 0.9
    ensures |r| == (if c.toolTrajectoryScore < 0.8 then 1 else 0) +
                   (if c.toolCountDiff > 2 || c.toolCountDiff < -2 then 1 else 0) +
                   (if !c.successStatusMatch then 1 else 0) +
                   (if c.overallScore >= 0.9 then 1 else 0)
    ensures c.toolTrajectoryScore < 0.8 ==> r[0] == TrajectoryMismatchAdvice
    ensures c.toolCountDiff > 2 || c.toolCountDiff < -2 ==>
              r[if c.toolTrajectoryScore < 0.8 then 1 else 0] == ToolCountAdvice(c.toolCountDiff)
    ensures !c.successStatusMatch ==>
              r[(if c.toolTrajectoryScore < 0.8 then 1 else 0) +
                (if c.toolCountDiff > 2 || c.toolCountDiff < -2 then 1 else 0)] == StatusMismatchAdvice
    ensures c.overallScore >= 0.9 ==> r[|r| - 1] == ExcellentAdvice
  {
    RuleAdvicesDistinct(c.toolCountDiff);
    RuleMessages(c.toolTrajectoryScore < 0.8, TrajectoryMismatchAdvice,
                 c.toolCountDiff > 2 || c.toolCountDiff < -2, ToolCountAdvice(c.toolCountDiff),
                 !c.successStatusMatch, StatusMismatchAdvice,
                 c.overallScore >= 0.9, ExcellentAdvice)
  }

  /** The four rules' messages are pairwise different: they differ in length,
      the tool-count message being the longest. */
  lemma RuleAdvicesDistinct(diff: int)
    ensures ToolCountAdvice(diff) != TrajectoryMismatchAdvice
    ensures ToolCountAdvice(diff) != StatusMismatchAdvice
    ensures ToolCountAdvice(diff) != ExcellentAdvice
    ensures TrajectoryMismatchAdvice != StatusMismatchAdvice && TrajectoryMismatchAdvice != ExcellentAdvice
    ensures StatusMismatchAdvice != ExcellentAdvice
  {
    assert |ToolCountLead| == 44 && |ToolCountTail| == 58;
    assert |TrajectoryMismatchAdvice| == 72 && |StatusMismatchAdvice| == 63 && |ExcellentAdvice| == 70;
  }

  /** A failure-aware score of at least 0.9 comes with a trajectory score of at
      least 0.8, except when a successful run is compared with a baseline that
      did not succeed. */
  lemma ExcellentExcludesMismatch(c: ComparisonResult, current: Status, baseline: Status)
    requires 0.0 <= c.toolTrajectoryScore <= 1.0
    requires c.overallScore == FailureAwareScore(c.toolTrajectoryScore, current, baseline, c.toolCountDiff, c.successStatusMatch)
    requires !(current == Success && baseline != Success)
    ensures ExcellentAdvice in Recommendations(c) ==> TrajectoryMismatchAdvice !in Recommendations(c)
  {
  }

  /** The excepted case: a successful run at trajectory 0.75 against a failed
      baseline is both excellent and a trajectory mismatch. */
  lemma RecoveredRunGetsBothAdvices(c: ComparisonResult)
    requires c.toolTrajectoryScore == 0.75
    requires c.overallScore == FailureAwareScore(0.75, Success, Failed, c.toolCountDiff, c.successStatusMatch)
    ensures ExcellentAdvice in Recommendations(c) && TrajectoryMismatchAdvice in Recommendations(c)
  {
  }

  // ---------------------------------------------------------------------------
  // Batch report

  /** One entry of a batch: its status text and the optional `execution_time`
      and `tool_calls` fields. */
  datatype BatchEntry = BatchEntry(status: string, executionTime: Option<real>, toolCalls: Option<int>)

  function CountStatus(batch: seq<BatchEntry>, status: string): (n: nat)
    ensures n <= |batch|
    ensures n == |batch| <==> forall i :: 0 <= i < |batch| ==> batch[i].status == status
  {
    if batch == [] then 0
    else (if batch[0].status == status then 1 else 0) + CountStatus(batch[1..], status)
  }

  /** Entries counted under two different statuses are different entries. */
  lemma {:induction false} TwoStatusesFitInBatch(batch: seq<BatchEntry>, s1: string, s2: string)
    requires s1 != s2
    ensures CountStatus(batch, s1) + CountStatus(batch, s2) <= |batch|
  {
    if batch != [] {
      TwoStatusesFitInBatch(batch[1..], s1, s2);
    }
  }

  /** `sum(r.get("execution_time", 0) for r in successful)`. */
  function SuccessfulTime(batch: seq<BatchEntry>): real
  {
    if batch == [] then 0.0
    else (if batch[0].status == "SUCCESS" then batch[0].executionTime.GetOr(0.0) else 0.0) + SuccessfulTime(batch[1..])
  }

  /** `sum(r.get("tool_calls", 0) for r in successful)`. */
  function SuccessfulToolCalls(batch: seq<BatchEntry>): int
  {
    if batch == [] then 0
    else (if batch[0].status == "SUCCESS" then batch[0].toolCalls.GetOr(0) else 0) + SuccessfulToolCalls(batch[1..])
  }

  datatype BatchSummary = BatchSummary(
    totalScenarios: nat, successfulScenarios: nat, failedScenarios: nat, successRate: real,
    totalExecutionTime: real, averageExecutionTime: real, totalToolCalls: int, averageToolCallsPerScenario: real)

  /** `part / whole * 100`. */
  function Percent(part: nat, whole: nat): (r: real)
    requires part <= whole && whole > 0
    ensures 0.0 <= r <= 100.0
    ensures r == 100.0 <==> part == whole
  {
    Ratio(part as real, whole as real) * 100.0
  }

  /** `total / count if count else 0`. */
  function Average(total: real, count: nat): (r: real)
    ensures count == 0 ==> r == 0.0
    ensures count > 0 ==> r * count as real == total
  {
    if count > 0 then Ratio(total, count as real) else 0.0
  }

  /** The `summary` of `generate_batch_report`; an empty batch divides by zero. */
  function BatchSummaryOf(batch: seq<BatchEntry>): (r: Result<BatchSummary, string>)
    ensures r.Err? <==> batch == []
    ensures r.Ok? ==>
              var s := r.value;
              && s.totalScenarios == |batch|
              && s.successfulScenarios == CountStatus(batch, "SUCCESS")
              && s.failedScenarios == CountStatus(batch, "FAILED")
              && s.successfulScenarios + s.failedScenarios <= s.totalScenarios
              && 0.0 <= s.successRate <= 100.0
              && (s.successRate == 100.0 <==> forall i :: 0 <= i < |batch| ==> batch[i].status == "SUCCESS")
              && (s.successfulScenarios == 0 ==> s.averageExecutionTime == 0.0 && s.averageToolCallsPerScenario == 0.0)
              && s.averageExecutionTime == Average(s.totalExecutionTime, s.successfulScenarios)
              && s.averageToolCallsPerScenario == Average(s.totalToolCalls as real, s.successfulScenarios)
  {
    if batch == [] then Err("division by zero")
    else
      var n := |batch|;
      var succ := CountStatus(batch, "SUCCESS");
      var failed := CountStatus(batch, "FAILED");
      TwoStatusesFitInBatch(batch, "SUCCESS", "FAILED");
      var time := SuccessfulTime(batch);
      var tools := SuccessfulToolCalls(batch);
      Ok(BatchSummary(n, succ, failed, Percent(succ, n), time, Average(time, succ), tools, Average(tools as real, succ)))
  }

  // ---------------------------------------------------------------------------
  // Batch recommendations

  /** `f"{x:.1f}"`, rounding half up; a negative number takes a leading `-`. */
  function OneDecimal(x: real): string
    decreases if x < 0.0 then 1 else 0
  {
    if x < 0.0 then "-" + OneDecimal(-x)
    else
      var tenths := (x * 10.0 + 0.5).Floor;
      NatToString(tenths / 10) + "." + [DigitChar(tenths % 10)]
  }

  const LowRateLead: string := "Low success rate ("
  const LowRateTail: string := "%). Review failed scenarios and MCP server configuration."
  const FailedTail: string := " scenario(s) failed. Check error details and retry with fixes."
  const SlowLead: string := "High average execution time ("
  const SlowTail: string := "s). Consider optimizing scenarios or MCP configuration."

  function LowRateAdvice(rate: real): string
  {
    LowRateLead + OneDecimal(rate) + LowRateTail
  }

  function FailedAdvice(count: nat): string
  {
    NatToString(count) + FailedTail
  }

  function SlowAdvice(avg: real): string
  {
    SlowLead + OneDecimal(avg) + SlowTail
  }

  /** The execution times of the successful entries that record one. */
  function TimedSuccesses(batch: seq<BatchEntry>): (r: seq<real>)
    ensures |r| <= |batch|
  {
    if batch == [] then []
    else
      (if batch[0].status == "SUCCESS" && batch[0].executionTime.Some? then [batch[0].executionTime.value] else []) +
      TimedSuccesses(batch[1..])
  }

  function Sum(xs: seq<real>): real
  {
    if xs == [] then 0.0 else xs[0] + Sum(xs[1..])
  }

  /** The mean execution time of the timed successes, 0 when there are none. */
  function MeanTime(batch: seq<BatchEntry>): (avg: real)
    ensures TimedSuccesses(batch) == [] ==> avg == 0.0
    ensures TimedSuccesses(batch) != [] ==> avg * |TimedSuccesses(batch)| as real == Sum(TimedSuccesses(batch))
    ensures TimedSuccesses(batch) != [] ==>
              (avg > 30.0 <==> Sum(TimedSuccesses(batch)) > 30.0 * |TimedSuccesses(batch)| as real)
  {
    var times := TimedSuccesses(batch);
    if times == [] then 0.0
    else
      var n := |times| as real;
      var avg := Ratio(Sum(times), n);
      MeanAbove(Sum(times), n, avg, 30.0);
      avg
  }

  /** A mean exceeds a threshold exactly when the total exceeds the threshold
      per entry. */
  lemma MeanAbove(total: real, n: real, avg: real, t: real)
    requires n > 0.0 && avg * n == total
    ensures avg > t <==> total > t * n
  {
    assert total - t * n == (avg - t) * n;
    if avg > t {
      assert (avg - t) * n > 0.0;
    } else {
      assert (t - avg) * n >= 0.0;
    }
  }

  /** The slow-run rule: some success is timed and their mean is above 30 seconds. */
  predicate SlowFires(batch: seq<BatchEntry>)
  {
    TimedSuccesses(batch) != [] && MeanTime(batch) > 30.0
  }

  /** The rate the recommendations use: entries not FAILED, in percent. */
  function NotFailedRate(batch: seq<BatchEntry>): (rate: real)
    requires batch != []
    ensures 0.0 <= rate <= 100.0
    ensures rate == 100.0 <==> CountStatus(batch, "FAILED") == 0
  {
    var failed := CountStatus(batch, "FAILED");
    Percent(|batch| - failed, |batch|)
  }

  /** The recommendations' rate counts every entry that did not fail, so it
      is never below the summary's success rate. */
  lemma NotFailedRateAtLeastSuccessRate(batch: seq<BatchEntry>)
    requires batch != []
    ensures BatchSummaryOf(batch).Ok? && NotFailedRate(batch) >= BatchSummaryOf(batch).value.successRate
  {
    TwoStatusesFitInBatch(batch, "SUCCESS", "FAILED");
    var n := |batch| as real;
    var succ := CountStatus(batch, "SUCCESS") as real;
    var notFailed := (|batch| - CountStatus(batch, "FAILED")) as real;
    RatioMonotone(succ, notFailed, n);
  }

  /** `_generate_batch_recommendations`; an empty batch divides by zero. Each
      of the three advices appears exactly when its rule fires, in the order
      low rate, failures, slow runs. */
  function BatchRecommendations(batch: seq<BatchEntry>): (r: Result<seq<string>, string>)
    ensures r.Err? <==> batch == []
    ensures r.Ok? ==> (LowRateAdvice(NotFailedRate(batch)) in r.value <==> NotFailedRate(batch) < 80.0)
    ensures r.Ok? ==> (FailedAdvice(CountStatus(batch, "FAILED")) in r.value <==> CountStatus(batch, "FAILED") > 0)
    ensures r.Ok? ==> (SlowAdvice(MeanTime(batch)) in r.value <==> SlowFires(batch))
    ensures r.Ok? ==> |r.value| == (if NotFailedRate(batch) < 80.0 then 1 else 0) +
                                   (if CountStatus(batch, "FAILED") > 0 then 1 else 0) +
                                   (if SlowFires(batch) then 1 else 0)
    ensures r.Ok? && NotFailedRate(batch) < 80.0 ==> r.value[0] == LowRateAdvice(NotFailedRate(batch))
    ensures r.Ok? && CountStatus(batch, "FAILED") > 0 ==>
              r.value[if NotFailedRate(batch) < 80.0 then 1 else 0] == FailedAdvice(CountStatus(batch, "FAILED"))
    ensures r.Ok? && SlowFires(batch) ==> r.value[|r.value| - 1] == SlowAdvice(MeanTime(batch))
  {
    if batch == [] then Err("division by zero")
    else
      var failed := CountStatus(batch, "FAILED");
      var rate := NotFailedRate(batch);
      var avg := MeanTime(batch);
      AdvicesDistinct(rate, failed, avg);
      var low := if rate < 80.0 then [LowRateAdvice(rate)] else [];
      var fail := if failed > 0 then [FailedAdvice(failed)] else [];
      var slow := if SlowFires(batch) then [SlowAdvice(avg)] else [];
      assert LowRateAdvice(rate) in low + fail + slow <==> LowRateAdvice(rate) in low;
      assert FailedAdvice(failed) in low + fail + slow <==> FailedAdvice(failed) in fail;
      assert SlowAdvice(avg) in low + fail + slow <==> SlowAdvice(avg) in slow;
      Ok(low + fail + slow)
  }

  /** The three batch messages never coincide. */
  lemma AdvicesDistinct(rate: real, failed: nat, avg: real)
    ensures LowRateAdvice(rate) != FailedAdvice(failed)
    ensures LowRateAdvice(rate) != SlowAdvice(avg) && FailedAdvice(failed) != SlowAdvice(avg)
  {
    assert LowRateAdvice(rate)[0] == LowRateLead[0] == 'L';
    assert FailedAdvice(failed)[0] == NatToString(failed)[0];
    assert SlowAdvice(avg)[0] == SlowLead[0] == 'H';
  }
}
