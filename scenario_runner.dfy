/** The recorder's classifiers: error detection in a tool response, the error
    message it reports, the critical-failure test, and the status analysis it
    writes into a finished run's execution record. */
module ScenarioRunner {
  import opened Wrappers
  import opened Text
  import opened JsonValues
  import opened ToolCalls
  import opened Similarity
  import Evaluator

  /** The recorder's critical operations; unlike the evaluator's list it also
      holds `install`. */
  const RunnerCriticalKeywords: seq<string> := ["add", "create", "initialize", "connect", "setup", "install"]

  /** Keys whose presence marks a dict response as an error. */
  const ResponseErrorKeys: seq<string> := ["error", "Error", "ERROR", "failed", "Failed"]

  /** Phrases whose presence marks a text response as an error. */
  const ResponseErrorPhrases: seq<string> := ["error", "failed", "not found", "invalid", "unable to"]

  /** Keys an error message is taken from, in order of preference. */
  const MessageKeys: seq<string> := ["error", "Error", "ERROR", "message"]

  /** Position in `keys` of the first key `fields` holds. */
  function FirstKeyIndex(fields: map<string, Value>, keys: seq<string>): (r: Option<nat>)
    ensures r.None? <==> forall i :: 0 <= i < |keys| ==> keys[i] !in fields
    ensures r.Some? ==> r.value < |keys| && keys[r.value] in fields &&
                        forall j :: 0 <= j < r.value ==> keys[j] !in fields
  {
    if keys == [] then None
    else if keys[0] in fields then Some(0)
    else
      match FirstKeyIndex(fields, keys[1..])
      case None => None
      case Some(i) => Some(i + 1)
  }

  /** `_detect_error_in_response`. */
  function DetectErrorInResponse(content: Value): (r: bool)
    ensures content.Obj? ==> (r <==> exists i :: 0 <= i < |ResponseErrorKeys| && ResponseErrorKeys[i] in content.fields)
    ensures content.Str? ==> (r <==> exists k :: k in ResponseErrorPhrases && Contains(Lower(content.s), k))
    ensures !content.Obj? && !content.Str? ==> !r
  {
    match content
    case Obj(fields) => FirstKeyIndex(fields, ResponseErrorKeys).Some?
    case Str(s) =>
      AnyOccursMeans(Lower(s), ResponseErrorPhrases);
      AnyOccurs(Lower(s), ResponseErrorPhrases)
    case _ => false
  }

  /** `_extract_error_message`; `blockIsError` is the block's `is_error` flag. */
  function ExtractErrorMessage(content: Value, blockIsError: bool): (r: string)
    ensures blockIsError ==> r == "Tool returned error response"
    ensures !blockIsError && content.Obj? && FirstKeyIndex(content.fields, MessageKeys).Some? ==>
              r == Show(content.fields[MessageKeys[FirstKeyIndex(content.fields, MessageKeys).value]])
    ensures !blockIsError && content.Str? && |content.s| < 200 ==> r == content.s
    ensures !blockIsError && !(content.Str? && |content.s| < 200) &&
            !(content.Obj? && exists i :: 0 <= i < |MessageKeys| && MessageKeys[i] in content.fields) ==>
              r == "Tool execution failed"
  {
    if blockIsError then "Tool returned error response"
    else if content.Obj? && FirstKeyIndex(content.fields, MessageKeys).Some? then
      Show(content.fields[MessageKeys[FirstKeyIndex(content.fields, MessageKeys).value]])
    else if content.Str? && |content.s| < 200 then content.s
    else "Tool execution failed"
  }

  /** A dict response flagged for its `error` key reports that entry's text. */
  lemma DetectedErrorIsReported(fields: map<string, Value>)
    requires "error" in fields
    ensures DetectErrorInResponse(Obj(fields))
    ensures ExtractErrorMessage(Obj(fields), false) == Show(fields["error"])
  {
    assert ResponseErrorKeys[0] == "error";
    assert FirstKeyIndex(fields, MessageKeys) == Some(0);
  }

  /** `_is_critical_failure`: an error entry on a call whose operation names a
      critical operation. */
  function IsCriticalFailure(c: ToolCall): (r: bool)
    ensures r <==> HasError(c) && exists k :: k in RunnerCriticalKeywords && Contains(Lower(Operation(c)), k)
  {
    AnyOccursMeans(Lower(Operation(c)), RunnerCriticalKeywords);
    HasError(c) && IsCriticalOperation(Operation(c), RunnerCriticalKeywords)
  }

  /** Every call the evaluator treats as a critical error, the recorder treats
      as a critical failure too. */
  lemma EvaluatorCriticalIsRunnerCritical(c: ToolCall)
    requires HasError(c) && Evaluator.IsCritical(c)
    ensures IsCriticalFailure(c)
  {
    AnyOccursMeans(Lower(Operation(c)), Evaluator.CriticalKeywords);
    var k :| k in Evaluator.CriticalKeywords && Contains(Lower(Operation(c)), k);
    assert k in RunnerCriticalKeywords;
  }

  /** The converse fails: an `install` error is critical to the recorder only. */
  lemma InstallIsCriticalToRunnerOnly(c: ToolCall)
    requires HasError(c) && Operation(c) == "install"
    ensures IsCriticalFailure(c) && !Evaluator.IsCritical(c)
  {
    LowerInstall();
    ContainsAt("install", "install", 0);
    assert RunnerCriticalKeywords[5] == "install";
    NoEvaluatorKeywordInInstall();
  }

  lemma LowerInstall()
    ensures Lower("install") == "install"
  {
    var l := Lower("install");
    assert forall i :: 0 <= i < 7 ==> l[i] == "install"[i];
  }

  lemma NoEvaluatorKeywordInInstall()
    ensures !AnyOccurs("install", Evaluator.CriticalKeywords)
  {
    NoKeywordOccurs("install", Evaluator.CriticalKeywords, ['d', 'c', 'z', 'c', 'e']);
  }

  // ---------------------------------------------------------------------------
  // Status analysis of a finished run

  /** One entry of `failure_analysis.failures`: the tool's name, the raw
      `operation` input (`""` when absent) and the error entry. */
  datatype FailureRecord = FailureRecord(tool: string, operation: Value, error: Value)

  /** `failure_analysis`. */
  datatype FailureSummary = FailureSummary(totalTools: nat, failedTools: nat, failures: seq<FailureRecord>, successRate: real)

  function FailureOf(c: ToolCall): FailureRecord
    requires HasError(c)
  {
    FailureRecord(c.name, if "operation" in c.input then c.input["operation"] else Str(""), c.error.value)
  }

  /** The failure records of the erroring calls among the first `n`, in call
      order; `FailuresAtPositions` pins each record to its call. */
  function Failures(calls: seq<ToolCall>, n: nat): (r: seq<FailureRecord>)
    requires n <= |calls|
    ensures |r| <= n
    ensures r == [] <==> forall i :: 0 <= i < n ==> !HasError(calls[i])
    ensures |r| == n <==> forall i :: 0 <= i < n ==> HasError(calls[i])
  {
    if n == 0 then []
    else Failures(calls, n - 1) + if HasError(calls[n - 1]) then [FailureOf(calls[n - 1])] else []
  }

  /** Record `k` is the failure record of the `k`-th erroring call: one record
      per erroring call, in call order, and nothing else. */
  lemma {:induction false} FailuresAtPositions(calls: seq<ToolCall>, n: nat)
    requires n <= |calls|
    ensures var p := Evaluator.Positions(calls, HasError, n);
      && |Failures(calls, n)| == |p|
      && forall k :: 0 <= k < |p| ==> p[k] < n && HasError(calls[p[k]]) && Failures(calls, n)[k] == FailureOf(calls[p[k]])
    decreases n
  {
    if n > 0 {
      FailuresAtPositions(calls, n - 1);
    }
  }

  /** `(n - f) / max(1, n)`: the share of the `n` calls that did not fail. */
  function SuccessRate(n: nat, f: nat): (rate: real)
    requires f <= n
    ensures rate * Max(1, n) as real == (n - f) as real
    ensures 0.0 <= rate <= 1.0
    ensures rate == 1.0 <==> n != 0 && f == 0
    ensures rate == 0.0 <==> f == n
  {
    Ratio((n - f) as real, Max(1, n) as real)
  }

  /** The summary the analysis writes: `failed_tools` counts the erroring
      calls and the success rate is `(n - f) / max(1, n)`. */
  function SummaryOf(calls: seq<ToolCall>): (s: FailureSummary)
    ensures s.totalTools == |calls| && s.failures == Failures(calls, |calls|) && s.failedTools == |s.failures|
    ensures s.failedTools == |Evaluator.Positions(calls, HasError, |calls|)|
    ensures s.successRate == SuccessRate(|calls|, s.failedTools)
    ensures 0.0 <= s.successRate <= 1.0
    ensures s.successRate == 1.0 <==> calls != [] && forall i :: 0 <= i < |calls| ==> !HasError(calls[i])
    ensures s.successRate == 0.0 <==> forall i :: 0 <= i < |calls| ==> HasError(calls[i])
  {
    FailuresAtPositions(calls, |calls|);
    var failures := Failures(calls, |calls|);
    FailureSummary(|calls|, |failures|, failures, SuccessRate(|calls|, |failures|))
  }

  /** The status the analysis writes for a run that was not stopped early. */
  function RunStatus(calls: seq<ToolCall>): (st: Status)
    ensures st == Success <==> forall i :: 0 <= i < |calls| ==> !HasError(calls[i])
    ensures st == Failed <==> calls != [] && forall i :: 0 <= i < |calls| ==> HasError(calls[i])
    ensures st == Partial <==> (exists i :: 0 <= i < |calls| && HasError(calls[i])) &&
                               (exists i :: 0 <= i < |calls| && !HasError(calls[i]))
    ensures st != Blocked && st != Empty
  {
    var f := |Failures(calls, |calls|)|;
    if f == 0 then Success else if f == |calls| then Failed else Partial
  }

  /** An empty run is a success with a success rate of 0. */
  lemma EmptyRunSummary()
    ensures RunStatus([]) == Success
    ensures SummaryOf([]).successRate == 0.0 && SummaryOf([]).failedTools == 0
  {
  }

  /** The part of `execution_data` the analysis reads and writes. */
  class ExecutionRecord {
    var toolCalls: seq<ToolCall>
    var earlyStopped: bool
    var executionStatus: Option<Status>
    var failureAnalysis: Option<FailureSummary>

    constructor(toolCalls: seq<ToolCall>, earlyStopped: bool)
      ensures this.toolCalls == toolCalls && this.earlyStopped == earlyStopped
      ensures executionStatus == None && failureAnalysis == None
    {
      this.toolCalls := toolCalls;
      this.earlyStopped := earlyStopped;
      executionStatus := None;
      failureAnalysis := None;
    }

    /** `_analyze_execution_results`: an early-stopped run is BLOCKED and gets no
        failure analysis; otherwise the failures are counted and the status set. */
    method AnalyzeExecutionResults()
      modifies this
      ensures toolCalls == old(toolCalls) && earlyStopped == old(earlyStopped)
      ensures earlyStopped ==> executionStatus == Some(Blocked) && failureAnalysis == old(failureAnalysis)
      ensures !earlyStopped ==> failureAnalysis == Some(SummaryOf(toolCalls)) && executionStatus == Some(RunStatus(toolCalls))
    {
      if earlyStopped {
        executionStatus := Some(Blocked);
        return;
      }
      var calls := toolCalls;
      var failures: seq<FailureRecord> := [];
      for i := 0 to |calls|
        invariant failures == Failures(calls, i)
      {
        var c := calls[i];
        if HasError(c) {
          failures := failures + [FailureOf(c)];
        }
      }
      var n := |calls|;
      var summary := FailureSummary(n, |failures|, failures, SuccessRate(n, |failures|));
      assert summary == SummaryOf(calls);
      failureAnalysis := Some(summary);
      if |failures| == 0 {
        executionStatus := Some(Success);
      } else if |failures| == n {
        executionStatus := Some(Failed);
      } else {
        executionStatus := Some(Partial);
      }
    }
  }
}
