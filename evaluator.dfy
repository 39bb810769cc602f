/** `TrajectoryEvaluator`: failure-aware comparison of a current run's tool-call
    log against a baseline run's. */
module Evaluator {
  import opened Wrappers
  import opened Text
  import opened JsonValues
  import opened ToolCalls
  import opened Similarity

  /** The evaluator's critical keywords; unlike the recorder's, no `install`. */
  const CriticalKeywords: seq<string> := ["add", "create", "initialize", "connect", "setup"]

  predicate IsCritical(c: ToolCall)
  {
    IsCriticalOperation(Operation(c), CriticalKeywords)
  }

  /** A failed call on a critical operation: the analyzer stops at the first one. */
  predicate Blocks(c: ToolCall)
  {
    CallFailed(c) && IsCritical(c)
  }

  /** The failure key, `tool:operation`, or the bare tool name without an operation. */
  function FailureType(c: ToolCall): string
  {
    if Operation(c) != "" then c.name + ":" + Operation(c) else c.name
  }

  // ---------------------------------------------------------------------------
  // Execution status

  /** Position of the first call that satisfies `p`, if any. */
  function FirstWhere(calls: seq<ToolCall>, p: ToolCall -> bool): (r: Option<nat>)
    ensures r.Some? ==> r.value < |calls| && p(calls[r.value])
    ensures r.Some? ==> forall j :: 0 <= j < r.value ==> !p(calls[j])
    ensures r.None? <==> forall j :: 0 <= j < |calls| ==> !p(calls[j])
  {
    if calls == [] then None
    else if p(calls[0]) then Some(0)
    else
      match FirstWhere(calls[1..], p)
      case None =>
        assert forall j :: 1 <= j < |calls| ==> calls[j] == calls[1..][j - 1];
        None
      case Some(i) =>
        assert forall j :: 1 <= j < |calls| ==> calls[j] == calls[1..][j - 1];
        Some(i + 1)
  }

  /** The first match is the one no earlier call satisfies. */
  lemma FirstWhereAt(calls: seq<ToolCall>, p: ToolCall -> bool, i: nat)
    requires i < |calls| && p(calls[i])
    requires forall j :: 0 <= j < i ==> !p(calls[j])
    ensures FirstWhere(calls, p) == Some(i)
  {
    var stop := FirstWhere(calls, p);
    assert stop.Some?;
    assert !(stop.value < i);
    assert !(stop.value > i);
  }

  /** Position of the first blocking call, if any. */
  function FirstBlocking(calls: seq<ToolCall>): Option<nat>
  {
    FirstWhere(calls, Blocks)
  }

  /** Failure keys of the failed calls among the first `n`. */
  function FailuresUpTo(calls: seq<ToolCall>, n: nat): set<string>
    requires n <= |calls|
  {
    if n == 0 then {}
    else FailuresUpTo(calls, n - 1) + (if CallFailed(calls[n - 1]) then {FailureType(calls[n - 1])} else {})
  }

  /** A key is among them exactly when some failed call among the first `n` has it. */
  lemma {:induction false} FailuresUpToMembers(calls: seq<ToolCall>, n: nat)
    requires n <= |calls|
    ensures forall f :: f in FailuresUpTo(calls, n) <==>
              exists i :: 0 <= i < n && CallFailed(calls[i]) && FailureType(calls[i]) == f
  {
    if n > 0 {
      FailuresUpToMembers(calls, n - 1);
    }
  }

  /** Some call before step `n` satisfies `p`. */
  predicate SomeBefore(calls: seq<ToolCall>, p: ToolCall -> bool, n: nat)
    requires n <= |calls|
  {
    n > 0 && (SomeBefore(calls, p, n - 1) || p(calls[n - 1]))
  }

  lemma {:induction false} SomeBeforeMeans(calls: seq<ToolCall>, p: ToolCall -> bool, n: nat)
    requires n <= |calls|
    ensures SomeBefore(calls, p, n) <==> exists j :: 0 <= j < n && p(calls[j])
  {
    if n > 0 {
      SomeBeforeMeans(calls, p, n - 1);
    }
  }

  /** A blocking failure occurs strictly before step `n`. */
  predicate BlockedBefore(calls: seq<ToolCall>, n: nat)
    requires n <= |calls|
  {
    SomeBefore(calls, Blocks, n)
  }

  /** What `_analyze_execution_status` returns. */
  datatype Analysis = Analysis(
    status: Status, failures: set<string>, blockingStep: Option<nat>,
    earlyStopped: bool, totalTools: nat)

  /** A scan up to and including the first call that `stops` holds of: the
      stopping status if there is one, else FAILED if anything failed, else
      EMPTY for no calls, else SUCCESS. */
  function ScanAnalysis(calls: seq<ToolCall>, stops: ToolCall -> bool): Analysis
  {
    var stop := FirstWhere(calls, stops);
    var failures := FailuresUpTo(calls, if stop.Some? then stop.value + 1 else |calls|);
    var status :=
      if stop.Some? then Blocked
      else if failures != {} then Failed
      else if |calls| == 0 then Empty
      else Success;
    Analysis(status, failures, stop, stop.Some?, |calls|)
  }

  /** The analysis of a log: the scan stops at the first blocking call. */
  function AnalysisOf(calls: seq<ToolCall>): Analysis
  {
    ScanAnalysis(calls, Blocks)
  }

  /** The failure set holds the key of every failed call up to the stopping
      one, and nothing else. */
  lemma ScanFailures(calls: seq<ToolCall>, stops: ToolCall -> bool)
    ensures var a := ScanAnalysis(calls, stops);
      && (forall i :: 0 <= i < |calls| && CallFailed(calls[i]) && (a.blockingStep.None? || i <= a.blockingStep.value) ==>
            FailureType(calls[i]) in a.failures)
      && (forall f :: f in a.failures ==> exists i :: 0 <= i < |calls| && CallFailed(calls[i]) && FailureType(calls[i]) == f)
      && (a.blockingStep.None? ==> (a.failures == {} <==> forall i :: 0 <= i < |calls| ==> !CallFailed(calls[i])))
  {
    var a := ScanAnalysis(calls, stops);
    var n := if a.blockingStep.Some? then a.blockingStep.value + 1 else |calls|;
    assert n <= |calls| && a.failures == FailuresUpTo(calls, n);
    FailuresUpToMembers(calls, n);
    forall i | 0 <= i < |calls| && CallFailed(calls[i]) && (a.blockingStep.None? || i <= a.blockingStep.value)
      ensures FailureType(calls[i]) in a.failures
    {
      assert i < n;
    }
    forall f | f in a.failures
      ensures exists i :: 0 <= i < |calls| && CallFailed(calls[i]) && FailureType(calls[i]) == f
    {
      var i :| 0 <= i < n && CallFailed(calls[i]) && FailureType(calls[i]) == f;
    }
  }

  /** The status in terms of the calls: never PARTIAL; BLOCKED exactly when
      some call satisfies `stops`, and then the step is the first such call;
      FAILED when some call fails and none stops the scan; EMPTY for no calls;
      SUCCESS otherwise. Only failed calls may stop the scan. */
  lemma ScanStatus(calls: seq<ToolCall>, stops: ToolCall -> bool)
    requires forall c :: stops(c) ==> CallFailed(c)
    ensures var a := ScanAnalysis(calls, stops);
      && a.status != Partial
      && (a.status == Blocked <==> exists i :: 0 <= i < |calls| && stops(calls[i]))
      && (a.status == Failed <==>
            (forall i :: 0 <= i < |calls| ==> !stops(calls[i])) && exists i :: 0 <= i < |calls| && CallFailed(calls[i]))
      && (a.status == Empty <==> calls == [])
      && (a.status == Success <==> calls != [] && forall i :: 0 <= i < |calls| ==> !CallFailed(calls[i]))
      && (a.blockingStep.Some? <==> a.status == Blocked)
      && (a.earlyStopped <==> a.status == Blocked)
      && a.totalTools == |calls|
      && (a.blockingStep.Some? ==>
            && a.blockingStep.value < |calls| && stops(calls[a.blockingStep.value])
            && (forall j :: 0 <= j < a.blockingStep.value ==> !stops(calls[j])))
  {
    ScanFailures(calls, stops);
    var stop := FirstWhere(calls, stops);
    if stop.Some? {
      assert stops(calls[stop.value]);
    }
  }

  /** The analyzer's status: BLOCKED exactly when some call fails on a
      critical operation, naming the first such call; FAILED when some call
      fails and none blocks; EMPTY for no calls; SUCCESS otherwise; never
      PARTIAL. */
  lemma AnalysisOfStatus(calls: seq<ToolCall>)
    ensures var a := AnalysisOf(calls);
      && a.status != Partial
      && (a.status == Blocked <==> exists i :: 0 <= i < |calls| && Blocks(calls[i]))
      && (a.status == Failed <==>
            (forall i :: 0 <= i < |calls| ==> !Blocks(calls[i])) && exists i :: 0 <= i < |calls| && CallFailed(calls[i]))
      && (a.status == Empty <==> calls == [])
      && (a.status == Success <==> calls != [] && forall i :: 0 <= i < |calls| ==> !CallFailed(calls[i]))
      && (a.blockingStep.Some? ==>
            && a.blockingStep.value < |calls| && Blocks(calls[a.blockingStep.value])
            && (forall j :: 0 <= j < a.blockingStep.value ==> !Blocks(calls[j])))
  {
    ScanStatus(calls, Blocks);
  }

  /** The scan once it stops at the first stopping call `i`. */
  lemma ScanStoppedAt(calls: seq<ToolCall>, stops: ToolCall -> bool, i: nat, failures: set<string>)
    requires i < |calls| && stops(calls[i])
    requires !SomeBefore(calls, stops, i)
    requires failures == FailuresUpTo(calls, i + 1)
    ensures ScanAnalysis(calls, stops) == Analysis(Blocked, failures, Some(i), true, |calls|)
  {
    SomeBeforeMeans(calls, stops, i);
    FirstWhereAt(calls, stops, i);
  }

  /** The scan once it passes every call without stopping. */
  lemma ScanCompleted(calls: seq<ToolCall>, stops: ToolCall -> bool, failures: set<string>)
    requires !SomeBefore(calls, stops, |calls|)
    requires failures == FailuresUpTo(calls, |calls|)
    ensures ScanAnalysis(calls, stops) ==
            Analysis(if failures != {} then Failed else if |calls| == 0 then Empty else Success,
                     failures, None, false, |calls|)
  {
    SomeBeforeMeans(calls, stops, |calls|);
  }

  /** `_analyze_execution_status`: a single scan that records each failure and
      breaks at the first blocking one. */
  method AnalyzeExecutionStatus(calls: seq<ToolCall>) returns (a: Analysis)
    ensures a == AnalysisOf(calls)
  {
    var failures: set<string> := {};
    var blockingStep: Option<nat> := None;
    var earlyStopped := false;
    var i := 0;
    while i < |calls|
      invariant 0 <= i <= |calls|
      invariant failures == FailuresUpTo(calls, i)
      invariant !BlockedBefore(calls, i)
      invariant blockingStep.None? && !earlyStopped
    {
      var c := calls[i];
      if CallFailed(c) {
        failures := failures + {FailureType(c)};
        if IsCritical(c) {
          blockingStep := Some(i);
          earlyStopped := true;
          ScanStoppedAt(calls, Blocks, i, failures);
          break;
        }
      }
      i := i + 1;
    }
    if !earlyStopped {
      ScanCompleted(calls, Blocks, failures);
    }
    var status :=
      if earlyStopped && blockingStep.Some? then Blocked
      else if failures != {} then Failed
      else if |calls| == 0 then Empty
      else Success;
    a := Analysis(status, failures, blockingStep, earlyStopped, |calls|);
  }

  // ---------------------------------------------------------------------------
  // Failure cascade

  /** One failed call of the cascade report. */
  datatype CascadeEntry = CascadeEntry(
    step: nat, tool: string, operation: string, error: Value,
    isCritical: bool, causedByEarlierFailure: bool)

  /** `tool_call.get("error", ...)` when the key is absent. */
  const DefaultCascadeError: Value := Str("Tool returned error")

  function CascadeEntryAt(calls: seq<ToolCall>, i: nat): CascadeEntry
    requires i < |calls|
  {
    var c := calls[i];
    CascadeEntry(i, c.name, Operation(c), c.error.GetOr(DefaultCascadeError),
                 IsCritical(c), BlockedBefore(calls, i) && !IsCritical(c))
  }

  /** The cascade over the first `n` calls. */
  function Cascade(calls: seq<ToolCall>, n: nat): seq<CascadeEntry>
    requires n <= |calls|
  {
    if n == 0 then []
    else Cascade(calls, n - 1) + (if CallFailed(calls[n - 1]) then [CascadeEntryAt(calls, n - 1)] else [])
  }

  /** Positions of the calls among the first `n` that meet `p`, in order;
      with `CallFailed`, the steps of the failed calls. */
  function Positions(calls: seq<ToolCall>, p: ToolCall -> bool, n: nat): seq<nat>
    requires n <= |calls|
  {
    if n == 0 then []
    else Positions(calls, p, n - 1) + (if p(calls[n - 1]) then [n - 1] else [])
  }

  /** The positions increase and are exactly the calls among the first `n`
      that meet `p`. */
  lemma {:induction false} PositionsSpec(calls: seq<ToolCall>, p: ToolCall -> bool, n: nat)
    requires n <= |calls|
    ensures var r := Positions(calls, p, n);
      && |r| <= n
      && (forall k :: 0 <= k < |r| ==> r[k] < n && p(calls[r[k]]))
      && (forall k, l :: 0 <= k < l < |r| ==> r[k] < r[l])
      && (forall i :: 0 <= i < n && p(calls[i]) ==> i in r)
    decreases n
  {
    if n > 0 {
      PositionsSpec(calls, p, n - 1);
    }
  }

  /** Row `k` of the cascade describes the `k`-th failed step. */
  lemma {:induction false} CascadeRowsAtSteps(calls: seq<ToolCall>, n: nat)
    requires n <= |calls|
    ensures |Cascade(calls, n)| == |Positions(calls, CallFailed, n)|
    ensures forall k :: 0 <= k < |Positions(calls, CallFailed, n)| ==>
              Positions(calls, CallFailed, n)[k] < |calls| &&
              Cascade(calls, n)[k] == CascadeEntryAt(calls, Positions(calls, CallFailed, n)[k])
    decreases n
  {
    if n > 0 {
      CascadeRowsAtSteps(calls, n - 1);
    }
  }

  /** The cascade holds one entry per failed call, in step order, each
      describing the call at its step. */
  lemma CascadeEntries(calls: seq<ToolCall>, n: nat)
    requires n <= |calls|
    ensures var r := Cascade(calls, n);
      && |r| <= n
      && (forall k :: 0 <= k < |r| ==>
            r[k].step < n && CallFailed(calls[r[k].step]) && r[k] == CascadeEntryAt(calls, r[k].step))
      && (forall k, l :: 0 <= k < l < |r| ==> r[k].step < r[l].step)
      && (forall i :: 0 <= i < n && CallFailed(calls[i]) ==> exists k :: 0 <= k < |r| && r[k].step == i)
  {
    PositionsSpec(calls, CallFailed, n);
    CascadeRowsAtSteps(calls, n);
    var steps := Positions(calls, CallFailed, n);
    var r := Cascade(calls, n);
    assert forall k :: 0 <= k < |r| ==> r[k].step == steps[k];
  }


  /** `_detect_failure_cascade`: the scan carries whether a blocking failure was
      already seen. */
  method DetectFailureCascade(calls: seq<ToolCall>) returns (cascade: seq<CascadeEntry>)
    ensures cascade == Cascade(calls, |calls|)
  {
    cascade := [];
    var criticalFound := false;
    for i := 0 to |calls|
      invariant cascade == Cascade(calls, i)
      invariant criticalFound <==> BlockedBefore(calls, i)
    {
      var c := calls[i];
      if CallFailed(c) {
        var isCritical := IsCriticalOperation(Operation(c), CriticalKeywords);
        assert CascadeEntryAt(calls, i) ==
               CascadeEntry(i, c.name, Operation(c), c.error.GetOr(DefaultCascadeError), isCritical, criticalFound && !isCritical);
        cascade := cascade + [CascadeEntry(i, c.name, Operation(c), c.error.GetOr(DefaultCascadeError),
                                           isCritical, criticalFound && !isCritical)];
        if isCritical {
          criticalFound := true;
        }
      }
    }
  }

  /** A failure attributed to an earlier one lies after the step the analyzer
      blocks on. */
  lemma CascadeFollowsBlocking(calls: seq<ToolCall>, k: nat)
    requires k < |Cascade(calls, |calls|)|
    requires Cascade(calls, |calls|)[k].causedByEarlierFailure
    ensures AnalysisOf(calls).status == Blocked
    ensures AnalysisOf(calls).blockingStep.value < Cascade(calls, |calls|)[k].step
  {
    CascadeEntries(calls, |calls|);
    AnalysisOfStatus(calls);
    var e := Cascade(calls, |calls|)[k];
    SomeBeforeMeans(calls, Blocks, e.step);
    var j :| 0 <= j < e.step && Blocks(calls[j]);
    var stop := FirstBlocking(calls);
    assert stop.Some? && stop.value <= j;
  }

  // ---------------------------------------------------------------------------
  // Per-invocation results

  datatype Label = ExactMatch | Similar | PartialMatch | Mismatch | ExtraCall | MissingCall
  {
    function Name(): string
    {
      match this
      case ExactMatch => "EXACT MATCH"
      case Similar => "SIMILAR"
      case PartialMatch => "PARTIAL MATCH"
      case Mismatch => "MISMATCH"
      case ExtraCall => "EXTRA CALL"
      case MissingCall => "MISSING CALL"
    }
  }

  /** The label of a pair of calls by their similarity. */
  function PairLabel(similarity: real): (l: Label)
    ensures l == ExactMatch <==> similarity == 1.0
    ensures l == Similar ==> 0.8 <= similarity && similarity != 1.0
    ensures l == PartialMatch ==> 0.0 < similarity < 0.8
    ensures l == Mismatch ==> similarity <= 0.0
    ensures l != ExtraCall && l != MissingCall
  {
    if similarity == 1.0 then ExactMatch
    else if similarity >= 0.8 then Similar
    else if similarity > 0.0 then PartialMatch
    else Mismatch
  }

  /** One row of the per-invocation table: 1-based position, score, label and
      the call on each side. */
  datatype InvocationResult = InvocationResult(
    invocation: nat, score: real, outcome: Label,
    actual: Option<ToolCall>, expected: Option<ToolCall>)

  /** The row at position `k` of two `mcp__`-filtered logs. */
  function ResultAt(m1: seq<ToolCall>, m2: seq<ToolCall>, k: nat, json: JsonMeasure): (r: InvocationResult)
    requires k < |m1| || k < |m2|
    ensures r.invocation == k + 1
    ensures IsJsonMeasure(json) ==> 0.0 <= r.score <= 1.0
    ensures r.outcome == ExtraCall <==> |m2| <= k
    ensures r.outcome == MissingCall <==> |m1| <= k
    ensures r.outcome == ExactMatch <==> k < |m1| && k < |m2| && r.score == 1.0
    ensures r.outcome == Similar ==> 0.8 <= r.score && r.score != 1.0
    ensures r.outcome == PartialMatch ==> 0.0 < r.score < 0.8
    ensures r.outcome == Mismatch ==> r.score <= 0.0
    ensures k < |m1| && k < |m2| && m1[k] == m2[k] ==> r.outcome == ExactMatch
    ensures r.actual == (if k < |m1| then Some(m1[k]) else None)
    ensures r.expected == (if k < |m2| then Some(m2[k]) else None)
  {
    if k < |m1| && k < |m2| then
      var similarity := ToolCallSimilarity(m1[k], m2[k], json);
      var outcome := PairLabel(similarity);
      InvocationResult(k + 1, similarity, outcome, Some(m1[k]), Some(m2[k]))
    else if k < |m1| then
      InvocationResult(k + 1, 0.0, ExtraCall, Some(m1[k]), None)
    else
      InvocationResult(k + 1, 0.0, MissingCall, None, Some(m2[k]))
  }

  /** `_create_per_invocation_results`: one row per position up to the longer
      filtered log. */
  method CreatePerInvocationResults(currentTools: seq<ToolCall>, baselineTools: seq<ToolCall>, json: JsonMeasure)
    returns (results: seq<InvocationResult>)
    ensures |results| == Max(|McpCalls(currentTools)|, |McpCalls(baselineTools)|)
    ensures forall k :: 0 <= k < |results| ==>
              results[k] == ResultAt(McpCalls(currentTools), McpCalls(baselineTools), k, json)
  {
    var currentMcp := McpCalls(currentTools);
    var baselineMcp := McpCalls(baselineTools);
    var maxLen := Max(|currentMcp|, |baselineMcp|);
    results := [];
    for i := 0 to maxLen
      invariant |results| == i
      invariant forall k :: 0 <= k < i ==> results[k] == ResultAt(currentMcp, baselineMcp, k, json)
    {
      var r: InvocationResult;
      if i < |currentMcp| && i < |baselineMcp| {
        var similarity := ToolCallSimilarity(currentMcp[i], baselineMcp[i], json);
        r := InvocationResult(i + 1, similarity, PairLabel(similarity), Some(currentMcp[i]), Some(baselineMcp[i]));
      } else if i < |currentMcp| {
        r := InvocationResult(i + 1, 0.0, ExtraCall, Some(currentMcp[i]), None);
      } else {
        r := InvocationResult(i + 1, 0.0, MissingCall, None, Some(baselineMcp[i]));
      }
      assert r == ResultAt(currentMcp, baselineMcp, i, json);
      results := results + [r];
    }
  }

  /** The call similarity as a measure on pairs of calls. */
  function CallMeasure(json: JsonMeasure): (ToolCall, ToolCall) -> real
  {
    (c1: ToolCall, c2: ToolCall) => ToolCallSimilarity(c1, c2, json)
  }

  /** Score of position `k` under a pair measure: the measure where both logs
      have a call, else 0. */
  function SlotScore(m1: seq<ToolCall>, m2: seq<ToolCall>, k: nat, score: (ToolCall, ToolCall) -> real): real
  {
    if k < |m1| && k < |m2| then score(m1[k], m2[k]) else 0.0
  }

  function SlotSum(m1: seq<ToolCall>, m2: seq<ToolCall>, n: nat, score: (ToolCall, ToolCall) -> real): real
  {
    if n == 0 then 0.0 else SlotSum(m1, m2, n - 1, score) + SlotScore(m1, m2, n - 1, score)
  }

  lemma SlotScoreShift(m1: seq<ToolCall>, m2: seq<ToolCall>, n: nat, score: (ToolCall, ToolCall) -> real)
    requires m1 != [] && m2 != [] && n > 0
    ensures SlotScore(m1, m2, n, score) == SlotScore(m1[1..], m2[1..], n - 1, score)
  {
    if n < |m1| && n < |m2| {
      assert m1[n] == m1[1..][n - 1] && m2[n] == m2[1..][n - 1];
    }
  }

  lemma {:induction false} SlotSumShift(m1: seq<ToolCall>, m2: seq<ToolCall>, n: nat, score: (ToolCall, ToolCall) -> real)
    requires m1 != [] && m2 != []
    ensures SlotSum(m1, m2, n + 1, score) == SlotScore(m1, m2, 0, score) + SlotSum(m1[1..], m2[1..], n, score)
    decreases n
  {
    if n > 0 {
      SlotSumShift(m1, m2, n - 1, score);
      SlotScoreShift(m1, m2, n, score);
    }
  }

  lemma {:induction false} SlotSumPastEnd(m1: seq<ToolCall>, m2: seq<ToolCall>, n: nat, score: (ToolCall, ToolCall) -> real)
    requires m1 == [] || m2 == []
    ensures SlotSum(m1, m2, n, score) == 0.0
    decreases n
  {
    if n > 0 {
      SlotSumPastEnd(m1, m2, n - 1, score);
    }
  }

  /** Sum of a pair measure over the positions both logs share. */
  function PairSum(m1: seq<ToolCall>, m2: seq<ToolCall>, score: (ToolCall, ToolCall) -> real): real
    decreases |m1|
  {
    if m1 == [] || m2 == [] then 0.0 else score(m1[0], m2[0]) + PairSum(m1[1..], m2[1..], score)
  }

  /** Summing a measure slot by slot past the shorter log gives its pairwise sum. */
  lemma {:induction false} SlotSumIsPairSum(m1: seq<ToolCall>, m2: seq<ToolCall>, n: nat, score: (ToolCall, ToolCall) -> real)
    requires Min(|m1|, |m2|) <= n
    ensures SlotSum(m1, m2, n, score) == PairSum(m1, m2, score)
    decreases |m1|
  {
    if m1 == [] || m2 == [] {
      SlotSumPastEnd(m1, m2, n, score);
    } else {
      SlotSumShift(m1, m2, n - 1, score);
      SlotSumIsPairSum(m1[1..], m2[1..], n - 1, score);
    }
  }

  /** The similarity library's positional sum is the pairwise sum of the call
      similarity. */
  lemma {:induction false} PositionalSumIsPairSum(m1: seq<ToolCall>, m2: seq<ToolCall>, json: JsonMeasure)
    ensures PositionalSum(m1, m2, json) == PairSum(m1, m2, CallMeasure(json))
    decreases |m1|
  {
    if m1 != [] && m2 != [] {
      PositionalSumIsPairSum(m1[1..], m2[1..], json);
      assert CallMeasure(json)(m1[0], m2[0]) == ToolCallSimilarity(m1[0], m2[0], json);
    }
  }

  /** Summing the scores position by position gives the similarity library's
      positional sum. */
  lemma SlotSumIsPositionalSum(m1: seq<ToolCall>, m2: seq<ToolCall>, n: nat, json: JsonMeasure)
    requires Min(|m1|, |m2|) <= n
    ensures SlotSum(m1, m2, n, CallMeasure(json)) == PositionalSum(m1, m2, json)
  {
    SlotSumIsPairSum(m1, m2, n, CallMeasure(json));
    PositionalSumIsPairSum(m1, m2, json);
  }

  /** `sum(r.score for r in results)`. */
  function TotalScore(results: seq<InvocationResult>): real
  {
    if results == [] then 0.0 else TotalScore(results[..|results| - 1]) + results[|results| - 1].score
  }

  /** Rows whose scores are the slot scores of a measure total its slot sum. */
  lemma {:induction false} TotalScoreIsSlotSum(m1: seq<ToolCall>, m2: seq<ToolCall>, results: seq<InvocationResult>,
                                               score: (ToolCall, ToolCall) -> real)
    requires forall k :: 0 <= k < |results| ==> results[k].score == SlotScore(m1, m2, k, score)
    ensures TotalScore(results) == SlotSum(m1, m2, |results|, score)
    decreases |results|
  {
    if results != [] {
      var init := results[..|results| - 1];
      assert forall k :: 0 <= k < |init| ==> init[k] == results[k];
      TotalScoreIsSlotSum(m1, m2, init, score);
    }
  }

  /** A row's score is the score of its position. */
  lemma ResultScoreIsSlotScore(m1: seq<ToolCall>, m2: seq<ToolCall>, k: nat, json: JsonMeasure)
    requires k < |m1| || k < |m2|
    ensures ResultAt(m1, m2, k, json).score == SlotScore(m1, m2, k, CallMeasure(json))
  {
  }

  /** The trajectory score is the mean of the per-invocation scores whenever
      both filtered logs are non-empty. */
  lemma TrajectoryIsMeanOfResults(currentTools: seq<ToolCall>, baselineTools: seq<ToolCall>,
                                  results: seq<InvocationResult>, json: JsonMeasure)
    requires McpCalls(currentTools) != [] && McpCalls(baselineTools) != []
    requires |results| == Max(|McpCalls(currentTools)|, |McpCalls(baselineTools)|)
    requires forall k :: 0 <= k < |results| ==>
               results[k] == ResultAt(McpCalls(currentTools), McpCalls(baselineTools), k, json)
    ensures TrajectorySimilarity(currentTools, baselineTools, json) == Ratio(TotalScore(results), |results| as real)
  {
    var m1, m2 := McpCalls(currentTools), McpCalls(baselineTools);
    forall k | 0 <= k < |results|
      ensures results[k].score == SlotScore(m1, m2, k, CallMeasure(json))
    {
      ResultScoreIsSlotScore(m1, m2, k, json);
    }
    TotalScoreIsSlotSum(m1, m2, results, CallMeasure(json));
    SlotSumIsPositionalSum(m1, m2, |results|, json);
  }

  // ---------------------------------------------------------------------------
  // Tool differences

  datatype ParameterDifference = ParameterDifference(
    toolName: string, currentParams: map<string, Value>, baselineParams: map<string, Value>)

  /** The tool-name sets are listed in no particular order by the source; they
      are sets here. */
  datatype ToolDifferences = ToolDifferences(
    toolsAdded: set<string>, toolsRemoved: set<string>, toolsCommon: set<string>,
    parameterDifferences: seq<ParameterDifference>)

  /** `{tool_name: tool for tool in calls}[name]`: the last call of that name wins. */
  function LastByName(calls: seq<ToolCall>, name: string): (r: Option<ToolCall>)
    ensures r.None? <==> forall k :: 0 <= k < |calls| ==> calls[k].name != name
    ensures r.Some? ==> exists k :: 0 <= k < |calls| && calls[k] == r.value && r.value.name == name &&
                                    forall l :: k < l < |calls| ==> calls[l].name != name
  {
    match LastIndexByName(calls, name)
    case None => None
    case Some(k) => Some(calls[k])
  }

  /** Position of the last call named `name`. */
  function LastIndexByName(calls: seq<ToolCall>, name: string): (r: Option<nat>)
    ensures r.None? <==> forall k :: 0 <= k < |calls| ==> calls[k].name != name
    ensures r.Some? ==> r.value < |calls| && calls[r.value].name == name &&
                        forall l :: r.value < l < |calls| ==> calls[l].name != name
  {
    if calls == [] then None
    else if calls[|calls| - 1].name == name then Some(|calls| - 1)
    else
      var init := calls[..|calls| - 1];
      assert forall k :: 0 <= k < |init| ==> init[k] == calls[k];
      LastIndexByName(init, name)
  }

  /** The dict lookup holds `c`'s name and the inputs differ. */
  predicate Differs(c: ToolCall, baseline: seq<ToolCall>)
  {
    LastByName(baseline, c.name).Some? && c.input != LastByName(baseline, c.name).value.input
  }

  /** The entry reported for a call: its name, its input and the input of the
      dict entry of its name (empty when there is none). */
  function DifferenceOf(c: ToolCall, baseline: seq<ToolCall>): ParameterDifference
  {
    var b := LastByName(baseline, c.name);
    ParameterDifference(c.name, c.input, if b.Some? then b.value.input else map[])
  }

  /** `Differs` as a test on calls. */
  function DiffersFrom(baseline: seq<ToolCall>): ToolCall -> bool
  {
    c => Differs(c, baseline)
  }

  /** `_compare_tool_parameters`: each current call whose name the baseline
      also uses, when its input differs from the baseline's last call of that
      name. */
  function ParameterDifferences(current: seq<ToolCall>, baseline: seq<ToolCall>): (r: seq<ParameterDifference>)
    ensures |r| <= |current|
    ensures forall d :: d in r ==>
              d.currentParams != d.baselineParams && d.toolName in ToolNames(current) && d.toolName in ToolNames(baseline)
    ensures forall d :: d in r ==>
              LastByName(baseline, d.toolName).Some? && d.baselineParams == LastByName(baseline, d.toolName).value.input
  {
    DifferencesUpTo(current, baseline, |current|)
  }

  /** The differences reported for the first `n` current calls. */
  function DifferencesUpTo(current: seq<ToolCall>, baseline: seq<ToolCall>, n: nat): (r: seq<ParameterDifference>)
    requires n <= |current|
    ensures |r| <= n
    ensures forall d :: d in r ==>
              d.currentParams != d.baselineParams && d.toolName in ToolNames(current) && d.toolName in ToolNames(baseline)
    ensures forall d :: d in r ==>
              LastByName(baseline, d.toolName).Some? && d.baselineParams == LastByName(baseline, d.toolName).value.input
  {
    if n == 0 then []
    else
      var c := current[n - 1];
      var rest := DifferencesUpTo(current, baseline, n - 1);
      if Differs(c, baseline) then
        var b := LastByName(baseline, c.name).value;
        assert b.name == c.name && b in baseline;
        rest + [DifferenceOf(c, baseline)]
      else
        rest
  }

  /** Entry `k` of the report on the first `n` calls is the difference of the
      `k`-th differing call among them. */
  lemma {:induction false} DifferencesUpToInOrder(current: seq<ToolCall>, baseline: seq<ToolCall>, n: nat)
    requires n <= |current|
    ensures var p := Positions(current, DiffersFrom(baseline), n);
      && |DifferencesUpTo(current, baseline, n)| == |p|
      && forall k :: 0 <= k < |p| ==>
           p[k] < |current| && DifferencesUpTo(current, baseline, n)[k] == DifferenceOf(current[p[k]], baseline)
    decreases n
  {
    if n > 0 {
      DifferencesUpToInOrder(current, baseline, n - 1);
    }
  }

  /** Entry `k` of the report is the difference of the `k`-th differing call:
      every differing call is reported once, in current order, and nothing else. */
  lemma ParameterDifferencesInOrder(current: seq<ToolCall>, baseline: seq<ToolCall>)
    ensures var p := Positions(current, DiffersFrom(baseline), |current|);
      && |ParameterDifferences(current, baseline)| == |p|
      && forall k :: 0 <= k < |p| ==>
           p[k] < |current| && ParameterDifferences(current, baseline)[k] == DifferenceOf(current[p[k]], baseline)
  {
    DifferencesUpToInOrder(current, baseline, |current|);
  }

  /** Every differing current call is reported, and every report comes from a
      differing current call. */
  lemma ParameterDifferencesExactly(current: seq<ToolCall>, baseline: seq<ToolCall>)
    ensures var r := ParameterDifferences(current, baseline);
      && (forall d :: d in r ==>
            exists i :: 0 <= i < |current| && Differs(current[i], baseline) && d == DifferenceOf(current[i], baseline))
      && (forall i :: 0 <= i < |current| && Differs(current[i], baseline) ==> DifferenceOf(current[i], baseline) in r)
  {
    var r := ParameterDifferences(current, baseline);
    var p := Positions(current, DiffersFrom(baseline), |current|);
    PositionsSpec(current, DiffersFrom(baseline), |current|);
    ParameterDifferencesInOrder(current, baseline);
    forall d | d in r
      ensures exists i :: 0 <= i < |current| && Differs(current[i], baseline) && d == DifferenceOf(current[i], baseline)
    {
      var k :| 0 <= k < |r| && r[k] == d;
      assert Differs(current[p[k]], baseline) && d == DifferenceOf(current[p[k]], baseline);
    }
    forall i | 0 <= i < |current| && Differs(current[i], baseline)
      ensures DifferenceOf(current[i], baseline) in r
    {
      var k :| 0 <= k < |p| && p[k] == i;
      assert r[k] == DifferenceOf(current[i], baseline);
    }
  }

  /** When none of the first `n` calls differs, nothing is reported for them. */
  lemma {:induction false} NoDifferencesUpTo(current: seq<ToolCall>, baseline: seq<ToolCall>, n: nat)
    requires n <= |current|
    requires forall i :: 0 <= i < n ==> !Differs(current[i], baseline)
    ensures DifferencesUpTo(current, baseline, n) == []
    decreases n
  {
    if n > 0 {
      NoDifferencesUpTo(current, baseline, n - 1);
    }
  }

  /** Against a log whose tool names are all distinct, the log itself shows no
      parameter differences. */
  lemma NoParameterDifferencesAgainstItself(calls: seq<ToolCall>, baseline: seq<ToolCall>)
    requires forall k, l :: 0 <= k < l < |baseline| ==> baseline[k].name != baseline[l].name
    requires forall k :: 0 <= k < |calls| ==> calls[k] in baseline
    ensures ParameterDifferences(calls, baseline) == []
  {
    forall i | 0 <= i < |calls|
      ensures !Differs(calls[i], baseline)
    {
      var j :| 0 <= j < |baseline| && baseline[j] == calls[i];
      var k := LastIndexByName(baseline, calls[i].name).value;
      assert k == j;
    }
    NoDifferencesUpTo(calls, baseline, |calls|);
  }

  /** With a repeated tool name the last baseline call wins, so a log compared
      with itself can still report a difference. */
  lemma RepeatedNameAgainstItself()
    ensures var first := ToolCall("mcp__x", map["a" := Int(1)], None, Null);
            var second := ToolCall("mcp__x", map["a" := Int(2)], None, Null);
            ParameterDifferences([first, second], [first, second]) ==
              [ParameterDifference("mcp__x", map["a" := Int(1)], map["a" := Int(2)])]
  {
    var first := ToolCall("mcp__x", map["a" := Int(1)], None, Null);
    var second := ToolCall("mcp__x", map["a" := Int(2)], None, Null);
    var log := [first, second];
    assert map["a" := Int(1)] != map["a" := Int(2)] by {
      assert map["a" := Int(1)]["a"] != map["a" := Int(2)]["a"];
    }
    assert LastByName(log, "mcp__x") == Some(second);
    assert log[..1] == [first] && log[..1][..0] == [];
    assert Differs(first, log) && !Differs(second, log);
  }

  /** `_analyze_tool_differences`. */
  function AnalyzeToolDifferences(current: seq<ToolCall>, baseline: seq<ToolCall>): (r: ToolDifferences)
    ensures r.toolsAdded !! r.toolsRemoved && r.toolsAdded !! r.toolsCommon && r.toolsRemoved !! r.toolsCommon
    ensures r.toolsAdded + r.toolsCommon == ToolNames(current)
    ensures r.toolsRemoved + r.toolsCommon == ToolNames(baseline)
    ensures ToolNames(current) == ToolNames(baseline) ==> r.toolsAdded == {} && r.toolsRemoved == {}
  {
    var names1, names2 := ToolNames(current), ToolNames(baseline);
    ToolDifferences(names1 - names2, names2 - names1, names1 * names2, ParameterDifferences(current, baseline))
  }

  // ---------------------------------------------------------------------------
  // Critical operations

  datatype CriticalOperation = CriticalOperation(operation: string, tool: string, success: bool)

  function CriticalOperationOf(c: ToolCall): CriticalOperation
  {
    CriticalOperation(Operation(c), c.name, !CallFailed(c))
  }

  /** `o` is the record of some call in `calls` that meets `p`. */
  predicate RecordOfSome(o: CriticalOperation, calls: seq<ToolCall>, p: ToolCall -> bool)
  {
    exists c :: c in calls && p(c) && o == CriticalOperationOf(c)
  }

  /** The operation records of the calls that meet `p`, in call order. */
  function OperationsWhere(calls: seq<ToolCall>, p: ToolCall -> bool): (r: seq<CriticalOperation>)
    ensures |r| <= |calls|
    ensures forall o :: o in r <==> RecordOfSome(o, calls, p)
  {
    if calls == [] then []
    else
      var rest := OperationsWhere(calls[1..], p);
      assert forall c :: c in calls <==> c == calls[0] || c in calls[1..];
      (if p(calls[0]) then [CriticalOperationOf(calls[0])] else []) + rest
  }

  /** The records of a concatenation are the records of its pieces, in order. */
  lemma {:induction false} OperationsWhereAppend(a: seq<ToolCall>, b: seq<ToolCall>, p: ToolCall -> bool)
    ensures OperationsWhere(a + b, p) == OperationsWhere(a, p) + OperationsWhere(b, p)
    decreases |a|
  {
    if a == [] {
      assert a + b == b;
    } else {
      var head := if p(a[0]) then [CriticalOperationOf(a[0])] else [];
      assert (a + b)[0] == a[0] && (a + b)[1..] == a[1..] + b;
      assert OperationsWhere(a + b, p) == head + OperationsWhere(a[1..] + b, p);
      OperationsWhereAppend(a[1..], b, p);
      assert OperationsWhere(a, p) == head + OperationsWhere(a[1..], p);
    }
  }

  /** `extract_critical_ops`: the records of the calls on a critical
      operation, in call order. */
  function ExtractCriticalOps(calls: seq<ToolCall>): (r: seq<CriticalOperation>)
    ensures |r| <= |calls|
    ensures forall o :: o in r <==> exists c :: c in calls && IsCritical(c) && o == CriticalOperationOf(c)
  {
    OperationsWhere(calls, IsCritical)
  }

  /** The baseline ran `operation` successfully. */
  predicate SucceededIn(operation: string, baseline: seq<CriticalOperation>)
  {
    exists b :: b in baseline && b.operation == operation && b.success
  }

  /** A current operation that regressed: it failed, and the baseline ran the
      same operation successfully. */
  predicate RegressedOp(o: CriticalOperation, baseline: seq<CriticalOperation>)
  {
    !o.success && SucceededIn(o.operation, baseline)
  }

  /** The failed current operations that succeeded in the baseline. */
  function Regressed(current: seq<CriticalOperation>, baseline: seq<CriticalOperation>): (r: seq<CriticalOperation>)
    ensures forall o :: o in r <==> o in current && RegressedOp(o, baseline)
  {
    if current == [] then []
    else
      var o := current[0];
      var keep := RegressedOp(o, baseline);
      assert forall x :: x in current <==> x == o || x in current[1..];
      (if keep then [o] else []) + Regressed(current[1..], baseline)
  }

  /** A single call contributes its operation record exactly when it is on a
      critical operation. */
  lemma ExtractCriticalOpsOfCall(c: ToolCall)
    ensures IsCritical(c) ==> ExtractCriticalOps([c]) == [CriticalOperationOf(c)]
    ensures !IsCritical(c) ==> ExtractCriticalOps([c]) == []
  {
    assert [c][1..] == [];
  }

  /** The extraction distributes over concatenation: records keep call order
      and every critical call keeps its own record, duplicates included. */
  lemma ExtractCriticalOpsAppend(a: seq<ToolCall>, b: seq<ToolCall>)
    ensures ExtractCriticalOps(a + b) == ExtractCriticalOps(a) + ExtractCriticalOps(b)
  {
    OperationsWhereAppend(a, b, IsCritical);
  }

  /** A single current operation is kept exactly when it failed and the
      baseline ran the same operation successfully. */
  lemma RegressedOfOperation(o: CriticalOperation, baseline: seq<CriticalOperation>)
    ensures RegressedOp(o, baseline) ==> Regressed([o], baseline) == [o]
    ensures !RegressedOp(o, baseline) ==> Regressed([o], baseline) == []
  {
    assert [o][1..] == [];
  }

  /** The regression filter distributes over concatenation of the current
      operations: it keeps their order and their duplicates. */
  lemma {:induction false} RegressedAppend(a: seq<CriticalOperation>, b: seq<CriticalOperation>, baseline: seq<CriticalOperation>)
    ensures Regressed(a + b, baseline) == Regressed(a, baseline) + Regressed(b, baseline)
    decreases |a|
  {
    if a == [] {
      assert a + b == b;
    } else {
      var o := a[0];
      var head := if RegressedOp(o, baseline) then [o] else [];
      assert (a + b)[0] == o && (a + b)[1..] == a[1..] + b;
      assert Regressed(a + b, baseline) == head + Regressed(a[1..] + b, baseline);
      RegressedAppend(a[1..], b, baseline);
      assert Regressed(a, baseline) == head + Regressed(a[1..], baseline);
    }
  }

  datatype CriticalImpact = CriticalImpact(
    currentCriticalOperations: seq<CriticalOperation>,
    baselineCriticalOperations: seq<CriticalOperation>,
    criticalOperationsRegressed: seq<CriticalOperation>)

  /** `_analyze_critical_operations`. */
  function AnalyzeCriticalOperations(current: seq<ToolCall>, baseline: seq<ToolCall>): (r: CriticalImpact)
    ensures r.currentCriticalOperations == ExtractCriticalOps(current)
    ensures r.baselineCriticalOperations == ExtractCriticalOps(baseline)
    ensures r.criticalOperationsRegressed == Regressed(r.currentCriticalOperations, r.baselineCriticalOperations)
  {
    var cur := ExtractCriticalOps(current);
    var base := ExtractCriticalOps(baseline);
    CriticalImpact(cur, base, Regressed(cur, base))
  }

  /** A regressed critical operation means the current run blocks and the
      baseline ran that operation successfully. */
  lemma RegressionMeansBlocked(current: seq<ToolCall>, baseline: seq<ToolCall>)
    requires AnalyzeCriticalOperations(current, baseline).criticalOperationsRegressed != []
    ensures AnalysisOf(current).status == Blocked
    ensures exists c :: c in baseline && IsCritical(c) && !CallFailed(c)
  {
    var impact := AnalyzeCriticalOperations(current, baseline);
    var o := impact.criticalOperationsRegressed[0];
    assert o in impact.criticalOperationsRegressed;
    var c :| c in current && IsCritical(c) && o == CriticalOperationOf(c);
    var i :| 0 <= i < |current| && current[i] == c;
    assert Blocks(current[i]);
    var b :| b in impact.baselineCriticalOperations && b.operation == o.operation && b.success;
    var cb :| cb in baseline && IsCritical(cb) && b == CriticalOperationOf(cb);
  }

  // ---------------------------------------------------------------------------
  // Failure-aware score

  function Clamp(x: real): (r: real)
    ensures 0.0 <= r <= 1.0
    ensures 0.0 <= x <= 1.0 ==> r == x
  {
    if x < 0.0 then 0.0 else if x > 1.0 then 1.0 else x
  }

  /** `_calculate_failure_aware_score`: a fixed table over the two statuses. */
  function FailureAwareScore(t: real, current: Status, baseline: Status, toolCountDiff: int, successMatch: bool): (r: real)
    ensures 0.0 <= t <= 1.0 ==> 0.0 <= r <= 1.0
    ensures current == Blocked ==> r == (if baseline == Success then 0.0 else if baseline == Blocked then 0.3 else 0.1)
    ensures current == Success && baseline == Success && successMatch && -2 <= toolCountDiff <= 2 ==>
              (r == 1.0 <==> t >= 1.0)
  {
    match current
    case Blocked =>
      if baseline == Success then 0.0 else if baseline == Blocked then 0.3 else 0.1
    case Failed =>
      if baseline == Success then (if t * 0.5 < 0.0 then 0.0 else t * 0.5)
      else if baseline == Failed then t * 0.7
      else t * 0.6
    case Success =>
      if baseline == Success then
        var bonus := if successMatch then 0.2 else 0.0;
        var penalty := if toolCountDiff > 2 || toolCountDiff < -2 then 0.1 else 0.0;
        Clamp(t * 0.8 + bonus - penalty)
      else if t + 0.2 < 1.0 then t + 0.2 else 1.0
    case _ => Clamp(t)
  }

  /** A better trajectory never lowers the score. */
  lemma FailureAwareScoreMonotone(t1: real, t2: real, current: Status, baseline: Status, toolCountDiff: int, successMatch: bool)
    requires t1 <= t2
    ensures FailureAwareScore(t1, current, baseline, toolCountDiff, successMatch) <=
            FailureAwareScore(t2, current, baseline, toolCountDiff, successMatch)
  {
  }

  /** Against a successful baseline, a failed or blocked run never outscores a
      successful one with the same trajectory. */
  lemma RegressionNeverOutscores(t: real, toolCountDiff: int)
    requires 0.0 <= t <= 1.0
    ensures FailureAwareScore(t, Blocked, Success, toolCountDiff, false) <=
            FailureAwareScore(t, Failed, Success, toolCountDiff, false) <=
            FailureAwareScore(t, Success, Success, toolCountDiff, true)
  {
  }

  // ---------------------------------------------------------------------------
  // Comparison

  /** The two forms of `failure_analysis`. */
  datatype FailureAnalysis =
    | Regular(
        currentFailures: set<string>, baselineFailures: set<string>,
        newFailures: set<string>, resolvedFailures: set<string>,
        failureCascade: seq<CascadeEntry>, criticalOperationsAffected: CriticalImpact)
    | BlockedRegression(
        blockingFailure: string, baselineSucceeded: bool,
        toolsExecutedBeforeFailure: nat, expectedRemainingTools: int, regressionSeverity: string)

  /** `detailed_comparison`; `toolDifferences` is absent and `regression` true
      only in the blocked form. */
  datatype DetailedComparison = DetailedComparison(
    trajectoryMatches: real, currentToolCount: nat, baselineToolCount: nat,
    toolDifferences: Option<ToolDifferences>, currentStatus: Status, baselineStatus: Status,
    regression: bool)

  datatype ComparisonResult = ComparisonResult(
    overallScore: real, toolTrajectoryScore: real, perInvocationResults: seq<InvocationResult>,
    executionTimeDiff: real, toolCountDiff: int, successStatusMatch: bool,
    detailedComparison: DetailedComparison, executionStatus: Status,
    failureAnalysis: FailureAnalysis, earlyStopped: bool, blockingFailureStep: Option<nat>)

  /** `_create_blocked_comparison_result`: the regression report for a blocked
      run against a successful baseline; the blocking failure is any member of
      the failure set. */
  method CreateBlockedComparisonResult(currentTools: seq<ToolCall>, baselineTools: seq<ToolCall>,
                                       currentAnalysis: Analysis, baselineAnalysis: Analysis)
    returns (r: ComparisonResult)
    ensures r.overallScore == 0.0 && r.toolTrajectoryScore == 0.0 && r.perInvocationResults == []
    ensures r.executionTimeDiff == 0.0 && r.toolCountDiff == |currentTools| - |baselineTools|
    ensures !r.successStatusMatch && r.executionStatus == Blocked && r.earlyStopped
    ensures r.blockingFailureStep == currentAnalysis.blockingStep
    ensures r.failureAnalysis.BlockedRegression?
    ensures currentAnalysis.failures != {} ==> r.failureAnalysis.blockingFailure in currentAnalysis.failures
    ensures currentAnalysis.failures == {} ==> r.failureAnalysis.blockingFailure == "unknown"
    ensures r.failureAnalysis.baselineSucceeded <==> baselineAnalysis.status == Success
    ensures r.failureAnalysis.toolsExecutedBeforeFailure == currentAnalysis.blockingStep.GetOr(0)
    ensures r.failureAnalysis.expectedRemainingTools == |baselineTools| - currentAnalysis.blockingStep.GetOr(0)
    ensures r.failureAnalysis.regressionSeverity == "CRITICAL"
    ensures r.detailedComparison == DetailedComparison(0.0, |currentTools|, |baselineTools|, None, Blocked, Success, true)
  {
    var blockingFailure := "unknown";
    if currentAnalysis.failures != {} {
      blockingFailure :| blockingFailure in currentAnalysis.failures;
    }
    var executed := currentAnalysis.blockingStep.GetOr(0);
    var failureAnalysis := BlockedRegression(
      blockingFailure, baselineAnalysis.status == Success, executed, |baselineTools| - executed, "CRITICAL");
    var detailed := DetailedComparison(0.0, |currentTools|, |baselineTools|, None, Blocked, Success, true);
    r := ComparisonResult(0.0, 0.0, [], 0.0, |currentTools| - |baselineTools|, false, detailed, Blocked,
                          failureAnalysis, true, currentAnalysis.blockingStep);
  }

  /** On the analyzer's own output the blocking failure is always known: it is
      one of the recorded failures, and the blocking call's key is among them. */
  lemma BlockedAnalysisHasFailure(calls: seq<ToolCall>)
    requires AnalysisOf(calls).status == Blocked
    ensures AnalysisOf(calls).failures != {}
  {
    AnalysisOfStatus(calls);
    ScanFailures(calls, Blocks);
    assert CallFailed(calls[AnalysisOf(calls).blockingStep.value]);
  }

  /** `compare_executions`. */
  method CompareExecutions(currentTools: seq<ToolCall>, baselineTools: seq<ToolCall>, json: JsonMeasure)
    returns (r: ComparisonResult)
    ensures var ca, ba := AnalysisOf(currentTools), AnalysisOf(baselineTools);
            ca.status == Blocked && ba.status == Success ==>
              && r.overallScore == 0.0 && r.toolTrajectoryScore == 0.0
              && r.perInvocationResults == [] && r.earlyStopped && !r.successStatusMatch
              && r.failureAnalysis.BlockedRegression?
              && r.failureAnalysis.blockingFailure in ca.failures
              && r.failureAnalysis.baselineSucceeded
              && r.failureAnalysis.toolsExecutedBeforeFailure == ca.blockingStep.GetOr(0)
              && r.failureAnalysis.expectedRemainingTools == |baselineTools| - ca.blockingStep.GetOr(0)
              && r.failureAnalysis.regressionSeverity == "CRITICAL"
              && r.detailedComparison == DetailedComparison(0.0, |currentTools|, |baselineTools|, None, Blocked, Success, true)
    ensures var ca, ba := AnalysisOf(currentTools), AnalysisOf(baselineTools);
            !(ca.status == Blocked && ba.status == Success) ==>
              && r.toolTrajectoryScore == TrajectorySimilarity(currentTools, baselineTools, json)
              && r.successStatusMatch == (ca.status == ba.status)
              && r.overallScore == FailureAwareScore(r.toolTrajectoryScore, ca.status, ba.status,
                                                     |currentTools| - |baselineTools|, r.successStatusMatch)
              && |r.perInvocationResults| == Max(|McpCalls(currentTools)|, |McpCalls(baselineTools)|)
              && (forall k :: 0 <= k < |r.perInvocationResults| ==>
                    r.perInvocationResults[k] == ResultAt(McpCalls(currentTools), McpCalls(baselineTools), k, json))
              && r.failureAnalysis == Regular(ca.failures, ba.failures, ca.failures - ba.failures,
                                              ba.failures - ca.failures, Cascade(currentTools, |currentTools|),
                                              AnalyzeCriticalOperations(currentTools, baselineTools))
              && r.earlyStopped == ca.earlyStopped
              && r.detailedComparison == DetailedComparison(
                   r.toolTrajectoryScore, |currentTools|, |baselineTools|,
                   Some(AnalyzeToolDifferences(currentTools, baselineTools)), ca.status, ba.status, false)
    ensures r.failureAnalysis.Regular? ==> r.failureAnalysis.newFailures !! r.failureAnalysis.resolvedFailures
    ensures r.toolCountDiff == |currentTools| - |baselineTools|
    ensures r.executionTimeDiff == 0.0
    ensures r.executionStatus == AnalysisOf(currentTools).status
    ensures r.blockingFailureStep == AnalysisOf(currentTools).blockingStep
    ensures IsJsonMeasure(json) ==> 0.0 <= r.overallScore <= 1.0
    ensures currentTools == baselineTools && AnalysisOf(currentTools).status == Success ==> r.overallScore == 1.0
  {
    var currentAnalysis := AnalyzeExecutionStatus(currentTools);
    var baselineAnalysis := AnalyzeExecutionStatus(baselineTools);
    if currentAnalysis.status == Blocked && baselineAnalysis.status == Success {
      BlockedAnalysisHasFailure(currentTools);
      r := CreateBlockedComparisonResult(currentTools, baselineTools, currentAnalysis, baselineAnalysis);
      return;
    }
    var similarity := TrajectorySimilarity(currentTools, baselineTools, json);
    var perInvocation := CreatePerInvocationResults(currentTools, baselineTools, json);
    var toolCountDiff := |currentTools| - |baselineTools|;
    var statusMatch := currentAnalysis.status == baselineAnalysis.status;
    var cascade := DetectFailureCascade(currentTools);
    var failureAnalysis := Regular(
      currentAnalysis.failures, baselineAnalysis.failures,
      currentAnalysis.failures - baselineAnalysis.failures,
      baselineAnalysis.failures - currentAnalysis.failures,
      cascade, AnalyzeCriticalOperations(currentTools, baselineTools));
    var detailed := DetailedComparison(
      similarity, |currentTools|, |baselineTools|, Some(AnalyzeToolDifferences(currentTools, baselineTools)),
      currentAnalysis.status, baselineAnalysis.status, false);
    var overall := FailureAwareScore(similarity, currentAnalysis.status, baselineAnalysis.status, toolCountDiff, statusMatch);
    r := ComparisonResult(overall, similarity, perInvocation, 0.0, toolCountDiff, statusMatch, detailed,
                          currentAnalysis.status, failureAnalysis, currentAnalysis.earlyStopped,
                          currentAnalysis.blockingStep);
  }
}
