# mcp-eval trajectory comparison and failure-aware scoring, in Dafny

mcp-eval records how an AI agent drives the tools of an MCP (Model Context
Protocol) server through a scenario. It compares a new run with a stored
baseline run and scores how closely the two agree. This project models the
engine behind that score and proves properties of it:

- **similarity** (`similarity.dfy`): the graded measures between argument
  keys, strings, numbers, argument values, argument maps, single tool calls and
  whole trajectories of `mcp__` calls.
- **the evaluators** (`base_evaluator.dfy`, `evaluator.dfy`):
  - the exact-match invocation evaluator;
  - the failure-aware trajectory evaluator. It classifies a run as
    SUCCESS / FAILED / BLOCKED / EMPTY, finds the first blocking critical
    failure, builds the failure cascade and the critical-operation regressions,
    lists tool and parameter differences, labels every position of the two
    trajectories, and combines all of this into the failure-aware overall score.
- **the multi-turn dialog evaluator** (`multi_turn.dfy`): tool trajectory
  extraction from a conversation, longest-common-subsequence flow similarity,
  padded pairwise sequence similarity, turn-count similarity, turn-by-turn
  analysis, tool-usage overlap and the weighted dialog score.
- **the recorder's classifiers** (`scenario_runner.dfy`): error detection in a
  tool response, the error message reported, the critical-failure test, and the
  status analysis written into a finished run (a class whose method updates the
  run's record in place).
- **the HTML reporter's helpers** (`html_reporter.dfy`): the displayed run
  status, the termination analysis, the parameter preview, text escaping and
  formatting, text extraction from tool results, and the score colour class.
- **the report generator's rules** (`reporter.dfy`): PASS/FAIL, the
  recommendations of a comparison, the batch summary and the batch
  recommendations.

Shared modules:
- `wrappers.dfy`: `Option` and `Result`.
- `text.dfy`: ASCII lower-casing, whitespace splitting, substring search,
  joining, replacing, decimal rendering and sorted keys.
- `values.dfy`: JSON values and their Python `str`/`repr`.
- `tool_calls.dfy`: the recorded tool call, the run status and the `mcp__`
  filter.

Python floats are Dafny `real`s. Python's `str(v)` is modelled as `Show`.
The character-frequency cosine measure between two lists or dicts is a
parameter `json` of type `JsonMeasure`. Every bound that depends on it is
stated under `IsJsonMeasure(json)`: the measure returns 1 on equal arguments
and stays in `[0, 1]`.

The two critical-operation sets of the program differ. The trajectory
evaluator (`evaluator.py:132-134`) lists only `add`, `create`, `initialize`,
`connect` and `setup`; the recorder (`scenario_runner.py:31-33`) also lists
`install`. The model keeps both as written, and
`ScenarioRunner.InstallIsCriticalToRunnerOnly` proves that the two sets disagree.

## Model

| member | source | states |
|---|---|---|
| Text.Lower | src/mcp_eval/similarity.py:44-45 | `str.lower()` keeps the length and lower-cases each character independently |
| Text.LowerKeepsBlank | src/mcp_eval/similarity.py:44-51 | lower-casing a string never changes whether it has any words |
| Text.Split | src/mcp_eval/similarity.py:44-45 | `str.split()` yields non-empty, whitespace-free words, and none exactly when the string is blank |
| Text.Words | src/mcp_eval/similarity.py:44-45 | the word set is empty exactly when the string is blank |
| Text.SortedKeys | src/mcp_eval/similarity.py:94-95 | the sorted key list holds exactly the keys of the set, each once |
| Text.LexLeTotal | src/mcp_eval/similarity.py:94-95 | string order used for sorted keys is total |
| Text.LexLeAntisymmetric | src/mcp_eval/similarity.py:94-95 | string order used for sorted keys is antisymmetric |
| Text.LexLeTransitive | src/mcp_eval/similarity.py:94-95 | string order used for sorted keys is transitive |
| Text.LeastExists | src/mcp_eval/similarity.py:94-95 | every non-empty key set has a least key, so sorting is defined |
| Text.JoinStartsWithFirst | src/mcp_eval/html_reporter.py:565-579 | `", ".join(parts)` starts with the first part |
| Text.ReplaceAllAvoids | src/mcp_eval/html_reporter.py:491-501 | `str.replace` never introduces a character absent from both the text and the replacement |
| Text.ReplaceAllRemoves | src/mcp_eval/html_reporter.py:491-501 | replacing a single character by text without it removes every occurrence |
| Text.ReplaceAllUntouched | src/mcp_eval/html_reporter.py:491-501 | `str.replace` leaves a text that cannot contain the pattern unchanged |
| ToolCalls.McpCalls | src/mcp_eval/similarity.py:242-243 | the `mcp__` filter keeps exactly the calls whose name has the prefix, in order |
| ToolCalls.McpCallsAppend | src/mcp_eval/similarity.py:242-243 | filtering distributes over concatenation of logs |
| ToolCalls.McpCallsIdempotent | src/mcp_eval/similarity.py:242-243 | filtering an already filtered log changes nothing |
| ToolCalls.AnyOccursMeans | src/mcp_eval/evaluator.py:390 | the keyword scan is true exactly when some keyword occurs in the text |
| JsonValues.QuoteString | src/mcp_eval/html_reporter.py:577 | `repr` of a string: between its quotes, double quotes exactly when the text has a single quote and no double quote, and one to four characters per character |
| JsonValues.ReprChar | src/mcp_eval/html_reporter.py:577 | a character is printed as itself exactly when it is printable and neither the quote nor a backslash; otherwise as an escape of two to four characters |
| JsonValues.ReprRoundTrip | src/mcp_eval/html_reporter.py:577 | the text between the quotes reads back as the original string, so different strings never print alike |
| JsonValues.UnescapeEscapeBody | src/mcp_eval/html_reporter.py:577 | escaping loses nothing: reading the escapes back gives the original text |
| JsonValues.QuotePlain | src/mcp_eval/html_reporter.py:577 | printable text without backslashes or single quotes is printed between single quotes as it is |
| Similarity.Ratio | src/mcp_eval/similarity.py:27 | a quotient times its divisor gives back the dividend; it lies in [0, 1] for a part of the whole, and equals 1 exactly for the whole |
| Similarity.SubsetSize | src/mcp_eval/similarity.py:24-27 | a subset is no larger, and equal size means equal sets (intersection against union) |
| Similarity.KeySimilarity | src/mcp_eval/similarity.py:8-27 | Jaccard index of two key sets: both empty gives 1, one empty gives 0; the result is 1 exactly for equal sets, and 0 exactly for disjoint sets that are not both empty |
| Similarity.StringSimilarity | src/mcp_eval/similarity.py:30-56 | equal or case-insensitively equal strings score 1; blank against non-blank scores 0; 1 exactly when equal or equal as lower-cased word sets |
| Similarity.NumberSimilarity | src/mcp_eval/similarity.py:59-77 | different numbers against a zero scale are a division-by-zero error and nothing else is; equal numbers score 1; for a positive scale the result is in [0, 1], is 1 only for equal numbers, and is 0 once the difference reaches the scale; a negative scale scores above 1 |
| Similarity.NumberSimilarityMonotone | src/mcp_eval/similarity.py:73-75 | a larger difference never scores higher |
| Similarity.NumberSimilarityExamples | tests/test_similarity.py:76-89 | 100 against 110 scores 0.99, 0 against 1000 scores 0, and 0 against 50 with scale 100 scores 0.5 |
| Similarity.ValueSimilarity | src/mcp_eval/similarity.py:118-158 | equal values score 1; a `None` against anything else scores 0; mixed kinds compare their `str` forms; strings use string similarity, numbers numeric similarity, lists and dicts the JSON measure |
| Similarity.IntAgainstItsText | tests/test_similarity.py:134-137 | an integer against its own decimal text scores 1 |
| Similarity.OppositeBooleans | src/mcp_eval/similarity.py:150-151 | `True` against `False` takes the numeric path (booleans are ints) and scores 0.999 |
| Similarity.SumValueSimilarity | src/mcp_eval/similarity.py:188-191 | the summed value similarities over the common keys lie between 0 and the key count |
| Similarity.MeanValueSimilarity | src/mcp_eval/similarity.py:194 | the average value similarity lies in [0, 1] |
| Similarity.ArgsSimilarity | src/mcp_eval/similarity.py:161-200 | equal argument maps score 1; disjoint maps score key similarity times 0.5, which is 0; the result is in [0, 1]; a score of 1 implies equal key sets |
| Similarity.ToolCallSimilarity | src/mcp_eval/similarity.py:203-226 | different names score 0; same names score their argument similarity; identical calls score 1 |
| Similarity.PositionalSum | src/mcp_eval/similarity.py:258-268 | the sum over paired positions lies between 0 and the shorter length |
| Similarity.PositionalSumSelf | src/mcp_eval/similarity.py:258-268 | a trajectory paired with itself sums to its length |
| Similarity.PositionalMean | src/mcp_eval/similarity.py:254-270 | the padded average lies in [0, 1] and is 1 for identical trajectories |
| Similarity.TrajectorySimilarity | src/mcp_eval/similarity.py:229-270 | compares only `mcp__` calls: both empty scores 1, one empty 0, equal filtered logs 1, otherwise the padded positional mean |
| Similarity.PositionalSumPrefix | src/mcp_eval/similarity.py:258-268 | a trajectory against its own prefix of length n sums to n |
| Similarity.TrajectoryAgainstPrefix | tests/test_similarity.py:249-259 | a trajectory against its own non-empty prefix scores prefix length over full length (the test's 0.5) |
| Similarity.PositionalSumNamesDiffer | src/mcp_eval/similarity.py:258-268 | when the names differ at every paired position, the sum is 0 |
| Similarity.TrajectoryNamesDiffer | tests/test_similarity.py:261-272 | reordered calls whose names differ at every position score 0 |
| BaseEvaluator.CompareInvocations | src/mcp_eval/evaluator.py:95-105 | 1 exactly when both invocations hold the same tool calls in the same order, else 0 |
| BaseEvaluator.ResultAt | src/mcp_eval/evaluator.py:53-84 | row k is numbered k+1; it scores 1 exactly when both invocations exist and are equal; it is EXTRA exactly past the baseline's end and MISSING exactly past the current run's end |
| BaseEvaluator.TotalScoreBounds | src/mcp_eval/evaluator.py:87 | the score sum lies between 0 and the row count, and reaches it exactly when every row scores 1 |
| BaseEvaluator.MeanScore | src/mcp_eval/evaluator.py:87 | the average is in [0, 1] and 0 for no rows; it is 1 exactly when there are rows and all score 1 |
| BaseEvaluator.EvaluateInvocations | src/mcp_eval/evaluator.py:42-93 | one row per position up to the longer list, each as `ResultAt`; the overall score is the mean of the row scores (`MeanScore`), lies in [0, 1], is 1 exactly for equal non-empty lists, and is 0 for two empty lists |
| BaseEvaluator.AllMatchIsEqual | src/mcp_eval/evaluator.py:53-87 | all rows score 1 exactly when the two non-empty invocation lists are equal |
| Evaluator.FirstWhere | src/mcp_eval/evaluator.py:380-393 | the scan stops at the first call meeting the test; it finds none exactly when no call meets it |
| Evaluator.FirstWhereAt | src/mcp_eval/evaluator.py:380-393 | the first call meeting the test is the one found |
| Evaluator.FailuresUpToMembers | src/mcp_eval/evaluator.py:380-387 | the failure set after scanning the first n calls holds exactly the failure types of the failed calls among them |
| Evaluator.SomeBeforeMeans | src/mcp_eval/evaluator.py:380-393 | the stop-so-far flag after n calls is set exactly when one of them meets the stopping test |
| Evaluator.ScanFailures | src/mcp_eval/evaluator.py:380-411 | the recorded failures are the failure types of the failed calls up to the blocking one, and only those; with no blocking call the set is empty exactly when no call failed |
| Evaluator.ScanStatus | src/mcp_eval/evaluator.py:374-411 | for any stopping test that only failed calls meet: BLOCKED iff some call stops the scan, at the first such call, with early-stopped set; FAILED, EMPTY and SUCCESS as the later branches decide; never PARTIAL; the tool count is the log length |
| Evaluator.ScanStoppedAt | src/mcp_eval/evaluator.py:389-393 | breaking at the first stopping call yields the BLOCKED analysis with the failures seen so far |
| Evaluator.ScanCompleted | src/mcp_eval/evaluator.py:395-411 | a scan that never stops yields FAILED, EMPTY or SUCCESS from the failures and the log length |
| Evaluator.AnalysisOfStatus | src/mcp_eval/evaluator.py:374-411 | BLOCKED iff some call fails on a critical operation; FAILED iff none does and some call failed; EMPTY iff no calls; SUCCESS iff calls exist and none failed; never PARTIAL; the blocking step is the first blocking call |
| Evaluator.AnalyzeExecutionStatus | src/mcp_eval/evaluator.py:374-411 | the loop computes exactly the analysis `AnalysisOf` specifies |
| Evaluator.CascadeEntries | src/mcp_eval/evaluator.py:459-483 | the cascade lists every failed call once, in step order, and nothing else |
| Evaluator.DetectFailureCascade | src/mcp_eval/evaluator.py:459-483 | the loop computes exactly the cascade of the whole log |
| Evaluator.PositionsSpec | src/mcp_eval/evaluator.py:464-465 | the positions of the calls meeting a test (a failed call here, a differing call below) increase and include every such call among the first n |
| Evaluator.CascadeRowsAtSteps | src/mcp_eval/evaluator.py:464-481 | the cascade has one row per failed step, row k describing the k-th failed call |
| Evaluator.CascadeFollowsBlocking | src/mcp_eval/evaluator.py:459-483 | an entry caused by an earlier failure implies the run is BLOCKED at an earlier step |
| Evaluator.PairLabel | src/mcp_eval/evaluator.py:244-251 | EXACT MATCH iff 1; SIMILAR at 0.8 or more; PARTIAL MATCH strictly between 0 and 0.8; MISMATCH at 0 or below |
| Evaluator.ResultAt | src/mcp_eval/evaluator.py:224-294 | row k is numbered k+1 and scored by tool-call similarity; EXTRA CALL iff past the baseline; MISSING CALL iff past the current run; equal calls are an EXACT MATCH |
| Evaluator.CreatePerInvocationResults | src/mcp_eval/evaluator.py:224-294 | one row per position up to the longer filtered log, each as `ResultAt` |
| Evaluator.SlotSumIsPositionalSum | src/mcp_eval/evaluator.py:224-294 | the row scores sum to the trajectory's positional sum |
| Evaluator.TotalScoreIsSlotSum | src/mcp_eval/evaluator.py:224-294 | rows scored by any pair measure, slot by slot, total that measure's slot sum |
| Evaluator.ResultScoreIsSlotScore | src/mcp_eval/evaluator.py:240-276 | a row's score is the call similarity where both logs have a call, else 0 |
| Evaluator.SlotSumIsPairSum | src/mcp_eval/evaluator.py:224-294 | summed over at least the shorter length, slot scores give the pairwise sum of the measure |
| Evaluator.PositionalSumIsPairSum | src/mcp_eval/similarity.py:258-268 | the positional sum is the pairwise sum of the call similarity |
| Evaluator.TrajectoryIsMeanOfResults | src/mcp_eval/evaluator.py:167-170 | the trajectory score is the mean of the per-invocation scores |
| Evaluator.LastByName | src/mcp_eval/evaluator.py:353-355 | building a name-to-call dict keeps the last call of each name |
| Evaluator.LastIndexByName | src/mcp_eval/evaluator.py:353-355 | no position exactly when the name is absent; otherwise the position of the last call with that name |
| Evaluator.ParameterDifferences | src/mcp_eval/evaluator.py:344-372 | every reported difference names a tool present in both runs; its baseline parameters are those of the last baseline call of that name, and they differ from the current ones |
| Evaluator.DifferencesUpTo | src/mcp_eval/evaluator.py:357-370 | over the first n current calls, every reported difference names a tool present in both runs, carries the last baseline input of that name, and differs from it |
| Evaluator.DifferencesUpToInOrder | src/mcp_eval/evaluator.py:357-370 | entry k of the report on the first n calls is the difference of the k-th call among them whose input differs from the dict entry of its name |
| Evaluator.NoDifferencesUpTo | src/mcp_eval/evaluator.py:357-370 | when none of the first n calls differs from the dict entry of its name, nothing is reported for them |
| Evaluator.ParameterDifferencesInOrder | src/mcp_eval/evaluator.py:357-370 | entry k of the report is the difference of the k-th differing current call, so the report has one entry per differing call, in current order |
| Evaluator.ParameterDifferencesExactly | src/mcp_eval/evaluator.py:357-370 | every differing current call is reported, and every entry comes from a differing current call |
| Evaluator.NoParameterDifferencesAgainstItself | src/mcp_eval/evaluator.py:344-372 | a log with distinct names has no parameter differences against itself |
| Evaluator.RepeatedNameAgainstItself | src/mcp_eval/evaluator.py:344-372 | with a repeated name, a log does report a difference against itself: the first call is compared with the last one kept in the dict |
| Evaluator.AnalyzeToolDifferences | src/mcp_eval/evaluator.py:328-342 | added, removed and common names partition the two runs' name sets |
| Evaluator.ExtractCriticalOps | src/mcp_eval/evaluator.py:487-497 | exactly the critical calls' operations are extracted |
| Evaluator.OperationsWhere | src/mcp_eval/evaluator.py:487-497 | the records of exactly the calls meeting the test, at most one per call |
| Evaluator.OperationsWhereAppend | src/mcp_eval/evaluator.py:488-497 | the record list of a concatenation is the record lists of its pieces, in order |
| Evaluator.ExtractCriticalOpsOfCall | src/mcp_eval/evaluator.py:490-496 | one call contributes its record (operation, tool, `not (error or is_error)`) exactly when it is critical, else nothing |
| Evaluator.ExtractCriticalOpsAppend | src/mcp_eval/evaluator.py:488-497 | extraction distributes over concatenation; with the single-call lemma, one record per critical call, in call order, duplicates kept |
| Evaluator.Regressed | src/mcp_eval/evaluator.py:505-508 | a regression is a failed current operation whose operation text succeeded in the baseline |
| Evaluator.RegressedOfOperation | src/mcp_eval/evaluator.py:505-508 | one current operation is kept exactly when it failed and the baseline ran the same operation successfully |
| Evaluator.RegressedAppend | src/mcp_eval/evaluator.py:505-508 | the filter distributes over concatenation of the current list, so it keeps current order and duplicates |
| Evaluator.AnalyzeCriticalOperations | src/mcp_eval/evaluator.py:485-509 | current and baseline critical operations and their regressions |
| Evaluator.RegressionMeansBlocked | src/mcp_eval/evaluator.py:485-509 | a regressed critical operation implies the current run is BLOCKED and the baseline had a successful critical call |
| Evaluator.Clamp | src/mcp_eval/evaluator.py:546 | `max(0, min(1, x))` lies in [0, 1] and leaves values in range unchanged |
| Evaluator.FailureAwareScore | src/mcp_eval/evaluator.py:511-551 | stays in [0, 1] for a trajectory score in [0, 1]; a BLOCKED run scores 0, 0.3 or 0.1 by baseline status; two successes with matching status and small count difference score 1 exactly at a perfect trajectory |
| Evaluator.FailureAwareScoreMonotone | src/mcp_eval/evaluator.py:511-551 | a better trajectory never lowers the overall score |
| Evaluator.RegressionNeverOutscores | src/mcp_eval/evaluator.py:511-551 | against a successful baseline, BLOCKED scores at most FAILED, and FAILED at most SUCCESS |
| Evaluator.CreateBlockedComparisonResult | src/mcp_eval/evaluator.py:413-457 | zero scores, no rows, BLOCKED and early-stopped; the blocking failure is one of the recorded failures; the tools before and after the failure; CRITICAL severity |
| Evaluator.BlockedAnalysisHasFailure | src/mcp_eval/evaluator.py:382-397 | a BLOCKED analysis always records at least one failure |
| Evaluator.CompareExecutions | src/mcp_eval/evaluator.py:136-222 | BLOCKED against SUCCESS short-circuits to the regression report (blocking failure, baseline succeeded, tools executed and remaining, CRITICAL severity, the regression's detailed comparison); otherwise the trajectory, rows, new and resolved failures, cascade, failure-aware score and the detailed comparison (tool counts, tool differences with parameter differences, status pair) are as specified; the score is in [0, 1]; the time difference is the constant 0 in both branches; an identical successful run scores 1 |
| MultiTurn.StripAll | src/mcp_eval/multi_turn_evaluator.py:69-72 | each extracted call keeps only name and input, position by position |
| MultiTurn.StripAllAppend | src/mcp_eval/multi_turn_evaluator.py:59-74 | stripping distributes over concatenation |
| MultiTurn.TurnTrajectoryIsStrippedFilter | src/mcp_eval/multi_turn_evaluator.py:64-72 | a turn's contribution is its stripped `mcp__` calls |
| MultiTurn.StrippedMcpCalls | src/mcp_eval/multi_turn_evaluator.py:66-72 | every extracted call is an `mcp__` call without an error entry |
| MultiTurn.ExtractToolTrajectory | src/mcp_eval/multi_turn_evaluator.py:59-74 | the trajectory is the stripped `mcp__` calls of all turns, in order |
| MultiTurn.McpCallsOfStripped | src/mcp_eval/multi_turn_evaluator.py:59-74 | filtering and stripping commute |
| MultiTurn.PositionalSumOfStripped | src/mcp_eval/multi_turn_evaluator.py:59-74 | stripping does not change any positional similarity |
| MultiTurn.DialogTrajectoryScore | src/mcp_eval/multi_turn_evaluator.py:19-24 | the dialog's trajectory score equals the trajectory similarity of the concatenated raw calls |
| MultiTurn.LcsBound | src/mcp_eval/multi_turn_evaluator.py:173-190 | the common subsequence is no longer than either sequence |
| MultiTurn.LcsSymmetric | src/mcp_eval/multi_turn_evaluator.py:173-190 | LCS length is symmetric |
| MultiTurn.LcsSelf | src/mcp_eval/multi_turn_evaluator.py:173-190 | a sequence's LCS with itself is its length |
| MultiTurn.LcsFull | src/mcp_eval/multi_turn_evaluator.py:173-190 | an LCS as long as both sequences means they are equal |
| MultiTurn.LcsPrefixStep | src/mcp_eval/multi_turn_evaluator.py:182-187 | the table's recurrence holds for prefixes |
| MultiTurn.LcsOfNonEmpty | src/mcp_eval/multi_turn_evaluator.py:173-190 | the LCS reaches the longer length exactly for equal sequences |
| MultiTurn.LcsZero | src/mcp_eval/multi_turn_evaluator.py:173-190 | the common subsequence is empty exactly when the sequences share no element |
| MultiTurn.LcsRatio | src/mcp_eval/multi_turn_evaluator.py:173-190 | LCS over the longer length is in [0, 1]; it is 1 exactly for equal non-empty sequences and 0 exactly when the sequences share no element |
| MultiTurn.LcsRatioSymmetric | src/mcp_eval/multi_turn_evaluator.py:173-190 | the ratio is symmetric |
| MultiTurn.LcsSimilarity | src/mcp_eval/multi_turn_evaluator.py:173-190 | the table-filling loops compute exactly the LCS ratio |
| MultiTurn.PairSimilarity | src/mcp_eval/multi_turn_evaluator.py:204-207 | a pair scores in [0, 1], and 1 exactly when equal |
| MultiTurn.Padded | src/mcp_eval/multi_turn_evaluator.py:198-200 | zero-padding reaches the target length |
| MultiTurn.PaddedToOwnLength | src/mcp_eval/multi_turn_evaluator.py:198-200 | padding to a sequence's own length leaves it unchanged |
| MultiTurn.SumPairSimilarity | src/mcp_eval/multi_turn_evaluator.py:203-207 | the pairwise sum lies between 0 and the length, and reaches it exactly for equal sequences |
| MultiTurn.SumPairSimilaritySymmetric | src/mcp_eval/multi_turn_evaluator.py:203-207 | the pairwise sum is symmetric |
| MultiTurn.CompareSequences | src/mcp_eval/multi_turn_evaluator.py:192-208 | in [0, 1], and 1 exactly for two non-empty sequences equal after zero-padding |
| MultiTurn.CompareSequencesSymmetric | src/mcp_eval/multi_turn_evaluator.py:192-208 | the sequence comparison is symmetric |
| MultiTurn.Speakers | src/mcp_eval/multi_turn_evaluator.py:82-83 | one speaker per turn |
| MultiTurn.MessageLengths | src/mcp_eval/multi_turn_evaluator.py:89-90 | one message length per turn |
| MultiTurn.DialogFlowSimilarity | src/mcp_eval/multi_turn_evaluator.py:76-94 | in [0, 1]; 0 when either dialog is empty; 1 exactly for non-empty dialogs with the same speakers and message lengths |
| MultiTurn.ComplementRatio | src/mcp_eval/multi_turn_evaluator.py:105-112 | one minus the relative difference is the ratio of the shorter to the longer |
| MultiTurn.TurnSimilarity | src/mcp_eval/multi_turn_evaluator.py:96-114 | an empty baseline scores 1 only against an empty dialog; otherwise shorter over longer; 1 exactly for equal turn counts |
| MultiTurn.TurnAt | src/mcp_eval/multi_turn_evaluator.py:121-146 | a turn scores 1 for the same speaker and tool count, 0.5 for the same speaker only, else 0 |
| MultiTurn.AnalyzeTurns | src/mcp_eval/multi_turn_evaluator.py:116-150 | one analysis per turn up to the longer dialog |
| MultiTurn.CompareToolUsage | src/mcp_eval/multi_turn_evaluator.py:152-171 | common, current-only and baseline-only names partition the two name sets; the overlap is in [0, 1], 0 for no baseline tools, and 1 exactly when every baseline tool is used |
| MultiTurn.OverlapRatio | src/mcp_eval/multi_turn_evaluator.py:168 | the overlap is in [0, 1]; 0 with no baseline names; otherwise 1 exactly when every baseline name is also used by the current dialog |
| MultiTurn.CompareDialogs | src/mcp_eval/multi_turn_evaluator.py:13-57 | the weighted score is in [0, 1]; an identical non-empty dialog scores 1; the trajectory part and tool counts come from the `mcp__` calls of all turns |
| ScenarioRunner.FirstKeyIndex | src/mcp_eval/scenario_runner.py:508-511 | finds the first key of the list that the dict holds, or none if it holds none |
| ScenarioRunner.DetectErrorInResponse | src/mcp_eval/scenario_runner.py:493-501 | a dict is an error iff it holds an error key; a string iff its lower-cased text contains an error phrase; anything else is not |
| ScenarioRunner.ExtractErrorMessage | src/mcp_eval/scenario_runner.py:503-516 | the block flag wins; then the first message key of a dict; then a short string; else the generic message |
| ScenarioRunner.DetectedErrorIsReported | src/mcp_eval/scenario_runner.py:493-516 | a dict flagged for its `error` key reports that entry |
| ScenarioRunner.IsCriticalFailure | src/mcp_eval/scenario_runner.py:518-527 | an error entry on a call whose lower-cased operation contains a critical keyword |
| ScenarioRunner.EvaluatorCriticalIsRunnerCritical | src/mcp_eval/scenario_runner.py:31-33 | every evaluator-critical error is also critical to the recorder |
| ScenarioRunner.InstallIsCriticalToRunnerOnly | src/mcp_eval/evaluator.py:132-134 | an `install` error is critical to the recorder but not to the evaluator |
| ScenarioRunner.Failures | src/mcp_eval/scenario_runner.py:538-545 | the records of the erroring calls among the first n: empty iff none of them errs, one per call iff all err |
| ScenarioRunner.FailuresAtPositions | src/mcp_eval/scenario_runner.py:538-545 | record k is the failure record (tool, `operation` or `""`, error) of the k-th erroring call, so there is exactly one record per erroring call, in call order, and nothing else |
| ScenarioRunner.SuccessRate | src/mcp_eval/scenario_runner.py:551 | the rate times `max(1, n)` is `n - f`; it lies in [0, 1], is 1 iff calls exist and none failed, and 0 iff all failed |
| ScenarioRunner.SummaryOf | src/mcp_eval/scenario_runner.py:538-552 | `total_tools` is the call count, `failures` are the `Failures` records, `failed_tools` is their count and equals the number of erroring calls (their positions), and the rate is `SuccessRate(n, failed_tools)`, i.e. `(n - f) / max(1, n)`; the rate is 1 iff calls exist and none errs, and 0 iff every call errs |
| ScenarioRunner.RunStatus | src/mcp_eval/scenario_runner.py:555-560 | SUCCESS iff no call errs; FAILED iff calls exist and all err; PARTIAL iff some err and some do not |
| ScenarioRunner.EmptyRunSummary | src/mcp_eval/scenario_runner.py:538-560 | an empty run is SUCCESS with a success rate of 0 |
| ScenarioRunner.ExecutionRecord.constructor | src/mcp_eval/scenario_runner.py:529-531 | a fresh record holds the calls and the early-stop flag, with no status and no analysis yet |
| ScenarioRunner.ExecutionRecord.AnalyzeExecutionResults | src/mcp_eval/scenario_runner.py:529-560 | an early-stopped run becomes BLOCKED with the analysis untouched; otherwise the analysis and status are exactly `SummaryOf` and `RunStatus` of its calls |
| HtmlReporter.ScoreClass | src/mcp_eval/html_reporter.py:791-798 | good iff at least 0.8, warning iff in [0.5, 0.8), bad iff below 0.5 |
| HtmlReporter.ScoreClassMonotone | src/mcp_eval/html_reporter.py:791-798 | a higher score never gets a worse class |
| HtmlReporter.ActualStatus | src/mcp_eval/html_reporter.py:140-157 | SUCCESS iff rate 1 and no failures; PARTIAL iff not that and rate above 0.5; FAILED iff rate at most 0.5; the recorded status (or Unknown) without an analysis |
| HtmlReporter.ActualStatusOfAnalysedRun | src/mcp_eval/html_reporter.py:140-157 | an analysed run shows SUCCESS exactly when it has calls and none failed; a FAILED run shows FAILED |
| HtmlReporter.EmptyRunShownAsFailed | src/mcp_eval/html_reporter.py:140-157 | a run with no calls is recorded SUCCESS but shown FAILED (its success rate is 0) |
| HtmlReporter.AnalyzeTerminationInfo | src/mcp_eval/html_reporter.py:159-209 | the kind follows the last message only; timings are reported exactly for result messages |
| HtmlReporter.ResultVerdict | src/mcp_eval/html_reporter.py:168-209 | a final result message is MAX TURNS iff its subtype is `error_max_turns`, NORMAL iff `success`, ERROR iff another subtype mentions `timeout` or `error`, else unknown; timings are reported exactly for the recognised subtypes |
| HtmlReporter.TerminationReadsLastOnly | src/mcp_eval/html_reporter.py:165-209 | earlier messages never affect the termination analysis |
| HtmlReporter.PreviewParts | src/mcp_eval/html_reporter.py:570-578 | one preview part per parameter |
| HtmlReporter.ParamPartOfStringBounded | src/mcp_eval/html_reporter.py:572-577 | a string over 30 characters previews as exactly 33 characters beyond its key; a shorter one as its `repr`, one to four characters per character plus `=` and two quotes, and as the text in single quotes when nothing needs escaping |
| HtmlReporter.CreateParamPreview | src/mcp_eval/html_reporter.py:565-579 | empty for no parameters; otherwise it starts with the first key and `=` |
| HtmlReporter.PreviewShowsFirstThree | src/mcp_eval/html_reporter.py:579 | only the first three parameters affect the preview |
| HtmlReporter.HtmlEscape | src/mcp_eval/html_reporter.py:497 | escaping never shortens the text |
| HtmlReporter.EscapedHasNoMarkup | src/mcp_eval/html_reporter.py:497 | escaped text has no `<`, `>`, `"` or `'` |
| HtmlReporter.EscapeKeepsNewlines | src/mcp_eval/html_reporter.py:497-499 | escaping keeps exactly the newlines it had |
| HtmlReporter.EscapeLeavesPlainText | src/mcp_eval/html_reporter.py:497 | text without markup characters is unchanged |
| HtmlReporter.PlainTextUntouched | src/mcp_eval/html_reporter.py:491-501 | plain text without backslashes or newlines passes through formatting unchanged |
| HtmlReporter.FormatTextContent | src/mcp_eval/html_reporter.py:491-501 | empty stays empty; the output has no newline or quote characters; plain text is unchanged |
| HtmlReporter.ExtractTextFromContent | src/mcp_eval/html_reporter.py:854-871 | a string is its own text; a dict without `content` gives its `text`; a list joins its parts with spaces |
| HtmlReporter.ListTextParts | src/mcp_eval/html_reporter.py:864-869 | at most one part per list item |
| HtmlReporter.ListTextPartsOfItem | src/mcp_eval/html_reporter.py:866-869 | a dict with `content` contributes `str` of it, a string contributes itself, anything else contributes nothing |
| HtmlReporter.ListTextPartsAppend | src/mcp_eval/html_reporter.py:864-869 | the parts of a list are the parts of its pieces, in order |
| HtmlReporter.UnwrapsContent | src/mcp_eval/html_reporter.py:859-860 | any depth of `content` wrapping yields the text of the wrapped value |
| HtmlReporter.StringListText | src/mcp_eval/html_reporter.py:868-869 | a list of strings contributes each string, in order |
| Reporter.PassResult | src/mcp_eval/reporter.py:49-50 | PASS iff the overall score is at least 0.8, else FAIL |
| Reporter.PassIsGoodClass | src/mcp_eval/reporter.py:49-50 | PASS exactly when the HTML report colours the score good |
| Reporter.MetricsOf | src/mcp_eval/reporter.py:43-51 | the metrics copy the comparison's scores and carry the 0.8 threshold and its verdict |
| Reporter.RenumberInvocations | src/mcp_eval/reporter.py:66-75 | rows are renumbered 1..n and keep their scores and tools |
| Reporter.RenumberingKeepsEvaluatorNumbers | src/mcp_eval/reporter.py:66-75 | renumbering agrees with the evaluator's own numbering |
| Reporter.Recommendations | src/mcp_eval/reporter.py:200-226 | each of the four advices appears exactly when its rule fires; one message per fired rule, each at the index given by the number of earlier rules that fired (trajectory, tool count, status, excellent) |
| Reporter.RuleAdvicesDistinct | src/mcp_eval/reporter.py:205-224 | the four rule messages are pairwise distinct, whatever the tool-count difference |
| Reporter.ExcellentExcludesMismatch | src/mcp_eval/reporter.py:205-224 | unless a run recovered from a failing baseline, "excellent" and "trajectory mismatch" never appear together |
| Reporter.RecoveredRunGetsBothAdvices | src/mcp_eval/reporter.py:205-224 | a recovered run with trajectory score 0.75 gets both advices |
| Reporter.CountStatus | src/mcp_eval/reporter.py:83-84 | the count is at most the batch size, and equal exactly when every entry has the status |
| Reporter.TwoStatusesFitInBatch | src/mcp_eval/reporter.py:83-84 | successes and failures together never exceed the batch |
| Reporter.Percent | src/mcp_eval/reporter.py:102 | a percentage in [0, 100], and 100 exactly for the whole |
| Reporter.Average | src/mcp_eval/reporter.py:104-106 | 0 for no entries, otherwise the total divided by the count |
| Reporter.BatchSummaryOf | src/mcp_eval/reporter.py:79-106 | an error for an empty batch (division by zero); otherwise counts, a rate in [0, 100] that is 100 iff every entry succeeded, and averages over the successes |
| Reporter.TimedSuccesses | src/mcp_eval/reporter.py:247 | at most one timing per entry |
| Reporter.MeanTime | src/mcp_eval/reporter.py:247-249 | 0 with no timed success; otherwise the mean of their times, above 30 exactly when their total exceeds 30 s per entry |
| Reporter.NotFailedRate | src/mcp_eval/reporter.py:233-234 | in [0, 100], and 100 iff nothing failed |
| Reporter.NotFailedRateAtLeastSuccessRate | src/mcp_eval/reporter.py:234 | the recommendation rate counts non-failed entries, so it is never below the summary's success rate |
| Reporter.BatchRecommendations | src/mcp_eval/reporter.py:228-254 | an error for an empty batch; the low-rate advice iff the not-failed rate is below 80, the failed advice iff something failed, the slow advice iff some success is timed and their mean exceeds 30 s; one message per fired rule, in the order low rate, failures, slow runs |
| Reporter.AdvicesDistinct | src/mcp_eval/reporter.py:236-253 | the three batch advices are different texts, whatever the rate, count and mean |

## Left out

- The body of `calculate_json_similarity` (`similarity.py:80-115`), a cosine over character counts of `json.dumps` text, is a parameter (`JsonMeasure`). Only the properties it needs (1 on equal values, result in [0, 1]) are assumed of it, as the hypothesis `IsJsonMeasure`.
- Similarity.ValueSimilarity: compares values by Dafny equality. Python's cross-kind equality `1 == 1.0 == True` is not modelled: such values are unequal here and take the string path.
- Floats are exact reals. Rounding, `NaN` and infinities are not modelled.
- Text.Lower: only ASCII letters are lower-cased. Python's full Unicode case mapping is not modelled.
- JsonValues.Show: approximates `str`. Floats are shown with up to a few fractional digits rather than Python's shortest repr, and dicts are shown with their keys in sorted order rather than insertion order.
- JsonValues.Printable: every character above U+00FF counts as printable, so `repr`'s `\uXXXX` and `\UXXXXXXXX` escapes for the characters the Unicode database marks non-printable are not modelled.
- `round(..., 3)` in `compare_dialogs` (`multi_turn_evaluator.py:45-48`) is not applied; MultiTurn.CompareDialogs states the unrounded scores.
- MultiTurn.CompareDialogs, MultiTurn.DialogFlowSimilarity: require every turn of two non-empty dialogs to have a speaker (`FlowDefined`). The source raises `KeyError` in that case, and the exception path is not modelled.
- The per-invocation and regression detail strings (`similarity: {:.3f}`, the invocation labels) are labels (`Evaluator.Label`, `BaseEvaluator.Verdict`), not formatted text.
- The tool-name lists of `_analyze_tool_differences` and `_compare_tool_usage` come from Python sets in no fixed order; they are sets here.
- Evaluator.CreateBlockedComparisonResult: `list(failures)[0]` picks a member that depends on set iteration order; the model proves only that the one chosen belongs to the failure set.
- `_calculate_time_diff` and `_compare_success_status` (`evaluator.py:316-326`) are constant placeholders in the source; the time difference is the constant 0.
- `_extract_invocations` (`evaluator.py:296-314`) is not modelled: it feeds the base evaluator from raw logs.
- Timestamps (`datetime.now()`) and the report envelopes are not modelled.
- ToolCalls.Operation: a non-string `operation` input is treated as `""`. In the source, `operation.lower()` raises on such input.
- ScenarioRunner.FailureOf: records an absent tool name as `""`, where the source records `None`.
- A `response` entry of `None` (`.get("response", {}).get(...)` raises) is not modelled; the `is_error` marker is `Null` when absent.
- HtmlReporter.ExtractTextFromContent: renders a non-string `text` entry with `Show`, where Python returns the raw value.
- Reporter.OneDecimal: the `:.1f` rendering rounds half up on exact reals, where Python rounds the binary float half-to-even.
- `failed_scenarios_details` of the batch report, the human-readable and Markdown summaries, and HTML page assembly are not modelled.
- The recorder's I/O, Docker and git inspection, the async agent loop, `scenario_engine.py`, `cli.py` and the `multi_agent_*` modules are not part of this model.
