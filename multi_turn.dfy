/** `MultiTurnDialogEvaluator`: comparison of two multi-turn dialogs by their
    tool trajectories, their flow (speaker order and message lengths) and
    their turn counts. */
module MultiTurn {
  import opened Wrappers
  import opened JsonValues
  import opened ToolCalls
  import opened Similarity

  /** One entry of a `conversation_log`: its speaker (`None` when the key is
      absent), its message (`""` when absent) and its tool calls. */
  datatype Turn = Turn(speaker: Option<string>, message: string, toolCalls: seq<ToolCall>)

  // ---------------------------------------------------------------------------
  // Tool trajectory

  /** The `{tool_name, tool_input}` record the trajectory keeps of a call. */
  function Strip(c: ToolCall): ToolCall
  {
    ToolCall(c.name, c.input, None, Null)
  }

  function StripAll(calls: seq<ToolCall>): (r: seq<ToolCall>)
    ensures |r| == |calls|
    ensures forall i :: 0 <= i < |calls| ==> r[i] == Strip(calls[i])
  {
    if calls == [] then [] else [Strip(calls[0])] + StripAll(calls[1..])
  }

  lemma {:induction false} StripAllAppend(a: seq<ToolCall>, b: seq<ToolCall>)
    ensures StripAll(a + b) == StripAll(a) + StripAll(b)
  {
  }

  /** All tool calls of a dialog, turn by turn. */
  function Flatten(conversation: seq<Turn>): seq<ToolCall>
  {
    if conversation == [] then [] else conversation[0].toolCalls + Flatten(conversation[1..])
  }

  /** The `mcp__` calls of one turn, reduced to name and input. */
  function TurnTrajectory(calls: seq<ToolCall>): seq<ToolCall>
  {
    if calls == [] then []
    else (if IsMcp(calls[0]) then [Strip(calls[0])] else []) + TurnTrajectory(calls[1..])
  }

  lemma {:induction false} TurnTrajectoryIsStrippedFilter(calls: seq<ToolCall>)
    ensures TurnTrajectory(calls) == StripAll(McpCalls(calls))
    decreases |calls|
  {
    if calls != [] {
      TurnTrajectoryIsStrippedFilter(calls[1..]);
      var head := if IsMcp(calls[0]) then [calls[0]] else [];
      StripAllAppend(head, McpCalls(calls[1..]));
    }
  }

  lemma StrippedMcpCalls(calls: seq<ToolCall>)
    ensures forall i :: 0 <= i < |StripAll(McpCalls(calls))| ==>
              IsMcp(StripAll(McpCalls(calls))[i]) && StripAll(McpCalls(calls))[i].error == None
  {
    var m := McpCalls(calls);
    forall i | 0 <= i < |m| ensures IsMcp(m[i]) {
      assert m[i] in m;
    }
  }

  /** `_extract_tool_trajectory`: the `mcp__` calls of the whole dialog in turn
      order, then call order, reduced to name and input. */
  function ExtractToolTrajectory(conversation: seq<Turn>): (r: seq<ToolCall>)
    ensures r == StripAll(McpCalls(Flatten(conversation)))
    ensures forall i :: 0 <= i < |r| ==> IsMcp(r[i]) && r[i].error == None && r[i].isError == Null
  {
    if conversation == [] then []
    else
      var rest := ExtractToolTrajectory(conversation[1..]);
      TurnTrajectoryIsStrippedFilter(conversation[0].toolCalls);
      McpCallsAppend(conversation[0].toolCalls, Flatten(conversation[1..]));
      StripAllAppend(McpCalls(conversation[0].toolCalls), McpCalls(Flatten(conversation[1..])));
      StrippedMcpCalls(Flatten(conversation));
      TurnTrajectory(conversation[0].toolCalls) + rest
  }

  lemma {:induction false} McpCallsOfStripped(calls: seq<ToolCall>)
    ensures McpCalls(StripAll(calls)) == StripAll(McpCalls(calls))
    decreases |calls|
  {
    if calls != [] {
      McpCallsOfStripped(calls[1..]);
      assert StripAll(calls)[1..] == StripAll(calls[1..]);
    }
  }

  lemma {:induction false} PositionalSumOfStripped(a: seq<ToolCall>, b: seq<ToolCall>, json: JsonMeasure)
    ensures PositionalSum(StripAll(a), StripAll(b), json) == PositionalSum(a, b, json)
    decreases |a|
  {
    if a != [] && b != [] {
      PositionalSumOfStripped(a[1..], b[1..], json);
      assert StripAll(a)[1..] == StripAll(a[1..]) && StripAll(b)[1..] == StripAll(b[1..]);
    }
  }

  /** Reducing the calls to name and input loses nothing the trajectory score
      reads: a dialog's trajectory scores like its raw flattened tool calls. */
  lemma DialogTrajectoryScore(current: seq<Turn>, baseline: seq<Turn>, json: JsonMeasure)
    ensures TrajectorySimilarity(ExtractToolTrajectory(current), ExtractToolTrajectory(baseline), json) ==
            TrajectorySimilarity(Flatten(current), Flatten(baseline), json)
  {
    var m1, m2 := McpCalls(Flatten(current)), McpCalls(Flatten(baseline));
    McpCallsOfStripped(m1);
    McpCallsOfStripped(m2);
    McpCallsIdempotent(Flatten(current));
    McpCallsIdempotent(Flatten(baseline));
    PositionalSumOfStripped(m1, m2, json);
  }

  // ---------------------------------------------------------------------------
  // Longest common subsequence

  /** Length of a longest common subsequence, by the recurrence on the last elements. */
  function Lcs<T(==)>(a: seq<T>, b: seq<T>): nat
    decreases |a| + |b|
  {
    if a == [] || b == [] then 0
    else if a[|a| - 1] == b[|b| - 1] then Lcs(a[..|a| - 1], b[..|b| - 1]) + 1
    else
      var x, y := Lcs(a[..|a| - 1], b), Lcs(a, b[..|b| - 1]);
      if x < y then y else x
  }

  lemma {:induction false} LcsBound<T>(a: seq<T>, b: seq<T>)
    ensures Lcs(a, b) <= |a| && Lcs(a, b) <= |b|
    decreases |a| + |b|
  {
    if a != [] && b != [] {
      LcsBound(a[..|a| - 1], b[..|b| - 1]);
      LcsBound(a[..|a| - 1], b);
      LcsBound(a, b[..|b| - 1]);
    }
  }

  lemma {:induction false} LcsSymmetric<T>(a: seq<T>, b: seq<T>)
    ensures Lcs(a, b) == Lcs(b, a)
    decreases |a| + |b|
  {
    if a != [] && b != [] {
      LcsSymmetric(a[..|a| - 1], b[..|b| - 1]);
      LcsSymmetric(a[..|a| - 1], b);
      LcsSymmetric(a, b[..|b| - 1]);
    }
  }

  lemma {:induction false} LcsSelf<T>(a: seq<T>)
    ensures Lcs(a, a) == |a|
    decreases |a|
  {
    if a != [] {
      LcsSelf(a[..|a| - 1]);
    }
  }

  /** A common subsequence as long as both sequences is both of them. */
  lemma {:induction false} LcsFull<T>(a: seq<T>, b: seq<T>)
    requires Lcs(a, b) == |a| == |b|
    ensures a == b
    decreases |a|
  {
    if a != [] {
      var a', b' := a[..|a| - 1], b[..|b| - 1];
      LcsBound(a', b);
      LcsBound(a, b');
      assert a[|a| - 1] == b[|b| - 1];
      LcsFull(a', b');
      assert a == a' + [a[|a| - 1]] && b == b' + [b[|b| - 1]];
    }
  }

  /** The recurrence on prefixes, as the table fills it. */
  lemma LcsPrefixStep<T>(a: seq<T>, b: seq<T>, i: nat, j: nat)
    requires 1 <= i <= |a| && 1 <= j <= |b|
    ensures Lcs(a[..i], b[..j]) ==
            if a[i - 1] == b[j - 1] then Lcs(a[..i - 1], b[..j - 1]) + 1
            else if Lcs(a[..i - 1], b[..j]) < Lcs(a[..i], b[..j - 1]) then Lcs(a[..i], b[..j - 1])
            else Lcs(a[..i - 1], b[..j])
  {
    assert a[..i][..i - 1] == a[..i - 1];
    assert b[..j][..j - 1] == b[..j - 1];
  }

  /** The LCS reaches the longer length exactly when the sequences are equal. */
  lemma LcsOfNonEmpty<T>(a: seq<T>, b: seq<T>)
    ensures Lcs(a, b) <= Max(|a|, |b|)
    ensures Lcs(a, b) == Max(|a|, |b|) <==> a == b
  {
    LcsBound(a, b);
    if Lcs(a, b) == Max(|a|, |b|) {
      LcsFull(a, b);
    }
    if a == b {
      LcsSelf(a);
    }
  }

  /** The common subsequence is empty exactly when the sequences share no
      element. */
  lemma {:induction false} LcsZero<T>(a: seq<T>, b: seq<T>)
    ensures Lcs(a, b) == 0 <==> forall x :: x in a ==> x !in b
    decreases |a| + |b|
  {
    if a != [] && b != [] {
      var a', b' := a[..|a| - 1], b[..|b| - 1];
      if a[|a| - 1] == b[|b| - 1] {
        assert a[|a| - 1] in b;
      } else {
        LcsZero(a', b);
        LcsZero(a, b');
        if exists x :: x in a && x in b {
          var x :| x in a && x in b;
          var i :| 0 <= i < |a| && a[i] == x;
          var j :| 0 <= j < |b| && b[j] == x;
          if i < |a| - 1 {
            assert a'[i] == x;
          } else {
            assert j < |b| - 1;
            assert b'[j] == x;
          }
        }
        assert forall x :: x in a' ==> x in a;
        assert forall x :: x in b' ==> x in b;
      }
    }
  }

  /** The score `_lcs_similarity` computes: 0.0 when either sequence is empty,
      else the LCS length over the longer length. */
  function LcsRatio<T(==)>(a: seq<T>, b: seq<T>): (r: real)
    ensures 0.0 <= r <= 1.0
    ensures r == 1.0 <==> a != [] && a == b
    ensures r == 0.0 <==> Lcs(a, b) == 0
    ensures r == 0.0 <==> forall x :: x in a ==> x !in b
  {
    LcsZero(a, b);
    if a == [] || b == [] then 0.0
    else
      LcsOfNonEmpty(a, b);
      Ratio(Lcs(a, b) as real, Max(|a|, |b|) as real)
  }

  lemma LcsRatioSymmetric<T>(a: seq<T>, b: seq<T>)
    ensures LcsRatio(a, b) == LcsRatio(b, a)
  {
    LcsSymmetric(a, b);
  }

  /** `_lcs_similarity`: the table `dp[i, j]` holds the LCS length of the
      first `i` and first `j` elements. */
  method LcsSimilarity<T(==)>(seq1: seq<T>, seq2: seq<T>) returns (r: real)
    ensures r == LcsRatio(seq1, seq2)
  {
    if |seq1| == 0 || |seq2| == 0 {
      return 0.0;
    }
    var m, n := |seq1|, |seq2|;
    var dp := new nat[m + 1, n + 1]((i, j) => 0);
    for i := 1 to m + 1
      invariant forall i', j' :: 0 <= i' < i && 0 <= j' <= n ==> dp[i', j'] == Lcs(seq1[..i'], seq2[..j'])
      invariant forall i', j' :: i <= i' <= m && 0 <= j' <= n ==> dp[i', j'] == 0
    {
      for j := 1 to n + 1
        invariant forall i', j' :: 0 <= i' < i && 0 <= j' <= n ==> dp[i', j'] == Lcs(seq1[..i'], seq2[..j'])
        invariant forall j' :: 0 <= j' < j ==> dp[i, j'] == Lcs(seq1[..i], seq2[..j'])
        invariant forall i', j' :: i < i' <= m && 0 <= j' <= n ==> dp[i', j'] == 0
      {
        LcsPrefixStep(seq1, seq2, i, j);
        if seq1[i - 1] == seq2[j - 1] {
          dp[i, j] := dp[i - 1, j - 1] + 1;
        } else {
          dp[i, j] := if dp[i - 1, j] < dp[i, j - 1] then dp[i, j - 1] else dp[i - 1, j];
        }
      }
    }
    assert seq1[..m] == seq1 && seq2[..n] == seq2;
    var lcsLength := dp[m, n];
    LcsBound(seq1, seq2);
    r := Ratio(lcsLength as real, Max(m, n) as real);
  }

  // ---------------------------------------------------------------------------
  // Numeric sequences

  /** `1 - |a - b| / max(a, b, 1)`. */
  function PairSimilarity(a: nat, b: nat): (r: real)
    ensures 0.0 <= r <= 1.0
    ensures r == 1.0 <==> a == b
  {
    var top := if a < b then b else a;
    var scale := if top < 1 then 1 else top;
    var diff := if a < b then b - a else a - b;
    1.0 - Ratio(diff as real, scale as real)
  }

  /** `seq + [0] * (n - len(seq))`. */
  function Padded(s: seq<nat>, n: nat): (r: seq<nat>)
    requires |s| <= n
    ensures |r| == n
  {
    s + seq(n - |s|, _ => 0)
  }

  function SumPairSimilarity(p1: seq<nat>, p2: seq<nat>): (r: real)
    requires |p1| == |p2|
    ensures 0.0 <= r <= |p1| as real
    ensures r == |p1| as real <==> p1 == p2
  {
    if p1 == [] then 0.0
    else
      var rest := SumPairSimilarity(p1[1..], p2[1..]);
      assert p1 == [p1[0]] + p1[1..] && p2 == [p2[0]] + p2[1..];
      PairSimilarity(p1[0], p2[0]) + rest
  }

  lemma {:induction false} SumPairSimilaritySymmetric(p1: seq<nat>, p2: seq<nat>)
    requires |p1| == |p2|
    ensures SumPairSimilarity(p1, p2) == SumPairSimilarity(p2, p1)
    decreases |p1|
  {
    if p1 != [] {
      SumPairSimilaritySymmetric(p1[1..], p2[1..]);
    }
  }

  lemma PaddedToOwnLength(s: seq<nat>)
    ensures Padded(s, |s|) == s
  {
    assert seq(0, _ => 0) == [];
  }

  /** `_compare_sequences`: 0.0 when either is empty, else the mean pair
      similarity of the zero-padded sequences. */
  function CompareSequences(s1: seq<nat>, s2: seq<nat>): (r: real)
    ensures 0.0 <= r <= 1.0
    ensures r == 1.0 <==> s1 != [] && s2 != [] && Padded(s1, Max(|s1|, |s2|)) == Padded(s2, Max(|s1|, |s2|))
  {
    if s1 == [] || s2 == [] then 0.0
    else
      var n := Max(|s1|, |s2|);
      Ratio(SumPairSimilarity(Padded(s1, n), Padded(s2, n)), n as real)
  }

  lemma CompareSequencesSymmetric(s1: seq<nat>, s2: seq<nat>)
    ensures CompareSequences(s1, s2) == CompareSequences(s2, s1)
  {
    if s1 != [] && s2 != [] {
      var n := Max(|s1|, |s2|);
      SumPairSimilaritySymmetric(Padded(s1, n), Padded(s2, n));
    }
  }

  // ---------------------------------------------------------------------------
  // Dialog flow and turn counts

  predicate HasSpeakers(conversation: seq<Turn>)
  {
    forall i :: 0 <= i < |conversation| ==> conversation[i].speaker.Some?
  }

  /** `[turn['speaker'] for turn in conversation]`. */
  function Speakers(conversation: seq<Turn>): (r: seq<string>)
    requires HasSpeakers(conversation)
    ensures |r| == |conversation|
  {
    seq(|conversation|, i requires 0 <= i < |conversation| => conversation[i].speaker.value)
  }

  /** `[len(turn.get('message', '')) for turn in conversation]`. */
  function MessageLengths(conversation: seq<Turn>): (r: seq<nat>)
    ensures |r| == |conversation|
  {
    seq(|conversation|, i requires 0 <= i < |conversation| => |conversation[i].message|)
  }

  /** The source reads `turn['speaker']` only when both dialogs are non-empty;
      a missing speaker there raises. */
  predicate FlowDefined(current: seq<Turn>, baseline: seq<Turn>)
  {
    current != [] && baseline != [] ==> HasSpeakers(current) && HasSpeakers(baseline)
  }

  /** `_calculate_dialog_flow_similarity`: 0.0 when either dialog is empty,
      else the mean of the speaker-order LCS score and the message-length
      score. */
  function DialogFlowSimilarity(current: seq<Turn>, baseline: seq<Turn>): (r: real)
    requires FlowDefined(current, baseline)
    ensures 0.0 <= r <= 1.0
    ensures current == [] || baseline == [] ==> r == 0.0
    ensures r == 1.0 <==> current != [] && baseline != [] && Speakers(current) == Speakers(baseline) &&
                          MessageLengths(current) == MessageLengths(baseline)
  {
    if current == [] || baseline == [] then 0.0
    else
      var speakers := LcsRatio(Speakers(current), Speakers(baseline));
      var lengths := CompareSequences(MessageLengths(current), MessageLengths(baseline));
      PaddedToOwnLength(MessageLengths(current));
      PaddedToOwnLength(MessageLengths(baseline));
      (speakers + lengths) / 2.0
  }

  /** One minus the missing share is the present share. */
  lemma ComplementRatio(part: real, whole: real)
    requires 0.0 <= part <= whole && whole > 0.0
    ensures 1.0 - Ratio(whole - part, whole) == Ratio(part, whole)
  {
    var x, y := Ratio(whole - part, whole), Ratio(part, whole);
    assert x + y == (whole - part) / whole + part / whole;
    assert (whole - part) / whole + part / whole == whole / whole;
    assert whole / whole == 1.0;
  }

  /** `_calculate_turn_similarity`. */
  function TurnSimilarity(current: seq<Turn>, baseline: seq<Turn>): (r: real)
    ensures 0.0 <= r <= 1.0
    ensures baseline == [] ==> r == (if current == [] then 1.0 else 0.0)
    ensures baseline != [] ==> r == Ratio(Min(|current|, |baseline|) as real, Max(|current|, |baseline|) as real)
    ensures r == 1.0 <==> |current| == |baseline|
  {
    if baseline == [] then (if current == [] then 1.0 else 0.0)
    else
      var diff := if |current| < |baseline| then |baseline| - |current| else |current| - |baseline|;
      var maxTurns := Max(|current|, |baseline|);
      if maxTurns == 0 then 1.0
      else
        var sim := 1.0 - Ratio(diff as real, maxTurns as real);
        ComplementRatio(Min(|current|, |baseline|) as real, maxTurns as real);
        if sim < 0.0 then 0.0 else sim
  }

  // ---------------------------------------------------------------------------
  // Turn by turn

  /** One entry of `_analyze_turns`; the side fields are `None` where that
      dialog has no turn. */
  datatype TurnAnalysis = TurnAnalysis(
    turnNumber: nat, currentPresent: bool, baselinePresent: bool,
    currentSpeaker: Option<string>, currentToolCalls: Option<nat>, currentMessageLength: Option<nat>,
    baselineSpeaker: Option<string>, baselineToolCalls: Option<nat>, baselineMessageLength: Option<nat>,
    similarity: real)

  /** The entry for turn `i`; a turn without a speaker counts as `Unknown`. */
  function TurnAt(current: seq<Turn>, baseline: seq<Turn>, i: nat): (t: TurnAnalysis)
    ensures t.turnNumber == i
    ensures t.currentPresent <==> i < |current|
    ensures t.baselinePresent <==> i < |baseline|
    ensures t.similarity == 0.0 || t.similarity == 0.5 || t.similarity == 1.0
    ensures t.similarity == 1.0 <==>
              i < |current| && i < |baseline| && current[i].speaker.GetOr("Unknown") == baseline[i].speaker.GetOr("Unknown") &&
              |current[i].toolCalls| == |baseline[i].toolCalls|
    ensures t.similarity == 0.5 <==>
              i < |current| && i < |baseline| && current[i].speaker.GetOr("Unknown") == baseline[i].speaker.GetOr("Unknown") &&
              |current[i].toolCalls| != |baseline[i].toolCalls|
  {
    var cur := i < |current|;
    var base := i < |baseline|;
    var cs := if cur then Some(current[i].speaker.GetOr("Unknown")) else None;
    var cc := if cur then Some(|current[i].toolCalls|) else None;
    var cm := if cur then Some(|current[i].message|) else None;
    var bs := if base then Some(baseline[i].speaker.GetOr("Unknown")) else None;
    var bc := if base then Some(|baseline[i].toolCalls|) else None;
    var bm := if base then Some(|baseline[i].message|) else None;
    var similarity :=
      if cur && base then
        var speakerMatch := cs == bs;
        var toolCallsMatch := cc.GetOr(0) == bc.GetOr(0);
        if speakerMatch && toolCallsMatch then 1.0 else if speakerMatch then 0.5 else 0.0
      else 0.0;
    TurnAnalysis(i, cur, base, cs, cc, cm, bs, bc, bm, similarity)
  }

  /** `_analyze_turns`: one entry per turn of the longer dialog. */
  function AnalyzeTurns(current: seq<Turn>, baseline: seq<Turn>): (r: seq<TurnAnalysis>)
    ensures |r| == Max(|current|, |baseline|)
    ensures forall i :: 0 <= i < |r| ==> r[i] == TurnAt(current, baseline, i)
  {
    seq(Max(|current|, |baseline|), i requires 0 <= i => TurnAt(current, baseline, i))
  }

  // ---------------------------------------------------------------------------
  // Tool usage

  datatype ToolUsage = ToolUsage(
    commonTools: set<string>, currentOnlyTools: set<string>, baselineOnlyTools: set<string>,
    toolOverlapRatio: real, currentToolCount: nat, baselineToolCount: nat)

  /** `len(common) / len(baseline_tools)`, 0 without baseline tools: the share
      of the baseline's names that the current dialog uses. */
  function OverlapRatio(names1: set<string>, names2: set<string>): (r: real)
    ensures 0.0 <= r <= 1.0
    ensures names2 == {} ==> r == 0.0
    ensures names2 != {} ==> (r == 1.0 <==> names2 <= names1)
  {
    if names2 == {} then 0.0
    else
      var common := names1 * names2;
      SubsetSize(common, names2);
      assert common == names2 <==> names2 <= names1;
      Ratio(|common| as real, |names2| as real)
  }

  /** Two sets split into their intersection and the two differences. */
  lemma SplitSets<T>(a: set<T>, b: set<T>)
    ensures (a * b) !! (a - b) && (a * b) !! (b - a) && (a - b) !! (b - a)
    ensures (a * b) + (a - b) == a && (a * b) + (b - a) == b
  {
  }

  /** `_compare_tool_usage`: the two name sets split into common and one-sided
      parts, and the share of the baseline's names the current dialog uses. */
  function CompareToolUsage(current: seq<ToolCall>, baseline: seq<ToolCall>): (u: ToolUsage)
    ensures u.commonTools !! u.currentOnlyTools && u.commonTools !! u.baselineOnlyTools &&
            u.currentOnlyTools !! u.baselineOnlyTools
    ensures u.commonTools + u.currentOnlyTools == ToolNames(current)
    ensures u.commonTools + u.baselineOnlyTools == ToolNames(baseline)
    ensures 0.0 <= u.toolOverlapRatio <= 1.0
    ensures ToolNames(baseline) == {} ==> u.toolOverlapRatio == 0.0
    ensures ToolNames(baseline) != {} ==> (u.toolOverlapRatio == 1.0 <==> ToolNames(baseline) <= ToolNames(current))
    ensures u.currentToolCount == |current| && u.baselineToolCount == |baseline|
  {
    var names1, names2 := ToolNames(current), ToolNames(baseline);
    SplitSets(names1, names2);
    ToolUsage(names1 * names2, names1 - names2, names2 - names1, OverlapRatio(names1, names2), |current|, |baseline|)
  }

  // ---------------------------------------------------------------------------
  // The whole comparison

  /** The unrounded `compare_dialogs` result. */
  datatype DialogComparison = DialogComparison(
    overallSimilarity: real, trajectorySimilarity: real, dialogFlowSimilarity: real, turnSimilarity: real,
    currentTurns: nat, baselineTurns: nat, currentToolCalls: nat, baselineToolCalls: nat,
    turnByTurnAnalysis: seq<TurnAnalysis>, toolUsageComparison: ToolUsage)

  /** `compare_dialogs`: 40% trajectory, 35% flow, 25% turn count. */
  function CompareDialogs(current: seq<Turn>, baseline: seq<Turn>, json: JsonMeasure): (r: DialogComparison)
    requires FlowDefined(current, baseline)
    ensures IsJsonMeasure(json) ==> 0.0 <= r.overallSimilarity <= 1.0
    ensures current == baseline && current != [] ==> r.overallSimilarity == 1.0
    ensures r.trajectorySimilarity == TrajectorySimilarity(Flatten(current), Flatten(baseline), json)
    ensures r.currentToolCalls == |McpCalls(Flatten(current))| && r.baselineToolCalls == |McpCalls(Flatten(baseline))|
  {
    var t1, t2 := ExtractToolTrajectory(current), ExtractToolTrajectory(baseline);
    DialogTrajectoryScore(current, baseline, json);
    var trajectory := TrajectorySimilarity(t1, t2, json);
    var flow := DialogFlowSimilarity(current, baseline);
    var turns := TurnSimilarity(current, baseline);
    var overall := trajectory * 0.4 + flow * 0.35 + turns * 0.25;
    DialogComparison(overall, trajectory, flow, turns, |current|, |baseline|, |t1|, |t2|,
                     AnalyzeTurns(current, baseline), CompareToolUsage(t1, t2))
  }
}
