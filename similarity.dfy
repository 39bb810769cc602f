/** The similarity library: scores in [0, 1] for key sets, strings, numbers,
    single values, argument maps, single tool calls and whole trajectories. */
module Similarity {
  import opened Wrappers
  import opened Text
  import opened JsonValues
  import opened ToolCalls

  /** A score for two composite values (lists, dicts). The source's
      character-frequency cosine over `json.dumps(..., sort_keys=True)` is not
      modelled; it enters as a parameter that keeps the two properties the
      source relies on. */
  type JsonMeasure = (Value, Value) -> real

  ghost predicate IsJsonMeasure(json: JsonMeasure)
  {
    && (forall a, b :: 0.0 <= json(a, b) <= 1.0)
    && (forall a :: json(a, a) == 1.0)
  }

  /** Default normalisation of `calculate_number_similarity`. */
  const DefaultMaxDiff: real := 1000.0

  function Abs(x: real): real
  {
    if x < 0.0 then -x else x
  }

  /** `part / whole`, with the facts the scores need stated once. */
  function Ratio(part: real, whole: real): (r: real)
    requires whole > 0.0
    ensures r * whole == part
    ensures 0.0 <= part <= whole ==> 0.0 <= r <= 1.0
    ensures r == 1.0 <==> part == whole
    ensures part == 0.0 ==> r == 0.0
  {
    part / whole
  }

  lemma RatioMonotone(a: real, b: real, whole: real)
    requires whole > 0.0 && a <= b
    ensures a / whole <= b / whole
  {
  }

  /** A distance of at least the scale leaves nothing of the fall-off. */
  lemma FallOffReachesZero(d: real, scale: real)
    requires scale > 0.0 && d >= scale
    ensures 1.0 - d / scale <= 0.0
  {
    RatioMonotone(scale, d, scale);
    assert scale / scale == 1.0;
  }

  lemma {:induction false} SubsetSize<T>(a: set<T>, b: set<T>)
    requires a <= b
    ensures |a| <= |b|
    ensures |a| == |b| ==> a == b
  {
    var rest := b - a;
    assert b == a + rest && a * rest == {};
    if |a| == |b| {
      assert |rest| == 0;
    }
  }

  /** `calculate_key_similarity`: the Jaccard index of two key sets, with the
      empty cases fixed. */
  function KeySimilarity(keys1: set<string>, keys2: set<string>): (r: real)
    ensures 0.0 <= r <= 1.0
    ensures keys1 == {} && keys2 == {} ==> r == 1.0
    ensures (keys1 == {}) != (keys2 == {}) ==> r == 0.0
    ensures keys1 != {} && keys2 != {} ==> r * (|keys1 + keys2| as real) == |keys1 * keys2| as real
    ensures r == 1.0 <==> keys1 == keys2
    ensures r == 0.0 <==> keys1 * keys2 == {} && keys1 + keys2 != {}
  {
    if keys1 == {} && keys2 == {} then 1.0
    else if keys1 == {} || keys2 == {} then 0.0
    else
      SubsetSize(keys1 * keys2, keys1 + keys2);
      assert keys1 * keys2 == keys1 + keys2 ==> keys1 == keys2 by {
        if keys1 * keys2 == keys1 + keys2 {
          assert forall x :: x in keys1 <==> x in keys2 by {
            forall x ensures x in keys1 <==> x in keys2 {
              assert x in keys1 ==> x in keys1 + keys2;
              assert x in keys2 ==> x in keys1 + keys2;
            }
          }
        }
      }
      (|keys1 * keys2| as real) / (|keys1 + keys2| as real)
  }

  /** `calculate_string_similarity`: 1.0 for equal strings, otherwise the
      Jaccard index of the lower-cased word sets. */
  function StringSimilarity(s1: string, s2: string): (r: real)
    ensures 0.0 <= r <= 1.0
    ensures s1 == s2 ==> r == 1.0
    ensures Lower(s1) == Lower(s2) ==> r == 1.0
    ensures Blank(s1) && Blank(s2) ==> r == 1.0
    ensures Blank(s1) != Blank(s2) ==> r == 0.0
    ensures r == 1.0 <==> s1 == s2 || Words(Lower(s1)) == Words(Lower(s2))
  {
    LowerKeepsBlank(s1);
    LowerKeepsBlank(s2);
    if s1 == s2 then 1.0 else KeySimilarity(Words(Lower(s1)), Words(Lower(s2)))
  }

  /** `calculate_number_similarity`: linear fall-off of the distance, floored
      at 0; different numbers against a zero scale divide by zero. */
  function NumberSimilarity(num1: real, num2: real, maxDiff: real): (r: Result<real, string>)
    ensures r.Err? <==> num1 != num2 && maxDiff == 0.0
    ensures num1 == num2 ==> r == Ok(1.0)
    ensures maxDiff > 0.0 ==> 0.0 <= r.value <= 1.0
    ensures maxDiff > 0.0 ==> (r.value == 1.0 <==> num1 == num2)
    ensures maxDiff > 0.0 && Abs(num1 - num2) >= maxDiff ==> r.value == 0.0
    ensures maxDiff < 0.0 && num1 != num2 ==> r.Ok? && r.value > 1.0
  {
    if num1 == num2 then Ok(1.0)
    else if maxDiff == 0.0 then Err("float division by zero")
    else
      var sim := 1.0 - Abs(num1 - num2) / maxDiff;
      if maxDiff > 0.0 && Abs(num1 - num2) >= maxDiff then
        FallOffReachesZero(Abs(num1 - num2), maxDiff);
        Ok(if sim < 0.0 then 0.0 else sim)
      else
        Ok(if sim < 0.0 then 0.0 else sim)
  }

  /** Closer numbers never score lower. */
  lemma NumberSimilarityMonotone(a1: real, b1: real, a2: real, b2: real, maxDiff: real)
    requires maxDiff > 0.0
    requires Abs(a1 - b1) <= Abs(a2 - b2)
    ensures NumberSimilarity(a2, b2, maxDiff).value <= NumberSimilarity(a1, b1, maxDiff).value
  {
    RatioMonotone(Abs(a1 - b1), Abs(a2 - b2), maxDiff);
  }

  /** The three values the unit tests pin. */
  lemma NumberSimilarityExamples()
    ensures NumberSimilarity(100.0, 110.0, DefaultMaxDiff) == Ok(0.99)
    ensures NumberSimilarity(0.0, 1000.0, DefaultMaxDiff) == Ok(0.0)
    ensures NumberSimilarity(0.0, 50.0, 100.0) == Ok(0.5)
  {
  }

  /** `float(b)` for a Python bool, which is an `int`. */
  function BoolAsNumber(b: bool): real
  {
    if b then 1.0 else 0.0
  }

  /** `calculate_value_similarity`: exact match, then `None`, then a type
      mismatch (compared as strings), then a per-type measure. A `bool` is an
      `int` to Python's `isinstance`, so two booleans reach the number measure. */
  function ValueSimilarity(v1: Value, v2: Value, json: JsonMeasure): (r: real)
    ensures IsJsonMeasure(json) ==> 0.0 <= r <= 1.0
    ensures v1 == v2 ==> r == 1.0
    ensures v1 != v2 && (v1.Null? || v2.Null?) ==> r == 0.0
    ensures !SameKind(v1, v2) && !v1.Null? && !v2.Null? ==> r == StringSimilarity(Show(v1), Show(v2))
    ensures v1.Str? && v2.Str? ==> r == StringSimilarity(v1.s, v2.s)
    ensures v1.Int? && v2.Int? ==> r == NumberSimilarity(v1.i as real, v2.i as real, DefaultMaxDiff).value
    ensures v1.Float? && v2.Float? ==> r == NumberSimilarity(v1.f, v2.f, DefaultMaxDiff).value
    ensures v1 != v2 && ((v1.Arr? && v2.Arr?) || (v1.Obj? && v2.Obj?)) ==> r == json(v1, v2)
  {
    if v1 == v2 then 1.0
    else if v1.Null? || v2.Null? then (if v1.Null? != v2.Null? then 0.0 else 1.0)
    else if !SameKind(v1, v2) then StringSimilarity(Show(v1), Show(v2))
    else
      match v1
      case Str(s) => StringSimilarity(s, v2.s)
      case Bool(b) => NumberSimilarity(BoolAsNumber(b), BoolAsNumber(v2.b), DefaultMaxDiff).value
      case Int(i) => NumberSimilarity(i as real, v2.i as real, DefaultMaxDiff).value
      case Float(f) => NumberSimilarity(f, v2.f, DefaultMaxDiff).value
      case Arr(_) => json(v1, v2)
      case Obj(_) => json(v1, v2)
  }

  /** An integer and its decimal text compare as equal strings. */
  lemma IntAgainstItsText(i: int, json: JsonMeasure)
    ensures ValueSimilarity(Int(i), Str(IntToString(i)), json) == 1.0
  {
  }

  /** Two opposite booleans are numbers 0 and 1 apart: they score 0.999. */
  lemma OppositeBooleans(json: JsonMeasure)
    ensures ValueSimilarity(Bool(true), Bool(false), json) == 0.999
  {
  }

  /** Sum of the value similarities at `keys`. */
  function SumValueSimilarity(keys: seq<string>, args1: map<string, Value>, args2: map<string, Value>, json: JsonMeasure): (r: real)
    requires forall k :: k in keys ==> k in args1 && k in args2
    ensures IsJsonMeasure(json) ==> 0.0 <= r <= |keys| as real
  {
    if keys == [] then 0.0
    else ValueSimilarity(args1[keys[0]], args2[keys[0]], json) + SumValueSimilarity(keys[1..], args1, args2, json)
  }

  /** Mean of the value similarities at a non-empty list of common keys. */
  function MeanValueSimilarity(keys: seq<string>, args1: map<string, Value>, args2: map<string, Value>, json: JsonMeasure): (r: real)
    requires keys != []
    requires forall k :: k in keys ==> k in args1 && k in args2
    ensures IsJsonMeasure(json) ==> 0.0 <= r <= 1.0
  {
    Ratio(SumValueSimilarity(keys, args1, args2, json), |keys| as real)
  }

  /** `calculate_args_similarity`: equal or both-empty maps score 1.0; with no
      common key the score is half the key similarity (which is then 0);
      otherwise 30% key overlap plus 70% mean value similarity over the
      common keys. */
  function ArgsSimilarity(args1: map<string, Value>, args2: map<string, Value>, json: JsonMeasure): (r: real)
    ensures IsJsonMeasure(json) ==> 0.0 <= r <= 1.0
    ensures args1 == args2 ==> r == 1.0
    ensures args1 != args2 && args1.Keys * args2.Keys == {} ==> r == KeySimilarity(args1.Keys, args2.Keys) * 0.5 == 0.0
    ensures IsJsonMeasure(json) && r == 1.0 ==> args1.Keys == args2.Keys
  {
    if args1 == args2 || (|args1| == 0 && |args2| == 0) then 1.0
    else
      var keySim := KeySimilarity(args1.Keys, args2.Keys);
      var common := args1.Keys * args2.Keys;
      if common == {} then
        keySim * 0.5
      else
        var keys := SortedKeys(common);
        assert keys != [] by {
          var k :| k in common;
          assert k in keys;
        }
        keySim * 0.3 + MeanValueSimilarity(keys, args1, args2, json) * 0.7
  }

  /** `calculate_tool_call_similarity`: 0 across different tools, otherwise
      the similarity of the arguments. */
  function ToolCallSimilarity(call1: ToolCall, call2: ToolCall, json: JsonMeasure): (r: real)
    ensures IsJsonMeasure(json) ==> 0.0 <= r <= 1.0
    ensures call1.name != call2.name ==> r == 0.0
    ensures call1.name == call2.name ==> r == ArgsSimilarity(call1.input, call2.input, json)
    ensures call1.name == call2.name && call1.input == call2.input ==> r == 1.0
  {
    if call1.name != call2.name then 0.0 else ArgsSimilarity(call1.input, call2.input, json)
  }

  function Min(a: int, b: int): int
  {
    if a < b then a else b
  }

  function Max(a: int, b: int): int
  {
    if a < b then b else a
  }

  /** Sum of the call similarities at each position both sequences fill;
      positions only one of them fills add 0. */
  function PositionalSum(calls1: seq<ToolCall>, calls2: seq<ToolCall>, json: JsonMeasure): (r: real)
    ensures IsJsonMeasure(json) ==> 0.0 <= r <= Min(|calls1|, |calls2|) as real
  {
    if calls1 == [] || calls2 == [] then 0.0
    else ToolCallSimilarity(calls1[0], calls2[0], json) + PositionalSum(calls1[1..], calls2[1..], json)
  }

  /** A trajectory against itself sums a full point per position. */
  lemma {:induction false} PositionalSumSelf(calls: seq<ToolCall>, json: JsonMeasure)
    ensures PositionalSum(calls, calls, json) == |calls| as real
    decreases |calls|
  {
    if calls != [] {
      PositionalSumSelf(calls[1..], json);
    }
  }

  /** The positional mean over the longer of two non-empty trajectories. */
  function PositionalMean(m1: seq<ToolCall>, m2: seq<ToolCall>, json: JsonMeasure): (r: real)
    requires m1 != [] && m2 != []
    ensures IsJsonMeasure(json) ==> 0.0 <= r <= 1.0
    ensures m1 == m2 ==> r == 1.0
  {
    var sum := PositionalSum(m1, m2, json);
    var longest := Max(|m1|, |m2|) as real;
    PositionalSumSelf(m1, json);
    Ratio(sum, longest)
  }

  /** `calculate_trajectory_similarity`: over the `mcp__` calls only; both
      empty scores 1.0, exactly one empty 0.0, otherwise the strictly
      positional mean over the longer length. */
  function TrajectorySimilarity(calls1: seq<ToolCall>, calls2: seq<ToolCall>, json: JsonMeasure): (r: real)
    ensures IsJsonMeasure(json) ==> 0.0 <= r <= 1.0
    ensures McpCalls(calls1) == [] && McpCalls(calls2) == [] ==> r == 1.0
    ensures (McpCalls(calls1) == []) != (McpCalls(calls2) == []) ==> r == 0.0
    ensures McpCalls(calls1) == McpCalls(calls2) ==> r == 1.0
    ensures McpCalls(calls1) != [] && McpCalls(calls2) != [] ==> r == PositionalMean(McpCalls(calls1), McpCalls(calls2), json)
  {
    var m1 := McpCalls(calls1);
    var m2 := McpCalls(calls2);
    if m1 == [] && m2 == [] then 1.0
    else if m1 == [] || m2 == [] then 0.0
    else PositionalMean(m1, m2, json)
  }

  /** Against a prefix of itself a trajectory scores the prefix's share. */
  lemma {:induction false} PositionalSumPrefix(calls: seq<ToolCall>, n: nat, json: JsonMeasure)
    requires n <= |calls|
    ensures PositionalSum(calls, calls[..n], json) == n as real
    decreases n
  {
    if n > 0 {
      assert calls[..n][1..] == calls[1..][..n - 1];
      PositionalSumPrefix(calls[1..], n - 1, json);
    }
  }

  /** Truncation: dropping the tail of a trajectory scores what is left over
      the full length; a two-call run against its first call scores 0.5. */
  lemma TrajectoryAgainstPrefix(calls1: seq<ToolCall>, calls2: seq<ToolCall>, json: JsonMeasure)
    requires var m1, m2 := McpCalls(calls1), McpCalls(calls2);
             m2 != [] && |m2| <= |m1| && m1[..|m2|] == m2
    ensures TrajectorySimilarity(calls1, calls2, json) == (|McpCalls(calls2)| as real) / (|McpCalls(calls1)| as real)
  {
    var m1, m2 := McpCalls(calls1), McpCalls(calls2);
    PositionalSumPrefix(m1, |m2|, json);
  }

  /** Every aligned pair of calls names different tools. */
  predicate NamesDifferEverywhere(calls1: seq<ToolCall>, calls2: seq<ToolCall>)
  {
    forall i :: 0 <= i < |calls1| && i < |calls2| ==> calls1[i].name != calls2[i].name
  }

  lemma {:induction false} PositionalSumNamesDiffer(calls1: seq<ToolCall>, calls2: seq<ToolCall>, json: JsonMeasure)
    requires NamesDifferEverywhere(calls1, calls2)
    ensures PositionalSum(calls1, calls2, json) == 0.0
    decreases |calls1|
  {
    if calls1 != [] && calls2 != [] {
      assert calls1[0].name != calls2[0].name;
      assert NamesDifferEverywhere(calls1[1..], calls2[1..]) by {
        forall i | 0 <= i < |calls1[1..]| && i < |calls2[1..]|
          ensures calls1[1..][i].name != calls2[1..][i].name
        {
          assert calls1[1..][i] == calls1[i + 1] && calls2[1..][i] == calls2[i + 1];
        }
      }
      PositionalSumNamesDiffer(calls1[1..], calls2[1..], json);
    }
  }

  /** Strict positional comparison: when every aligned pair names different
      tools (two swapped calls, say) the trajectories score 0. */
  lemma TrajectoryNamesDiffer(calls1: seq<ToolCall>, calls2: seq<ToolCall>, json: JsonMeasure)
    requires NamesDifferEverywhere(McpCalls(calls1), McpCalls(calls2))
    ensures TrajectorySimilarity(calls1, calls2, json) == 0.0 || (McpCalls(calls1) == [] && McpCalls(calls2) == [])
  {
    PositionalSumNamesDiffer(McpCalls(calls1), McpCalls(calls2), json);
  }
}
