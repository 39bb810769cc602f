/** The recorded tool invocation and run status shared by the recorder, the
    evaluators and the reporters. */
module ToolCalls {
  import opened Wrappers
  import opened Text
  import opened JsonValues

  /** One entry of a run's `tool_calls_summary`: the tool's name (`""` when
      absent), its `tool_input` arguments, its `error` entry (`None` when the key
      is absent) and the `is_error` marker of its `response` (`Null` when either
      is absent). */
  datatype ToolCall = ToolCall(name: string, input: map<string, Value>, error: Option<Value>, isError: Value)

  /** Status of a whole run, as the recorder and the analyzer write it. */
  datatype Status = Success | Partial | Failed | Blocked | Empty
  {
    function Name(): string
    {
      match this
      case Success => "SUCCESS"
      case Partial => "PARTIAL"
      case Failed => "FAILED"
      case Blocked => "BLOCKED"
      case Empty => "EMPTY"
    }
  }

  /** Namespace prefix of the calls into the monitored MCP subsystem. */
  const McpPrefix: string := "mcp__"

  predicate IsMcp(c: ToolCall)
  {
    StartsWith(c.name, McpPrefix)
  }

  /** `[call for call in calls if call.get('tool_name', '').startswith('mcp__')]`. */
  function McpCalls(calls: seq<ToolCall>): (r: seq<ToolCall>)
    ensures |r| <= |calls|
    ensures forall c :: c in r <==> c in calls && IsMcp(c)
  {
    if calls == [] then []
    else (if IsMcp(calls[0]) then [calls[0]] else []) + McpCalls(calls[1..])
  }

  lemma {:induction false} McpCallsAppend(a: seq<ToolCall>, b: seq<ToolCall>)
    ensures McpCalls(a + b) == McpCalls(a) + McpCalls(b)
    decreases |a|
  {
    if a == [] {
      assert a + b == b;
    } else {
      assert (a + b)[0] == a[0] && (a + b)[1..] == a[1..] + b;
      McpCallsAppend(a[1..], b);
    }
  }

  lemma {:induction false} McpCallsIdempotent(calls: seq<ToolCall>)
    ensures McpCalls(McpCalls(calls)) == McpCalls(calls)
    decreases |calls|
  {
    if calls != [] {
      McpCallsIdempotent(calls[1..]);
      var head := if IsMcp(calls[0]) then [calls[0]] else [];
      McpCallsAppend(head, McpCalls(calls[1..]));
    }
  }

  /** `set(call["tool_name"] for call in calls)`. */
  function ToolNames(calls: seq<ToolCall>): set<string>
  {
    set c | c in calls :: c.name
  }

  /** `tool_call.get("error")` is truthy. */
  predicate HasError(c: ToolCall)
  {
    c.error.Some? && Truthy(c.error.value)
  }

  /** The analyzer's failure test: an error entry or an `is_error` response. */
  predicate CallFailed(c: ToolCall)
  {
    HasError(c) || Truthy(c.isError)
  }

  /** `tool_call.get("tool_input", {}).get("operation", "")`. */
  function Operation(c: ToolCall): string
  {
    if "operation" in c.input && c.input["operation"].Str? then c.input["operation"].s else ""
  }

  /** Some keyword occurs in `s`. */
  predicate AnyOccurs(s: string, keywords: seq<string>)
  {
    keywords != [] && (Contains(s, keywords[0]) || AnyOccurs(s, keywords[1..]))
  }

  lemma {:induction false} AnyOccursMeans(s: string, keywords: seq<string>)
    ensures AnyOccurs(s, keywords) <==> exists k :: k in keywords && Contains(s, k)
  {
    if keywords != [] {
      AnyOccursMeans(s, keywords[1..]);
      if Contains(s, keywords[0]) {
        assert keywords[0] in keywords;
      }
      if exists k :: k in keywords && Contains(s, k) {
        var k :| k in keywords && Contains(s, k);
        if k != keywords[0] {
          assert k in keywords[1..];
        }
      }
    }
  }

  /** No keyword occurs when each has a character, `witnesses[i]`, that `s` lacks. */
  lemma {:induction false} NoKeywordOccurs(s: string, keywords: seq<string>, witnesses: seq<char>)
    requires |witnesses| == |keywords|
    requires forall i :: 0 <= i < |keywords| ==> witnesses[i] in keywords[i] && witnesses[i] !in s
    ensures !AnyOccurs(s, keywords)
  {
    if keywords != [] {
      MissingCharRulesOut(s, keywords[0], witnesses[0]);
      NoKeywordOccurs(s, keywords[1..], witnesses[1..]);
    }
  }

  /** `any(k in operation.lower() for k in keywords)`. */
  predicate IsCriticalOperation(operation: string, keywords: seq<string>)
  {
    AnyOccurs(Lower(operation), keywords)
  }
}
