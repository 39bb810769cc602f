/** The decision helpers of the HTML report: score colouring, the status a
    baseline is shown with, how its conversation ended, and the text shaping
    applied to parameters and message content. */
module HtmlReporter {
  import opened Wrappers
  import opened Text
  import opened JsonValues
  import opened ToolCalls
  import opened Similarity
  import opened ScenarioRunner

  // ---------------------------------------------------------------------------
  // Score colouring

  /** `_get_score_class`. */
  function ScoreClass(score: real): (r: string)
    ensures r == "good" <==> score >= 0.8
    ensures r == "warning" <==> 0.5 <= score < 0.8
    ensures r == "bad" <==> score < 0.5
  {
    if score >= 0.8 then "good" else if score >= 0.5 then "warning" else "bad"
  }

  /** Position of a class on the scale bad < warning < good. */
  function ClassRank(c: string): nat
  {
    if c == "good" then 2 else if c == "warning" then 1 else 0
  }

  /** A higher score never gets a worse colour. */
  lemma ScoreClassMonotone(s1: real, s2: real)
    requires s1 <= s2
    ensures ClassRank(ScoreClass(s1)) <= ClassRank(ScoreClass(s2))
  {
  }

  // ---------------------------------------------------------------------------
  // Displayed status

  /** `_evaluate_actual_status`: from the failure summary when the record has
      one, else the recorded status, else `Unknown`. */
  function ActualStatus(analysis: Option<FailureSummary>, executionStatus: Option<string>): (r: string)
    ensures analysis.Some? ==>
              (r == "SUCCESS" <==> analysis.value.successRate == 1.0 && analysis.value.failedTools == 0)
    ensures analysis.Some? ==>
              (r == "PARTIAL" <==> !(analysis.value.successRate == 1.0 && analysis.value.failedTools == 0) &&
                                   analysis.value.successRate > 0.5)
    ensures analysis.Some? ==> (r == "FAILED" <==> analysis.value.successRate <= 0.5)
    ensures analysis.None? ==> r == executionStatus.GetOr("Unknown")
  {
    match analysis
    case Some(a) =>
      if a.successRate == 1.0 && a.failedTools == 0 then "SUCCESS"
      else if a.successRate > 0.5 then "PARTIAL"
      else "FAILED"
    case None => executionStatus.GetOr("Unknown")
  }

  /** On an analysed run the report shows SUCCESS exactly when the recorder
      wrote SUCCESS for a non-empty run, and FAILED whenever the recorder did. */
  lemma ActualStatusOfAnalysedRun(calls: seq<ToolCall>, recorded: Option<string>)
    ensures ActualStatus(Some(SummaryOf(calls)), recorded) == "SUCCESS" <==> calls != [] && RunStatus(calls) == Success
    ensures RunStatus(calls) == Failed ==> ActualStatus(Some(SummaryOf(calls)), recorded) == "FAILED"
  {
  }

  /** The recorder calls an empty run SUCCESS; its success rate of 0 makes the
      report show it as FAILED. */
  lemma EmptyRunShownAsFailed()
    ensures RunStatus([]) == Success
    ensures ActualStatus(Some(SummaryOf([])), Some(Success.Name())) == "FAILED"
  {
    EmptyRunSummary();
  }

  // ---------------------------------------------------------------------------
  // How the conversation ended

  /** The fields of a recorded message the analysis reads: `type`, and the
      `subtype`, `duration_ms` and `num_turns` of its content (defaults `""`,
      0 and 0 when absent). */
  datatype Message = Message(msgType: string, subtype: string, durationMs: Value, numTurns: Value)

  datatype TerminationKind = UnknownEnd | MaxTurnsReached | NormalCompletion | ErrorTermination | Incomplete
  {
    function Name(): string
    {
      match this
      case UnknownEnd => "unknown"
      case MaxTurnsReached => "max_turns_reached"
      case NormalCompletion => "normal_completion"
      case ErrorTermination => "error_termination"
      case Incomplete => "incomplete"
    }
  }

  /** The termination record; the timings are present only for a final
      `ResultMessage` the analysis recognises. */
  datatype TerminationInfo = TerminationInfo(kind: TerminationKind, reason: string, durationMs: Option<Value>, numTurns: Option<Value>)

  predicate EndsAs(messages: seq<Message>, msgType: string)
  {
    messages != [] && messages[|messages| - 1].msgType == msgType
  }

  /** A verdict on a final `ResultMessage`, carrying its timings. */
  function Timed(kind: TerminationKind, reason: string, last: Message): TerminationInfo
  {
    TerminationInfo(kind, reason, Some(last.durationMs), Some(last.numTurns))
  }

  /** The verdict when no rule recognises the last message. */
  function EndedWith(msgType: string): TerminationInfo
  {
    TerminationInfo(UnknownEnd, "Conversation ended with " + msgType, None, None)
  }

  /** The verdict on a final `ResultMessage`, by its subtype; an unrecognised
      subtype falls through to the unknown verdict. */
  function ResultVerdict(last: Message): (t: TerminationInfo)
    ensures t.kind == MaxTurnsReached <==> last.subtype == "error_max_turns"
    ensures t.kind == NormalCompletion <==> last.subtype == "success"
    ensures t.kind == ErrorTermination <==>
              last.subtype != "error_max_turns" && last.subtype != "success" &&
              (Contains(last.subtype, "timeout") || Contains(last.subtype, "error"))
    ensures t.kind != Incomplete
    ensures t.kind == UnknownEnd ==> t == EndedWith(last.msgType)
    ensures t.durationMs.Some? <==> t.kind != UnknownEnd
    ensures t.durationMs.Some? ==> t.durationMs.value == last.durationMs && t.numTurns == Some(last.numTurns)
  {
    if last.subtype == "error_max_turns" then
      Timed(MaxTurnsReached, "Maximum turns limit reached (" + Show(last.numTurns) + " turns)", last)
    else if last.subtype == "success" then
      Timed(NormalCompletion, "Conversation completed normally", last)
    else if Contains(last.subtype, "timeout") || Contains(last.subtype, "error") then
      Timed(ErrorTermination, "Terminated due to: " + last.subtype, last)
    else
      EndedWith(last.msgType)
  }

  /** `_analyze_termination_info`: decided by the last message alone. */
  function AnalyzeTerminationInfo(messages: seq<Message>): (t: TerminationInfo)
    ensures messages == [] ==> t.kind == UnknownEnd && t.reason == "No messages found"
    ensures t.kind == MaxTurnsReached <==> EndsAs(messages, "ResultMessage") && messages[|messages| - 1].subtype == "error_max_turns"
    ensures t.kind == NormalCompletion <==> EndsAs(messages, "ResultMessage") && messages[|messages| - 1].subtype == "success"
    ensures t.kind == ErrorTermination <==>
              EndsAs(messages, "ResultMessage") &&
              messages[|messages| - 1].subtype != "error_max_turns" && messages[|messages| - 1].subtype != "success" &&
              (Contains(messages[|messages| - 1].subtype, "timeout") || Contains(messages[|messages| - 1].subtype, "error"))
    ensures t.kind == Incomplete <==> EndsAs(messages, "AssistantMessage") || EndsAs(messages, "UserMessage")
    ensures t.durationMs.Some? <==> t.kind in {MaxTurnsReached, NormalCompletion, ErrorTermination}
    ensures t.durationMs.Some? ==> t.durationMs.value == messages[|messages| - 1].durationMs &&
                                   t.numTurns == Some(messages[|messages| - 1].numTurns)
  {
    if messages == [] then TerminationInfo(UnknownEnd, "No messages found", None, None)
    else
      var last := messages[|messages| - 1];
      assert |"ResultMessage"| == 13 && |"AssistantMessage"| == 16 && |"UserMessage"| == 11;
      if last.msgType == "ResultMessage" then
        ResultVerdict(last)
      else if last.msgType == "AssistantMessage" then
        TerminationInfo(Incomplete, "Conversation ended with assistant response (may be incomplete)", None, None)
      else if last.msgType == "UserMessage" then
        TerminationInfo(Incomplete, "Conversation ended with user message (response pending)", None, None)
      else
        EndedWith(last.msgType)
  }

  /** Earlier messages never change the verdict. */
  lemma TerminationReadsLastOnly(earlier: seq<Message>, last: Message)
    ensures AnalyzeTerminationInfo(earlier + [last]) == AnalyzeTerminationInfo([last])
  {
    assert (earlier + [last])[|earlier + [last]| - 1] == last;
  }

  // ---------------------------------------------------------------------------
  // Parameter preview

  /** One `key=value` part of the preview. */
  function ParamPart(key: string, value: Value): string
  {
    if value.Str? && |value.s| > 30 then key + "=\"" + value.s[..27] + "...\""
    else if value.Arr? || value.Obj? then key + "=<" + TypeName(value) + ">"
    else key + "=" + Repr(value)
  }

  /** A string argument over 30 characters is cut to exactly 33 characters
      beyond its key; a shorter one is its `repr`, between one and four
      characters per character plus `=` and the quotes, and exactly the text in
      single quotes when nothing needs escaping. */
  lemma ParamPartOfStringBounded(key: string, s: string)
    ensures |s| > 30 ==> |ParamPart(key, Str(s))| == |key| + 33
    ensures |s| <= 30 ==> |key| + |s| + 3 <= |ParamPart(key, Str(s))| <= |key| + 4 * |s| + 3
    ensures |s| <= 30 && (forall i :: 0 <= i < |s| ==> Printable(s[i]) && s[i] != '\\' && s[i] != '\'') ==>
              ParamPart(key, Str(s)) == key + "='" + s + "'"
  {
    if |s| <= 30 && forall i :: 0 <= i < |s| ==> Printable(s[i]) && s[i] != '\\' && s[i] != '\'' {
      QuotePlain(s);
    }
  }

  function PreviewParts(params: seq<(string, Value)>): (r: seq<string>)
    ensures |r| == |params|
  {
    seq(|params|, i requires 0 <= i < |params| => ParamPart(params[i].0, params[i].1))
  }

  /** `_create_param_preview`; `params` lists the dict's items in order. */
  function CreateParamPreview(params: seq<(string, Value)>): (r: string)
    ensures params == [] ==> r == ""
    ensures params != [] ==> StartsWith(r, params[0].0 + "=")
  {
    if params == [] then ""
    else
      var shown := PreviewParts(params)[..Min(3, |params|)];
      JoinStartsWithFirst(", ", shown);
      var first := shown[0];
      assert first[..|params[0].0 + "="|] == params[0].0 + "=";
      Join(", ", shown)
  }

  /** Parameters after the third never show. */
  lemma PreviewShowsFirstThree(params: seq<(string, Value)>)
    ensures CreateParamPreview(params) == CreateParamPreview(params[..Min(3, |params|)])
  {
    var head := params[..Min(3, |params|)];
    if params != [] {
      assert PreviewParts(head) == PreviewParts(params)[..Min(3, |params|)];
      assert PreviewParts(head)[..Min(3, |head|)] == PreviewParts(head);
    }
  }

  // ---------------------------------------------------------------------------
  // Text content

  /** `html.escape` of one character, quotes included. */
  function EscapeChar(c: char): string
  {
    if c == '&' then "&amp;"
    else if c == '<' then "&lt;"
    else if c == '>' then "&gt;"
    else if c == '"' then "&quot;"
    else if c == '\'' then "&#x27;"
    else [c]
  }

  predicate Markup(c: char)
  {
    c == '&' || c == '<' || c == '>' || c == '"' || c == '\''
  }

  /** `html.escape(s)`. */
  function HtmlEscape(s: string): (r: string)
    ensures |r| >= |s|
  {
    if s == [] then [] else EscapeChar(s[0]) + HtmlEscape(s[1..])
  }

  /** Escaped text holds no angle bracket and no quote. */
  lemma {:induction false} EscapedHasNoMarkup(s: string)
    ensures forall c :: c in HtmlEscape(s) ==> c != '<' && c != '>' && c != '"' && c != '\''
  {
    if s != [] {
      EscapedHasNoMarkup(s[1..]);
      EscapeCharFacts(s[0]);
      assert HtmlEscape(s) == EscapeChar(s[0]) + HtmlEscape(s[1..]);
    }
  }

  /** Escaping neither adds nor removes newlines. */
  lemma {:induction false} EscapeKeepsNewlines(s: string)
    ensures '\n' in HtmlEscape(s) <==> '\n' in s
  {
    if s != [] {
      EscapeKeepsNewlines(s[1..]);
      EscapeCharFacts(s[0]);
      assert HtmlEscape(s) == EscapeChar(s[0]) + HtmlEscape(s[1..]);
      assert '\n' in s <==> s[0] == '\n' || '\n' in s[1..] by {
        assert s == [s[0]] + s[1..];
      }
    }
  }

  /** One escaped character: no markup, and a newline exactly for a newline. */
  lemma EscapeCharFacts(c: char)
    ensures forall x :: x in EscapeChar(c) ==> x != '<' && x != '>' && x != '"' && x != '\''
    ensures '\n' in EscapeChar(c) <==> c == '\n'
  {
  }

  /** Text without markup characters is its own escape. */
  lemma {:induction false} EscapeLeavesPlainText(s: string)
    requires forall c :: c in s ==> !Markup(c)
    ensures HtmlEscape(s) == s
  {
    if s != [] {
      assert s[0] in s;
      assert forall c :: c in s[1..] ==> c in s;
      EscapeLeavesPlainText(s[1..]);
    }
  }

  /** `_format_text_content`: escaped, then literal `\n` sequences and real
      newlines become `<br>`. */
  function FormatTextContent(text: string): (r: string)
    ensures text == [] ==> r == []
    ensures '\n' !in r && '"' !in r && '\'' !in r
    ensures (forall c :: c in text ==> !Markup(c) && c != '\\' && c != '\n') ==> r == text
  {
    if text == [] then []
    else
      var escaped := HtmlEscape(text);
      EscapedHasNoMarkup(text);
      var unescaped := ReplaceAll(escaped, "\\n", "\n");
      ReplaceAllAvoids(escaped, "\\n", "\n", '"');
      ReplaceAllAvoids(escaped, "\\n", "\n", '\'');
      ReplaceAllRemoves(unescaped, '\n', "<br>");
      ReplaceAllAvoids(unescaped, "\n", "<br>", '"');
      ReplaceAllAvoids(unescaped, "\n", "<br>", '\'');
      PlainTextUntouched(text);
      ReplaceAll(unescaped, "\n", "<br>")
  }

  lemma PlainTextUntouched(text: string)
    ensures (forall c :: c in text ==> !Markup(c) && c != '\\' && c != '\n') ==>
              ReplaceAll(ReplaceAll(HtmlEscape(text), "\\n", "\n"), "\n", "<br>") == text
  {
    if forall c :: c in text ==> !Markup(c) && c != '\\' && c != '\n' {
      EscapeLeavesPlainText(text);
      ReplaceAllUntouched(text, "\\n", "\n");
      ReplaceAllUntouched(text, "\n", "<br>");
    }
  }

  /** `_extract_text_from_content`: text kept, a dict unwrapped through its
      `content` (else its `text`), a list's entries joined with spaces. */
  function ExtractTextFromContent(content: Value): (r: string)
    ensures content.Str? ==> r == content.s
    ensures content.Obj? && "content" !in content.fields && "text" in content.fields ==> r == Show(content.fields["text"])
    ensures content.Arr? ==> r == Join(" ", ListTextParts(content.items))
    decreases content
  {
    match content
    case Str(s) => s
    case Obj(fields) =>
      if "content" in fields then ExtractTextFromContent(fields["content"])
      else if "text" in fields then Show(fields["text"])
      else Show(content)
    case Arr(items) => Join(" ", ListTextParts(items))
    case _ => Show(content)
  }

  /** The text each list entry contributes: a dict's `content`, a string itself. */
  function ListTextParts(items: seq<Value>): (r: seq<string>)
    ensures |r| <= |items|
  {
    if items == [] then []
    else
      var item := items[0];
      (if item.Obj? && "content" in item.fields then [Show(item.fields["content"])]
       else if item.Str? then [item.s]
       else []) + ListTextParts(items[1..])
  }

  /** What one list entry contributes: `str` of a dict's `content`, a string
      itself, and nothing for any other entry. */
  lemma ListTextPartsOfItem(item: Value)
    ensures item.Obj? && "content" in item.fields ==> ListTextParts([item]) == [Show(item.fields["content"])]
    ensures item.Str? ==> ListTextParts([item]) == [item.s]
    ensures !(item.Obj? && "content" in item.fields) && !item.Str? ==> ListTextParts([item]) == []
  {
    assert [item][1..] == [];
  }

  /** The parts of a list are the parts of its pieces, in order. */
  lemma {:induction false} ListTextPartsAppend(a: seq<Value>, b: seq<Value>)
    ensures ListTextParts(a + b) == ListTextParts(a) + ListTextParts(b)
    decreases |a|
  {
    if a == [] {
      assert a + b == b;
    } else {
      assert (a + b)[0] == a[0] && (a + b)[1..] == a[1..] + b;
      ListTextPartsAppend(a[1..], b);
    }
  }

  /** A value wrapped `n` times in `{"content": ...}`. */
  function Wrap(v: Value, n: nat): Value
  {
    if n == 0 then v else Obj(map["content" := Wrap(v, n - 1)])
  }

  /** Nested `content` wrappers are peeled off completely. */
  lemma {:induction false} UnwrapsContent(v: Value, n: nat)
    ensures ExtractTextFromContent(Wrap(v, n)) == ExtractTextFromContent(v)
  {
    if n > 0 {
      UnwrapsContent(v, n - 1);
    }
  }

  /** A list of strings reads as those strings joined by spaces. */
  lemma {:induction false} StringListText(strs: seq<string>)
    ensures ListTextParts(seq(|strs|, i requires 0 <= i < |strs| => Str(strs[i]))) == strs
  {
    var items := seq(|strs|, i requires 0 <= i < |strs| => Str(strs[i]));
    if strs != [] {
      assert items[1..] == seq(|strs[1..]|, i requires 0 <= i < |strs[1..]| => Str(strs[1..][i]));
      StringListText(strs[1..]);
    }
  }
}
