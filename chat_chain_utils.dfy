/**
  The plugin agent's string utilities (inference/worker/chat_chain_utils.py):
  bracket-closing truncation, picking the tool the model named, reading the
  tool and its input out of the model's reply, and turning an HTTP response
  into the observation text.
 */
module ChatChainUtils {
  import opened Wrappers
  import opened Strings
  import opened Collections
  import opened Jaro

  /** `RESPONSE_MAX_LENGTH`: the truncation length for tool responses. */
  const ResponseMaxLength: nat := 2048

  /** A tool name must be more similar than this to be chosen. */
  const SimilarityThreshold: real := 0.75

  /** What `truncate_str` appends after the kept prefix, chosen by the first character. */
  function Closing(first: char): (r: String)
    ensures |r| == 4 || r == "..."
    ensures first == '(' <==> r == "...)"
    ensures first == '[' <==> r == "...]"
    ensures first == '{' <==> r == "...}"
  {
    if first == '(' then "...)" else if first == '[' then "...]" else if first == '{' then "...}" else "..."
  }

  /** `truncate_str(output, max_length)` for a non-negative `max_length`. */
  function TruncateStr(output: String, maxLength: nat): (r: String)
    ensures |output| <= maxLength ==> r == output
    ensures |output| > maxLength ==> IsPrefix(output[..maxLength], r) && r[maxLength..] == Closing(output[0])
    ensures |r| <= maxLength + 4 || r == output
  {
    if |output| > maxLength then
      if output[0] == '(' then output[..maxLength] + "...)"
      else if output[0] == '[' then output[..maxLength] + "...]"
      else if output[0] == '{' then output[..maxLength] + "...}"
      else output[..maxLength] + "..."
    else output
  }

  /** The partner of an opening bracket. */
  function Partner(open: char): char {
    if open == '(' then ')' else if open == '[' then ']' else '}'
  }

  /**
    A truncated text that opened with a bracket still opens with it and now
    closes with its partner, so the model sees a closed structure.
   */
  lemma TruncateClosesBracket(output: String, maxLength: nat)
    requires |output| > maxLength > 0
    requires output[0] in "([{"
    ensures var r := TruncateStr(output, maxLength);
            |r| == maxLength + 4 && r[0] == output[0] && Last(r) == Partner(output[0])
  {
  }

  /** Truncating an already truncated text to the same length once more cuts only its own ellipsis. */
  lemma TruncateTwice(output: String, maxLength: nat)
    requires |output| > maxLength
    ensures var r := TruncateStr(output, maxLength);
            TruncateStr(r, maxLength) == output[..maxLength] + (if maxLength == 0 then Closing('.') else Closing(output[0]))
  {
    var r := TruncateStr(output, maxLength);
    assert r[..maxLength] == output[..maxLength];
    if maxLength > 0 {
      assert r[0] == output[0];
    }
  }

  /** A plugin tool; calling its function is outside the model. */
  datatype Tool = Tool(name: String)

  /** What `use_tool` does: call one tool on the input, or return the error text. */
  datatype ToolOutcome = Invoke(index: nat, input: String) | NotATool(message: String)

  /** The tool is similar enough to the requested name to be chosen. */
  predicate Chosen(requested: String, t: Tool) {
    JaroSimilarity(t.name, requested) > SimilarityThreshold
  }

  /** `use_tool`: the first tool, in list order, whose name is similar enough. */
  method UseTool(toolName: String, toolInput: String, tools: seq<Tool>) returns (r: ToolOutcome)
    ensures r.Invoke? ==> r.index < |tools| && r.input == toolInput && Chosen(toolName, tools[r.index])
    ensures r.Invoke? ==> forall k :: 0 <= k < r.index ==> !Chosen(toolName, tools[k])
    ensures r.NotATool? ==> forall k :: 0 <= k < |tools| ==> !Chosen(toolName, tools[k])
    ensures r.NotATool? ==> r.message == "ERROR! " + toolName + " is not a valid tool. Try again with different tool!"
  {
    for i := 0 to |tools|
      invariant forall k :: 0 <= k < i ==> !Chosen(toolName, tools[k])
    {
      var s := Similarity(tools[i].name, toolName);
      if s > SimilarityThreshold {
        return Invoke(i, toolInput);
      }
    }
    return NotATool("ERROR! " + toolName + " is not a valid tool. Try again with different tool!");
  }

  /** `use_tool` agrees with a first-match search over the tool list. */
  lemma UseToolIsFirstMatch(toolName: String, tools: seq<Tool>, r: ToolOutcome)
    requires r.Invoke? ==> r.index < |tools| && Chosen(toolName, tools[r.index])
    requires r.Invoke? ==> forall k :: 0 <= k < r.index ==> !Chosen(toolName, tools[k])
    requires r.NotATool? ==> forall k :: 0 <= k < |tools| ==> !Chosen(toolName, tools[k])
    ensures FindIndex(tools, t => Chosen(toolName, t)) == if r.Invoke? then Some(r.index) else None
  {
    if r.Invoke? {
      FindIndexIsFirst(tools, t => Chosen(toolName, t), r.index);
    }
  }

  /** A tool whose name is exactly the requested name is always chosen, unless an earlier one is. */
  lemma ExactNameIsChosen(toolName: String, t: Tool)
    requires t.name == toolName
    ensures Chosen(toolName, t)
  {
    SimilarityReflexive(toolName);
  }

  /** The tool and the input `extract_tool_and_input` reads from the model's reply. */
  datatype ToolCall = ToolCall(tool: String, input: String)

  /** The reply stripped of surrounding whitespace, with every ``` fence removed. */
  function Clean(llmOutput: String): String {
    ReplaceAll(Strip(llmOutput, IsPySpace), "```", "")
  }

  predicate IsSpaceChar(c: char) {
    c == ' '
  }

  /**
    `extract_tool_and_input`. The `Action: ... Action Input: ...` regular
    expression is the parameter `actionRegex`: `None` when it does not
    match, otherwise its two groups. `observationSeq` is `OBSERVATION_SEQ`.
   */
  function ExtractToolAndInput(llmOutput: String, aiPrefix: String, observationSeq: String,
                               actionRegex: String -> Option<(String, String)>): (r: ToolCall)
    requires |observationSeq| > 0
    ensures var text := Clean(llmOutput); var marker := aiPrefix + ":";
            Contains(text, marker) ==>
              && r.tool == aiPrefix
              && !Contains(r.input, marker)
              && r.input == Strip(AfterLast(text, marker), IsPySpace)
              && (|r.input| == 0 || (!IsPySpace(r.input[0]) && !IsPySpace(Last(r.input))))
    ensures var text := Clean(llmOutput);
            !Contains(text, aiPrefix + ":") && actionRegex(text).None? ==>
              && r.tool == aiPrefix
              && (Contains(text, observationSeq) ==>
                    r.input == Strip(AfterLast(text, observationSeq), IsPySpace) && !Contains(r.input, observationSeq))
              && (!Contains(text, observationSeq) ==> r.input == text)
    ensures var text := Clean(llmOutput);
            !Contains(text, aiPrefix + ":") && actionRegex(text).Some? ==>
              && r.tool == ReplaceAll(Strip(actionRegex(text).value.0, IsPySpace), "'", "")
              && '\'' !in r.tool
              && r.input == Strip(actionRegex(text).value.1, IsPySpace)
  {
    var text := Clean(llmOutput);
    var marker := aiPrefix + ":";
    if Contains(text, marker) then
      var after := AfterLast(text, marker);
      var input := Strip(after, IsPySpace);
      StripSliceFree(after, marker);
      ToolCall(aiPrefix, input)
    else match actionRegex(text)
      case None =>
        if Contains(text, observationSeq) then
          var after := AfterLast(text, observationSeq);
          StripSliceFree(after, observationSeq);
          ToolCall(aiPrefix, Strip(after, IsPySpace))
        else ToolCall(aiPrefix, text)
      case Some((action, actionInput)) =>
        ReplaceAllRemovesChar(Strip(action, IsPySpace), '\'');
        StripTwiceSpace(actionInput);
        ToolCall(ReplaceAll(Strip(action, IsPySpace), "'", ""), Strip(Strip(actionInput, IsPySpace), IsSpaceChar))
  }

  /** Stripping a text free of `pat` leaves it free of `pat`. */
  lemma StripSliceFree(s: String, pat: String)
    requires !Contains(s, pat)
    ensures !Contains(Strip(s, IsPySpace), pat)
  {
    var r := Strip(s, IsPySpace);
    var i := |s| - |DropLeading(s, IsPySpace)|;
    if Contains(r, pat) {
      ContainsInfix(s, i, i + |r|, pat);
    }
  }

  /** The trailing `.strip(" ")` after `.strip()` never removes anything. */
  lemma StripTwiceSpace(s: String)
    ensures Strip(Strip(s, IsPySpace), IsSpaceChar) == Strip(s, IsPySpace)
  {
    StripUnchanged(Strip(s, IsPySpace), IsSpaceChar);
  }

  /** A reply holding neither the marker, an action nor an observation is answered with its cleaned text. */
  lemma PlainReplyIsFinalAnswer(llmOutput: String, aiPrefix: String, observationSeq: String,
                                actionRegex: String -> Option<(String, String)>)
    requires |observationSeq| > 0
    requires !Contains(Clean(llmOutput), aiPrefix + ":")
    requires actionRegex(Clean(llmOutput)).None?
    requires !Contains(Clean(llmOutput), observationSeq)
    ensures ExtractToolAndInput(llmOutput, aiPrefix, observationSeq, actionRegex) == ToolCall(aiPrefix, Clean(llmOutput))
  {
  }

  /** The input read after the last marker is the text that follows it in the cleaned reply, stripped. */
  lemma MarkerInputFollowsMarker(llmOutput: String, aiPrefix: String, observationSeq: String,
                                 actionRegex: String -> Option<(String, String)>)
    requires |observationSeq| > 0
    requires Contains(Clean(llmOutput), aiPrefix + ":")
    ensures var text := Clean(llmOutput); var marker := aiPrefix + ":";
            var after := AfterLast(text, marker);
            var r := ExtractToolAndInput(llmOutput, aiPrefix, observationSeq, actionRegex);
            && text[|text| - |after| - |marker|..] == marker + after
            && r.input == Strip(after, IsPySpace)
            && r.tool == aiPrefix
  {
  }

  /** The prefix of every error `process_response` returns. */
  const ErrorPrefix: String := "ERROR! That didn't work, try modifying Action Input.\n"

  /** The observation for a missing, empty or `null` body. */
  const EmptyResponse: String := ErrorPrefix + "Empty response. Try again!"

  /** How Python formats an optional body into the error text. */
  function Shown(text: Option<String>): String {
    if text.Some? then text.value else "None"
  }

  /** The body is a short text mentioning `null`, in any letter case. */
  predicate IsNullBody(text: String) {
    Contains(AsciiLower(text), "null") && |text| < 10
  }

  /** `RequestsForLLM.process_response` as a function of the status code and the body. */
  function ProcessResponse(statusCode: int, text: Option<String>): (r: String)
    ensures statusCode != 200 ==> r == ErrorPrefix + Shown(text) + ". Try again!"
    ensures statusCode == 200 && (text.None? || |text.value| == 0 || IsNullBody(text.value)) ==> r == EmptyResponse
    ensures statusCode == 200 && text.Some? && |text.value| > 0 && !IsNullBody(text.value) ==>
              && (|text.value| <= ResponseMaxLength ==> r == text.value)
              && (|text.value| > ResponseMaxLength ==> r == TruncateStr(text.value, ResponseMaxLength))
  {
    if statusCode != 200 then ErrorPrefix + Shown(text) + ". Try again!"
    else if text.None? || |text.value| == 0 then EmptyResponse
    else if IsNullBody(text.value) then EmptyResponse
    else TruncateStr(text.value, ResponseMaxLength)
  }

  /** A good body of at most `RESPONSE_MAX_LENGTH` characters is passed on verbatim. */
  lemma ProcessResponsePassesShortBody(text: String)
    requires 0 < |text| <= ResponseMaxLength && !IsNullBody(text)
    ensures ProcessResponse(200, Some(text)) == text
  {
  }

  /** A good body over `RESPONSE_MAX_LENGTH` characters is cut there and closed by the suffix its first character selects. */
  lemma ProcessResponseTruncatesLongBody(text: String)
    requires |text| > ResponseMaxLength
    ensures var r := ProcessResponse(200, Some(text));
            && r == text[..ResponseMaxLength] + Closing(text[0])
            && |r| <= ResponseMaxLength + 4
            && (text[0] in "([{" ==> Last(r) == Partner(text[0]))
  {
    var r := ProcessResponse(200, Some(text));
    assert r == TruncateStr(text, ResponseMaxLength);
    assert r == r[..ResponseMaxLength] + r[ResponseMaxLength..];
  }

  /** Letter case does not matter to the `null` check: `NULL` and `Null` are empty responses too. */
  lemma NullCheckIgnoresCase(text: String)
    requires 0 < |text| < 10
    requires Contains(AsciiLower(text), "null")
    ensures ProcessResponse(200, Some(text)) == EmptyResponse
  {
  }
}
