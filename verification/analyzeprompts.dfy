/** The `POST` handler of frontend/app/api/analyze-prompts/route.ts: the
    prompts of a remix thread are sent to Claude, and the JSON analysis is
    pulled out of the text of its first content block. The call to Claude
    and `JSON.parse` are inputs: `call` maps the user prompt sent to the
    reply received, `parse` maps a text to the value it parses to, or to
    `None` when it throws. */
module AnalyzePromptsRoute {
  import opened Wrappers
  import opened Strings
  import opened Json
  import opened Vendor
  import LlmJson

  datatype Reply =
    | BadRequest(error: string)
    | ServerError(error: string, details: Details)
    | Analysis(analysis: JVal)

  const Instruction: string :=
    "Analyze these ad remix prompts and extract themes, emotional tone, style references, and intent:\n\n"

  /** The user message: the instruction, then the prompts joined by line
      breaks. */
  function UserPrompt(prompts: seq<JVal>): (r: string)
    ensures StartsWith(r, Instruction)
  {
    Instruction + JoinValues(prompts, "\n")
  }

  /** A thread of plain-text prompts is sent as the instruction followed by
      the prompts, one per line. */
  lemma UserPromptOfStrings(ss: seq<string>)
    ensures UserPrompt(seq(|ss|, i requires 0 <= i < |ss| => JStr(ss[i]))) == Instruction + Join(ss, "\n")
  {
    JoinStrings(ss, "\n");
  }

  /** `data.content[0].text` when it is a string; `None` when reading it
      throws or `.match` cannot be called on it. */
  function ReplyText(data: JVal): (r: Option<string>)
    ensures r.Some? <==> exists t :: Get(At(Get(Some(data), "content"), 0), "text") == Some(JStr(t))
    ensures r.Some? ==> Get(At(Get(Some(data), "content"), 0), "text") == Some(JStr(r.value))
  {
    match Get(At(Get(Some(data), "content"), 0), "text")
    case Some(JStr(t)) => Some(t)
    case _ => None
  }

  /** The reply built from Claude's text: 500 when no JSON can be found in it,
      the engine's message when that JSON does not parse, else the value. */
  function AnalysisReply(content: string, parse: string -> Option<JVal>): (r: Reply)
    ensures r.Analysis? <==> LlmJson.JsonText(content).Some? && parse(LlmJson.JsonText(content).value).Some?
    ensures r.Analysis? ==> r.analysis == parse(LlmJson.JsonText(content).value).value
    ensures LlmJson.JsonText(content).None? ==> r == ServerError("Failed to parse analysis response", NoDetails)
    ensures !r.Analysis? && LlmJson.JsonText(content).Some? ==> r == ServerError("Internal server error", EngineMessage)
  {
    match LlmJson.JsonText(content)
    case None => ServerError("Failed to parse analysis response", NoDetails)
    case Some(jsonStr) =>
      match parse(jsonStr)
      case None => ServerError("Internal server error", EngineMessage)
      case Some(v) => Analysis(v)
  }

  /** `POST(request)`. `body` is `None` when the request body is not JSON;
      `apiKey` is `CLAUDE_API_KEY`. */
  function Post(body: Option<JVal>, apiKey: Option<string>, call: string -> ModelReply,
                parse: string -> Option<JVal>): (r: Reply)
    ensures IsNullish(body) ==> r == ServerError("Internal server error", EngineMessage)
    ensures !IsNullish(body) && !(Get(body, "prompts").Some? && Get(body, "prompts").value.JArr?) ==>
              r == BadRequest("Missing or invalid prompts array")
    ensures r.BadRequest? ==> r.error == "Missing or invalid prompts array"
    ensures !IsNullish(body) && Get(body, "prompts").Some? && Get(body, "prompts").value.JArr? ==>
              var reply := call(UserPrompt(Get(body, "prompts").value.elems));
              if apiKey.None? || apiKey.value == "" then r == ServerError("Claude API key not configured", NoDetails)
              else if reply.Threw? then r == ServerError("Internal server error", Text(reply.message))
              else if reply.NotOk? then r == ServerError("Failed to analyze prompts", NoDetails)
              else if ReplyText(reply.data).None? then r == ServerError("Internal server error", EngineMessage)
              else r == AnalysisReply(ReplyText(reply.data).value, parse)
  {
    if IsNullish(body) then ServerError("Internal server error", EngineMessage)
    else
      var prompts := Get(body, "prompts");
      if !Truthy(prompts) || !prompts.value.JArr? then BadRequest("Missing or invalid prompts array")
      else if apiKey.None? || apiKey.value == "" then ServerError("Claude API key not configured", NoDetails)
      else
        match call(UserPrompt(prompts.value.elems))
        case Threw(m) => ServerError("Internal server error", Text(m))
        case NotOk(_) => ServerError("Failed to analyze prompts", NoDetails)
        case OkJson(data) =>
          match ReplyText(data)
          case None => ServerError("Internal server error", EngineMessage)
          case Some(content) => AnalysisReply(content, parse)
  }

  /** Claude's reply shaped as the Messages API returns it: one text block. */
  function TextReply(text: string): JVal {
    JObj([("content", JArr([JObj([("type", JStr("text")), ("text", JStr(text))])]))])
  }

  /** End to end: when Claude answers with a fenced `json` block after text
      free of backticks, the analysis returned is what the trimmed block
      content parses to; a block that does not parse is a 500. */
  lemma FencedAnswerParsed(prompts: seq<JVal>, apiKey: string, call: string -> ModelReply,
                           parse: string -> Option<JVal>, prefix: string, inner: string, rest: string)
    requires apiKey != ""
    requires LlmJson.NoBacktick(prefix) && LlmJson.NoBacktick(inner) && LlmJson.Trim(inner) != ""
    requires call(UserPrompt(prompts)) == OkJson(TextReply(prefix + "```json" + inner + "```" + rest))
    ensures Post(Some(JObj([("prompts", JArr(prompts))])), Some(apiKey), call, parse) ==
              match parse(LlmJson.Trim(inner))
              case Some(v) => Analysis(v)
              case None => ServerError("Internal server error", EngineMessage)
  {
    var content := prefix + "```json" + inner + "```" + rest;
    TextReplyRead(content);
    LlmJson.TaggedFence(prefix, inner, rest);
    assert Get(Some(JObj([("prompts", JArr(prompts))])), "prompts") == Some(JArr(prompts));
  }

  lemma TextReplyRead(text: string)
    ensures ReplyText(TextReply(text)) == Some(text)
  {
    var block := [("type", JStr("text")), ("text", JStr(text))];
    assert block[0].0[1] != block[1].0[1];
    LookupAt(block, 1);
    var outer := TextReply(text).entries;
    LookupAt(outer, 0);
    assert At(Get(Some(TextReply(text)), "content"), 0) == Some(JObj(block));
  }

  /** A reply with no JSON in it at all (no fence and no braces) is the
      "Failed to parse" error, whatever the prompts were. */
  lemma PlainTextAnswerRefused(body: JVal, apiKey: string, call: string -> ModelReply,
                               parse: string -> Option<JVal>, text: string)
    requires Get(Some(body), "prompts").Some? && Get(Some(body), "prompts").value.JArr?
    requires apiKey != ""
    requires forall i :: 0 <= i < |text| ==> text[i] != '`' && text[i] != '{'
    requires call(UserPrompt(Get(Some(body), "prompts").value.elems)) == OkJson(TextReply(text))
    ensures Post(Some(body), Some(apiKey), call, parse) == ServerError("Failed to parse analysis response", NoDetails)
  {
    TextReplyRead(text);
    forall k: nat ensures !OccursAt(text, "```", k) {
      if k + 3 <= |text| {
        assert text[k..k + 3][0] == text[k];
      }
    }
    assert IndexOf(text, "```").None?;
    forall k: nat ensures !OccursAt(text, "{", k) {
      if k + 1 <= |text| {
        assert text[k..k + 1][0] == text[k];
      }
    }
    assert IndexOf(text, "{").None?;
  }
}
