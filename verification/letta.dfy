/** The `GET` handler of frontend/app/api/letta-analytics/route.ts: one
    message is sent to a Letta agent and the analytics JSON is pulled out of
    the agent's assistant messages. The environment, the agent's reply and
    `JSON.parse` (as `parse`, `None` when it throws) are inputs. */
module LettaAnalyticsRoute {
  import opened Wrappers
  import opened Json
  import opened Vendor
  import LlmJson
  import Seqs

  const DefaultAgentId: string := "agent-3af75001-7e1e-4029-a63a-2cabb24d34fd"

  /** `LETTA_API_KEY`, `LETTA_BASE_URL` and `LETTA_AGENT_ID`; `None` when
      unset. */
  datatype LettaEnv = LettaEnv(apiKey: Option<string>, baseUrl: Option<string>, agentId: Option<string>)

  /** The options the client is built with. */
  datatype ClientOptions = ClientOptions(token: string, baseUrl: Option<string>)

  /** One message of the agent's reply. */
  datatype AgentMessage = AgentMessage(messageType: string, content: JVal)

  /** What `client.agents.messages.create` produced. */
  datatype AgentReply = CreateThrew(message: string) | Messages(messages: seq<AgentMessage>)

  datatype Reply =
    | ServerError(error: string, details: Details)
    | Unparsed(error: string, rawResponse: string)
    | Analytics(analytics: JVal)

  predicate Given(v: Option<string>) {
    v.Some? && v.value != ""
  }

  /** What one message does to the scan: nothing, end the request with a
      reply, or deliver a parsed value. */
  datatype Effect = Skip | Stop(reply: Reply) | Parsed(value: JVal)

  function MessageEffect(m: AgentMessage, parse: string -> Option<JVal>): (e: Effect)
    ensures m.messageType != "assistant_message" <==> e.Skip?
    ensures e.Stop? ==> !e.reply.Analytics?
  {
    if m.messageType != "assistant_message" then Skip
    else if !m.content.JStr? then Stop(ServerError("Failed to fetch analytics", EngineMessage))
    else
      match LlmJson.JsonText(m.content.s)
      case None => Stop(Unparsed("No JSON found in agent response", m.content.s))
      case Some(jsonStr) =>
        match parse(jsonStr)
        case None => Stop(Unparsed("Failed to parse agent response as JSON", m.content.s))
        case Some(v) => Parsed(v)
  }

  /** The effect of each message, in order. */
  function Effects(ms: seq<AgentMessage>, parse: string -> Option<JVal>): (es: seq<Effect>)
    ensures |es| == |ms|
  {
    if |ms| == 0 then [] else Effects(ms[..|ms| - 1], parse) + [MessageEffect(ms[|ms| - 1], parse)]
  }

  lemma EffectsAppend(ms: seq<AgentMessage>, m: AgentMessage, parse: string -> Option<JVal>)
    ensures Effects(ms + [m], parse) == Effects(ms, parse) + [MessageEffect(m, parse)]
  {
    assert (ms + [m])[..|ms|] == ms;
  }

  /** The effects of two runs of messages, one after the other. */
  lemma {:induction false} EffectsConcat(ms: seq<AgentMessage>, more: seq<AgentMessage>, parse: string -> Option<JVal>)
    ensures Effects(ms + more, parse) == Effects(ms, parse) + Effects(more, parse)
    decreases |more|
  {
    if |more| == 0 {
      assert ms + more == ms;
    } else {
      var init, last := more[..|more| - 1], more[|more| - 1];
      assert ms + more == (ms + init) + [last];
      assert more == init + [last];
      EffectsAppend(ms + init, last, parse);
      EffectsAppend(init, last, parse);
      EffectsConcat(ms, init, parse);
    }
  }

  /** Each effect is that of the message at the same place. */
  lemma {:induction false} EffectAt(ms: seq<AgentMessage>, j: nat, parse: string -> Option<JVal>)
    requires j < |ms|
    ensures Effects(ms, parse)[j] == MessageEffect(ms[j], parse)
  {
    var init, last := ms[..|ms| - 1], ms[|ms| - 1];
    var es := Effects(init, parse);
    assert Effects(ms, parse) == es + [MessageEffect(last, parse)];
    if j < |init| {
      EffectAt(init, j, parse);
      assert init[j] == ms[j];
      assert (es + [MessageEffect(last, parse)])[j] == es[j];
    } else {
      assert (es + [MessageEffect(last, parse)])[j] == MessageEffect(last, parse);
    }
  }

  /** The first effect that ends the request. */
  function FirstStop(es: seq<Effect>): (r: Option<nat>)
    ensures r.Some? ==> (r.value < |es| && es[r.value].Stop? &&
              forall j :: 0 <= j < r.value ==> !es[j].Stop?)
    ensures r.None? ==> forall j :: 0 <= j < |es| ==> !es[j].Stop?
  {
    if |es| == 0 then None
    else if es[0].Stop? then Some(0)
    else
      match FirstStop(es[1..])
      case None => None
      case Some(k) => Some(k + 1)
  }

  /** The last effect that delivered a parsed value. */
  function LastParsedAt(es: seq<Effect>): (r: Option<nat>)
    ensures r.Some? ==> (r.value < |es| && es[r.value].Parsed? &&
              forall j :: r.value < j < |es| ==> !es[j].Parsed?)
    ensures r.None? ==> forall j :: 0 <= j < |es| ==> !es[j].Parsed?
  {
    if |es| == 0 then None
    else if es[|es| - 1].Parsed? then Some(|es| - 1)
    else
      var init := es[..|es| - 1];
      var r := LastParsedAt(init);
      assert forall j :: 0 <= j < |init| ==> init[j] == es[j];
      r
  }

  /** The value `analyticsData` holds after the effects: the value of the
      last one that parsed. */
  function LastParsed(es: seq<Effect>): Option<JVal> {
    match LastParsedAt(es)
    case Some(k) => Some(es[k].value)
    case None => None
  }

  /** One more effect: a parsed value replaces what was held, anything else
      keeps it. */
  lemma LastParsedStep(es: seq<Effect>, e: Effect)
    ensures LastParsed(es + [e]) == if e.Parsed? then Some(e.value) else LastParsed(es)
  {
    var es' := es + [e];
    assert es'[..|es'| - 1] == es;
  }

  /** The reply for a list of agent messages: the first stopping message
      decides; otherwise the last parsed value, when it is truthy. */
  function Outcome(ms: seq<AgentMessage>, parse: string -> Option<JVal>): (r: Reply)
    ensures r.Analytics? ==> Truthy(Some(r.analytics))
  {
    var es := Effects(ms, parse);
    match FirstStop(es)
    case Some(k) => EffectAt(ms, k, parse); es[k].reply
    case None =>
      var data := LastParsed(es);
      if Truthy(data) then Analytics(data.value) else ServerError("No response from agent", NoDetails)
  }

  /** `GET(request)`. Returns the reply and, when the agent was called, the
      client options and the agent id used. */
  method Get(env: LettaEnv, created: AgentReply, parse: string -> Option<JVal>)
    returns (reply: Reply, called: Option<(ClientOptions, string)>)
    ensures !Given(env.apiKey) <==> called.None?
    ensures !Given(env.apiKey) ==> reply == ServerError("Missing LETTA_API_KEY", NoDetails)
    ensures called.Some? ==>
              called.value.0 == ClientOptions(env.apiKey.value, if Given(env.baseUrl) then env.baseUrl else None) &&
              called.value.1 == (if Given(env.agentId) then env.agentId.value else DefaultAgentId)
    ensures called.Some? && created.CreateThrew? ==>
              reply == ServerError("Failed to fetch analytics", Text(created.message))
    ensures called.Some? && created.Messages? ==> reply == Outcome(created.messages, parse)
  {
    called := None;
    if !Given(env.apiKey) {
      return ServerError("Missing LETTA_API_KEY", NoDetails), called;
    }
    var baseUrl := if Given(env.baseUrl) then env.baseUrl else None;
    var agentId := if Given(env.agentId) then env.agentId.value else DefaultAgentId;
    called := Some((ClientOptions(env.apiKey.value, baseUrl), agentId));
    if created.CreateThrew? {
      return ServerError("Failed to fetch analytics", Text(created.message)), called;
    }
    reply := ScanMessages(created.messages, parse);
  }

  /** The `for` loop over `response.messages` and what follows it. */
  method ScanMessages(ms: seq<AgentMessage>, parse: string -> Option<JVal>) returns (reply: Reply)
    ensures reply == Outcome(ms, parse)
  {
    var analyticsData: Option<JVal> := None;
    var i := 0;
    while i < |ms|
      invariant i <= |ms|
      invariant FirstStop(Effects(ms[..i], parse)).None?
      invariant analyticsData == LastParsed(Effects(ms[..i], parse))
    {
      var msg := ms[i];
      if msg.messageType == "assistant_message" {
        if !msg.content.JStr? {
          StopAt(ms, i, parse);
          return ServerError("Failed to fetch analytics", EngineMessage);
        }
        var content := msg.content.s;
        var jsonMatch := LlmJson.JsonText(content);
        if jsonMatch.Some? {
          var parsed := parse(jsonMatch.value);
          if parsed.None? {
            StopAt(ms, i, parse);
            return Unparsed("Failed to parse agent response as JSON", content);
          }
          assert MessageEffect(msg, parse) == Parsed(parsed.value);
          Advance(ms, i, Parsed(parsed.value), analyticsData, parse);
          analyticsData := parsed;
        } else {
          StopAt(ms, i, parse);
          return Unparsed("No JSON found in agent response", content);
        }
      } else {
        Advance(ms, i, Skip, analyticsData, parse);
      }
      i := i + 1;
    }
    assert ms[..i] == ms;
    if !Truthy(analyticsData) {
      return ServerError("No response from agent", NoDetails);
    }
    reply := Analytics(analyticsData.value);
  }

  /** Messages that are not assistant messages change nothing. */
  lemma OtherMessagesIgnored(ms: seq<AgentMessage>, m: AgentMessage, parse: string -> Option<JVal>)
    requires m.messageType != "assistant_message"
    ensures Outcome(ms + [m], parse) == Outcome(ms, parse)
  {
    EffectsAppend(ms, m, parse);
    var es := Effects(ms, parse);
    LastParsedStep(es, Skip);
    StopsUnchanged(es, [Skip]);
  }

  /** Appending effects without a stop keeps the first stop. */
  lemma StopsUnchanged(es: seq<Effect>, more: seq<Effect>)
    requires FirstStop(es).Some? || forall j :: 0 <= j < |more| ==> !more[j].Stop?
    ensures FirstStop(es + more) == FirstStop(es)
  {
    var all := es + more;
    match FirstStop(es)
    case Some(k) =>
      forall j | 0 <= j <= k ensures all[j] == es[j] { }
      assert FirstStop(all) == Some(k);
    case None =>
      forall j | 0 <= j < |all| ensures !all[j].Stop? {
        if j < |es| {
          assert all[j] == es[j];
        } else {
          assert all[j] == more[j - |es|];
        }
      }
  }

  /** A message that does not stop the request moves the scan one step:
      a parsed value replaces the one held. */
  lemma Advance(ms: seq<AgentMessage>, i: nat, e: Effect, data: Option<JVal>, parse: string -> Option<JVal>)
    requires i < |ms| && MessageEffect(ms[i], parse) == e && !e.Stop?
    requires FirstStop(Effects(ms[..i], parse)).None?
    requires data == LastParsed(Effects(ms[..i], parse))
    ensures FirstStop(Effects(ms[..i + 1], parse)).None?
    ensures LastParsed(Effects(ms[..i + 1], parse)) == if e.Parsed? then Some(e.value) else data
  {
    Seqs.TakeOneMore(ms, i);
    EffectsAppend(ms[..i], ms[i], parse);
    LastParsedStep(Effects(ms[..i], parse), e);
    StopsUnchanged(Effects(ms[..i], parse), [e]);
  }

  /** The first message that stops the request decides the reply. */
  lemma StopAt(ms: seq<AgentMessage>, i: nat, parse: string -> Option<JVal>)
    requires i < |ms| && MessageEffect(ms[i], parse).Stop?
    requires FirstStop(Effects(ms[..i], parse)).None?
    ensures Outcome(ms, parse) == MessageEffect(ms[i], parse).reply
  {
    var pre := ms[..i + 1];
    Seqs.TakeOneMore(ms, i);
    EffectsAppend(ms[..i], ms[i], parse);
    var es := Effects(ms[..i], parse);
    var es' := es + [MessageEffect(ms[i], parse)];
    assert es'[i].Stop?;
    forall j | 0 <= j < i ensures !es'[j].Stop? {
      assert es'[j] == es[j];
    }
    assert FirstStop(es') == Some(i);
    Seqs.SplitAt(ms, i + 1);
    StopIsFinal(pre, ms[i + 1..], parse);
  }

  /** Once a message has stopped the request, later messages change
      nothing. */
  lemma StopIsFinal(ms: seq<AgentMessage>, more: seq<AgentMessage>, parse: string -> Option<JVal>)
    requires FirstStop(Effects(ms, parse)).Some?
    ensures Outcome(ms + more, parse) == Outcome(ms, parse)
  {
    var es := Effects(ms, parse);
    EffectsConcat(ms, more, parse);
    StopsUnchanged(es, Effects(more, parse));
  }

  /** A later parsed message overrides every earlier one: the reply is that
      value when it is truthy, and "No response" when it is falsy (`null`,
      `0`, `false` or an empty string), whatever came before. */
  lemma LastParsedWins(ms: seq<AgentMessage>, m: AgentMessage, v: JVal, parse: string -> Option<JVal>)
    requires FirstStop(Effects(ms, parse)).None?
    requires MessageEffect(m, parse) == Parsed(v)
    ensures Outcome(ms + [m], parse) ==
              if Truthy(Some(v)) then Analytics(v) else ServerError("No response from agent", NoDetails)
  {
    EffectsAppend(ms, m, parse);
    var es := Effects(ms, parse);
    LastParsedStep(es, Parsed(v));
    StopsUnchanged(es, [Parsed(v)]);
  }

  /** The single message the agent usually sends, with its JSON fenced and
      untagged: the analytics are the parse of the fenced text. */
  lemma FencedAnswer(prefix: string, inner: string, rest: string, parse: string -> Option<JVal>)
    requires LlmJson.NoBacktick(prefix) && LlmJson.NoBacktick(inner) && LlmJson.Trim(inner) != ""
    requires !Strings.StartsWith(inner, "json")
    requires parse(LlmJson.Trim(inner)).Some?
    ensures var m := AgentMessage("assistant_message", JStr(prefix + "```" + inner + "```" + rest));
            var v := parse(LlmJson.Trim(inner)).value;
            Outcome([m], parse) == if Truthy(Some(v)) then Analytics(v) else ServerError("No response from agent", NoDetails)
  {
    var text := prefix + "```" + inner + "```" + rest;
    LlmJson.UntaggedFence(prefix, inner, rest);
    var m := AgentMessage("assistant_message", JStr(text));
    assert MessageEffect(m, parse) == Parsed(parse(LlmJson.Trim(inner)).value);
    LastParsedWins([], m, parse(LlmJson.Trim(inner)).value, parse);
    assert [] + [m] == [m];
  }
}
