/** The MCP host agent: the strict schemas of its two local tools, its tool
    list, the `list_agents` summaries, the exact-match-only `delegate_task`
    and the session log that `invoke` appends to. */
module HostAgent {
  import opened Common
  import opened Json
  import opened Agents
  import opened Sessions
  import ToolBridge

  // ---------------------------------------------------------------------------
  // Tool schemas and the tool list
  // ---------------------------------------------------------------------------

  /** The `list_agents` schema: the generated one with
      `additionalProperties` set to false. */
  function ListAgentsSchema(generated: Schema): (r: Schema)
    ensures r.Keys == generated.Keys + {ToolBridge.AdditionalPropertiesKey}
    ensures r[ToolBridge.AdditionalPropertiesKey] == Bool(false)
    ensures forall k :: k in generated && k != ToolBridge.AdditionalPropertiesKey ==> r[k] == generated[k]
  {
    generated[ToolBridge.AdditionalPropertiesKey := Bool(false)]
  }

  /** `list(schema.get("properties", {}).keys())`; `.keys()` on a value that
      is not an object raises. */
  function PropertyNames(generated: Schema): Result<seq<string>>
  {
    if ToolBridge.PropertiesKey !in generated then Ok([])
    else match generated[ToolBridge.PropertiesKey]
      case Object(keys, _) => Ok(keys)
      case _ => Err(ToolBridge.NonObjectPropertiesError)
  }

  /** The `delegate_task` schema: `additionalProperties` false and
      `required` overwritten by every property name, in order. */
  function DelegateTaskSchema(generated: Schema): (r: Result<Schema>)
    ensures r.Err? <==>
      ToolBridge.PropertiesKey in generated && !generated[ToolBridge.PropertiesKey].Object?
    ensures r.Ok? ==>
      && r.value.Keys == generated.Keys + {ToolBridge.AdditionalPropertiesKey, ToolBridge.RequiredKey}
      && r.value[ToolBridge.AdditionalPropertiesKey] == Bool(false)
      && PropertyNames(generated).Ok?
      && r.value[ToolBridge.RequiredKey] == KeyArray(PropertyNames(generated).value)
      && forall k :: k in generated && k != ToolBridge.AdditionalPropertiesKey && k != ToolBridge.RequiredKey ==>
           r.value[k] == generated[k]
  {
    var schema := generated[ToolBridge.AdditionalPropertiesKey := Bool(false)];
    match PropertyNames(generated)
    case Ok(names) => Ok(schema[ToolBridge.RequiredKey := KeyArray(names)])
    case Err(e) => Err(e)
  }

  /** The bridge's normalisation leaves the `delegate_task` schema as it is:
      the host already makes it strict. */
  lemma DelegateTaskSchemaIsStrict(generated: Schema)
    requires DelegateTaskSchema(generated).Ok?
    ensures ToolBridge.MakeStrictSchema(DelegateTaskSchema(generated).value) == DelegateTaskSchema(generated)
  {
  }

  /** The schema generated for `DelegateTaskArgs` (`agent_name`, `message`)
      ends up requiring both fields. */
  lemma DelegateTaskSchemaRequiresBothFields(name: Value, message: Value)
    ensures
      var props := Object(["agent_name", "message"], map["agent_name" := name, "message" := message]);
      var generated := map[ToolBridge.PropertiesKey := props, ToolBridge.TypeKey := Str("object")];
      DelegateTaskSchema(generated).Ok? &&
      DelegateTaskSchema(generated).value[ToolBridge.RequiredKey] == Array([Str("agent_name"), Str("message")])
  {
  }

  const ListAgentsName := "list_agents"
  const DelegateTaskName := "delegate_task"

  /** One entry of the host agent's tool list. */
  datatype HostTool = LocalTool(name: string, schema: Schema) | Bridged(tool: ToolBridge.Tool)

  /** `create`: the bridge tools are fetched first, then the two local tools
      are built; a schema that cannot be built raises. */
  function HostTools(listGenerated: Schema, delegateGenerated: Schema,
                     mcpTools: seq<ToolBridge.Tool>): (r: Result<seq<HostTool>>)
    ensures r.Err? <==> DelegateTaskSchema(delegateGenerated).Err?
    ensures r.Ok? ==>
      && |r.value| == |mcpTools| + 2
      && r.value[0] == LocalTool(ListAgentsName, ListAgentsSchema(listGenerated))
      && r.value[1] == LocalTool(DelegateTaskName, DelegateTaskSchema(delegateGenerated).value)
      && forall i :: 0 <= i < |mcpTools| ==> r.value[i + 2] == Bridged(mcpTools[i])
  {
    match DelegateTaskSchema(delegateGenerated)
    case Err(e) => Err(e)
    case Ok(delegateSchema) =>
      Ok([LocalTool(ListAgentsName, ListAgentsSchema(listGenerated)), LocalTool(DelegateTaskName, delegateSchema)]
         + seq(|mcpTools|, i requires 0 <= i < |mcpTools| => Bridged(mcpTools[i])))
  }

  // ---------------------------------------------------------------------------
  // list_agents
  // ---------------------------------------------------------------------------

  datatype SkillSummary = SkillSummary(name: string, description: string)
  datatype CardSummary = CardSummary(name: string, description: string, url: string, skills: seq<SkillSummary>)

  /** `card.skills or []` */
  function SkillsOf(card: AgentCard): seq<Skill>
  {
    match card.skills
    case Some(s) => s
    case None => []
  }

  function Summary(card: AgentCard): (r: CardSummary)
    ensures r.name == card.name && r.description == card.description && r.url == card.url
    ensures |r.skills| == |SkillsOf(card)|
    ensures forall i :: 0 <= i < |r.skills| ==>
      r.skills[i] == SkillSummary(SkillsOf(card)[i].name, SkillsOf(card)[i].description)
  {
    var skills := SkillsOf(card);
    CardSummary(card.name, card.description, card.url,
      seq(|skills|, i requires 0 <= i < |skills| => SkillSummary(skills[i].name, skills[i].description)))
  }

  /** `_on_list_agents` before `json.dumps`: one summary per card, in order. */
  method OnListAgents(cards: seq<AgentCard>) returns (result: seq<CardSummary>)
    ensures |result| == |cards|
    ensures forall i :: 0 <= i < |cards| ==> result[i] == Summary(cards[i])
  {
    result := [];
    for k := 0 to |cards|
      invariant |result| == k
      invariant forall i :: 0 <= i < k ==> result[i] == Summary(cards[i])
    {
      var card := cards[k];
      var skills := [];
      var source := if card.skills.Some? then card.skills.value else [];
      for j := 0 to |source|
        invariant |skills| == j
        invariant forall i :: 0 <= i < j ==> skills[i] == SkillSummary(source[i].name, source[i].description)
      {
        skills := skills + [SkillSummary(source[j].name, source[j].description)];
      }
      result := result + [CardSummary(card.name, card.description, card.url, skills)];
    }
  }

  /** A card that lists no skills is summarised with an empty skill list. */
  lemma NoSkillsSummary(card: AgentCard)
    requires card.skills.None?
    ensures Summary(card).skills == []
  {
  }

  // ---------------------------------------------------------------------------
  // delegate_task
  // ---------------------------------------------------------------------------

  /** The validated `DelegateTaskArgs`. */
  datatype DelegateArgs = DelegateArgs(agentName: string, message: string)

  function NotFoundText(agentName: string): string
  {
    "Agent '" + agentName + "' not found. Use list_agents to see available agents."
  }

  /** `_on_delegate_task`. `validate` stands for `model_validate_json`
      (None where it raises), `cards` for the discovery listing, and
      `send(card, message, sessionId)` for a fresh connector's send on a
      fresh uuid session. Only an exact match (name or id, ignoring case) is
      accepted, and a miss is an answer, not an exception. */
  function OnDelegateTask(argsJson: string, validate: string -> Option<DelegateArgs>,
                          cards: seq<AgentCard>, sessionId: string,
                          send: (AgentCard, string, string) -> Result<string>): (r: Result<string>)
    ensures validate(argsJson).None? ==> r.Err?
    ensures validate(argsJson).Some? ==>
      var args := validate(argsJson).value;
      match FirstExact(cards, args.agentName)
      case None => r == Ok(NotFoundText(args.agentName))
      case Some(i) => r == send(cards[i], args.message, sessionId)
  {
    match validate(argsJson)
    case None => Err("validation error for DelegateTaskArgs")
    case Some(args) =>
      match FirstExact(cards, args.agentName)
      case None => Ok(NotFoundText(args.agentName))
      case Some(i) => send(cards[i], args.message, sessionId)
  }

  /** Only a card that matches exactly is ever sent to: when none does the
      call answers with the not-found text, whatever `send` would do. */
  lemma DelegateSendsOnlyOnExactMatch(
    argsJson: string, validate: string -> Option<DelegateArgs>, cards: seq<AgentCard>, sessionId: string,
    send: (AgentCard, string, string) -> Result<string>)
    requires validate(argsJson).Some?
    requires forall i :: 0 <= i < |cards| ==> !ExactMatch(cards[i], validate(argsJson).value.agentName)
    ensures OnDelegateTask(argsJson, validate, cards, sessionId, send)
         == Ok(NotFoundText(validate(argsJson).value.agentName))
  {
  }

  /** Unlike the greeting agent, the host agent has no substring fallback:
      "time" does not find "TellTimeAgent". */
  lemma NoSubstringFallback(url: string)
    ensures
      var card := AgentCard("TellTimeAgent", "", url, "", None);
      FirstExact([card], "time").None?
  {
  }

  // ---------------------------------------------------------------------------
  // invoke
  // ---------------------------------------------------------------------------

  const ProcessingText := "Agent is processing your request..."
  const NoResponseText := "No response generated."

  function HostErrorText(message: string): string
  {
    "Error running host agent: " + message
  }

  /** `result.final_output or "No response generated."`; an empty or missing
      final output is given as "". */
  function FinalOutputOf(output: string): (r: string)
    ensures r != ""
    ensures output != "" ==> r == output
    ensures output == "" ==> r == NoResponseText
  {
    if output != "" then output else NoResponseText
  }

  function AssistantTurn(content: string): Turn
  {
    Turn("assistant", content)
  }

  /** The session log after one `invoke`: only that session changes. `run`
      is the runner applied to the whole log, returning its final output. */
  function HostAfterTurn(sessions: map<string, seq<Turn>>, sessionId: string, query: string,
                         run: seq<Turn> -> Result<string>): (r: map<string, seq<Turn>>)
    ensures r.Keys == sessions.Keys + {sessionId}
    ensures forall k :: k in sessions && k != sessionId ==> r[k] == sessions[k]
  {
    sessions[sessionId := HostEntry(HistoryOf(sessions, sessionId) + [UserTurn(query)], run)]
  }

  /** The user turn is appended first; the assistant turn, holding the final
      output, only when the runner succeeded. */
  lemma HostTurnAppends(sessions: map<string, seq<Turn>>, sessionId: string, query: string,
                        run: seq<Turn> -> Result<string>)
    ensures
      var before := HistoryOf(sessions, sessionId);
      var after := HostAfterTurn(sessions, sessionId, query, run)[sessionId];
      && |before| < |after|
      && after[..|before| + 1] == before + [UserTurn(query)]
      && (run(before + [UserTurn(query)]).Ok? ==>
            |after| == |before| + 2
            && after[|before| + 1] == AssistantTurn(FinalOutputOf(run(before + [UserTurn(query)]).value)))
      && (run(before + [UserTurn(query)]).Err? ==> |after| == |before| + 1)
  {
  }

  /** The log after the runner saw `asked`: the assistant turn is added only
      when it succeeded. */
  function HostEntry(asked: seq<Turn>, run: seq<Turn> -> Result<string>): seq<Turn>
  {
    match run(asked)
    case Ok(output) => asked + [AssistantTurn(FinalOutputOf(output))]
    case Err(_) => asked
  }

  /** What `invoke` yields: a progress update, then one final item carrying
      the output or the error text. */
  function HostUpdates(sessions: map<string, seq<Turn>>, sessionId: string, query: string,
                       run: seq<Turn> -> Result<string>): (r: seq<Update>)
    ensures |r| == 2
    ensures r[0] == Update(false, ProcessingText)
    ensures r[1].isTaskComplete && r[1].text != ""
    ensures
      var outcome := run(HistoryOf(sessions, sessionId) + [UserTurn(query)]);
      && (outcome.Ok? ==> r[1].text == FinalOutputOf(outcome.value))
      && (outcome.Err? ==> r[1].text == HostErrorText(outcome.error))
  {
    var asked := HistoryOf(sessions, sessionId) + [UserTurn(query)];
    match run(asked)
    case Ok(output) => [Update(false, ProcessingText), Update(true, FinalOutputOf(output))]
    case Err(e) => [Update(false, ProcessingText), Update(true, HostErrorText(e))]
  }

  /** The final item of a successful turn is exactly the assistant turn the
      log gains; a failed turn reports the error and logs only the query. */
  lemma {:induction false} HostReplyIsLogged(sessions: map<string, seq<Turn>>, sessionId: string, query: string,
                                             run: seq<Turn> -> Result<string>)
    ensures
      var asked := HistoryOf(sessions, sessionId) + [UserTurn(query)];
      var log := HostAfterTurn(sessions, sessionId, query, run)[sessionId];
      var text := HostUpdates(sessions, sessionId, query, run)[1].text;
      && (run(asked).Ok? ==> log == asked + [AssistantTurn(text)])
      && (run(asked).Err? ==> log == asked && text == HostErrorText(run(asked).error))
  {
  }

  /** Over several turns the log keeps every user query; a session grows by
      two per successful turn and by one per failed turn. */
  lemma {:induction false} TwoTurnsGrowth(sessions: map<string, seq<Turn>>, sessionId: string,
                                         q1: string, q2: string, run: seq<Turn> -> Result<string>)
    ensures
      var s1 := HostAfterTurn(sessions, sessionId, q1, run);
      var s2 := HostAfterTurn(s1, sessionId, q2, run);
      && |HistoryOf(sessions, sessionId)| + 2 <= |s2[sessionId]| <= |HistoryOf(sessions, sessionId)| + 4
      && UserTurn(q1) in s2[sessionId] && UserTurn(q2) in s2[sessionId]
  {
    var h0 := HistoryOf(sessions, sessionId);
    var s1 := HostAfterTurn(sessions, sessionId, q1, run);
    var s2 := HostAfterTurn(s1, sessionId, q2, run);
    HostTurnAppends(sessions, sessionId, q1, run);
    HostTurnAppends(s1, sessionId, q2, run);
    var h1 := HistoryOf(s1, sessionId);
    assert h1 == s1[sessionId];
    assert h1[|h0|] == UserTurn(q1) by {
      assert h1[..|h0| + 1][|h0|] == UserTurn(q1);
    }
    assert s2[sessionId][|h0|] == UserTurn(q1) by {
      assert s2[sessionId][..|h1| + 1][|h0|] == (h1 + [UserTurn(q2)])[|h0|];
    }
    assert s2[sessionId][|h1|] == UserTurn(q2) by {
      assert s2[sessionId][..|h1| + 1][|h1|] == UserTurn(q2);
    }
  }


  /** The host agent's `_sessions`, with `invoke`. */
  class HostSessions {
    var sessions: map<string, seq<Turn>>

    constructor ()
      ensures sessions == map[]
    {
      sessions := map[];
    }

    method Invoke(query: string, sessionId: string, run: seq<Turn> -> Result<string>) returns (updates: seq<Update>)
      modifies this
      ensures sessions == HostAfterTurn(old(sessions), sessionId, query, run)
      ensures updates == HostUpdates(old(sessions), sessionId, query, run)
    {
      if sessionId !in sessions {
        sessions := sessions[sessionId := []];
      }
      sessions := sessions[sessionId := sessions[sessionId] + [UserTurn(query)]];
      ghost var asked := HistoryOf(old(sessions), sessionId) + [UserTurn(query)];
      assert sessions == old(sessions)[sessionId := asked];
      updates := [Update(false, ProcessingText)];
      var result := run(sessions[sessionId]);
      match result {
        case Ok(output) =>
          var finalOutput := if output != "" then output else NoResponseText;
          assert finalOutput == FinalOutputOf(output);
          assert HostEntry(asked, run) == asked + [AssistantTurn(finalOutput)];
          sessions := sessions[sessionId := sessions[sessionId] + [AssistantTurn(finalOutput)]];
          updates := updates + [Update(true, finalOutput)];
        case Err(e) =>
          updates := updates + [Update(true, HostErrorText(e))];
      }
    }
  }
}
