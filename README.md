# A2A / MCP multi-agent system: the deterministic core in Dafny

The system is a set of cooperating agents. Each agent wraps a language-model
runner and talks to other agents over the Agent-to-Agent (A2A) protocol. Each
agent also reaches tool servers over the Model Context Protocol (MCP). The
model calls themselves are out of reach. This project models everything the
agents do deterministically around those calls, and proves what that logic
promises.

- **MCP tool bridge** (`tool_bridge.dfy`, module `ToolBridge`). It does four
  things.
  - It makes each tool's input schema strict, by setting the JSON Schema
    keywords `additionalProperties` (section 10.3.2.3 of JSON Schema Core
    2020-12) and `required` (section 6.5.3 of JSON Schema Validation 2020-12).
  - It fills in defaults for a missing description and a missing schema.
  - It walks the configured servers in order, skipping any server that cannot
    be reached. The class `MCPToolBridge` keeps the sessions opened and the
    tools gathered.
  - On each tool call, it folds the MCP result content into one string.
- **Agent cards and searches** (`agents.dfy`, module `Agents`). Cards,
  messages and tasks; the first-match searches by exact name/id or by
  substring; the "first part of the last message" reply convention.
- **Greeting agent** (`greeting_agent.dfy`). `call_agent` resolves a name in
  three steps: exact match, then substring match, then an error. It keeps a
  module-level connector cache that never replaces an entry, and it replies on
  the fixed session "greeting_session".
- **A2A orchestrator** (`orchestrator.dfy`).
  - The connector map is rebuilt from the discovered cards.
  - `list_agents` and `delegate_task` work over that map. The lookup is
    case-sensitive, and a reply exists only when the history holds more than
    one message.
  - The instruction includes a bullet list of the agents.
  - The task manager's `on_send_task` upserts the task, runs the orchestrator
    and completes the task with one agent message.
- **Session stores** (`sessions.dfy`). The greeting agent, the orchestrator
  and the A2A tell-time agent share one store pattern, modelled once as
  `TranscriptStore`:
  - get or create the session;
  - give the runner the bare query on the first turn, and on later turns the
    history plus one user message;
  - replace the history with the runner's transcript.
- **MCP host agent** (`host_agent.dfy`). It covers:
  - the schemas and order of its tool list;
  - the `list_agents` summaries;
  - `delegate_task`, which accepts an exact match only and answers a miss with
    text;
  - the session log, which `invoke` appends to (`HostSessions`).
- **Content writer** (`content_writer.dfy`). It covers:
  - save-keyword detection;
  - file-name extraction: marker search, first token, the `.md` suffix and the
    default name chosen by content type;
  - routing between save and end;
  - the save node's result text;
  - the composition of the final answer.
- **Streaming tell-time agent** (`tell_time_stream.dfy`). `stream` is a loop
  over the runner's events. It yields one progress item per tool call and per
  tool output, then exactly one terminal item. That item carries the last
  non-empty message text, or else a fallback asking for user input. When the
  runner raises, nothing catches it: the progress items already yielded stand,
  no terminal item follows, and the exception reaches the caller.

Shared pieces are `Common` (`Option`, `Result`, the yielded `Update`) and
`Text` (ASCII `lower`, substring search, `join`/`split`, Python whitespace
and `split()[0]`), both in `common.dfy`. `Json` (`json.dfy`) holds JSON
values, whose objects keep their key order.

Every call into code outside the core is a parameter of the member that makes
it. A call that raises is modelled as `Err` of `Result`, carrying the
exception's text. This covers:
- the language-model runner;
- an MCP `call_tool`;
- an A2A `send_task`.

Two calls are modelled differently. `json.loads` of a tool call's arguments
is a two-way parse outcome, parsed or not, and the bridge swallows the error
by using `{}`. Pydantic validation of `delegate_task`'s arguments either
yields the arguments or fails.

The model keeps these behaviours of the code as written:
- `on_send_task` never moves a task to FAILED. When the runner raises, the
  exception propagates and the task stays as `upsert_task` left it.
- The greeting agent's `call_agent` and the orchestrator's `delegate_task`
  raise when no agent is found. They do not answer with text. Only the host
  agent's `delegate_task` answers with text.
- The greeting connector cache keeps the first connector made for a name
  (`ConnectorReused`). It is not "last write wins".
- The tool bridge's catalog keeps tools with the same name from different
  servers side by side. It does not let the last one win.
- `_extract_filename` raises IndexError when the text after a marker is
  whitespace only (`ExtractFilenameCrashes`). The model keeps that behaviour
  as an error result, and `invoke` then reports it as
  "Error in content writer: list index out of range".

## Model

| member | source | states |
|---|---|---|
| Json.KeyArray | mcp_a2a_master/utilities/openai_mcp/mcp_tool_bridge.py:176 | `list(d.keys())` as a JSON array: same length as the keys, the i-th item is the i-th key |
| ToolBridge.MakeStrictSchema | mcp_a2a_master/utilities/openai_mcp/mcp_tool_bridge.py:166-178 | `additionalProperties` keeps an existing value and otherwise becomes false. An existing `required` is kept. Otherwise `required` is added exactly when `properties` is present, and it is then the property keys in order. Every other key keeps its value. The call fails exactly when `properties` has to be read but is not an object |
| ToolBridge.MakeStrictSchemaIdempotent | mcp_a2a_master/utilities/openai_mcp/mcp_tool_bridge.py:170-178 | normalising an already normalised schema gives it back unchanged |
| ToolBridge.StrictRequiredNamesEachProperty | mcp_a2a_master/utilities/openai_mcp/mcp_tool_bridge.py:174-176 | for a `properties` dict (each key once, every key with a value), the added `required` names every property exactly once and nothing else |
| ToolBridge.MakeStrictSchemaExample | mcp_a2a_master/utilities/openai_mcp/mcp_tool_bridge.py:174-176 | `{type, properties: {a, b}}` becomes the same map plus `required: ["a", "b"]` and `additionalProperties: false` |
| ToolBridge.ToolFromDef | mcp_a2a_master/utilities/openai_mcp/mcp_tool_bridge.py:103-117 | a built tool keeps the listed name and is bound to its server. Its description is the listed one when non-empty and "MCP tool: <name>" otherwise (`DescriptionOf`). Its schema is `MakeStrictSchema` of the listed schema, or of `{type: object, properties: {}}` when none is listed (`SchemaOf`); the tool fails exactly when that normalisation fails, with its error. A tool without a schema always builds |
| ToolBridge.ToolDefaults | mcp_a2a_master/utilities/openai_mcp/mcp_tool_bridge.py:105-109 | no schema gives `{type: object, properties: {}, required: [], additionalProperties: false}`; no description gives "MCP tool: " + name |
| ToolBridge.BuildTools | mcp_a2a_master/utilities/openai_mcp/mcp_tool_bridge.py:100-126 | on success, one tool per listed definition, position by position; failure exactly when some definition's schema cannot be normalised |
| ToolBridge.CreateToolsFromSession | mcp_a2a_master/utilities/openai_mcp/mcp_tool_bridge.py:100-126 | the loop returns exactly the catalog `BuildTools` specifies, stopping at the first failing definition |
| ToolBridge.BuildToolsErrExtends | mcp_a2a_master/utilities/openai_mcp/mcp_tool_bridge.py:103-117 | once a prefix of the listing fails, the whole listing fails with the same exception |
| ToolBridge.FailedServerSkipped | mcp_a2a_master/utilities/openai_mcp/mcp_tool_bridge.py:38-50 | a server that is unreachable or whose connect raises adds no tool and no session; the result equals the run without that server |
| ToolBridge.CatalogMembership | mcp_a2a_master/utilities/openai_mcp/mcp_tool_bridge.py:40-50 | a tool is in the catalog (`Catalog`, the per-server contributions concatenated in server order) iff some server contributed it |
| ToolBridge.ThreeServersOneUnreachable | mcp_a2a_master/utilities/openai_mcp/mcp_tool_bridge.py:61-71 | with an unreachable middle server, the catalog is the first server's tools followed by the third's, and likewise for the sessions |
| ToolBridge.MCPToolBridge.constructor | mcp_a2a_master/utilities/openai_mcp/mcp_tool_bridge.py:27-31 | a new bridge holds no session and no tool |
| ToolBridge.MCPToolBridge.GetTools | mcp_a2a_master/utilities/openai_mcp/mcp_tool_bridge.py:33-50 | sessions and tools are extended by the servers' contributions (`Sessions`, `Catalog`), in server order, and the returned list equals the bridge's tools |
| ToolBridge.DecodeArgs | mcp_a2a_master/utilities/openai_mcp/mcp_tool_bridge.py:140-143 | empty or undecodable arguments become `{}`; decodable ones are passed as decoded |
| ToolBridge.InvokeTool | mcp_a2a_master/utilities/openai_mcp/mcp_tool_bridge.py:139-157 | a raising call gives "Error calling MCP tool '<name>': <msg>". Empty content gives the no-output text. Content without text gives the no-text-output text. Otherwise the result is the text items' texts, in order, joined by "\n" |
| ToolBridge.TextsMembership | mcp_a2a_master/utilities/openai_mcp/mcp_tool_bridge.py:149-155 | a string is among the collected texts iff some text item carries it |
| ToolBridge.ToolOutputLines | mcp_a2a_master/utilities/openai_mcp/mcp_tool_bridge.py:149-154 | when no text holds a newline, splitting the output at "\n" gives back exactly the texts |
| Agents.FirstMatch | a2a_multi_agent/a2a_agents/greeting_agent/agent.py:71-76 | `next(...)`: the index of the first card satisfying the predicate, none before it satisfies it, and None iff no card does |
| Agents.ExactNameIsSubstring | a2a_multi_agent/a2a_agents/greeting_agent/agent.py:71-83 | a card whose lowercased name equals the lowercased query also matches it as a substring |
| Agents.LastReply | a2a_multi_agent/a2a_agents/greeting_agent/agent.py:107-110 | the first part of the last message of the task's history; "" when the history is empty or its last message has no parts |
| GreetingAgent.ResolveAgent | a2a_multi_agent/a2a_agents/greeting_agent/agent.py:70-83 | when any card matches exactly by name or id (ignoring case), the first such card. Otherwise the first card whose name contains the query. None exactly when no name contains it |
| GreetingAgent.ResolveAgentFails | a2a_multi_agent/a2a_agents/greeting_agent/agent.py:79-87 | the lookup fails iff no card name contains the query and no card id equals it, ignoring case |
| GreetingAgent.ExactMatchBeatsEarlierSubstring | a2a_multi_agent/a2a_agents/greeting_agent/agent.py:70-83 | an exact match ignoring case wins over an earlier card whose name only contains the query ("telltimeagent" finds "TellTimeAgent" after "TellTimeAgentV2") |
| GreetingAgent.ResolveFallsBackToSubstring | a2a_multi_agent/a2a_agents/greeting_agent/agent.py:79-83 | "time" finds "TellTimeAgent" through the substring fallback |
| GreetingAgent.EnsureConnector | a2a_multi_agent/a2a_agents/greeting_agent/agent.py:90-98 | the cache gains the card's name; existing entries never change; a new entry is the connector for the card's name and url |
| GreetingAgent.ConnectorReused | a2a_multi_agent/a2a_agents/greeting_agent/agent.py:92-98 | a second lookup of the same name, even with another url, leaves the cache as the first lookup left it |
| GreetingAgent.ConnectorCache.constructor | a2a_multi_agent/a2a_agents/greeting_agent/agent.py:29 | the cache starts empty |
| GreetingAgent.ConnectorCache.CallAgent | a2a_multi_agent/a2a_agents/greeting_agent/agent.py:62-110 | not found: the "Agent '<name>' not found." error, and the cache is unchanged. Found: the cache is updated as `EnsureConnector` says, the message is sent on "greeting_session" through the cached connector, and the reply is the last message's first part, or the send's error |
| GreetingAgent.SendReply | a2a_multi_agent/a2a_agents/greeting_agent/agent.py:100-110 | a delivered task gives `LastReply` of that task; a failed send gives its error |
| Sessions.RunnerInput | a2a_multi_agent/a2a_agents/tell_time_agent/agent.py:85-91 | the bare query iff the history is empty; otherwise the history unchanged followed by exactly one user item with the query |
| Sessions.AfterTurn | a2a_multi_agent/a2a_agents/tell_time_agent/agent.py:79-98 | the session exists afterwards and holds the runner's transcript (or, when the runner raised, what get-or-create left); every other session is unchanged |
| Sessions.FirstTurnIsBareQuery | a2a_multi_agent/a2a_agents/tell_time_agent/agent.py:80-91 | an unseen session's first turn runs on the bare query |
| Sessions.NextTurnExtendsTranscript | a2a_multi_agent/a2a_agents/host_agent/orchestrator.py:160-175 | the next turn's input is exactly the previous turn's transcript plus one user item |
| Sessions.TurnsOnDifferentSessionsCommute | a2a_multi_agent/a2a_agents/greeting_agent/agent.py:169-185 | turns on two different sessions give the same store in either order |
| Sessions.TranscriptStore.constructor | a2a_multi_agent/a2a_agents/greeting_agent/agent.py:141 | the store starts with no session |
| Sessions.TranscriptStore.Invoke | a2a_multi_agent/a2a_agents/tell_time_agent/agent.py:67-101 | the store becomes `AfterTurn` of the old store. The result is the final output, "" when there is none, or the runner's exception. The same method serves greeting_agent/agent.py:164-188 and orchestrator.py:153-178 |
| Sessions.TurnReply | a2a_multi_agent/a2a_agents/greeting_agent/agent.py:180-188 | the runner's final output (`ReplyOf`), "" when it has none, or the runner's exception when it raised |
| Orchestrator.KeyOrder | a2a_multi_agent/a2a_agents/host_agent/orchestrator.py:114-116 | the map's key order: each card name exactly once, exactly the card names, and ordered by the index of each name's first card (`FirstCardNamed`) |
| Orchestrator.ConnectorMap | a2a_multi_agent/a2a_agents/host_agent/orchestrator.py:114-116 | the keys are exactly the card names |
| Orchestrator.ConnectorMapLastWins | a2a_multi_agent/a2a_agents/host_agent/orchestrator.py:115-116 | with duplicate names, the last card with a name owns that name's connector |
| Orchestrator.ConnectorRegistry.constructor | a2a_multi_agent/a2a_agents/host_agent/orchestrator.py:49 | the registry starts empty and consistent |
| Orchestrator.ConnectorRegistry.Rebuild | a2a_multi_agent/a2a_agents/host_agent/orchestrator.py:111-116 | clearing and inserting leaves exactly `ConnectorMap(cards)`, with key order `KeyOrder(cards)`, and keeps the order and the map consistent |
| Orchestrator.ConnectorRegistry.ListAgents | a2a_multi_agent/a2a_agents/host_agent/orchestrator.py:56-63 | every connector key exactly once, and nothing else |
| Orchestrator.ConnectorRegistry.DelegateTask | a2a_multi_agent/a2a_agents/host_agent/orchestrator.py:66-92 | a name that is not a key (case-sensitive) fails with "Unknown agent: <name>" before any send. Otherwise the reply follows `DelegateReply` of the returned task, or the send's error |
| Orchestrator.UnknownAgentIgnoresSend | a2a_multi_agent/a2a_agents/host_agent/orchestrator.py:80-81 | for a name that is not a key, the outcome is the same whatever the send would do |
| Orchestrator.DelegateIsCaseSensitive | a2a_multi_agent/a2a_agents/host_agent/orchestrator.py:80-81 | after building from "TellTimeAgent", the name "telltimeagent" is unknown |
| Orchestrator.DelegateReply | a2a_multi_agent/a2a_agents/host_agent/orchestrator.py:90-92 | with more than one message, the last message's first part. An empty part list there raises IndexError. With one message or none, "" |
| Orchestrator.ReplyConventionsDiffer | a2a_multi_agent/a2a_agents/host_agent/orchestrator.py:90-92 | on a one-message history the greeting convention returns that message's text while `delegate_task` returns "" |
| Orchestrator.AgentListLines | a2a_multi_agent/a2a_agents/host_agent/orchestrator.py:136-143 | the agent list (`AgentList`) splits into one "- name" line per agent, in map order |
| Orchestrator.AgentListAfterRebuild | a2a_multi_agent/a2a_agents/host_agent/orchestrator.py:111-143 | the instruction's list over the rebuilt map's key order has one line per distinct name, no line twice, and a line for every discovered card |
| Orchestrator.Upserted | a2a_multi_agent/a2a_agents/host_agent/orchestrator.py:208 | a new id gives a SUBMITTED task holding the message. A known id keeps its state and gains the message at the end |
| Orchestrator.CompletedWith | a2a_multi_agent/a2a_agents/host_agent/orchestrator.py:215-218 | state COMPLETED; the history is the old history followed by exactly one agent message with the response as its single part |
| Orchestrator.CompletedTaskReplies | a2a_multi_agent/a2a_agents/host_agent/orchestrator.py:215-218 | a task completed with a response replies with that response, under `LastReply` and, when it already held a message, under `DelegateReply` |
| Orchestrator.UserText | a2a_multi_agent/a2a_agents/host_agent/orchestrator.py:191-195 | the request's first part; an empty part list raises IndexError |
| Orchestrator.SendAddsTwoMessages | a2a_multi_agent/a2a_agents/host_agent/orchestrator.py:207-218 | one completed send on a known task appends exactly the inbound message and the reply |
| Orchestrator.SequentialSendsKeepEveryMessage | a2a_multi_agent/a2a_agents/host_agent/orchestrator.py:197-221 | two completed sends with one task id lose no message: request, reply, request, reply |
| Orchestrator.TaskManager.constructor | a2a_multi_agent/a2a_agents/host_agent/orchestrator.py:187-189 | the task store starts empty |
| Orchestrator.TaskManager.UpsertTask | a2a_multi_agent/a2a_agents/host_agent/orchestrator.py:208 | the stored and returned task is `Upserted` of the old store; other tasks are unchanged |
| Orchestrator.TaskManager.OnSendTask | a2a_multi_agent/a2a_agents/host_agent/orchestrator.py:197-221 | the task is always upserted. After a run, the session store takes the turn, and the task becomes `CompletedWith` the response and is returned. When the request has no part or the runner raises, the exception is returned and the task stays as upserted |
| HostAgent.ListAgentsSchema | mcp_a2a_master/my_agents/host_agent/agent.py:52-53 | the generated schema with `additionalProperties` false and every other key unchanged |
| HostAgent.DelegateTaskSchema | mcp_a2a_master/my_agents/host_agent/agent.py:55-57 | `additionalProperties` false; `required` overwritten by all property names in order; other keys unchanged; failure iff `properties` is not an object |
| HostAgent.DelegateTaskSchemaIsStrict | mcp_a2a_master/my_agents/host_agent/agent.py:55-57 | the bridge's normalisation leaves the host's delegate schema unchanged |
| HostAgent.DelegateTaskSchemaRequiresBothFields | mcp_a2a_master/my_agents/host_agent/agent.py:55-57 | the schema for `agent_name` and `message` requires both fields, in that order |
| HostAgent.HostTools | mcp_a2a_master/my_agents/host_agent/agent.py:49-80 | `list_agents`, then `delegate_task`, then every bridged tool in bridge order |
| HostAgent.Summary | mcp_a2a_master/my_agents/host_agent/agent.py:86-94 | a card's name, description and url, plus one (name, description) pair per skill, in order |
| HostAgent.OnListAgents | mcp_a2a_master/my_agents/host_agent/agent.py:82-95 | one summary per card, in card order |
| HostAgent.NoSkillsSummary | mcp_a2a_master/my_agents/host_agent/agent.py:90-93 | a card without skills gets an empty skill list |
| HostAgent.OnDelegateTask | mcp_a2a_master/my_agents/host_agent/agent.py:97-114 | invalid arguments raise. No exact name/id match answers with "Agent '<name>' not found. Use list_agents to see available agents." Otherwise the first exact match receives the message |
| HostAgent.DelegateSendsOnlyOnExactMatch | mcp_a2a_master/my_agents/host_agent/agent.py:101-111 | without an exact match, the result is the not-found text, whatever the send would do |
| HostAgent.NoSubstringFallback | mcp_a2a_master/my_agents/host_agent/agent.py:101-108 | "time" does not find "TellTimeAgent" |
| HostAgent.FinalOutputOf | mcp_a2a_master/my_agents/host_agent/agent.py:143 | a non-empty output is kept; an empty output gives "No response generated." |
| HostAgent.HostAfterTurn | mcp_a2a_master/my_agents/host_agent/agent.py:123-149 | the session exists afterwards and every other session is unchanged |
| HostAgent.HostTurnAppends | mcp_a2a_master/my_agents/host_agent/agent.py:124-149 | the session always gains the user turn first. A successful run adds exactly one assistant turn with the output (2 turns in all); a raising run adds nothing more (1 turn) |
| HostAgent.HostUpdates | mcp_a2a_master/my_agents/host_agent/agent.py:132-163 | a non-complete "Agent is processing your request..." item, then one complete item: `FinalOutputOf` the runner's output on success, "Error running host agent: <msg>" when the runner raised |
| HostAgent.HostReplyIsLogged | mcp_a2a_master/my_agents/host_agent/agent.py:132-163 | on success the final item's text is exactly the assistant turn the log gains; on failure the log ends with the user turn and the final item is the error text |
| HostAgent.TwoTurnsGrowth | mcp_a2a_master/my_agents/host_agent/agent.py:124-149 | after two turns, the log holds both user queries and has grown by between 2 and 4 turns |
| HostAgent.HostSessions.constructor | mcp_a2a_master/my_agents/host_agent/agent.py:47 | the session log starts empty |
| HostAgent.HostSessions.Invoke | mcp_a2a_master/my_agents/host_agent/agent.py:116-163 | the log becomes `HostAfterTurn` of the old log and the yielded items are `HostUpdates` |
| ContentWriter.ShouldSaveThreeKeywords | mcp_a2a_master/my_agents/content_writer/agent.py:106-110 | the save decision (`ShouldSave`, any of the five keywords in the lowercased query) holds iff the lowercased query contains "save", "write to file" or "store" |
| ContentWriter.TokenFrom | mcp_a2a_master/my_agents/content_writer/agent.py:159-160 | an index at the end gives "". Raises iff the remainder is non-empty whitespace. Otherwise the result is the first whitespace-delimited token of the remainder, so a remainder with a non-space character gives a non-empty token |
| ContentWriter.Candidate | mcp_a2a_master/my_agents/content_writer/agent.py:158-160 | an absent marker gives "". A present marker gives `TokenFrom` just past its first occurrence in the lowercased query |
| ContentWriter.MarkerEnd | mcp_a2a_master/my_agents/content_writer/agent.py:159 | the index just past the marker's first occurrence in the lowercased query: the marker occurs there and at no earlier index |
| ContentWriter.WithExtension | mcp_a2a_master/my_agents/content_writer/agent.py:162-164 | a name with a dot is kept; one without gets ".md" |
| ContentWriter.DefaultFilename | mcp_a2a_master/my_agents/content_writer/agent.py:167-174 | "blog" gives blog_post.md, else "article" gives article.md, else "email" gives email.md, else content.md |
| ContentWriter.ExtractFrom | mcp_a2a_master/my_agents/content_writer/agent.py:157-165 | the first marker whose candidate is not "" decides: a non-empty candidate gives `WithExtension` of it, a crash gives the IndexError. "Nothing found" iff every marker's candidate is "" |
| ContentWriter.DecidesTail | mcp_a2a_master/my_agents/content_writer/agent.py:157-165 | once the first marker yields "", the deciding marker is the one deciding among the remaining markers |
| ContentWriter.ExtractFilename | mcp_a2a_master/my_agents/content_writer/agent.py:153-174 | the marker search's name when it found one, its IndexError when it crashed, and `DefaultFilename` of the lowercased query when nothing was found; always non-empty with a dot |
| ContentWriter.NoMarkerMeansDefault | mcp_a2a_master/my_agents/content_writer/agent.py:167-174 | without any marker, the name is the content-type default |
| ContentWriter.SingleToken | mcp_a2a_master/my_agents/content_writer/agent.py:160 | a non-empty string without whitespace is its own first token |
| ContentWriter.ExtractFilenameAfterMarker | mcp_a2a_master/my_agents/content_writer/agent.py:157-165 | "save as Name" gives "Name.md", keeping the query's case |
| ContentWriter.ExtractFilenameCrashes | mcp_a2a_master/my_agents/content_writer/agent.py:159-160 | "save as " followed by whitespace only raises IndexError |
| ContentWriter.GenerateContent | mcp_a2a_master/my_agents/content_writer/agent.py:105-122 | the content is the model's answer and `should_save` is the keyword test. The file name is "" without saving and `ExtractFilename(query)` with saving. The node fails iff it saves and extraction raises |
| ContentWriter.NextStep | mcp_a2a_master/my_agents/content_writer/agent.py:124-128 | "save" iff saving was asked and a session exists |
| ContentWriter.FirstText | mcp_a2a_master/my_agents/content_writer/agent.py:143-148 | the first of the collected texts, None iff there is none |
| ContentWriter.SaveContent | mcp_a2a_master/my_agents/content_writer/agent.py:130-151 | no session gives the not-available text. A raising call gives "Error saving file: <msg>". Otherwise the first text if it is non-empty, else "File saved successfully.". The result is never empty |
| ContentWriter.RunGraph | mcp_a2a_master/my_agents/content_writer/agent.py:75-93 | a model error propagates, and an extraction crash fails the run when saving was asked. The run succeeds iff the model answered and extraction succeeds or is not needed. The final content is the model's answer. On the "save" route the save result is `SaveContent` of writing that answer under `ExtractFilename(query)`; on the "end" route it is "" |
| ContentWriter.Compose | mcp_a2a_master/my_agents/content_writer/agent.py:200-204 | the content, followed by "\n\n---\n" and the save result exactly when one exists |
| ContentWriter.Invoke | mcp_a2a_master/my_agents/content_writer/agent.py:176-218 | one non-complete "Generating content..." item, then exactly one complete item: `Compose` of the graph's content and save result, or "Error in content writer: <msg>" when the graph raised |
| ContentWriter.FinalItemShowsSave | mcp_a2a_master/my_agents/content_writer/agent.py:198-211 | the final text starts with the content, and is longer exactly when saving was asked and a session exists |
| ContentWriter.NoSaveKeywordNoSave | mcp_a2a_master/my_agents/content_writer/agent.py:105-128 | a query without save keywords is answered with the content alone, and nothing is written |
| TellTimeStream.ProgressOf | agent_a2a_sdk/my_agents/tell_time_agent/agent.py:88-115 | a tool call yields exactly "Looking up the current time...", a tool output exactly "Processing the time result...", both neither complete nor asking for input; every other event yields nothing |
| TellTimeStream.Progress | agent_a2a_sdk/my_agents/tell_time_agent/agent.py:88-115 | every progress item is neither complete nor asking for input; there are at most as many items as events |
| TellTimeStream.FinalOutput | agent_a2a_sdk/my_agents/tell_time_agent/agent.py:117-123 | None iff no message carried text; a final output is never empty |
| TellTimeStream.FinalOutputIsLastMessage | agent_a2a_sdk/my_agents/tell_time_agent/agent.py:120-123 | the last message with non-empty text wins |
| TellTimeStream.Terminal | agent_a2a_sdk/my_agents/tell_time_agent/agent.py:128-140 | complete with the output iff there is one; otherwise not complete, asking for input, with the fallback text |
| TellTimeStream.Stream | agent_a2a_sdk/my_agents/tell_time_agent/agent.py:65-140 | when the runner finishes, the loop yields exactly the progress items of the events followed by one terminal item for the final output. When it raises after some events, only those events' progress items are yielded, none of them complete, and the exception is passed on |
| TellTimeStream.SilentEventNoProgress | agent_a2a_sdk/my_agents/tell_time_agent/agent.py:89-91 | dropping an event that yields nothing leaves the progress items unchanged |
| TellTimeStream.SilentEventNoOutput | agent_a2a_sdk/my_agents/tell_time_agent/agent.py:117-123 | dropping an event without message text leaves the final output unchanged |
| TellTimeStream.OneTerminalItem | agent_a2a_sdk/my_agents/tell_time_agent/agent.py:125-140 | every item but the last is progress; the last is complete iff some message carried text |
| TellTimeStream.ToolRoundTrip | agent_a2a_sdk/my_agents/tell_time_agent/agent.py:88-140 | raw token, tool call, tool output and answer yield "Looking up...", "Processing..." and the complete answer |

## Left out

- Language-model calls are parameters: `Runner.run`, `Runner.run_streamed`, the chat model's `ainvoke` and the compiled LangGraph. The content-writer graph is written out as generate, route and optionally save. Instruction and prompt texts, `load_instructions_file` and the agents' construction of `Agent` objects are not modelled. Only the orchestrator's agent list is.
- MCP and HTTP transport are not modelled: stdio and streamable-HTTP clients, `ClientSession`, the reachability probe, the connect timeout and `AsyncExitStack` cleanup. A server's connection is an abstract outcome: unreachable, raised, or connected with a tool listing or an error. A tool call is a `(name, arguments) -> outcome` parameter.
- `_make_function_tool` is modelled as the `Tool` record plus `InvokeTool`. The closure's binding to its session is the record's `server` field.
- `AgentConnector`, `DiscoveryClient`, `AgentDiscovery` and `MCPDiscovery` are not part of this model. Sends are parameters, and the discovery listing is an argument: the model does not cover `list_agent_cards` raising. In the code nothing catches that exception, so the calling tool fails with it before it changes any state.
- Orchestrator.Upserted: `InMemoryTaskManager.upsert_task` is not part of this model. It is modelled at its interface: a new id starts SUBMITTED with the message, and a known id gains the message. Its lock is treated as one atomic update.
- HostAgent.OnDelegateTask: a validation failure is an error whose text is a fixed placeholder. Pydantic's own message is not modelled, and the contract promises only that the call fails.
- Concurrency is not modelled. Each `async` method runs to completion as one step.
- `json.loads`, `json.dumps`, pydantic `model_json_schema` and `model_validate_json` are abstract results. `_on_list_agents` returns the summaries before `json.dumps`.
- Clock and randomness are not modelled. `datetime.now` is outside the model, which leaves out the tell-time tools and the A2A tell-time agent's `stream`. Each fresh `uuid4` session id is a parameter.
- The greeting agent's own `list_agents` tool (a `model_dump` of every card) is a serialisation only, and is not modelled.
- Text.Lower: only ASCII letters are lowered. Python's full Unicode `str.lower` can change a string's length, and that case is not modelled.
- ContentWriter.Invoke: the "No content generated." default at content_writer/agent.py:200 is not modelled. The graph state always holds `final_content`, so that default cannot be reached.
- Logging (`rprint`, `logger`), the filesystem MCP server and the content writer's `__main__` are not modelled.
- ToolBridge.MakeStrictSchema: the error case stands for Python's AttributeError when `properties` is not a dict. The text of that error is approximated.
