/** The A2A orchestrator: a connector map built from the discovered cards,
    the `list_agents` and `delegate_task` tools over it, the bullet list of
    agent names in its instruction, and the task manager that records an
    inbound message, runs the orchestrator and completes the task. */
module Orchestrator {
  import opened Common
  import opened Text
  import opened Agents
  import opened Sessions

  predicate Distinct(xs: seq<string>)
  {
    forall i, j :: 0 <= i < j < |xs| ==> xs[i] != xs[j]
  }

  // ---------------------------------------------------------------------------
  // The connector map
  // ---------------------------------------------------------------------------

  /** The key order of the map that `_connectors[card.name] = ...` builds
      over `cards`: each name once, where it first occurs (re-assigning an
      existing key keeps its position). */
  function KeyOrder(cards: seq<AgentCard>): (r: seq<string>)
    ensures Distinct(r)
    ensures forall n :: n in r <==> exists i :: 0 <= i < |cards| && cards[i].name == n
    ensures forall a, b :: 0 <= a < b < |r| ==> FirstCardNamed(cards, r[a]) < FirstCardNamed(cards, r[b])
  {
    if |cards| == 0 then []
    else
      var before := cards[..|cards| - 1];
      var init := KeyOrder(before);
      var n := cards[|cards| - 1].name;
      assert forall i :: 0 <= i < |before| ==> before[i] == cards[i];
      FirstCardNamedExtend(cards, init);
      if n in init then init else init + [n]
  }

  /** Appending a card keeps the first index of every name already present
      and gives a new name the appended card's index. */
  lemma FirstCardNamedExtend(cards: seq<AgentCard>, names: seq<string>)
    requires |cards| > 0
    requires forall m :: m in names <==> exists i :: 0 <= i < |cards| - 1 && cards[i].name == m
    ensures forall m :: m in names ==> FirstCardNamed(cards, m) == FirstCardNamed(cards[..|cards| - 1], m) < |cards| - 1
    ensures cards[|cards| - 1].name !in names ==> FirstCardNamed(cards, cards[|cards| - 1].name) == |cards| - 1
  {
    var before := cards[..|cards| - 1];
    assert forall i :: 0 <= i < |before| ==> before[i] == cards[i];
    var n := cards[|cards| - 1].name;
    if n !in names {
      assert FirstCardNamed(before, n) == |before|;
    }
  }

  /** The index of the first card called `n`; `|cards|` when there is none. */
  function FirstCardNamed(cards: seq<AgentCard>, n: string): (r: nat)
    ensures r <= |cards|
    ensures r < |cards| ==> cards[r].name == n
    ensures forall j :: 0 <= j < r ==> cards[j].name != n
  {
    if |cards| == 0 then 0
    else
      var init := cards[..|cards| - 1];
      var k := FirstCardNamed(init, n);
      if k < |init| then k
      else if cards[|cards| - 1].name == n then |init|
      else |cards|
  }

  /** The map those assignments build: one entry per card name, and with
      duplicate names the last card wins. */
  function ConnectorMap(cards: seq<AgentCard>): (r: map<string, Connector>)
    ensures forall n :: n in r <==> exists i :: 0 <= i < |cards| && cards[i].name == n
  {
    if |cards| == 0 then map[]
    else
      var last := cards[|cards| - 1];
      assert forall i :: 0 <= i < |cards| - 1 ==> cards[..|cards| - 1][i] == cards[i];
      ConnectorMap(cards[..|cards| - 1])[last.name := ConnectorFor(last)]
  }

  /** With duplicate names the last card wins: a card that no later card
      shares its name with owns the entry. */
  lemma {:induction false} ConnectorMapLastWins(cards: seq<AgentCard>, i: nat)
    requires i < |cards|
    requires forall j :: i < j < |cards| ==> cards[j].name != cards[i].name
    ensures cards[i].name in ConnectorMap(cards)
    ensures ConnectorMap(cards)[cards[i].name] == ConnectorFor(cards[i])
  {
    if i < |cards| - 1 {
      var init := cards[..|cards| - 1];
      assert forall j :: i < j < |init| ==> init[j] == cards[j];
      ConnectorMapLastWins(init, i);
    }
  }

  /** `ValueError(f"Unknown agent: {agent_name}")` */
  function UnknownAgentText(agentName: string): string
  {
    "Unknown agent: " + agentName
  }

  /** The reply convention of `delegate_task`: the first part of the last
      history message, but only when the history holds more than one
      message; `[0]` on an empty part list raises IndexError. */
  function DelegateReply(task: Task): (r: Result<string>)
    ensures r.Err? <==> |task.history| > 1 && task.history[|task.history| - 1].parts == []
    ensures r.Err? ==> r.error == IndexErrorText
    ensures r.Ok? && |task.history| > 1 ==> r.value == LastReply(task)
    ensures |task.history| <= 1 ==> r == Ok("")
  {
    if |task.history| > 1 then
      var last := task.history[|task.history| - 1];
      if |last.parts| > 0 then Ok(last.parts[0]) else Err(IndexErrorText)
    else Ok("")
  }

  /** A task completed with `response` replies with `response` under the
      first-part-of-last-message convention. */
  lemma CompletedTaskReplies(t: Task, response: string)
    ensures LastReply(CompletedWith(t, response)) == response
    ensures |t.history| > 0 ==> DelegateReply(CompletedWith(t, response)) == Ok(response)
  {
  }

  /** A child task whose history holds only the echoed request: the greeting
      agent's convention replies with the request text, `delegate_task`
      replies with "". */
  lemma ReplyConventionsDiffer()
    ensures
      var task := Task("t1", "s1", Completed, [Message(User, ["What time is it?"])]);
      LastReply(task) == "What time is it?" && DelegateReply(task) == Ok("")
  {
  }

  /** The module-level `_connectors` dict: `order` is its key order. */
  class ConnectorRegistry {
    var order: seq<string>
    var connectors: map<string, Connector>

    ghost predicate Valid()
      reads this
    {
      Distinct(order) && forall n :: n in connectors <==> n in order
    }

    constructor ()
      ensures Valid() && order == [] && connectors == map[]
    {
      order := [];
      connectors := map[];
    }

    /** `_connectors.clear()` followed by one assignment per card. */
    method Rebuild(cards: seq<AgentCard>)
      modifies this
      ensures Valid()
      ensures order == KeyOrder(cards) && connectors == ConnectorMap(cards)
    {
      order := [];
      connectors := map[];
      var k := 0;
      while k < |cards|
        invariant 0 <= k <= |cards|
        invariant order == KeyOrder(cards[..k])
        invariant connectors == ConnectorMap(cards[..k])
      {
        var card := cards[k];
        assert cards[..k + 1][..k] == cards[..k];
        if card.name !in connectors {
          order := order + [card.name];
        }
        connectors := connectors[card.name := ConnectorFor(card)];
        k := k + 1;
      }
      assert cards[..|cards|] == cards;
    }

    /** `list(_connectors.keys())`: every key exactly once. */
    function ListAgents(): (r: seq<string>)
      reads this
      requires Valid()
      ensures Distinct(r)
      ensures forall n :: n in r <==> n in connectors
    {
      order
    }

    /** `delegate_task`: a case-sensitive key lookup; an unknown name raises
        before anything is sent. `sessionId` is the fresh uuid and
        `send(connector, message, sessionId)` the A2A send. */
    function DelegateTask(agentName: string, message: string, sessionId: string,
                          send: (Connector, string, string) -> SendOutcome): (r: Result<string>)
      reads this
      ensures agentName !in connectors ==> r == Err(UnknownAgentText(agentName))
      ensures agentName in connectors ==>
        match send(connectors[agentName], message, sessionId)
        case Delivered(task) => r == DelegateReply(task)
        case SendFailed(e) => r == Err(e)
    {
      if agentName !in connectors then Err(UnknownAgentText(agentName))
      else
        match send(connectors[agentName], message, sessionId)
        case Delivered(task) => DelegateReply(task)
        case SendFailed(e) => Err(e)
    }
  }

  /** An unknown name is refused before anything is sent: the outcome does
      not depend on `send`. */
  lemma UnknownAgentIgnoresSend(registry: ConnectorRegistry, agentName: string, message: string,
                                sessionId: string, send1: (Connector, string, string) -> SendOutcome,
                                send2: (Connector, string, string) -> SendOutcome)
    requires agentName !in registry.connectors
    ensures registry.DelegateTask(agentName, message, sessionId, send1)
         == registry.DelegateTask(agentName, message, sessionId, send2)
  {
  }

  /** After building from a single "TellTimeAgent" card, a lower-case
      spelling of the name is unknown. */
  lemma DelegateIsCaseSensitive(url: string)
    ensures "telltimeagent" !in ConnectorMap([AgentCard("TellTimeAgent", "", url, "", None)])
  {
  }

  // ---------------------------------------------------------------------------
  // The instruction's agent list
  // ---------------------------------------------------------------------------

  function Bullet(name: string): string
  {
    "- " + name
  }

  /** `"\n".join(f"- {name}" for name in _connectors)` */
  function AgentList(names: seq<string>): string
  {
    Join(seq(|names|, i requires 0 <= i < |names| => Bullet(names[i])), "\n")
  }

  /** The agent list has one "- name" line per name, in order (names hold
      no line breaks). */
  lemma AgentListLines(names: seq<string>)
    requires |names| > 0
    requires forall i :: 0 <= i < |names| ==> '\n' !in names[i]
    ensures Split(AgentList(names), '\n') == seq(|names|, i requires 0 <= i < |names| => Bullet(names[i]))
  {
    var bullets := seq(|names|, i requires 0 <= i < |names| => Bullet(names[i]));
    forall i | 0 <= i < |bullets|
      ensures '\n' !in bullets[i]
    {
      assert bullets[i] == "- " + names[i];
    }
    SplitJoin(bullets, '\n');
  }

  /** The instruction built after `Rebuild(cards)` lists every discovered
      name on a line of its own, once, in the map's key order. */
  lemma AgentListAfterRebuild(cards: seq<AgentCard>)
    requires |cards| > 0
    requires forall i :: 0 <= i < |cards| ==> '\n' !in cards[i].name
    ensures
      var lines := Split(AgentList(KeyOrder(cards)), '\n');
      && |lines| == |KeyOrder(cards)|
      && Distinct(lines)
      && forall i :: 0 <= i < |cards| ==> Bullet(cards[i].name) in lines
  {
    var names := KeyOrder(cards);
    assert cards[0].name in names;
    forall k | 0 <= k < |names|
      ensures '\n' !in names[k]
    {
      assert names[k] in names;
    }
    AgentListLines(names);
    var lines := Split(AgentList(names), '\n');
    forall i | 0 <= i < |cards|
      ensures Bullet(cards[i].name) in lines
    {
      assert cards[i].name in names;
      var k :| 0 <= k < |names| && names[k] == cards[i].name;
      assert lines[k] == Bullet(names[k]);
    }
    forall a, b | 0 <= a < b < |lines|
      ensures lines[a] != lines[b]
    {
      assert lines[a] == "- " + names[a] && lines[b] == "- " + names[b];
      assert lines[a][2..] == names[a] && lines[b][2..] == names[b];
    }
  }

  // ---------------------------------------------------------------------------
  // The task manager
  // ---------------------------------------------------------------------------

  /** The `params` of a `tasks/send` request. */
  datatype SendParams = SendParams(id: string, sessionId: string, message: Message)

  /** `upsert_task` at its interface: a new id gets a SUBMITTED task holding
      the message; a known id keeps its state and gains the message. */
  function Upserted(tasks: map<string, Task>, p: SendParams): (t: Task)
    ensures t.id == p.id
    ensures p.id !in tasks ==> t.state == Submitted && t.history == [p.message]
    ensures p.id in tasks ==> t.state == tasks[p.id].state && t.history == tasks[p.id].history + [p.message]
  {
    if p.id in tasks then tasks[p.id].(id := p.id, history := tasks[p.id].history + [p.message])
    else Task(p.id, p.sessionId, Submitted, [p.message])
  }

  /** The task after the reply is recorded under the lock. */
  function CompletedWith(t: Task, response: string): (c: Task)
    ensures c.id == t.id && c.sessionId == t.sessionId
    ensures c.state == Completed
    ensures |c.history| == |t.history| + 1 && c.history[..|t.history|] == t.history
    ensures c.history[|t.history|] == Message(Agent, [response])
  {
    t.(state := Completed, history := t.history + [Message(Agent, [response])])
  }

  /** `_get_user_text`: the first part of the request message. */
  function UserText(m: Message): (r: Result<string>)
    ensures r.Ok? <==> m.parts != []
    ensures r.Ok? ==> r.value == m.parts[0]
    ensures r.Err? ==> r.error == IndexErrorText
  {
    if |m.parts| > 0 then Ok(m.parts[0]) else Err(IndexErrorText)
  }

  /** One completed send on a known task adds exactly the inbound message
      and the agent's reply to its history. */
  lemma SendAddsTwoMessages(tasks: map<string, Task>, p: SendParams, response: string)
    requires p.id in tasks
    ensures CompletedWith(Upserted(tasks, p), response).history
         == tasks[p.id].history + [p.message, Message(Agent, [response])]
  {
  }

  /** Two completed sends with the same task id, one after the other: no
      message is lost and the history alternates request and reply. */
  lemma SequentialSendsKeepEveryMessage(
    tasks: map<string, Task>, p1: SendParams, r1: string, p2: SendParams, r2: string)
    requires p1.id == p2.id
    ensures
      var tasks1 := tasks[p1.id := CompletedWith(Upserted(tasks, p1), r1)];
      var before := if p1.id in tasks then tasks[p1.id].history else [];
      CompletedWith(Upserted(tasks1, p2), r2).history
        == before + [p1.message, Message(Agent, [r1]), p2.message, Message(Agent, [r2])]
  {
  }

  /** `OrchestratorTaskManager` over the in-memory task store. */
  class TaskManager {
    var tasks: map<string, Task>

    constructor ()
      ensures tasks == map[]
    {
      tasks := map[];
    }

    method UpsertTask(p: SendParams) returns (t: Task)
      modifies this
      ensures t == Upserted(old(tasks), p)
      ensures tasks == old(tasks)[p.id := t]
    {
      if p.id in tasks {
        t := tasks[p.id].(id := p.id, history := tasks[p.id].history + [p.message]);
      } else {
        t := Task(p.id, p.sessionId, Submitted, [p.message]);
      }
      tasks := tasks[p.id := t];
    }

    /** `on_send_task` with the orchestrator's `invoke` on `agent`. An
        exception (an empty request message, or the runner raising) leaves
        the task as `upsert_task` left it. */
    method OnSendTask(p: SendParams, agent: TranscriptStore, run: RunInput -> RunResult) returns (r: Result<Task>)
      modifies this, agent
      ensures UserText(p.message).Err? ==>
        && tasks == old(tasks)[p.id := Upserted(old(tasks), p)]
        && agent.sessions == old(agent.sessions)
        && r == Err(IndexErrorText)
      ensures UserText(p.message).Ok? ==>
        var text := UserText(p.message).value;
        && agent.sessions == AfterTurn(old(agent.sessions), p.sessionId, text, run)
        && match TurnReply(old(agent.sessions), p.sessionId, text, run)
           case Ok(response) =>
             var done := CompletedWith(Upserted(old(tasks), p), response);
             tasks == old(tasks)[p.id := done] && r == Ok(done)
           case Err(e) =>
             tasks == old(tasks)[p.id := Upserted(old(tasks), p)] && r == Err(e)
    {
      var task := UpsertTask(p);
      if |p.message.parts| == 0 {
        return Err(IndexErrorText);
      }
      var userText := p.message.parts[0];
      var response := agent.Invoke(userText, p.sessionId, run);
      match response {
        case Ok(responseText) =>
          var reply := Message(Agent, [responseText]);
          task := task.(state := Completed, history := task.history + [reply]);
          tasks := tasks[p.id := task];
          r := Ok(task);
        case Err(e) =>
          r := Err(e);
      }
    }
  }
}
