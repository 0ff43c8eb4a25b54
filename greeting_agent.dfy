/** The greeting agent's `call_agent` tool: resolve a card by name (exact
    match on name or id first, then substring match on the name), reuse or
    create the cached connector, delegate the message on the fixed session
    and pull the reply out of the returned task. */
module GreetingAgent {
  import opened Common
  import opened Text
  import opened Agents

  /** The static session every delegated greeting call uses. */
  const GreetingSession := "greeting_session"

  /** `ValueError(f"Agent '{agent_name}' not found.")` */
  function NotFoundText(agentName: string): string
  {
    "Agent '" + agentName + "' not found."
  }

  /** The card `call_agent` settles on: the first exact match if there is
      one, otherwise the first card whose name contains the query. */
  function ResolveAgent(cards: seq<AgentCard>, agentName: string): (r: Option<nat>)
    ensures r.Some? ==> r.value < |cards|
    ensures (exists i :: 0 <= i < |cards| && ExactMatch(cards[i], agentName)) ==>
      && r.Some? && ExactMatch(cards[r.value], agentName)
      && forall j :: 0 <= j < r.value ==> !ExactMatch(cards[j], agentName)
    ensures (forall i :: 0 <= i < |cards| ==> !ExactMatch(cards[i], agentName)) ==>
      && (r.Some? ==> SubstringMatch(cards[r.value], agentName))
      && (r.Some? ==> forall j :: 0 <= j < r.value ==> !SubstringMatch(cards[j], agentName))
      && (r.None? <==> forall j :: 0 <= j < |cards| ==> !SubstringMatch(cards[j], agentName))
  {
    match FirstExact(cards, agentName)
    case Some(i) => Some(i)
    case None => FirstSubstring(cards, agentName)
  }

  /** The lookup fails exactly when no card's name contains the query and no
      card's id equals it (up to case). */
  lemma ResolveAgentFails(cards: seq<AgentCard>, agentName: string)
    ensures ResolveAgent(cards, agentName).None? <==>
      forall i :: 0 <= i < |cards| ==>
        !SubstringMatch(cards[i], agentName) && Lower(cards[i].id) != Lower(agentName)
  {
  }

  /** The connector cache after looking up `card`: a connector is created
      only for a name the cache does not hold yet; entries already there are
      never replaced. */
  function EnsureConnector(cache: map<string, Connector>, card: AgentCard): (r: map<string, Connector>)
    ensures r.Keys == cache.Keys + {card.name}
    ensures forall k :: k in cache ==> r[k] == cache[k]
    ensures card.name !in cache ==> r[card.name] == ConnectorFor(card)
  {
    if card.name in cache then cache else cache[card.name := ConnectorFor(card)]
  }

  /** A second lookup of a card with the same name reuses the connector made
      by the first, even when the card's url has changed since. */
  lemma ConnectorReused(cache: map<string, Connector>, first: AgentCard, second: AgentCard)
    requires first.name == second.name
    ensures EnsureConnector(EnsureConnector(cache, first), second) == EnsureConnector(cache, first)
  {
  }

  /** What `call_agent` returns once the connector is known. */
  function SendReply(outcome: SendOutcome): (r: Result<string>)
    ensures outcome.SendFailed? ==> r == Err(outcome.message)
    ensures outcome.Delivered? ==> r == Ok(LastReply(outcome.task))
  {
    match outcome
    case Delivered(task) => Ok(LastReply(task))
    case SendFailed(e) => Err(e)
  }

  /** The module-level connector cache `_connectors`, with `call_agent`. */
  class ConnectorCache {
    var connectors: map<string, Connector>

    constructor ()
      ensures connectors == map[]
    {
      connectors := map[];
    }

    /** `cards` is the registry listing fetched at the start of the call;
        `send(connector, message, sessionId)` is the delegated A2A send. */
    method CallAgent(cards: seq<AgentCard>, agentName: string, message: string,
                     send: (Connector, string, string) -> SendOutcome) returns (r: Result<string>)
      modifies this
      ensures ResolveAgent(cards, agentName).None? ==>
        r == Err(NotFoundText(agentName)) && connectors == old(connectors)
      ensures ResolveAgent(cards, agentName).Some? ==>
        var card := cards[ResolveAgent(cards, agentName).value];
        && connectors == EnsureConnector(old(connectors), card)
        && r == SendReply(send(connectors[card.name], message, GreetingSession))
    {
      var matched := FirstExact(cards, agentName);
      if matched.None? {
        matched := FirstSubstring(cards, agentName);
      }
      assert matched == ResolveAgent(cards, agentName);
      if matched.None? {
        return Err(NotFoundText(agentName));
      }
      var card := cards[matched.value];
      var key := card.name;
      if key !in connectors {
        connectors := connectors[key := ConnectorFor(card)];
      }
      var connector := connectors[key];
      assert connectors == EnsureConnector(old(connectors), card);
      var outcome := send(connector, message, GreetingSession);
      match outcome {
        case Delivered(task) =>
          if |task.history| > 0 && |task.history[|task.history| - 1].parts| > 0 {
            r := Ok(task.history[|task.history| - 1].parts[0]);
          } else {
            r := Ok("");
          }
        case SendFailed(e) =>
          r := Err(e);
      }
    }
  }

  /** An exact match (ignoring case) wins over an earlier card whose name
      merely contains the query, e.g. "telltimeagent" finds "TellTimeAgent"
      after "TellTimeAgentV2". */
  lemma ExactMatchBeatsEarlierSubstring(early: AgentCard, exact: AgentCard, agentName: string)
    requires SubstringMatch(early, agentName) && !ExactMatch(early, agentName)
    requires Lower(exact.name) == Lower(agentName)
    ensures ResolveAgent([early, exact], agentName) == Some(1)
  {
    var cards := [early, exact];
    assert ExactMatch(cards[1], agentName);
    assert !ExactMatch(cards[0], agentName);
  }

  /** A fragment of a name is enough when nothing matches exactly. */
  lemma ResolveFallsBackToSubstring()
    ensures
      var card := AgentCard("TellTimeAgent", "", "http://localhost:10000", "", None);
      ResolveAgent([card], "time") == Some(0)
  {
    var card := AgentCard("TellTimeAgent", "", "http://localhost:10000", "", None);
    assert Lower(card.name) == "telltimeagent";
    assert OccursAt(Lower(card.name), Lower("time"), 4);
    ContainsAt(Lower(card.name), Lower("time"), 4);
    assert !ExactMatch(card, "time") by {
      assert |Lower(card.name)| != |Lower("time")|;
    }
  }
}
