/** Agent cards, A2A messages and tasks, and the searches the orchestrating
    agents use to pick a card by name. */
module Agents {
  import opened Common
  import opened Text

  datatype Skill = Skill(name: string, description: string)

  /** An agent card. `id` is what `getattr(card, "id", "")` yields: "" for a
      card without an id. `skills` is None when the card lists none. */
  datatype AgentCard = AgentCard(
    name: string, id: string, url: string, description: string,
    skills: Option<seq<Skill>>)

  datatype Role = User | Agent

  /** A message; each part is a text part, given by its text. */
  datatype Message = Message(role: Role, parts: seq<string>)

  datatype TaskState = Submitted | Working | Completed | Failed

  datatype Task = Task(id: string, sessionId: string, state: TaskState, history: seq<Message>)

  /** A connector to one remote agent, identified by name and endpoint. */
  datatype Connector = Connector(name: string, url: string)

  function ConnectorFor(card: AgentCard): Connector
  {
    Connector(card.name, card.url)
  }

  /** What a delegated send produced: the remote task, or a transport error. */
  datatype SendOutcome = Delivered(task: Task) | SendFailed(message: string)

  // ---------------------------------------------------------------------------
  // Searches
  // ---------------------------------------------------------------------------

  /** Case-insensitive equality of the card's name or id with the query. */
  predicate ExactMatch(card: AgentCard, query: string)
  {
    Lower(card.name) == Lower(query) || Lower(card.id) == Lower(query)
  }

  /** The lowercased query occurs in the card's lowercased name. */
  predicate SubstringMatch(card: AgentCard, query: string)
  {
    Contains(Lower(card.name), Lower(query))
  }

  /** `next((c for c in cards if p(c)), None)`, as the index of the card. */
  function FirstMatch(cards: seq<AgentCard>, p: AgentCard -> bool): (r: Option<nat>)
    ensures r.Some? ==> r.value < |cards| && p(cards[r.value])
    ensures r.Some? ==> forall j :: 0 <= j < r.value ==> !p(cards[j])
    ensures r.None? <==> forall j :: 0 <= j < |cards| ==> !p(cards[j])
  {
    if |cards| == 0 then None
    else if p(cards[0]) then Some(0)
    else match FirstMatch(cards[1..], p)
      case Some(i) => Some(i + 1)
      case None => None
  }

  /** The first card that matches exactly, by name or id. */
  function FirstExact(cards: seq<AgentCard>, query: string): Option<nat>
  {
    FirstMatch(cards, c => ExactMatch(c, query))
  }

  /** The first card whose name contains the query. */
  function FirstSubstring(cards: seq<AgentCard>, query: string): Option<nat>
  {
    FirstMatch(cards, c => SubstringMatch(c, query))
  }

  /** A name equal to the query (up to case) also contains it, so an exact
      name match is always a substring match too. */
  lemma ExactNameIsSubstring(card: AgentCard, query: string)
    requires Lower(card.name) == Lower(query)
    ensures SubstringMatch(card, query)
  {
  }

  // ---------------------------------------------------------------------------
  // Reply extraction
  // ---------------------------------------------------------------------------

  /** The reply convention of a delegated task: the text of the first part of
      the last history message, "" when there is no such part. */
  function LastReply(task: Task): (r: string)
    ensures |task.history| > 0 && task.history[|task.history| - 1].parts != [] ==>
      r == task.history[|task.history| - 1].parts[0]
    ensures |task.history| == 0 || task.history[|task.history| - 1].parts == [] ==> r == ""
    ensures r != "" ==> exists m :: m in task.history && r in m.parts
  {
    if |task.history| > 0 && |task.history[|task.history| - 1].parts| > 0 then
      var last := task.history[|task.history| - 1];
      assert last.parts[0] in last.parts;
      last.parts[0]
    else ""
  }
}
