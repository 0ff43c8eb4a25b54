/** The per-session conversation store shared by the greeting agent, the A2A
    orchestrator and the A2A tell-time agent: get-or-create the session's
    history, hand the runner either the bare query (first turn) or the
    history plus one user message, then replace the history by the runner's
    transcript. */
module Sessions {
  import opened Common

  /** One conversation item, `{"role": ..., "content": ...}`. */
  datatype Turn = Turn(role: string, content: string)

  /** What the runner is given: the bare query string, or a list of items. */
  datatype RunInput = BareQuery(query: string) | Turns(turns: seq<Turn>)

  /** What one run of the language-model runner produced: its final output
      (None when it has none) and its transcript (`to_input_list()`), or the
      exception it raised. */
  datatype RunResult = Finished(finalOutput: Option<string>, transcript: seq<Turn>) | RunRaised(message: string)

  function UserTurn(query: string): Turn
  {
    Turn("user", query)
  }

  /** The session's history, with get-or-create: a missing session is empty. */
  function HistoryOf(sessions: map<string, seq<Turn>>, sessionId: string): seq<Turn>
  {
    if sessionId in sessions then sessions[sessionId] else []
  }

  /** The runner input for one turn: the bare query when the history is
      empty, otherwise the whole history followed by exactly one user item. */
  function RunnerInput(history: seq<Turn>, query: string): (r: RunInput)
    ensures r.BareQuery? <==> history == []
    ensures r.BareQuery? ==> r.query == query
    ensures r.Turns? ==>
      && |r.turns| == |history| + 1
      && r.turns[..|history|] == history
      && r.turns[|history|] == UserTurn(query)
  {
    if history != [] then Turns(history + [UserTurn(query)]) else BareQuery(query)
  }

  /** `result.final_output if result.final_output else ""` */
  function ReplyOf(finalOutput: Option<string>): string
  {
    match finalOutput
    case Some(s) => s
    case None => ""
  }

  /** The store after one turn on `sessionId`: that session holds the
      runner's transcript (or, when the runner raised, whatever
      get-or-create left there); every other session is untouched. */
  function AfterTurn(sessions: map<string, seq<Turn>>, sessionId: string, query: string,
                     run: RunInput -> RunResult): (r: map<string, seq<Turn>>)
    ensures r.Keys == sessions.Keys + {sessionId}
    ensures forall k :: k in sessions && k != sessionId ==> r[k] == sessions[k]
    ensures
      var outcome := run(RunnerInput(HistoryOf(sessions, sessionId), query));
      r[sessionId] == if outcome.Finished? then outcome.transcript else HistoryOf(sessions, sessionId)
  {
    sessions[sessionId := Entry(HistoryOf(sessions, sessionId), query, run)]
  }

  /** The entry a session holds after a turn that started from `history`. */
  function Entry(history: seq<Turn>, query: string, run: RunInput -> RunResult): seq<Turn>
  {
    match run(RunnerInput(history, query))
    case Finished(_, transcript) => transcript
    case RunRaised(_) => history
  }

  /** What `invoke` returns for one turn: the reply text, or the runner's
      exception, which `invoke` does not catch. */
  function TurnReply(sessions: map<string, seq<Turn>>, sessionId: string, query: string,
                     run: RunInput -> RunResult): (r: Result<string>)
    ensures
      var outcome := run(RunnerInput(HistoryOf(sessions, sessionId), query));
      && (outcome.RunRaised? ==> r == Err(outcome.message))
      && (outcome.Finished? && outcome.finalOutput.Some? ==> r == Ok(outcome.finalOutput.value))
      && (outcome.Finished? && outcome.finalOutput.None? ==> r == Ok(""))
  {
    match run(RunnerInput(HistoryOf(sessions, sessionId), query))
    case Finished(out, _) => Ok(ReplyOf(out))
    case RunRaised(e) => Err(e)
  }

  /** The first turn of a session the store has never seen runs on the bare query. */
  lemma FirstTurnIsBareQuery(sessions: map<string, seq<Turn>>, sessionId: string, query: string)
    requires sessionId !in sessions
    ensures RunnerInput(HistoryOf(sessions, sessionId), query) == BareQuery(query)
  {
  }

  /** The next turn sees exactly the transcript the previous turn reported,
      followed by the new user item. */
  lemma NextTurnExtendsTranscript(
    sessions: map<string, seq<Turn>>, sessionId: string, q1: string, q2: string,
    run: RunInput -> RunResult)
    requires run(RunnerInput(HistoryOf(sessions, sessionId), q1)).Finished?
    requires run(RunnerInput(HistoryOf(sessions, sessionId), q1)).transcript != []
    ensures
      var t := run(RunnerInput(HistoryOf(sessions, sessionId), q1)).transcript;
      RunnerInput(HistoryOf(AfterTurn(sessions, sessionId, q1, run), sessionId), q2)
        == Turns(t + [UserTurn(q2)])
  {
  }

  /** Sessions do not share anything: turns on two different sessions give
      the same store in either order. */
  lemma {:induction false} TurnsOnDifferentSessionsCommute(
    sessions: map<string, seq<Turn>>, a: string, qa: string, b: string, qb: string,
    run: RunInput -> RunResult)
    requires a != b
    ensures AfterTurn(AfterTurn(sessions, a, qa, run), b, qb, run)
         == AfterTurn(AfterTurn(sessions, b, qb, run), a, qa, run)
  {
    var x := Entry(HistoryOf(sessions, a), qa, run);
    var y := Entry(HistoryOf(sessions, b), qb, run);
    assert HistoryOf(sessions[a := x], b) == HistoryOf(sessions, b);
    assert HistoryOf(sessions[b := y], a) == HistoryOf(sessions, a);
    assert sessions[a := x][b := y] == sessions[b := y][a := x];
  }

  /** The session store of an agent whose `invoke` replaces the session by
      the runner's transcript. */
  class TranscriptStore {
    var sessions: map<string, seq<Turn>>

    constructor ()
      ensures sessions == map[]
    {
      sessions := map[];
    }

    method Invoke(query: string, sessionId: string, run: RunInput -> RunResult) returns (r: Result<string>)
      modifies this
      ensures sessions == AfterTurn(old(sessions), sessionId, query, run)
      ensures r == TurnReply(old(sessions), sessionId, query, run)
    {
      if sessionId !in sessions {
        sessions := sessions[sessionId := []];
      }
      var history := sessions[sessionId];
      var input := if history != [] then Turns(history + [UserTurn(query)]) else BareQuery(query);
      var result := run(input);
      match result {
        case Finished(out, transcript) =>
          sessions := sessions[sessionId := transcript];
          r := Ok(if out.Some? then out.value else "");
        case RunRaised(e) =>
          r := Err(e);
      }
    }
  }
}
