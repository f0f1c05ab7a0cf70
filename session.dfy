/** A full-state agent session: it owns one conversation state, and each chat
    turn hands the whole state plus the new message to the agent and takes the
    agent's result as the new state. */
module Session {
  import opened Wrappers
  import opened Messages

  /** The entries of a state other than "messages" and "user_name" (for example
      a structured response the agent adds). */
  type Extra = m: map<string, Value> | "messages" !in m && "user_name" !in m witness map[]

  /** What a full-state session stores: the history, the remembered user name,
      and whatever other entries the agent's last result held. */
  datatype ConversationState = ConversationState(messages: seq<Message>, userName: Option<string>, others: Extra)

  /** Why the agent's turn failed (a time-out, a rate limit, a malformed input). */
  datatype ExecutorError = ExecutorError(reason: string)

  /** One turn of the agent graph, from input state to output state; it may fail. */
  type Executor = ConversationState -> Result<ConversationState, ExecutorError>

  /** The state a new session starts with. */
  const InitialState: ConversationState := ConversationState([], None, map[])

  /** The state handed to the agent, a dictionary with just two keys: the
      history followed by the new human message, and the user name as it was. */
  function TurnInput(s: ConversationState, text: string): ConversationState {
    ConversationState(s.messages + [HumanMessage(text)], s.userName, map[])
  }

  /** The position of the last AI message of `msgs`, if there is one. */
  function LastAiIndex(msgs: seq<Message>): (k: Option<nat>)
    ensures k.Some? ==> k.value < |msgs| && msgs[k.value].role == Ai
    ensures k.Some? ==> forall j :: k.value < j < |msgs| ==> msgs[j].role != Ai
    ensures k.None? ==> forall j :: 0 <= j < |msgs| ==> msgs[j].role != Ai
  {
    if msgs == [] then None
    else if msgs[|msgs| - 1].role == Ai then Some(|msgs| - 1)
    else LastAiIndex(msgs[..|msgs| - 1])
  }

  /** The reply of a turn: the text of the last AI message, or "" when the
      history holds none. */
  function Reply(msgs: seq<Message>): string {
    match LastAiIndex(msgs)
    case None => ""
    case Some(k) => msgs[k].content
  }

  /** The reply is the content of whichever message is the last AI message, and
      "" exactly when no AI message is found. */
  lemma ReplySpec(msgs: seq<Message>, k: nat)
    ensures (forall j :: 0 <= j < |msgs| ==> msgs[j].role != Ai) ==> Reply(msgs) == ""
    ensures k < |msgs| && msgs[k].role == Ai && (forall j :: k < j < |msgs| ==> msgs[j].role != Ai)
            ==> Reply(msgs) == msgs[k].content
  {
  }

  /** Scans the history from the newest message back and stops at the first AI
      message. */
  method ExtractReply(msgs: seq<Message>) returns (reply: string)
    ensures reply == Reply(msgs)
  {
    reply := "";
    var i := |msgs|;
    while i > 0
      invariant 0 <= i <= |msgs|
      invariant forall j :: i <= j < |msgs| ==> msgs[j].role != Ai
      invariant reply == ""
    {
      i := i - 1;
      if msgs[i].role == Ai {
        reply := msgs[i].content;
        ReplySpec(msgs, i);
        return;
      }
    }
    ReplySpec(msgs, 0);
  }

  /** The result of one turn: the session's state afterwards and what `chat`
      gives back (a reply, or the agent's failure). */
  datatype TurnOutcome = TurnOutcome(state: ConversationState, reply: Result<string, ExecutorError>)

  /** One `chat` turn, taken as a single atomic step. */
  function Turn(s: ConversationState, text: string, executor: Executor): TurnOutcome {
    match executor(TurnInput(s, text))
    case Err(e) => TurnOutcome(s, Err(e))
    case Ok(next) => TurnOutcome(next, Ok(Reply(next.messages)))
  }

  /** The agent sees exactly the old history, then one human message with the
      given text, and the old user name, and no other entry; on success the
      session keeps the agent's state as it is, on failure it keeps its own. */
  lemma TurnSpec(s: ConversationState, text: string, executor: Executor)
    ensures var input := TurnInput(s, text);
      && |input.messages| == |s.messages| + 1
      && input.messages[..|s.messages|] == s.messages
      && input.messages[|s.messages|] == Message(Human, text, None)
      && input.userName == s.userName
      && input.others == map[]
    ensures executor(TurnInput(s, text)).Err? ==>
      Turn(s, text, executor) == TurnOutcome(s, Err(executor(TurnInput(s, text)).error))
    ensures executor(TurnInput(s, text)).Ok? ==>
      && Turn(s, text, executor).state == executor(TurnInput(s, text)).value
      && Turn(s, text, executor).reply.Ok?
  {
  }

  /** A turn whose agent fails leaves no trace: retrying the same message gives
      exactly what the retry would have given without the failed attempt. */
  lemma RetryAfterFailure(s: ConversationState, text: string, failing: Executor, executor: Executor)
    requires failing(TurnInput(s, text)).Err?
    ensures Turn(Turn(s, text, failing).state, text, executor) == Turn(s, text, executor)
  {
  }

  /** What one turn returned feeds the next turn: its messages and its user
      name are sent again; any other entry it held is stored by the session but
      is not part of the next input. */
  lemma NextTurnCarriesState(s: ConversationState, t1: string, t2: string, executor: Executor)
    requires executor(TurnInput(s, t1)).Ok?
    ensures var after := executor(TurnInput(s, t1)).value;
      && Turn(s, t1, executor).state.others == after.others
      && TurnInput(Turn(s, t1, executor).state, t2) == ConversationState(after.messages + [HumanMessage(t2)], after.userName, map[])
  {
  }

  /** A full-state session. */
  class AgentSession {
    const sessionId: string
    var state: ConversationState

    /** A new session has no history, no user name and no other entry. */
    constructor (sessionId: string)
      ensures this.sessionId == sessionId && state == InitialState
    {
      this.sessionId := sessionId;
      state := InitialState;
    }

    /** The stored state, unchanged. */
    method GetState() returns (s: ConversationState)
      ensures s == state
    {
      s := state;
    }

    /** One conversational turn: the agent runs on the history plus the new
        message; on success its output replaces the stored state wholesale and
        the reply is the last AI message's text; on failure nothing changes and
        the failure is passed on. */
    method Chat(text: string, executor: Executor) returns (r: Result<string, ExecutorError>)
      modifies this
      ensures executor(TurnInput(old(state), text)).Err? ==>
        state == old(state) && r == Err(executor(TurnInput(old(state), text)).error)
      ensures executor(TurnInput(old(state), text)).Ok? ==>
        state == executor(TurnInput(old(state), text)).value && r == Ok(Reply(state.messages))
      ensures TurnOutcome(state, r) == Turn(old(state), text, executor)
    {
      var input := TurnInput(state, text);
      var result := executor(input);
      match result {
        case Err(e) =>
          r := Err(e);
        case Ok(next) =>
          state := next;
          var reply := ExtractReply(next.messages);
          r := Ok(reply);
      }
    }
  }
}
