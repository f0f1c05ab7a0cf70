/** The user-name tools of the "greet" agents (src/agents/stateful_deep_agent.py
    and its near copy src/z_state_agent.py), the `get_user_info` tool that all
    three user-name agents share, and what the agent graph does with the
    `Command` a tool returns. */
module UserTools {
  import opened Wrappers
  import opened Messages

  /** The part of a tool's runtime state these tools read: the history and the
      `user_name` entry. */
  datatype AgentState = AgentState(messages: seq<Message>, userName: NameSlot)

  const LookedUpName: string := "John Smith"
  const LookedUpText: string := "Successfully looked up user information"
  const GreetInstruction: string :=
    "Please call the 'update_user_info' tool it will get and update the user's name."
  const UserInfoPrefix: string := "User is "

  /** `CustomState(messages=...)` in the deep variant: `user_name` not given
      defaults to None. */
  function NewCustomState(messages: seq<Message>): (s: AgentState)
    ensures s.messages == messages && s.userName == Null
  {
    AgentState(messages, Null)
  }

  /** The state after the graph applies a tool's `Command`: its messages are
      appended to the history, and `user_name` is overwritten only when the
      update sets it. */
  function ApplyCommand(s: AgentState, c: Command): AgentState {
    AgentState(s.messages + c.messages, if c.userName.Some? then Named(c.userName.value) else s.userName)
  }

  /** `"User is " + runtime.state["user_name"]`: a KeyError when the entry is
      absent, a TypeError when it is None. */
  function GetUserInfo(s: AgentState): (r: Result<string, ToolError>)
    ensures r.Ok? <==> s.userName.Named?
    ensures s.userName.Missing? ==> r == Err(KeyError("user_name"))
    ensures s.userName.Null? ==> r == Err(TypeError)
    ensures r.Ok? ==> |r.value| == |UserInfoPrefix| + |s.userName.name|
    ensures r.Ok? ==> r.value[..|UserInfoPrefix|] == UserInfoPrefix && r.value[|UserInfoPrefix|..] == s.userName.name
  {
    match s.userName
    case Missing => Err(KeyError("user_name"))
    case Null => Err(TypeError)
    case Named(n) => Ok(UserInfoPrefix + n)
  }

  /** `update_user_info`: whatever the state held before, applying its update
      makes the name "John Smith" and adds exactly one tool message, for the
      calling tool call. */
  function UpdateUserInfo(callId: string): (c: Command)
    ensures forall s :: ApplyCommand(s, c) ==
                        AgentState(s.messages + [Message(Tool, LookedUpText, Some(callId))], Named(LookedUpName))
  {
    Command(Some(LookedUpName), [ToolMessage(LookedUpText, callId)])
  }

  /** `greet`: it asks for the name exactly when there is none (the entry absent
      or None), and applying that answer adds the instruction and does not
      touch `user_name`; with a name it greets by name. */
  function Greet(s: AgentState, callId: string): (r: ToolOutput)
    ensures r.Update? <==> (s.userName.Missing? || s.userName.Null?)
    ensures r.Update? ==>
      ApplyCommand(s, r.command) == AgentState(s.messages + [Message(Tool, GreetInstruction, Some(callId))], s.userName)
    ensures r.Text? ==> r.text == "Hello " + s.userName.name + "!"
  {
    match s.userName
    case Named(n) => Text("Hello " + n + "!")
    case _ => Update(Command(None, [ToolMessage(GreetInstruction, callId)]))
  }

  /** The tools' protocol: once `update_user_info` has run, `greet` greets John
      Smith and `get_user_info` reports him, whatever came before. */
  lemma GreetAfterUpdate(s: AgentState, updateId: string, greetId: string)
    ensures Greet(ApplyCommand(s, UpdateUserInfo(updateId)), greetId) == Text("Hello John Smith!")
    ensures GetUserInfo(ApplyCommand(s, UpdateUserInfo(updateId))) == Ok("User is John Smith")
  {
    assert UserInfoPrefix + LookedUpName == "User is John Smith";
  }

  /** Following `greet`'s instruction is the only way forward: applying its
      answer leaves the name missing, so `greet` asks again. */
  lemma GreetRepeatsUntilUpdated(s: AgentState, id1: string, id2: string)
    requires !s.userName.Named?
    ensures Greet(ApplyCommand(s, Greet(s, id1).command), id2).Update?
  {
  }
}
