/** The stateful agent: its `update_user_info` tool, which writes the name into
    the runtime state and returns it in a `Command` as well; its `diagnose_user`
    tool; and the state and offset bookkeeping of its command-line loop. */
module StatefulAgent {
  import opened Wrappers
  import opened Messages
  import PyText
  import UserTools

  const UpdatedText: string := "Successfully updated user information"
  const UnknownNameText: string := "You don't know the user's name yet. "
  const DiagnosisPrefix: string := "Diagnosis for "

  /** The runtime a tool receives: the graph state, which the tool may write,
      and the id of the tool call being answered. */
  class ToolRuntime {
    var state: UserTools.AgentState
    const toolCallId: string

    constructor (state: UserTools.AgentState, toolCallId: string)
      ensures this.state == state && this.toolCallId == toolCallId
    {
      this.state := state;
      this.toolCallId := toolCallId;
    }
  }

  /** `update_user_info(name)`: stores `name` in the runtime state in place and
      returns an update that sets the same name and answers the tool call with
      one confirmation message. */
  method UpdateUserInfo(name: string, runtime: ToolRuntime) returns (c: Command)
    modifies runtime
    ensures runtime.state == old(runtime.state).(userName := Named(name))
    ensures c.userName == Some(name)
    ensures c.messages == [Message(Tool, UpdatedText, Some(runtime.toolCallId))]
    ensures UserTools.ApplyCommand(old(runtime.state), c).userName == runtime.state.userName
  {
    runtime.state := runtime.state.(userName := Named(name));
    c := Command(Some(name), [ToolMessage(UpdatedText, runtime.toolCallId)]);
  }

  /** The verdict `diagnose_user` gives for a name. */
  function Diagnosis(name: string): string {
    if name == "John" then "healthy" else "unidentified"
  }

  /** `diagnose_user`: with no name (absent or None) an update holding one tool
      message and no `user_name`; with a name, "Diagnosis for {name}: {verdict}". */
  function DiagnoseUser(s: UserTools.AgentState, callId: string): (r: ToolOutput)
    ensures r.Update? <==> !s.userName.Named?
    ensures r.Update? ==> r.command == Command(None, [Message(Tool, UnknownNameText, Some(callId))])
    ensures r.Text? ==> r.text == DiagnosisPrefix + s.userName.name + ": " + Diagnosis(s.userName.name)
  {
    match s.userName
    case Named(n) => Text(DiagnosisPrefix + n + ": " + Diagnosis(n))
    case _ => Update(Command(None, [ToolMessage(UnknownNameText, callId)]))
  }

  /** Only the exact name "John" is diagnosed healthy. */
  lemma DiagnosisSpec(s: UserTools.AgentState, callId: string)
    requires s.userName.Named?
    ensures s.userName.name == "John" ==> DiagnoseUser(s, callId) == Text("Diagnosis for John: healthy")
    ensures s.userName.name != "John" ==>
      DiagnoseUser(s, callId) == Text("Diagnosis for " + s.userName.name + ": unidentified")
  {
  }

  /** After the update of `update_user_info(name)` is applied, `diagnose_user`
      diagnoses that name, and `get_user_info` reports it. */
  lemma DiagnoseAfterUpdate(s: UserTools.AgentState, name: string, updateId: string, callId: string)
    ensures var after := UserTools.ApplyCommand(s, Command(Some(name), [ToolMessage(UpdatedText, updateId)]));
      && DiagnoseUser(after, callId) == Text(DiagnosisPrefix + name + ": " + Diagnosis(name))
      && UserTools.GetUserInfo(after) == Ok(UserTools.UserInfoPrefix + name)
  {
  }

  // ---------------------------------------------------------------------
  // The command-line loop's bookkeeping
  // ---------------------------------------------------------------------

  /** The entries of a state dictionary other than "messages". */
  type Fields = m: map<string, Value> | "messages" !in m witness map[]

  /** A state dictionary: its "messages" entry (None when the key is absent)
      and its other entries. */
  datatype StateDict = StateDict(messages: Option<seq<Message>>, fields: Fields)

  /** `state.get("messages", [])`. */
  function MessagesOf(d: StateDict): seq<Message> {
    d.messages.GetOr([])
  }

  /** The input state of a turn: just the new human message on the first turn;
      afterwards a copy of every entry of the previous state with the new human
      message appended to its messages. */
  function BaseState(current: Option<StateDict>, text: string): StateDict {
    match current
    case None => StateDict(Some([HumanMessage(text)]), map[])
    case Some(c) => StateDict(Some(MessagesOf(c) + [HumanMessage(text)]), c.fields)
  }

  /** What the loop carries from turn to turn: `current_state`,
      `message_offset` and `prev_non_message_state`. */
  datatype Loop = Loop(current: Option<StateDict>, offset: int, prev: Fields)

  const InitialLoop: Loop := Loop(None, 0, map[])

  /** The bookkeeping after a turn whose stream yielded `streamed`: the offset
      starts at the index of the new human message and then follows the length
      of each streamed state's history; the last streamed state becomes the
      current state, and stays the old one when nothing was streamed. */
  function AfterTurn(l: Loop, base: StateDict, streamed: seq<StateDict>): Loop {
    if streamed == [] then Loop(l.current, |MessagesOf(base)| - 1, l.prev)
    else
      var last := streamed[|streamed| - 1];
      Loop(Some(last), |MessagesOf(last)|, last.fields)
  }

  /** How the loop treats one input line. */
  datatype LineKind = Blank | Quit | Say(text: string)

  function Classify(line: string): LineKind {
    var text := PyText.Strip(line);
    if text == [] then Blank else if PyText.IsExitWord(text) then Quit else Say(text)
  }

  /** The loop over the input lines, ending at "exit"/"quit" or at the end of
      input; `stream` gives the states the agent streams for an input state. */
  function Run(lines: seq<string>, stream: StateDict -> seq<StateDict>, l: Loop): Loop
    decreases |lines|
  {
    if lines == [] then l
    else
      match Classify(lines[0])
      case Blank => Run(lines[1..], stream, l)
      case Quit => l
      case Say(text) =>
        var base := BaseState(l.current, text);
        Run(lines[1..], stream, AfterTurn(l, base, stream(base)))
  }

  /** Follows the states streamed for one turn, one at a time. */
  method StreamTurn(l: Loop, base: StateDict, streamed: seq<StateDict>) returns (next: Loop)
    ensures next == AfterTurn(l, base, streamed)
  {
    var offset := |MessagesOf(base)| - 1;
    var prev := l.prev;
    var last: Option<StateDict> := None;
    for i := 0 to |streamed|
      invariant i == 0 ==> last == None && offset == |MessagesOf(base)| - 1 && prev == l.prev
      invariant i > 0 ==> last == Some(streamed[i - 1]) && offset == |MessagesOf(streamed[i - 1])|
      invariant i > 0 ==> prev == streamed[i - 1].fields
    {
      var state := streamed[i];
      offset := |MessagesOf(state)|;
      if state.fields != prev {
        prev := state.fields;
      }
      last := Some(state);
    }
    next := Loop(if last.Some? then last else l.current, offset, prev);
  }

  /** `chat_cli` over a finite list of input lines (the end of the list is end
      of input). */
  method ChatCli(lines: seq<string>, stream: StateDict -> seq<StateDict>) returns (final: Loop)
    ensures final == Run(lines, stream, InitialLoop)
  {
    var l := InitialLoop;
    var i := 0;
    while i < |lines|
      invariant 0 <= i <= |lines|
      invariant Run(lines[i..], stream, l) == Run(lines, stream, InitialLoop)
    {
      var text := PyText.Strip(lines[i]);
      if text == [] {
        i := i + 1;
        continue;
      }
      if PyText.IsExitWord(text) {
        assert Classify(lines[i..][0]) == Quit;
        break;
      }
      var base := BaseState(l.current, text);
      l := StreamTurn(l, base, stream(base));
      i := i + 1;
    }
    final := l;
  }

  /** The offset counts the messages of the current state (none before the
      first state is kept). */
  ghost predicate InSync(l: Loop) {
    l.offset == if l.current.None? then 0 else |MessagesOf(l.current.value)|
  }

  /** A turn's input state ends with the new human message, whose index is the
      offset the turn starts from; before it comes the previous history, and
      every other entry of the previous state is copied. */
  lemma BaseStateSpec(current: Option<StateDict>, text: string)
    ensures var base := BaseState(current, text);
      && |MessagesOf(base)| >= 1
      && MessagesOf(base)[|MessagesOf(base)| - 1] == Message(Human, text, None)
      && MessagesOf(base)[..|MessagesOf(base)| - 1] == (if current.None? then [] else MessagesOf(current.value))
      && base.fields == (if current.None? then map[] else current.value.fields)
  {
  }

  /** Every turn, streamed or not, keeps the offset equal to the length of the
      kept history; so does the whole loop, which starts in sync. */
  lemma {:induction false} RunKeepsOffsetInSync(lines: seq<string>, stream: StateDict -> seq<StateDict>, l: Loop)
    requires InSync(l)
    ensures InSync(Run(lines, stream, l))
    decreases |lines|
  {
    if lines != [] {
      match Classify(lines[0])
      case Blank => RunKeepsOffsetInSync(lines[1..], stream, l);
      case Quit =>
      case Say(text) =>
        var base := BaseState(l.current, text);
        var next := AfterTurn(l, base, stream(base));
        assert InSync(next);
        RunKeepsOffsetInSync(lines[1..], stream, next);
    }
  }

  /** Nothing after the first "exit" or "quit" is read. */
  lemma {:induction false} RunStopsAtExit(lines: seq<string>, k: nat, rest: seq<string>,
                                          stream: StateDict -> seq<StateDict>, l: Loop)
    requires k < |lines| && Classify(lines[k]) == Quit
    ensures Run(lines[..k + 1] + rest, stream, l) == Run(lines[..k + 1], stream, l)
    decreases k
  {
    var a := lines[..k + 1] + rest;
    var b := lines[..k + 1];
    assert a[0] == b[0] == lines[0];
    if k > 0 {
      assert a[1..] == lines[1..][..k] + rest;
      assert b[1..] == lines[1..][..k];
      match Classify(lines[0])
      case Blank => RunStopsAtExit(lines[1..], k - 1, rest, stream, l);
      case Quit =>
      case Say(text) =>
        var base := BaseState(l.current, text);
        RunStopsAtExit(lines[1..], k - 1, rest, stream, AfterTurn(l, base, stream(base)));
    }
  }

  /** A blank or all-whitespace line is skipped without touching the state. */
  lemma BlankLineSkipped(line: string, rest: seq<string>, stream: StateDict -> seq<StateDict>, l: Loop)
    requires PyText.Strip(line) == []
    ensures Run([line] + rest, stream, l) == Run(rest, stream, l)
  {
  }

  /** `current_state` changes only when the turn streamed at least one state,
      and then it is the last one streamed. */
  lemma AfterTurnSpec(l: Loop, base: StateDict, streamed: seq<StateDict>)
    ensures streamed == [] ==> AfterTurn(l, base, streamed).current == l.current
    ensures streamed != [] ==> AfterTurn(l, base, streamed).current == Some(streamed[|streamed| - 1])
    ensures streamed != [] ==> AfterTurn(l, base, streamed).offset == |MessagesOf(streamed[|streamed| - 1])|
  {
  }
}
