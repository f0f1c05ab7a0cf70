/** Conversation messages, the values a state dictionary holds, and the records
    a tool returns. */
module Messages {
  import opened Wrappers

  /** Who wrote a message. `Ai` stands for both the model's full messages and
      its streamed chunks. */
  datatype Role = Human | Ai | Tool

  /** A message: its role, its text, and the id of the tool call it answers
      (tool messages only). */
  datatype Message = Message(role: Role, content: string, toolCallId: Option<string>)

  function HumanMessage(text: string): Message {
    Message(Human, text, None)
  }

  function ToolMessage(text: string, callId: string): Message {
    Message(Tool, text, Some(callId))
  }

  /** The `user_name` entry of a state dictionary: no such key, the key bound to
      `None`, or the key bound to a string. */
  datatype NameSlot = Missing | Null | Named(name: string)

  /** A value stored under a key of a state dictionary other than "messages". */
  datatype Value = NoneValue | StrValue(s: string) | IntValue(i: int) | BoolValue(b: bool)

  /** A tool's `Command(update=...)`: the new `user_name` when the update sets one,
      and the messages the update appends to the history. */
  datatype Command = Command(userName: Option<string>, messages: seq<Message>)

  /** What a tool returns: a plain string or a `Command`. */
  datatype ToolOutput = Text(text: string) | Update(command: Command)

  /** The exceptions a tool body can raise. */
  datatype ToolError = KeyError(key: string) | TypeError
}
