# Agent sessions and state tools, modelled in Dafny

The repository runs conversational agents behind an HTTP API. Clients create an
agent session, chat with it turn by turn, list sessions and delete them. This
project models the parts of it that keep state:

- **The session registry** (`SessionManager`, module `Registry`). It is an
  insertion-ordered dictionary from session id to session. `create_session`
  picks the session class from a type tag: `"deepagent"` gives the
  delegated-state session, and every other tag gives the full-state session.
  There is no failure branch. `get_session`, `list_sessions` and
  `delete_session` have plain dictionary semantics.
- **One chat turn of a full-state session** (`AgentSession.chat`, module
  `Session`). The input state is the old history plus one human message, and
  it keeps the old `user_name`; it has no other entry. The agent runs on that
  state. On success its output replaces the stored state wholesale, including
  any other entry it holds (a structured response, say). Such entries are
  stored but not sent on the next turn. The reply is the text of the last
  AI message, or `""` when there is none. The agent is a parameter: any
  function from state to state that may fail. If it fails, the stored state is
  unchanged. The per-session lock is not modelled; a turn is one atomic step.
- **The tools that read and write agent state**:
  - `get_user_info`, `update_user_info` and `greet` of the greeting agents
    (module `UserTools`; `src/agents/stateful_deep_agent.py` and
    `src/z_state_agent.py` are near copies, and one model serves both).
  - `update_user_info` and `diagnose_user` of the stateful agent (module
    `StatefulAgent`).
  - The counter tools of the deep agent (module `DeepAgent`).
  - The notes dictionary of the research agent (module `Notes`).
- **The command-line loop's bookkeeping** (`chat_cli`, module `StatefulAgent`).
  It tracks how the current state, the message offset and the last non-message
  state move from turn to turn. Input lines are a list, and the agent's stream
  is a function from input state to the list of states it yields.

A tool's `Command` result is a record: the `user_name` it sets, if any, and
the messages it appends. `UserTools.ApplyCommand` states what the graph does
with such a record. The tools' replies are built from Python's `str(int)` and
`repr(str)`. Module `PyText` defines both, together with parsers that read
them back, and proves the round trips. The same module holds `str.strip()`
and the case-insensitive test for "exit" and "quit".

Where the code and the design description disagree, the model follows the code:

- An unrecognised type tag silently gives a full-state session. It is not a
  fatal error.
- The registry takes no lock.
- As written, the registry never creates a session. `app/core/session_manager.py:6`
  imports `DeepAgentSession` from `src/session.py`, which does not define it,
  so loading the module raises ImportError. With that import fixed, the
  full-state branch still raises TypeError: `AgentSession.__init__` takes only
  `session_id` (`src/session.py:11`), yet the registry also passes
  `agent_runnable` (`app/core/session_manager.py:16-20`). `Registry.CreateAsWritten`
  models the code as it stands, and `Registry.SessionManager.CreateSession`
  models the create the design intends (see "## Findings"). The registry stores
  an abstract record, the session id plus the class chosen, and no session
  behaviour is invented for the delegated class.

## Model

| member | source | states |
|---|---|---|
| `Registry.SessionManager.constructor` | app/core/session_manager.py:10-11 | A new manager holds no sessions, so listing gives the empty list. |
| `Registry.SessionManager.CreateSession` | app/core/session_manager.py:13-22 | Given an id not yet in the registry (uuid freshness), it returns that id. It files under it a session whose id is that id, with the class the tag selects. Every other entry stays the same, and the id is appended to the creation order. |
| `Registry.InsertSpec` | app/core/session_manager.py:15-21 | Creating with a fresh id keeps the table well formed (each id listed once, exactly the keys, each session filed under its own id). Lookup of the new id gives the new session, and other lookups are unchanged. The class is the delegated one if and only if the tag is "deepagent". |
| `Registry.UnknownKeyword` | app/core/session_manager.py:16-20 | Binding keyword arguments to a signature finds no unknown keyword exactly when every keyword is a parameter. A keyword it reports was passed and is not a parameter. |
| `Registry.CreateAsWritten` | app/core/session_manager.py:6-22 | `create_session` as the code stands. When it succeeds, the table is the intended insert. It fails on the missing `DeepAgentSession` import, or on the `agent_runnable` keyword for a full-state session. |
| `Registry.CreateAsWrittenNeverCreates` | app/core/session_manager.py:6-22 | With the session module as it is, every call fails with ImportError for `DeepAgentSession`. Whatever the module defines, a tag other than "deepagent" still fails. |
| `Registry.SessionManager.GetSession` | app/core/session_manager.py:24-25 | Returns None exactly when the id is not a key. Otherwise it returns the stored session, whose `session_id` is that id. |
| `Registry.SessionManager.ListSessions` | app/core/session_manager.py:27-28 | Returns the keys in creation order, each once, exactly the live ids. |
| `Registry.CreateManyListsAll` | tests/unit/test_session_manager.py:35-42 | After N creations with distinct fresh ids from an empty registry, listing gives exactly those N ids in creation order. |
| `Registry.SessionManager.DeleteSession` | app/core/session_manager.py:30-34 | Returns true exactly when the id was present. The id is then absent, and other entries are unchanged. An absent id leaves the table identical. |
| `Registry.RemoveSpec` | app/core/session_manager.py:30-34 | Deleting keeps the table well formed, and lookup of the deleted id gives None. A present id shortens the listing by exactly one; an absent id changes nothing. |
| `Session.AgentSession.constructor` | src/session.py:11-16 | A new session has empty messages, no user name, and the given id. |
| `Session.AgentSession.GetState` | src/session.py:19-21 | Returns the stored state and changes nothing. |
| `Session.AgentSession.Chat` | src/session.py:23-43 | If the agent fails on the turn input, the state is unchanged and the failure is passed on. Otherwise the stored state becomes exactly the agent's output, with no merge, and the reply is the last AI message's text. |
| `Session.TurnSpec` | src/session.py:26-32 | The agent's input holds exactly the old messages followed by one human message with the given text, and the old user name, and no other entry. A failed turn returns the old state; a successful one keeps the agent's state as it is. |
| `Session.RetryAfterFailure` | src/session.py:31-32 | Because a failed turn changes nothing, retrying the same message gives exactly what it would have given without the failed attempt. |
| `Session.NextTurnCarriesState` | src/session.py:26-32 | The messages and `user_name` one turn returns are what the next turn sends, so a remembered name survives. Any other entry the agent returned is stored with the state but left out of the next input. |
| `Session.LastAiIndex` | src/session.py:36-41 | Finds the position of an AI message with no AI message after it, or reports that the history holds no AI message. |
| `Session.ReplySpec` | src/session.py:34-43 | The reply is "" when no message is an AI message. Otherwise it is the content of the AI message that has no AI message after it. |
| `Session.ExtractReply` | src/session.py:35-43 | The backward scan with early exit returns exactly that reply. |
| `UserTools.NewCustomState` | src/agents/stateful_deep_agent.py:9-10 | A state built without `user_name` has it set to None. |
| `UserTools.GetUserInfo` | src/agents/stateful_agent.py:21-25 | Succeeds exactly when a name is present, with "User is " followed by the name. An absent entry raises KeyError and None raises TypeError. The same code is at src/agents/stateful_deep_agent.py:20-23 and src/z_state_agent.py:21-25. |
| `UserTools.UpdateUserInfo` | src/agents/stateful_deep_agent.py:26-39 | Whatever the prior state, applying the update sets the name to "John Smith". It appends exactly one tool message, "Successfully looked up user information", carrying the call's id. The same code is at src/z_state_agent.py:28-45. |
| `UserTools.Greet` | src/z_state_agent.py:48-63 | `greet` returns an update exactly when `user_name` is absent or None, although the schema at src/z_state_agent.py:10-11 declares it a string. That update appends one instructing tool message and does not change the name. With a name n it returns "Hello n!". The same code is at src/agents/stateful_deep_agent.py:42-56. |
| `UserTools.GreetAfterUpdate` | src/agents/stateful_deep_agent.py:26-56 | Once the update of `update_user_info` is applied, `greet` says "Hello John Smith!" and `get_user_info` says "User is John Smith". |
| `UserTools.GreetRepeatsUntilUpdated` | src/agents/stateful_deep_agent.py:44-55 | Applying greet's own instruction leaves the name missing, so greet asks again. |
| `StatefulAgent.UpdateUserInfo` | src/agents/stateful_agent.py:28-49 | Writes `name` into the runtime state in place, and nothing else there. It returns an update setting the same name, with one "Successfully updated user information" tool message carrying the call's id. |
| `StatefulAgent.DiagnoseUser` | src/agents/stateful_agent.py:52-76 | Returns an update exactly when there is no name, holding one tool message and no `user_name`. With a name it returns "Diagnosis for {name}: {verdict}". |
| `StatefulAgent.DiagnosisSpec` | src/agents/stateful_agent.py:70-76 | "John" gives "Diagnosis for John: healthy". Any other name n gives "Diagnosis for n: unidentified". |
| `StatefulAgent.DiagnoseAfterUpdate` | src/agents/stateful_agent.py:38-76 | After the update of `update_user_info(name)` is applied, `diagnose_user` diagnoses that name and `get_user_info` reports it. |
| `StatefulAgent.BaseStateSpec` | src/agents/stateful_agent.py:126-141 | A turn's input ends with the new human message, whose index is the offset the turn starts from. Before it comes the previous history (none on the first turn), and every other entry of the previous state is copied. |
| `StatefulAgent.StreamTurn` | src/agents/stateful_agent.py:141-188 | Following the streamed states one by one gives: the offset equal to the last streamed state's message count, or to the new message's index if nothing streamed; the last non-message state; and the current state replaced only if something streamed. |
| `StatefulAgent.AfterTurnSpec` | src/agents/stateful_agent.py:184-188 | `current_state` changes only when at least one state was streamed, and then becomes the last one. |
| `StatefulAgent.ChatCli` | src/agents/stateful_agent.py:105-190 | The loop over input lines computes exactly `Run`: blank lines skipped, "exit"/"quit" in any case ending the loop, and end of input ending it. |
| `StatefulAgent.RunKeepsOffsetInSync` | src/agents/stateful_agent.py:141-173 | After every turn the offset equals the number of messages in the kept state, so earlier messages are never shown again. |
| `StatefulAgent.RunStopsAtExit` | src/agents/stateful_agent.py:122-124 | No line after the first "exit" or "quit" affects the outcome. |
| `StatefulAgent.BlankLineSkipped` | src/agents/stateful_agent.py:115-121 | A line that is empty after stripping whitespace is skipped and leaves the state untouched. |
| `DeepAgent.IncrementCounter` | src/agents/deep_agent.py:44-53 | An absent counter counts as 0. It stores before + 1 and touches no other entry. The reply "The counter is now: {after}" carries the new value, which can be read back from it. |
| `DeepAgent.ReadCounter` | src/agents/deep_agent.py:56-65 | The reply of `read_counter` gives back exactly the stored counter. It is the "not initialized" text exactly when there is no counter. |
| `Notes.NotesDb.constructor` | src/agent.py:8 | The notes dictionary starts empty. |
| `Notes.NotesDb.SaveNote` | src/agent.py:11-17 | After saving, `get_note(title)` returns the content, overwriting any earlier note, and every other title reads as before. The reply is "Saved note with title: {title}". |
| `Notes.NotesDb.GetNote` | src/agent.py:20-26 | A stored title gives its note. An absent title gives "No note found with title: " followed by the title as `repr` prints it, from which the title can be read back. |
| `PyText.IntToStringRoundTrip` | src/agents/deep_agent.py:53 | Parsing Python's `str(n)` gives back n for every integer n. |
| `PyText.PyReprRoundTrip` | src/agent.py:26 | Reading back Python's `repr(s)` gives back s: quote choice, backslash escapes and `\xhh` escapes. |
| `PyText.Strip` | src/agents/stateful_agent.py:115 | The result is a contiguous part of the input, surrounded only by whitespace, that neither starts nor ends with whitespace. |
| `PyText.ExitWordsAnyCase` | src/agents/stateful_agent.py:122 | A line is an exit word exactly when it has four characters that spell "exit" or "quit" in any mix of upper and lower case. |

## Left out

- Language-model inference and graph execution (`create_agent`, `create_deep_agent`, `StateBackend`, `MemorySaver`, `ainvoke`/`astream`/`invoke`). These are foreign libraries. The agent appears only as a function parameter: `Session.Executor` for a chat turn, and a stream function for the command-line loop.
- The delegated-state session. `DeepAgentSession` is not defined in src/session.py, so the registry records only which class it would build.
- The executor reference a session would hold. `AgentSession.__init__` does not accept one; `chat` calls the module-level `agent_runnable` of src/agents/stateful_deep_agent.py. The registry's attempt to pass one raises TypeError, which `Registry.CreateAsWritten` models.
- app/core/agent_factory.py is not part of this model. Its only own behaviour is turning ImportError/AttributeError into ValueError.
- The HTTP layer (routes, schemas, settings, `app/main.py`) is not part of this model: it is routing plus the mapping of ValueError to 400 and a missing session to 404.
- Registry.SessionManager.CreateSession: `uuid.uuid4()` randomness is replaced by a `freshId` argument that must not already be a key.
- The `asyncio.Lock` and the suspension in `chat`. A turn is one atomic step, and per-session serialisation is a concurrency property outside a sequential model.
- Console output, `input()`, `pprint`, the debug prints and the `__main__` demos. The command-line loop keeps only its state and offset bookkeeping. KeyboardInterrupt is not modelled (end of input is), and neither is an exception escaping the stream.
- The module-level singletons (`session_manager`, `NOTES_DB`) and dotenv loading. The notes dictionary and the registry are objects.
- UserTools.ApplyCommand: the messages reducer's replacement of a message with the same id is not modelled; appended messages are always added at the end.
- PyText.PyRepr: non-printable characters above U+00FF (for example U+2028) are printed as they are, whereas CPython escapes them. The Unicode printability tables are not part of this model.
- PyText.IsExitWord: `str.lower()` is modelled on ASCII letters only. Outside ASCII, the only character whose lowercase form contains one of these letters is U+0130, which lowercases to two characters ("i" then U+0307). In a lowercased line U+0307 then sits right after that "i", where both "exit" and "quit" have "t", so such a line never matches and the test is unaffected.
- Message content is a plain string. The multi-part content lists of the message library are not modelled. AI message chunks count as AI messages, as the class-name test in src/session.py:37-39 intends.
- DeepAgent.CounterState: a "counter" entry present with a non-integer value is not modelled; the state schema declares it an optional `int`.
- The runtime's `tool_call_id` is always a string here.
- UserTools.NewCustomState: it applies the class-level default `user_name = None`. If the library's `AgentState` is a TypedDict, that default is not applied, and `CustomState(messages=m)` has no `user_name` key at all. `get_user_info` would then raise KeyError rather than TypeError. The library's state class is not part of this model.
- Whether the state objects allow attribute access (`self._state.messages` in src/session.py) depends on the library's state class, which is not part of this model. The model reads the state as a record with `messages` and `user_name`.

## Findings

| source | as written | input that shows it | evidently intended | confidence | as-written member | corrected member |
|---|---|---|---|---|---|---|
| app/core/session_manager.py:6-20 | `DeepAgentSession` is imported from src/session.py, which does not define it. `AgentSession(session_id=..., agent_runnable=...)` passes a keyword that `__init__` (src/session.py:11) does not accept. | Any call, e.g. `create_session(r, "default")`: ImportError on loading the module. With the import fixed, TypeError on the `agent_runnable` keyword. | Create a session of the class the tag selects, file it under a fresh id and return that id. | high; not executed | `Registry.CreateAsWritten` | `Registry.SessionManager.CreateSession` |
