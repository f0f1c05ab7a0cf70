/** The session registry: an insertion-ordered dictionary from session id to
    session, with create, get, list and delete. */
module Registry {
  import opened Wrappers

  /** The two session classes the registry can construct. */
  datatype Variant = FullState | DelegatedState

  /** What the registry stores for a session: its id and which class it is. */
  datatype SessionRecord = SessionRecord(sessionId: string, variant: Variant)

  /** The class chosen for a type tag: "deepagent" selects the delegated-state
      session; every other tag, known or not, selects the full-state session. */
  function VariantFor(agentType: string): Variant {
    if agentType == "deepagent" then DelegatedState else FullState
  }

  /** A Python dict from id to session: its entries and its keys in insertion order. */
  datatype SessionTable = SessionTable(entries: map<string, SessionRecord>, order: seq<string>)

  const EmptyTable: SessionTable := SessionTable(map[], [])

  predicate Distinct(s: seq<string>) {
    forall i, j :: 0 <= i < j < |s| ==> s[i] != s[j]
  }

  /** The keys listed once each, exactly the keys of the map, and every session
      filed under its own id. */
  ghost predicate WellFormed(t: SessionTable) {
    && Distinct(t.order)
    && (forall id :: id in t.order <==> id in t.entries)
    && (forall id :: id in t.entries ==> t.entries[id].sessionId == id)
  }

  /** `self._sessions[id] = session` for a key not yet present. */
  function Insert(t: SessionTable, id: string, agentType: string): SessionTable
    requires id !in t.entries
  {
    SessionTable(t.entries[id := SessionRecord(id, VariantFor(agentType))], t.order + [id])
  }

  /** `self._sessions.get(id)`. */
  function Lookup(t: SessionTable, id: string): Option<SessionRecord> {
    if id in t.entries then Some(t.entries[id]) else None
  }

  /** `s` with every occurrence of `id` taken out, the rest in the same order. */
  function Without(s: seq<string>, id: string): (r: seq<string>)
    ensures forall x :: x in r <==> x in s && x != id
    ensures |r| <= |s|
  {
    if s == [] then []
    else if s[0] == id then Without(s[1..], id)
    else [s[0]] + Without(s[1..], id)
  }

  /** `del self._sessions[id]` when the key is present; nothing otherwise. */
  function Remove(t: SessionTable, id: string): SessionTable {
    if id in t.entries then SessionTable(t.entries - {id}, Without(t.order, id)) else t
  }

  /** Creating one session after another from the given table. */
  function InsertAll(t: SessionTable, ids: seq<string>, agentTypes: seq<string>): (u: SessionTable)
    requires |ids| == |agentTypes| && Distinct(ids)
    requires forall i :: 0 <= i < |ids| ==> ids[i] !in t.entries
    ensures u.order == t.order + ids
    ensures u.entries.Keys == t.entries.Keys + set i | 0 <= i < |ids| :: ids[i]
    decreases |ids|
  {
    if ids == [] then t
    else
      var u := InsertAll(Insert(t, ids[0], agentTypes[0]), ids[1..], agentTypes[1..]);
      assert forall x :: x in ids <==> x == ids[0] || x in ids[1..];
      u
  }

  lemma {:induction false} WithoutDistinct(s: seq<string>, id: string)
    requires Distinct(s)
    ensures Distinct(Without(s, id))
    decreases |s|
  {
    if s != [] {
      WithoutDistinct(s[1..], id);
      assert s[0] !in s[1..];
    }
  }

  /** Creating a session with a fresh id keeps the table well formed, files the
      new session under that id with the class its tag selects, and leaves every
      other entry as it was. */
  lemma InsertSpec(t: SessionTable, id: string, agentType: string)
    requires WellFormed(t) && id !in t.entries
    ensures WellFormed(Insert(t, id, agentType))
    ensures Lookup(Insert(t, id, agentType), id) == Some(SessionRecord(id, VariantFor(agentType)))
    ensures forall x :: x != id ==> Lookup(Insert(t, id, agentType), x) == Lookup(t, x)
    ensures Insert(t, id, agentType).order == t.order + [id]
    ensures Insert(t, id, agentType).entries[id].variant == DelegatedState <==> agentType == "deepagent"
  {
  }

  /** Deleting a present id removes exactly that entry; deleting an absent id
      changes nothing. Either way the table stays well formed and the id is no
      longer found. */
  lemma RemoveSpec(t: SessionTable, id: string)
    requires WellFormed(t)
    ensures WellFormed(Remove(t, id))
    ensures Lookup(Remove(t, id), id) == None
    ensures forall x :: x != id ==> Lookup(Remove(t, id), x) == Lookup(t, x)
    ensures id !in t.entries ==> Remove(t, id) == t
    ensures id in t.entries ==> |Remove(t, id).order| == |t.order| - 1
  {
    if id in t.entries {
      WithoutDistinct(t.order, id);
      var k :| 0 <= k < |t.order| && t.order[k] == id;
      WithoutLength(t.order, id, k);
    }
  }

  lemma {:induction false} WithoutLength(s: seq<string>, id: string, k: nat)
    requires Distinct(s) && k < |s| && s[k] == id
    ensures |Without(s, id)| == |s| - 1
    decreases |s|
  {
    if k > 0 {
      WithoutLength(s[1..], id, k - 1);
    } else {
      assert id !in s[1..] by {
        forall j | 0 <= j < |s[1..]| ensures s[1..][j] != id {
          assert s[1..][j] == s[j + 1];
        }
      }
      WithoutAbsent(s[1..], id);
    }
  }

  lemma {:induction false} WithoutAbsent(s: seq<string>, id: string)
    requires id !in s
    ensures Without(s, id) == s
    decreases |s|
  {
    if s != [] {
      WithoutAbsent(s[1..], id);
    }
  }

  /** Starting from an empty registry, N creations with distinct fresh ids list
      exactly those N ids, each once, in creation order. */
  lemma CreateManyListsAll(ids: seq<string>, agentTypes: seq<string>)
    requires |ids| == |agentTypes| && Distinct(ids)
    ensures InsertAll(EmptyTable, ids, agentTypes).order == ids
    ensures |InsertAll(EmptyTable, ids, agentTypes).order| == |ids|
    ensures WellFormed(InsertAll(EmptyTable, ids, agentTypes))
  {
    InsertAllWellFormed(EmptyTable, ids, agentTypes);
  }

  lemma {:induction false} InsertAllWellFormed(t: SessionTable, ids: seq<string>, agentTypes: seq<string>)
    requires WellFormed(t)
    requires |ids| == |agentTypes| && Distinct(ids)
    requires forall i :: 0 <= i < |ids| ==> ids[i] !in t.entries
    ensures WellFormed(InsertAll(t, ids, agentTypes))
    decreases |ids|
  {
    if ids != [] {
      InsertSpec(t, ids[0], agentTypes[0]);
      InsertAllWellFormed(Insert(t, ids[0], agentTypes[0]), ids[1..], agentTypes[1..]);
    }
  }

  // ---------------------------------------------------------------------
  // `create_session` as written
  // ---------------------------------------------------------------------

  /** The session classes src/session.py defines. */
  const SessionModuleNames: set<string> := {"AgentSession"}

  /** The keyword parameters of `AgentSession.__init__`. */
  const AgentSessionParams: set<string> := {"session_id"}

  /** The keyword arguments the registry passes to the session class. */
  const PassedKeywords: seq<string> := ["session_id", "agent_runnable"]

  /** The exceptions a call meets before any session is built. */
  datatype CreateError = ImportError(name: string) | UnexpectedKeyword(keyword: string)

  /** Binding keyword arguments to a signature: the first keyword the signature
      does not have, if any. */
  function UnknownKeyword(params: set<string>, keywords: seq<string>): (r: Option<string>)
    ensures r.None? <==> forall i :: 0 <= i < |keywords| ==> keywords[i] in params
    ensures r.Some? ==> r.value in keywords && r.value !in params
  {
    if keywords == [] then None
    else if keywords[0] !in params then Some(keywords[0])
    else UnknownKeyword(params, keywords[1..])
  }

  /** `create_session` as the code stands, given the classes the session module
      defines: the import of `DeepAgentSession` fails first, and the full-state
      branch then fails on the extra `agent_runnable` keyword. A delegated class
      that accepts both keywords is assumed for the "deepagent" branch. */
  function CreateAsWritten(defined: set<string>, t: SessionTable, agentType: string, freshId: string)
    : (r: Result<SessionTable, CreateError>)
    requires freshId !in t.entries
    ensures r.Ok? ==> r.value == Insert(t, freshId, agentType)
  {
    if "DeepAgentSession" !in defined then Err(ImportError("DeepAgentSession"))
    else if agentType != "deepagent" && UnknownKeyword(AgentSessionParams, PassedKeywords).Some? then
      Err(UnexpectedKeyword(UnknownKeyword(AgentSessionParams, PassedKeywords).value))
    else Ok(Insert(t, freshId, agentType))
  }

  /** As written, no call creates a session: with the module as it is, every
      call fails on the import; with `DeepAgentSession` added, every tag other
      than "deepagent" still fails, on the `agent_runnable` keyword. */
  lemma CreateAsWrittenNeverCreates(t: SessionTable, agentType: string, freshId: string)
    requires freshId !in t.entries
    ensures CreateAsWritten(SessionModuleNames, t, agentType, freshId) == Err(ImportError("DeepAgentSession"))
    ensures agentType != "deepagent" ==>
      forall defined :: CreateAsWritten(defined, t, agentType, freshId).Err?
  {
  }

  /** The session manager: one dictionary, updated in place by create and delete. */
  class SessionManager {
    var table: SessionTable

    ghost predicate Valid()
      reads this
    {
      WellFormed(table)
    }

    /** A new manager holds no sessions. */
    constructor ()
      ensures Valid() && table == EmptyTable
    {
      table := EmptyTable;
    }

    /** Files a new session under `freshId`, the id the source draws from
        `uuid.uuid4()`, and returns that id. */
    method CreateSession(agentType: string, freshId: string) returns (id: string)
      requires Valid() && freshId !in table.entries
      modifies this
      ensures Valid() && id == freshId
      ensures table == Insert(old(table), id, agentType)
      ensures id in table.entries && table.entries[id] == SessionRecord(id, VariantFor(agentType))
      ensures forall x :: x != id ==> Lookup(table, x) == Lookup(old(table), x)
    {
      id := freshId;
      InsertSpec(table, id, agentType);
      table := Insert(table, id, agentType);
    }

    /** The session filed under `id`, or None when there is none. */
    method GetSession(id: string) returns (r: Option<SessionRecord>)
      requires Valid()
      ensures r.None? <==> id !in table.entries
      ensures r.Some? ==> r.value == table.entries[id] && r.value.sessionId == id
    {
      r := Lookup(table, id);
    }

    /** The ids of the live sessions, each once, in creation order. */
    method ListSessions() returns (ids: seq<string>)
      requires Valid()
      ensures ids == table.order
      ensures Distinct(ids) && forall x :: x in ids <==> x in table.entries
    {
      ids := table.order;
    }

    /** Removes the session filed under `id`; says whether there was one. */
    method DeleteSession(id: string) returns (removed: bool)
      requires Valid()
      modifies this
      ensures Valid()
      ensures removed <==> id in old(table.entries)
      ensures table == Remove(old(table), id)
      ensures id !in table.entries
      ensures forall x :: x != id ==> Lookup(table, x) == Lookup(old(table), x)
      ensures !removed ==> table == old(table)
    {
      RemoveSpec(table, id);
      if id in table.entries {
        table := Remove(table, id);
        removed := true;
      } else {
        removed := false;
      }
    }
  }
}
