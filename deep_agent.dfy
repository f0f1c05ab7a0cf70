/** The counter tools of the deep agent: a counter kept in the agent state under
    the optional key "counter", incremented in place and read back. */
module DeepAgent {
  import opened Wrappers
  import opened Messages
  import PyText

  const NowPrefix: string := "The counter is now: "
  const CurrentlyPrefix: string := "The counter is currently: "
  const NotInitializedText: string := "The counter has not been initialized yet."

  /** The entries of the state other than "counter". */
  type OtherEntries = m: map<string, Value> | "counter" !in m witness map[]

  /** The agent state the counter tools receive: the optional integer "counter"
      entry and every other entry of the state. */
  class CounterState {
    var counter: Option<int>
    var others: OtherEntries

    constructor (counter: Option<int>, others: OtherEntries)
      ensures this.counter == counter && this.others == others
    {
      this.counter := counter;
      this.others := others;
    }
  }

  /** The number that follows `prefix` in a reply, if the reply has that shape. */
  function ReportedValue(prefix: string, reply: string): Option<int> {
    if |prefix| <= |reply| && reply[..|prefix|] == prefix then PyText.ParseInt(reply[|prefix|..]) else None
  }

  lemma ReportedValueOf(prefix: string, n: int)
    ensures ReportedValue(prefix, prefix + PyText.IntToString(n)) == Some(n)
  {
    var reply := prefix + PyText.IntToString(n);
    assert reply[..|prefix|] == prefix && reply[|prefix|..] == PyText.IntToString(n);
    PyText.IntToStringRoundTrip(n);
  }

  /** `increment_counter`: an absent counter counts as 0; stores one more than
      before, touches no other entry, and reports the new value. */
  method IncrementCounter(state: CounterState) returns (reply: string)
    modifies state
    ensures state.counter == Some(old(state.counter).GetOr(0) + 1)
    ensures state.others == old(state.others)
    ensures reply == NowPrefix + PyText.IntToString(state.counter.value)
    ensures ReportedValue(NowPrefix, reply) == state.counter
  {
    var before := state.counter.GetOr(0);
    var current := before + 1;
    state.counter := Some(current);
    reply := NowPrefix + PyText.IntToString(current);
    ReportedValueOf(NowPrefix, current);
  }

  /** `read_counter`: the fixed "not initialized" text when there is no counter,
      otherwise "The counter is currently: {c}". The reply determines the counter
      exactly: the value reads back from it, and the "not initialized" text
      cannot be mistaken for a value. */
  function ReadCounter(state: CounterState): (r: string)
    reads state
    ensures ReportedValue(CurrentlyPrefix, r) == state.counter
    ensures state.counter.None? <==> r == NotInitializedText
  {
    match state.counter
    case None =>
      assert NotInitializedText[12] != CurrentlyPrefix[12];
      NotInitializedText
    case Some(c) =>
      ReportedValueOf(CurrentlyPrefix, c);
      var r := CurrentlyPrefix + PyText.IntToString(c);
      assert r[12] != NotInitializedText[12];
      r
  }
}
