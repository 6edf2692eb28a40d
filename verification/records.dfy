/** The persisted record: what the save file holds, keyed by channel name.
    Each channel's entry carries the four saved fields with the automaton
    state and the last input kept as the text symbols they are written as. */
module Records {
  import opened Wrappers

  /** One channel's entry of the save file. */
  datatype ChannelRecord = ChannelRecord(count: int, stack: seq<int>, state: string, lastInput: string)

  /** The whole save file: channel name to that channel's entry. */
  type PersistedState = map<string, ChannelRecord>

  /** The names of the three channels the application keeps. */
  const ChannelNames: set<string> := {"A", "B", "C"}

  /** The entry of a channel that has never been touched. */
  const EmptyRecord: ChannelRecord := ChannelRecord(0, [], "q0", "-")

  /** The canonical fresh record: all three channels at count 0, with an
      empty stack, in state "q0" and with no input seen yet. */
  function EmptyState(): (r: PersistedState)
    ensures r.Keys == ChannelNames
    ensures forall ch :: ch in r ==> r[ch].count == 0 && r[ch].stack == []
    ensures forall ch :: ch in r ==> r[ch].state == "q0" && r[ch].lastInput == "-"
  {
    map["A" := EmptyRecord, "B" := EmptyRecord, "C" := EmptyRecord]
  }

  /** Loading the save file. The file contents are given as an Option: None
      stands for a missing file or one that could not be read or parsed, in
      which case loading falls back to the fresh record instead of failing. */
  function LoadState(stored: Option<PersistedState>): (r: PersistedState)
    ensures stored.None? ==> r == EmptyState()
    ensures stored.Some? ==> r == stored.value
  {
    stored.GetOr(EmptyState())
  }
}
