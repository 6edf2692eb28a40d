/** The three named channels of the application and the operations the user
    triggers on them: increment or reset the selected channel, after which
    the full record of all channels is written out. */
module Registry {
  import opened Wrappers
  import opened Records
  import opened Counter

  /** The live channels, by name. */
  type Channels = map<string, Channel>

  /** Naming a channel that does not exist. */
  datatype RegistryError = InvalidChannel(name: string)

  /** The record has a well-formed entry for the named channel. */
  predicate WellFormedEntry(data: PersistedState, ch: string) {
    ch in data && WellFormed(data[ch])
  }

  /** A record the channels can be built from: well-formed entries for A, B and C. */
  predicate WellFormedState(data: PersistedState) {
    WellFormedEntry(data, "A") && WellFormedEntry(data, "B") && WellFormedEntry(data, "C")
  }

  /** Channels as the application holds them: exactly A, B and C, each under
      its own name and with the default target. */
  predicate AppChannels(reg: Channels) {
    reg.Keys == ChannelNames && forall ch :: ch in reg ==> reg[ch].name == ch && reg[ch].target == DefaultTarget
  }

  /** Every channel satisfies the counter invariant. */
  predicate AllConsistent(reg: Channels) {
    forall ch :: ch in reg ==> Consistent(reg[ch])
  }

  /** Builds the three channels from a record, each with the default target;
      entries for other names are ignored. */
  function NewRegistry(data: PersistedState): (reg: Channels)
    requires WellFormedState(data)
    ensures reg.Keys == ChannelNames
    ensures forall ch :: ch in reg ==> reg[ch].name == ch && reg[ch].target == DefaultTarget
    ensures forall ch :: ch in reg ==> ch in data && ToRecord(reg[ch]) == data[ch]
  {
    RecordRoundTrip("A", data["A"], DefaultTarget);
    RecordRoundTrip("B", data["B"], DefaultTarget);
    RecordRoundTrip("C", data["C"], DefaultTarget);
    var reg := map[
      "A" := FromRecord("A", data["A"], DefaultTarget),
      "B" := FromRecord("B", data["B"], DefaultTarget),
      "C" := FromRecord("C", data["C"], DefaultTarget)];
    reg
  }

  /** The record written after every change: one entry per channel holding
      its count, stack, state and last input, from which that channel can be
      rebuilt. */
  function Snapshot(reg: Channels): (data: PersistedState)
    ensures data.Keys == reg.Keys
    ensures forall ch :: ch in data ==> WellFormed(data[ch]) && FromRecord(reg[ch].name, data[ch], reg[ch].target) == reg[ch]
  {
    map ch | ch in reg :: ToRecord(reg[ch])
  }

  /** Resuming from the record written for the application's channels
      rebuilds exactly those channels. */
  lemma ResumeRestores(reg: Channels)
    requires AppChannels(reg)
    ensures WellFormedState(Snapshot(reg))
    ensures NewRegistry(Snapshot(reg)) == reg
  {
    var back := NewRegistry(Snapshot(reg));
    forall ch | ch in reg
      ensures back[ch] == reg[ch]
    {
    }
  }

  /** Building the channels from a well-formed record and saving them gives
      back the record's entries for A, B and C. */
  lemma SaveAfterLoad(data: PersistedState)
    requires WellFormedState(data)
    ensures Snapshot(NewRegistry(data)) == map ch | ch in ChannelNames :: data[ch]
  {
  }

  /** With the save file missing or unreadable, the application starts with
      three fresh channels, which satisfy the counter invariant. */
  lemma FallbackStartsFresh()
    ensures WellFormedState(LoadState(None))
    ensures forall ch :: ch in NewRegistry(LoadState(None)) ==> NewRegistry(LoadState(None))[ch] == Fresh(ch, DefaultTarget)
    ensures AllConsistent(NewRegistry(LoadState(None)))
  {
    var reg := NewRegistry(LoadState(None));
    forall ch | ch in reg
      ensures reg[ch] == Fresh(ch, DefaultTarget)
    {
      StackOfOnesIsOnes(reg[ch]);
    }
  }

  /** Increments the named channel and reports its flag; the other channels
      are left as they were. An unknown name fails and changes nothing. */
  function IncrementChannel(reg: Channels, ch: string): (r: Result<(Channels, bool), RegistryError>)
    ensures r.Success? <==> ch in reg
    ensures r.Failure? ==> r.error == InvalidChannel(ch)
    ensures r.Success? ==> r.value.0.Keys == reg.Keys
    ensures r.Success? ==> r.value.0[ch] == Increment(reg[ch]).0 && r.value.1 == Increment(reg[ch]).1
    ensures r.Success? ==> forall other :: other in reg && other != ch ==> r.value.0[other] == reg[other]
  {
    if ch !in reg then Failure(InvalidChannel(ch))
    else
      var (c, reached) := Increment(reg[ch]);
      Success((reg[ch := c], reached))
  }

  /** Resets the named channel; the other channels are left as they were. An
      unknown name fails and changes nothing. */
  function ResetChannel(reg: Channels, ch: string): (r: Result<Channels, RegistryError>)
    ensures r.Success? <==> ch in reg
    ensures r.Failure? ==> r.error == InvalidChannel(ch)
    ensures r.Success? ==> r.value.Keys == reg.Keys
    ensures r.Success? ==> r.value[ch] == Reset(reg[ch])
    ensures r.Success? ==> forall other :: other in reg && other != ch ==> r.value[other] == reg[other]
  {
    if ch !in reg then Failure(InvalidChannel(ch)) else Success(reg[ch := Reset(reg[ch])])
  }

  /** A user action: increment or reset the named channel. */
  datatype Action = IncrementAction(ch: string) | ResetAction(ch: string)

  /** The automaton input an action feeds its channel. */
  function OpOf(a: Action): Op {
    match a
    case IncrementAction(_) => Inc
    case ResetAction(_) => Rst
  }

  /** The outcome of one action: the channels after it, whether the target
      notification is due, and the record written to the save file. */
  datatype Step = Step(channels: Channels, reached: bool, saved: PersistedState)

  /** Feeds an action's input to the channel it names, leaving the others
      alone; an unknown name fails and changes nothing. */
  function Dispatch(reg: Channels, a: Action): (r: Result<Channels, RegistryError>)
    ensures r.Success? <==> a.ch in reg
    ensures r.Failure? ==> r.error == InvalidChannel(a.ch)
    ensures r.Success? ==> r.value.Keys == reg.Keys
    ensures r.Success? ==> r.value[a.ch] == Apply(reg[a.ch], OpOf(a))
    ensures r.Success? ==> forall other :: other in reg && other != a.ch ==> r.value[other] == reg[other]
  {
    match a
    case IncrementAction(ch) =>
      (match IncrementChannel(reg, ch)
       case Failure(e) => Failure(e)
       case Success((next, _)) => Success(next))
    case ResetAction(ch) => ResetChannel(reg, ch)
  }

  /** One action followed by saving all channels. Only the named channel
      consumes an input; the flag is the increment's (never raised by a
      reset); the record written is the full snapshot afterwards. */
  function Perform(reg: Channels, a: Action): (r: Result<Step, RegistryError>)
    ensures r.Success? <==> a.ch in reg
    ensures r.Failure? ==> r.error == InvalidChannel(a.ch)
    ensures r.Success? ==> Dispatch(reg, a) == Success(r.value.channels)
    ensures r.Success? ==> r.value.reached == Signal(reg[a.ch], OpOf(a))
    ensures r.Success? ==> r.value.saved == Snapshot(r.value.channels)
  {
    match Dispatch(reg, a)
    case Failure(e) => Failure(e)
    case Success(next) => Success(Step(next, Signal(reg[a.ch], OpOf(a)), Snapshot(next)))
  }

  /** A session: the actions performed one after the other, stopping at the
      first that names an unknown channel. Saving does not affect the
      channels, so the session follows the dispatched inputs alone. */
  function RunSession(reg: Channels, actions: seq<Action>): (r: Result<Channels, RegistryError>)
    ensures r.Success? ==> r.value.Keys == reg.Keys
    decreases |actions|
  {
    if actions == [] then Success(reg)
    else
      match Dispatch(reg, actions[0])
      case Failure(e) => Failure(e)
      case Success(next) => RunSession(next, actions[1..])
  }

  /** The inputs a session feeds one channel: its actions on that channel, in order. */
  function InputsFor(actions: seq<Action>, ch: string): (ops: seq<Op>)
    ensures |ops| <= |actions|
    decreases |actions|
  {
    if actions == [] then []
    else (if actions[0].ch == ch then [OpOf(actions[0])] else []) + InputsFor(actions[1..], ch)
  }

  /** A session succeeds exactly when every action names a known channel. */
  lemma {:induction false} SessionSucceedsIffChannelsKnown(reg: Channels, actions: seq<Action>)
    ensures RunSession(reg, actions).Success? <==> forall i :: 0 <= i < |actions| ==> actions[i].ch in reg
    decreases |actions|
  {
    if actions != [] {
      if actions[0].ch in reg {
        var next := Dispatch(reg, actions[0]).value;
        SessionSucceedsIffChannelsKnown(next, actions[1..]);
      }
    }
  }

  /** A session whose first unknown channel name is at position k fails with
      that name; the actions before it do not mask the error. */
  lemma {:induction false} SessionReportsFirstUnknown(reg: Channels, actions: seq<Action>, k: nat)
    requires k < |actions| && actions[k].ch !in reg
    requires forall i :: 0 <= i < k ==> actions[i].ch in reg
    ensures RunSession(reg, actions) == Failure(InvalidChannel(actions[k].ch))
    decreases k
  {
    if k > 0 {
      var next := Dispatch(reg, actions[0]).value;
      var rest := actions[1..];
      assert next.Keys == reg.Keys;
      assert rest[k - 1] == actions[k];
      forall i | 0 <= i < k - 1
        ensures rest[i].ch in next
      {
        assert rest[i] == actions[i + 1];
      }
      SessionReportsFirstUnknown(next, rest, k - 1);
    }
  }

  /** Channels evolve independently: after a session, each channel is what
      its own inputs alone make of it, whatever happened to the others. */
  lemma {:induction false} ChannelsEvolveIndependently(reg: Channels, actions: seq<Action>, x: string)
    requires RunSession(reg, actions).Success?
    requires x in reg
    ensures RunSession(reg, actions).value[x] == Run(reg[x], InputsFor(actions, x))
    decreases |actions|
  {
    if actions != [] {
      var a := actions[0];
      var rest := actions[1..];
      var next := Dispatch(reg, a).value;
      ChannelsEvolveIndependently(next, rest, x);
      if a.ch == x {
        var ops := [OpOf(a)] + InputsFor(rest, x);
        assert ops[0] == OpOf(a) && ops[1..] == InputsFor(rest, x);
        assert Run(reg[x], ops) == Run(next[x], InputsFor(rest, x));
      } else {
        assert InputsFor(actions, x) == InputsFor(rest, x);
      }
    }
  }

  /** A session on the application's channels keeps them the application's
      channels and keeps every channel's invariant; by ResumeRestores the
      record saved then rebuilds the same channels on the next start. */
  lemma {:induction false} SessionKeepsInvariant(reg: Channels, actions: seq<Action>)
    requires AppChannels(reg) && AllConsistent(reg)
    requires RunSession(reg, actions).Success?
    ensures RunSession(reg, actions).value.Keys == ChannelNames
    ensures forall x :: x in RunSession(reg, actions).value ==>
      var c := RunSession(reg, actions).value[x];
      c.name == x && c.target == DefaultTarget && Consistent(c)
  {
    var after := RunSession(reg, actions).value;
    forall x | x in after
      ensures after[x].name == x && after[x].target == DefaultTarget && Consistent(after[x])
    {
      ChannelsEvolveIndependently(reg, actions, x);
      RunPreservesConsistent(reg[x], InputsFor(actions, x));
    }
  }
}
