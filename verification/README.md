# Multi-channel PDA counter: a Dafny model

This project models the core of a desktop counter with three independent
channels, A, B and C. Each channel is a small pushdown automaton with three
states: `q0` (start), `q1` (counting) and `qf` (target reached). It also has
a stack and remembers the last input symbol. Input `"1"` (increment) pushes a
1 and counts it. Input `"R"` (reset) clears the channel. After every action
the application saves a record of all three channels, and it can resume from
that record on the next start.

The model has four modules:

- `Wrappers` (`wrappers.dfy`): `Option` and `Result`.
- `Records` (`records.dfy`): the saved record. Each channel's entry holds
  `count`, `stack`, `state` and `last_input`, with the state and last input
  kept as the text symbols the file uses. The module also holds
  `empty_state` and the fallback in `load_state`.
- `Counter` (`counter.dfy`): the `ChannelCounter` class. It covers its
  constructor from a saved entry, the saved entry built from a channel,
  `increment` and `reset`, and runs of these inputs.
- `Registry` (`registry.dfy`): the map from channel name to channel, the
  dispatch of increment and reset to the selected channel, the full snapshot
  written by `save_all`, and sessions of user actions.

The model is purely functional. A channel is an immutable `Channel` value.
`Increment` returns the next channel together with the flag that the
original method returns. `Reset` returns the next channel. The live channels
are a `map<string, Channel>`. Python integers are unbounded, and so are
Dafny's `int`, so no wrap-around is involved.

The invariant is `Counter.Consistent`. It says that the count equals the
stack height, that every stack entry is 1, and that the state is the one the
count calls for: `q0` exactly at count 0, `qf` from the target on, and `q1`
in between. Fresh channels satisfy it, `increment` and `reset` preserve it,
and so does every session.

The return value of `increment` is not a "fires once" signal. One might
expect it to be true only on the call that first reaches the target. The
code (`project.py:53-55`) returns true on every increment whose new count is
at or above the target, so the "target reached" notification repeats on
each later increment. The model follows the code.
`Counter.IncrementsOnlyGrow` and `Counter.FiresOnEveryIncrementPastTarget`
state this behaviour. `Counter.TargetThreeScenario` shows it for target 3:
four increments return `false, false, true, true`.

## Model

| member | source | states |
|---|---|---|
| Records.EmptyState | project.py:12-17 | the fresh record has exactly channels A, B and C, each with count 0, an empty stack, state "q0" and last input "-" |
| Records.LoadState | project.py:22-29 | loading returns the stored record when there is one, and the fresh record when the file is missing or unreadable |
| Counter.ParseState | project.py:43 | reading a state symbol is the exact inverse of writing one: a parsed state writes back as the same text, and every state's text parses to that state |
| Counter.ParseInput | project.py:44 | reading a last-input symbol is the exact inverse of writing one |
| Counter.FromRecord | project.py:39-45 | the constructor takes over count, stack, state and last input from the entry unchanged, and uses the given name and target |
| Counter.ToRecord | project.py:204-209 | the saved entry is well-formed, and rebuilding a channel from it with the same name and target gives the same channel |
| Counter.RecordRoundTrip | project.py:41-44 | building a channel from a well-formed entry and saving it gives back that entry |
| Counter.Fresh | project.py:14-16 | a fresh channel is the one built from the empty entry |
| Counter.Increment | project.py:47-56 | count goes up by one; exactly one 1 is pushed on top of an unchanged stack; last input becomes "1"; the flag is true exactly when the new count is at least the target, and then the state is qf; otherwise q0 becomes q1 and any other state is kept; the state is never q0 afterwards |
| Counter.Reset | project.py:58-62 | whatever the prior values, the result has count 0, an empty stack, state q0 and last input "R", which is the fresh channel apart from the last input; name and target are kept |
| Counter.ResetIdempotent | project.py:58-62 | resetting twice is the same as resetting once |
| Counter.ResetForgetsHistory | project.py:58-62 | two channels with the same name and target are equal after a reset, whatever they held before |
| Counter.FreshConsistent | project.py:12-17 | a fresh channel satisfies the invariant: count equals stack height, all entries are 1, and the state matches the count |
| Counter.IncrementPreservesStack | project.py:49-52 | increment keeps "count equals stack height and every entry is 1", in any state |
| Counter.IncrementPreservesConsistent | project.py:47-56 | increment keeps the invariant; on consistent channels the flag is true exactly when the channel is then in qf |
| Counter.ResetEstablishesConsistent | project.py:58-62 | after a reset the invariant holds, from any channel |
| Counter.RunPreservesConsistent | project.py:47-62 | the invariant holds after any sequence of increments and resets |
| Counter.IncrementsOnlyGrow | project.py:47-56 | n increments raise the count by n and push n ones on the earlier stack with no cap; the state is then not q0 and the last input is "1"; the i-th call returns true exactly when the count it produces is at least the target |
| Counter.ReachedKeepsFiring | project.py:52-56 | once an increment returns true, every later increment before a reset returns true too |
| Counter.CountingFromReset | project.py:47-62 | after a reset and n increments the count is n, the stack is n ones, the state is q0, q1 or qf as n calls for, and the i-th increment returned true exactly when i + 1 reached the target |
| Counter.FiresOnEveryIncrementPastTarget | project.py:53-56 | from a reset, n increments return true n - target + 1 times once n reaches a positive target, so the flag is not raised only once |
| Counter.ResetDiscardsHistory | project.py:58-62 | any sequence of inputs that ends in a reset leaves the same channel as a single reset |
| Counter.TargetThreeScenario | project.py:47-56 | with target 3, four increments from fresh return false, false, true, true and leave count 4, state qf, last input "1" and stack [1, 1, 1, 1] |
| Registry.NewRegistry | project.py:74 | the channel map holds exactly A, B and C, each under its own name with target 200000, and each saves back to its entry in the record |
| Registry.Snapshot | project.py:202-210 | the saved record has one well-formed entry per live channel, and each entry rebuilds its channel |
| Registry.ResumeRestores | project.py:202-210 | resuming from the record written for the application's channels rebuilds exactly those channels; the target comes back as the default |
| Registry.SaveAfterLoad | project.py:74 | building the channels from a well-formed record and saving them gives back that record's entries for A, B and C |
| Registry.FallbackStartsFresh | project.py:22-29 | when the save file is missing or unreadable, all three channels start fresh and satisfy the invariant |
| Registry.IncrementChannel | project.py:181-183 | incrementing a known channel replaces only that entry with its increment and returns its flag; the other channels and the key set are unchanged; an unknown name fails with InvalidChannel |
| Registry.ResetChannel | project.py:190-191 | resetting a known channel replaces only that entry with its reset; the other channels and the key set are unchanged; an unknown name fails with InvalidChannel |
| Registry.Dispatch | project.py:181-191 | an action feeds its input to the channel it names and leaves every other channel and the key set unchanged; an unknown name fails with InvalidChannel |
| Registry.Perform | project.py:181-193 | one user action changes the channels as its dispatch does, reports the increment's flag (false for reset), and writes the snapshot of all channels taken after the change |
| Registry.SessionSucceedsIffChannelsKnown | project.py:182-183 | a sequence of actions succeeds exactly when every action names an existing channel |
| Registry.SessionReportsFirstUnknown | project.py:190-191 | a session fails with the first unknown channel name it meets |
| Registry.ChannelsEvolveIndependently | project.py:181-193 | after a session, each channel is what its own inputs alone make of it, whatever was done to the other channels |
| Registry.SessionKeepsInvariant | project.py:181-193 | after any session the channels are still exactly A, B and C with their own names and the default target, and every channel satisfies the invariant; ResumeRestores then applies to the record saved at that point |

## Left out

- The tkinter window: labels, radio buttons, the display refresh in `update_gui`, the colour update and the info panel. This is presentation only. The selected channel comes into the model as an argument.
- The `messagebox` notification and the `winsound.Beep` call after a true flag. These are side effects. The model returns the flag (`Step.reached`) that triggers them.
- File I/O and the JSON text encoding in `load_state` and `save_state`. The model keeps only the record value. The file's contents are an `Option`, where `None` stands for a missing, unreadable or unparsable file. A failed write is not modelled.
- The start screen, `launch` and `go_back`, which choose between a new session and resuming and switch windows. This is navigation between windows.
- The channel's `name` is stored as in the constructor but is never read by `increment` or `reset`.
- Python list aliasing between a saved entry's `stack` and the channel's stack. Under value semantics it has no observable effect.
- Counter.FromRecord: requires the entry's state and last input to be known symbols. The constructor itself does no validation. An unknown symbol would be carried along as text and never match `"q0"`.
- Registry.NewRegistry: requires well-formed entries for A, B and C. `load_state` returns whatever the file parses to, and a record missing a channel fails later with a `KeyError` when the channel map is built.
