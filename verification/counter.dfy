/** One channel of the counter: a small pushdown automaton over the input
    alphabet {"1", "R"}. Input "1" (increment) pushes a 1 and counts it;
    input "R" (reset) clears everything. The automaton moves q0 -> q1 on the
    first increment and to qf once the count reaches the channel's target. */
module Counter {
  import opened Wrappers
  import opened Records

  /** The target a channel is built with when none is given. */
  const DefaultTarget: int := 200000

  /** Automaton states: start, counting, target reached. */
  datatype State = Q0 | Q1 | Qf

  /** The last symbol consumed: none yet ("-"), increment ("1") or reset ("R"). */
  datatype Input = NoInput | One | ResetInput

  /** The text a state is saved as. */
  function StateName(s: State): string {
    match s
    case Q0 => "q0"
    case Q1 => "q1"
    case Qf => "qf"
  }

  /** The text an input symbol is saved as. */
  function InputName(i: Input): string {
    match i
    case NoInput => "-"
    case One => "1"
    case ResetInput => "R"
  }

  /** Reads a saved state symbol; None for text that names no state. */
  function ParseState(text: string): (r: Option<State>)
    ensures r.Some? ==> StateName(r.value) == text
    ensures forall s :: StateName(s) == text ==> r == Some(s)
  {
    if text == "q0" then Some(Q0)
    else if text == "q1" then Some(Q1)
    else if text == "qf" then Some(Qf)
    else None
  }

  /** Reads a saved input symbol; None for text that names no symbol. */
  function ParseInput(text: string): (r: Option<Input>)
    ensures r.Some? ==> InputName(r.value) == text
    ensures forall i :: InputName(i) == text ==> r == Some(i)
  {
    if text == "-" then Some(NoInput)
    else if text == "1" then Some(One)
    else if text == "R" then Some(ResetInput)
    else None
  }

  /** A channel counter. The target is fixed when the channel is built and is
      not part of the saved record. */
  datatype Channel = Channel(name: string, count: int, stack: seq<int>, state: State, lastInput: Input, target: int)

  /** A saved entry whose state and last input are symbols the automaton knows. */
  predicate WellFormed(data: ChannelRecord) {
    ParseState(data.state).Some? && ParseInput(data.lastInput).Some?
  }

  /** Builds a channel from a saved entry: the four saved fields are taken
      over as they are, and the target is the one supplied. */
  function FromRecord(name: string, data: ChannelRecord, target: int): (c: Channel)
    requires WellFormed(data)
    ensures c.name == name && c.target == target
    ensures c.count == data.count && c.stack == data.stack
    ensures StateName(c.state) == data.state && InputName(c.lastInput) == data.lastInput
  {
    Channel(name, data.count, data.stack, ParseState(data.state).value, ParseInput(data.lastInput).value, target)
  }

  /** The saved entry of a channel: exactly its count, stack, state and last
      input, which rebuild the same channel given its name and target. */
  function ToRecord(c: Channel): (r: ChannelRecord)
    ensures WellFormed(r)
    ensures FromRecord(c.name, r, c.target) == c
  {
    ChannelRecord(c.count, c.stack, StateName(c.state), InputName(c.lastInput))
  }

  /** Saving a channel built from a well-formed entry gives that entry back. */
  lemma RecordRoundTrip(name: string, data: ChannelRecord, target: int)
    requires WellFormed(data)
    ensures ToRecord(FromRecord(name, data, target)) == data
  {
    var c := FromRecord(name, data, target);
    assert ToRecord(c).state == StateName(c.state) == data.state;
    assert ToRecord(c).lastInput == InputName(c.lastInput) == data.lastInput;
  }

  /** A channel built from the fresh entry. */
  function Fresh(name: string, target: int): (c: Channel)
    ensures c == FromRecord(name, EmptyRecord, target)
  {
    Channel(name, 0, [], Q0, NoInput, target)
  }

  /** Input "1": records the symbol, pushes a 1, leaves q0 for q1, counts one
      more, and enters qf as soon as the count is at least the target. The
      flag tells whether the count is at least the target after this call;
      it is raised on every such call, not only on the one that enters qf. */
  function Increment(c: Channel): (r: (Channel, bool))
    ensures r.0.name == c.name && r.0.target == c.target
    ensures r.0.count == c.count + 1
    ensures |r.0.stack| == |c.stack| + 1 && r.0.stack[..|c.stack|] == c.stack && r.0.stack[|c.stack|] == 1
    ensures r.0.lastInput == One
    ensures r.1 <==> r.0.count >= c.target
    ensures r.1 ==> r.0.state == Qf
    ensures !r.1 ==> r.0.state == (if c.state == Q0 then Q1 else c.state)
    ensures r.0.state != Q0
  {
    var state := if c.state == Q0 then Q1 else c.state;
    var count := c.count + 1;
    var reached := count >= c.target;
    (c.(lastInput := One, stack := c.stack + [1], count := count, state := if reached then Qf else state), reached)
  }

  /** Input "R": whatever the channel held, it returns to the fresh
      configuration, except that the last input is now "R". */
  function Reset(c: Channel): (r: Channel)
    ensures r.name == c.name && r.target == c.target
    ensures r.count == 0 && r.stack == [] && r.state == Q0 && r.lastInput == ResetInput
    ensures r == Fresh(c.name, c.target).(lastInput := ResetInput)
  {
    c.(lastInput := ResetInput, count := 0, stack := [], state := Q0)
  }

  /** Resetting twice is resetting once. */
  lemma ResetIdempotent(c: Channel)
    ensures Reset(Reset(c)) == Reset(c)
  {
  }

  /** Reset forgets everything but the channel's name and target. */
  lemma ResetForgetsHistory(c: Channel, d: Channel)
    requires c.name == d.name && c.target == d.target
    ensures Reset(c) == Reset(d)
  {
  }

  /** The stack discipline: the count is the stack's height and every entry
      on the stack is a 1. */
  predicate StackOfOnes(c: Channel) {
    c.count == |c.stack| && forall i :: 0 <= i < |c.stack| ==> c.stack[i] == 1
  }

  /** A stack of n ones. */
  function Ones(n: nat): (s: seq<int>)
    ensures |s| == n
  {
    seq(n, _ => 1)
  }

  /** The stack discipline says exactly that the stack is count ones. */
  lemma StackOfOnesIsOnes(c: Channel)
    ensures StackOfOnes(c) <==> c.count >= 0 && c.stack == Ones(c.count)
  {
    if StackOfOnes(c) {
      assert c.stack == Ones(c.count);
    }
  }

  /** The state a channel ought to be in for a given count: q0 while nothing
      has been counted, qf from the target on, q1 in between. */
  function ExpectedState(count: int, target: int): State {
    if count == 0 then Q0 else if count >= target then Qf else Q1
  }

  /** The invariant of a channel that started fresh: the stack discipline
      holds and the state agrees with the count. In particular the state is
      never qf below the target and is q0 only at count 0. */
  predicate Consistent(c: Channel) {
    StackOfOnes(c) && c.state == ExpectedState(c.count, c.target)
  }

  /** A fresh channel satisfies the invariant. */
  lemma FreshConsistent(name: string, target: int)
    ensures Consistent(Fresh(name, target))
  {
  }

  /** Increment keeps the stack discipline, whatever the state. */
  lemma IncrementPreservesStack(c: Channel)
    requires StackOfOnes(c)
    ensures StackOfOnes(Increment(c).0)
  {
    var r := Increment(c).0;
    assert r.stack == c.stack + [1];
  }

  /** Increment keeps the invariant, and then the flag is raised exactly
      when the channel is in qf. */
  lemma IncrementPreservesConsistent(c: Channel)
    requires Consistent(c)
    ensures Consistent(Increment(c).0)
    ensures Increment(c).1 <==> Increment(c).0.state == Qf
  {
    IncrementPreservesStack(c);
  }

  /** Reset establishes the invariant from any channel. */
  lemma ResetEstablishesConsistent(c: Channel)
    ensures Consistent(Reset(c))
  {
  }

  /** The two inputs of the automaton. */
  datatype Op = Inc | Rst

  /** The channel after consuming one input. */
  function Apply(c: Channel, op: Op): (r: Channel)
    ensures r.name == c.name && r.target == c.target
    ensures r.lastInput == (if op == Inc then One else ResetInput)
  {
    match op
    case Inc => Increment(c).0
    case Rst => Reset(c)
  }

  /** What consuming one input returns: the increment's flag, and nothing
      (false) for a reset. */
  function Signal(c: Channel, op: Op): bool {
    match op
    case Inc => Increment(c).1
    case Rst => false
  }

  /** The channel after consuming a sequence of inputs, first to last. */
  function Run(c: Channel, ops: seq<Op>): (r: Channel)
    ensures r.name == c.name && r.target == c.target
    decreases |ops|
  {
    if ops == [] then c else Run(Apply(c, ops[0]), ops[1..])
  }

  /** The values returned along a sequence of inputs, one per input. */
  function Signals(c: Channel, ops: seq<Op>): (r: seq<bool>)
    ensures |r| == |ops|
    ensures forall i :: 0 <= i < |ops| && ops[i] == Rst ==> !r[i]
    decreases |ops|
  {
    if ops == [] then [] else [Signal(c, ops[0])] + Signals(Apply(c, ops[0]), ops[1..])
  }

  /** n increments in a row. */
  function Incs(n: nat): (ops: seq<Op>)
    ensures |ops| == n
  {
    seq(n, _ => Inc)
  }

  /** The invariant holds after any sequence of inputs. */
  lemma {:induction false} RunPreservesConsistent(c: Channel, ops: seq<Op>)
    requires Consistent(c)
    ensures Consistent(Run(c, ops))
    decreases |ops|
  {
    if ops != [] {
      match ops[0] {
        case Inc => IncrementPreservesConsistent(c);
        case Rst => ResetEstablishesConsistent(c);
      }
      RunPreservesConsistent(Apply(c, ops[0]), ops[1..]);
    }
  }

  /** Between resets the channel only grows, with no cap: each increment adds
      one to the count and pushes one 1 on top of the earlier stack; after at
      least one increment the state is no longer q0; and the i-th call returns
      true exactly when the count it produces is at least the target, so the
      flag is raised on every increment past the target. */
  lemma {:induction false} IncrementsOnlyGrow(c: Channel, n: nat)
    ensures Run(c, Incs(n)).count == c.count + n
    ensures Run(c, Incs(n)).stack == c.stack + Ones(n)
    ensures n > 0 ==> Run(c, Incs(n)).state != Q0 && Run(c, Incs(n)).lastInput == One
    ensures n == 0 ==> Run(c, Incs(n)) == c
    ensures forall i :: 0 <= i < n ==> (Signals(c, Incs(n))[i] <==> c.count + i + 1 >= c.target)
    decreases n
  {
    if n > 0 {
      var ops := Incs(n);
      var c' := Apply(c, Inc);
      assert ops[0] == Inc;
      assert ops[1..] == Incs(n - 1);
      IncrementsOnlyGrow(c', n - 1);
      assert c'.stack == c.stack + [1];
      assert [1] + Ones(n - 1) == Ones(n);
      assert c.stack + Ones(n) == c'.stack + Ones(n - 1);
      if n == 1 {
        assert Run(c, ops) == Run(c', []) == c';
      }
      var s := Signals(c, ops);
      assert s == [Signal(c, Inc)] + Signals(c', Incs(n - 1));
      forall i | 0 <= i < n
        ensures s[i] <==> c.count + i + 1 >= c.target
      {
        if i > 0 {
          assert s[i] == Signals(c', Incs(n - 1))[i - 1];
        }
      }
    }
  }

  /** Once an increment has returned true, every later increment before the
      next reset returns true as well. */
  lemma ReachedKeepsFiring(c: Channel, n: nat, i: nat, j: nat)
    requires i <= j < n
    requires Signals(c, Incs(n))[i]
    ensures Signals(c, Incs(n))[j]
  {
    IncrementsOnlyGrow(c, n);
  }

  /** Counting from a reset: after n increments the channel holds count n,
      a stack of n ones and the state the count calls for, and the i-th
      increment returned true exactly when i + 1 reached the target. */
  lemma CountingFromReset(c: Channel, n: nat)
    ensures Run(Reset(c), Incs(n)).count == n
    ensures Run(Reset(c), Incs(n)).stack == Ones(n)
    ensures Run(Reset(c), Incs(n)).state == ExpectedState(n, c.target)
    ensures forall i :: 0 <= i < n ==> (Signals(Reset(c), Incs(n))[i] <==> i + 1 >= c.target)
  {
    IncrementsOnlyGrow(Reset(c), n);
    ResetEstablishesConsistent(c);
    RunPreservesConsistent(Reset(c), Incs(n));
  }

  /** The number of true values in a sequence of flags. */
  function CountTrue(s: seq<bool>): (k: nat)
    ensures k <= |s|
    decreases |s|
  {
    if s == [] then 0 else (if s[0] then 1 else 0) + CountTrue(s[1..])
  }

  /** Flags that turn true at position m and stay true contain |s| - m trues. */
  lemma {:induction false} CountTrueFromThreshold(s: seq<bool>, m: int)
    requires forall i :: 0 <= i < |s| ==> (s[i] <==> i >= m)
    ensures CountTrue(s) == if m <= 0 then |s| else if m >= |s| then 0 else |s| - m
    decreases |s|
  {
    if s != [] {
      forall i | 0 <= i < |s[1..]|
        ensures s[1..][i] <==> i >= m - 1
      {
        assert s[1..][i] == s[i + 1];
      }
      CountTrueFromThreshold(s[1..], m - 1);
    }
  }

  /** The flag is not raised once per crossing: from a reset, n increments
      raise it n - target + 1 times once n reaches a positive target. */
  lemma FiresOnEveryIncrementPastTarget(c: Channel, n: nat)
    requires c.target >= 1
    ensures CountTrue(Signals(Reset(c), Incs(n))) == if n >= c.target then n - c.target + 1 else 0
  {
    CountingFromReset(c, n);
    CountTrueFromThreshold(Signals(Reset(c), Incs(n)), c.target - 1);
  }

  /** Any sequence of inputs ending in a reset leaves the same channel as a
      single reset: the history before it is discarded. */
  lemma {:induction false} ResetDiscardsHistory(c: Channel, ops: seq<Op>)
    requires ops != [] && ops[|ops| - 1] == Rst
    ensures Run(c, ops) == Reset(c)
    decreases |ops|
  {
    if |ops| == 1 {
      assert Run(c, ops) == Run(Reset(c), []);
    } else {
      var c' := Apply(c, ops[0]);
      ResetDiscardsHistory(c', ops[1..]);
      ResetForgetsHistory(c', c);
    }
  }

  /** Channel A with target 3, incremented four times from fresh: the third
      and the fourth increment both return true, and the fourth leaves count 4
      in qf with four ones on the stack. */
  lemma TargetThreeScenario()
    ensures Signals(Fresh("A", 3), Incs(4)) == [false, false, true, true]
    ensures Run(Fresh("A", 3), Incs(4)) == Channel("A", 4, [1, 1, 1, 1], Qf, One, 3)
  {
    var c := Fresh("A", 3);
    IncrementsOnlyGrow(c, 4);
    FreshConsistent("A", 3);
    RunPreservesConsistent(c, Incs(4));
    var s := Signals(c, Incs(4));
    assert !s[0] && !s[1] && s[2] && s[3];
  }
}
