/** The inputs the controller observes and the polling waits that resolve
    them into an operator decision. */
module Polling {
  import opened Modes

  /** One observation, in the order it happens:
      - Poll: one iteration of a polling loop, reading the record button
        and the direction switch;
      - Chunk: the audio callback delivering a block of samples;
      - ExitPress: the exit button's callback running to completion. */
  datatype Input = Poll(held: bool, switchValue: int) | Chunk(samples: seq<int>) | ExitPress

  /** How a wait ends. Unresolved means the observations ran out while
      still waiting (the device itself would go on polling). */
  datatype Decision = Pressed | Released | Switched(dir: Direction) | Exit | Unresolved

  /** A decision and the position of the first input not consumed. */
  datatype WaitEnd = WaitEnd(decision: Decision, next: nat)

  /** An input that does not end a wait which stops when the button is at
      level `stopHeld` and watches for a switch away from `last`. */
  predicate Quiet(i: Input, last: Direction, stopHeld: bool)
  {
    i.Chunk? || (i.Poll? && i.held != stopHeld && DirectionOf(i.switchValue) == last)
  }

  /** The one waiting primitive behind every waiting phase. It consumes
      inputs from `pos` on, with the exit flag `exit` as it stands. A set
      exit flag takes precedence over the button, and the button over the
      switch. With `stopHeld` it waits for a press (idle and playback
      decision); without, for a release (recording). */
  function Await(ins: seq<Input>, pos: nat, exit: bool, last: Direction, stopHeld: bool): (w: WaitEnd)
    requires pos <= |ins|
    ensures pos <= w.next <= |ins|
    ensures w.decision == Unresolved ==> w.next == |ins|
    ensures w.decision.Switched? ==> w.decision.dir != last
    ensures !exit ==> w.decision == Unresolved || pos < w.next
    ensures stopHeld ==> w.decision != Released
    ensures !stopHeld ==> w.decision != Pressed
    decreases |ins| - pos
  {
    if exit then WaitEnd(Exit, pos)
    else if pos == |ins| then WaitEnd(Unresolved, pos)
    else match ins[pos]
      case ExitPress => Await(ins, pos + 1, true, last, stopHeld)
      case Chunk(_) => Await(ins, pos + 1, false, last, stopHeld)
      case Poll(held, v) =>
        if held == stopHeld then WaitEnd(if stopHeld then Pressed else Released, pos + 1)
        else if DirectionOf(v) != last then WaitEnd(Switched(DirectionOf(v)), pos + 1)
        else Await(ins, pos + 1, false, last, stopHeld)
  }

  /** A wait reports Exit exactly when the flag was already set, or when
      the last input it consumed was an exit press. */
  lemma {:induction false} AwaitExit(ins: seq<Input>, pos: nat, exit: bool, last: Direction, stopHeld: bool)
    requires pos <= |ins|
    ensures var w := Await(ins, pos, exit, last, stopHeld);
      w.decision == Exit <==> exit || (pos < w.next && ins[w.next - 1] == ExitPress)
    ensures exit ==> Await(ins, pos, exit, last, stopHeld) == WaitEnd(Exit, pos)
    decreases |ins| - pos
  {
    if !exit && pos < |ins| {
      match ins[pos]
      case ExitPress => AwaitExit(ins, pos + 1, true, last, stopHeld);
      case Chunk(_) => AwaitExit(ins, pos + 1, false, last, stopHeld);
      case Poll(held, v) =>
        if held != stopHeld && DirectionOf(v) == last {
          AwaitExit(ins, pos + 1, false, last, stopHeld);
        }
    }
  }

  /** Every other decision is taken on the last poll consumed and only
      while the exit flag is clear: a press (or release) on the awaited
      button level, or a switch reading that differs from `last`, with
      the button still away from the awaited level. */
  lemma {:induction false} AwaitDecidedByLastPoll(ins: seq<Input>, pos: nat, exit: bool, last: Direction, stopHeld: bool)
    requires pos <= |ins|
    ensures var w := Await(ins, pos, exit, last, stopHeld);
      (w.decision == Pressed || w.decision == Released || w.decision.Switched?) ==>
        && !exit && pos < w.next
        && ins[w.next - 1].Poll?
        && (w.decision == Pressed ==> stopHeld && ins[w.next - 1].held)
        && (w.decision == Released ==> !stopHeld && !ins[w.next - 1].held)
        && (w.decision.Switched? ==>
              && ins[w.next - 1].held != stopHeld
              && w.decision.dir == DirectionOf(ins[w.next - 1].switchValue)
              && w.decision.dir != last)
    decreases |ins| - pos
  {
    if !exit && pos < |ins| {
      match ins[pos]
      case ExitPress => AwaitExit(ins, pos + 1, true, last, stopHeld);
      case Chunk(_) => AwaitDecidedByLastPoll(ins, pos + 1, false, last, stopHeld);
      case Poll(held, v) =>
        if held != stopHeld && DirectionOf(v) == last {
          AwaitDecidedByLastPoll(ins, pos + 1, false, last, stopHeld);
        }
    }
  }

  /** Nothing before the deciding input could have ended the wait, and a
      wait that ran out of inputs saw only quiet ones. */
  lemma {:induction false} AwaitQuietBefore(ins: seq<Input>, pos: nat, exit: bool, last: Direction, stopHeld: bool)
    requires pos <= |ins|
    ensures var w := Await(ins, pos, exit, last, stopHeld);
      && (!exit ==> forall j :: pos <= j < w.next - 1 ==> Quiet(ins[j], last, stopHeld))
      && (w.decision == Unresolved <==>
            !exit && w.next == |ins| && forall j :: pos <= j < |ins| ==> Quiet(ins[j], last, stopHeld))
    decreases |ins| - pos
  {
    if !exit && pos < |ins| {
      match ins[pos]
      case ExitPress =>
      case Chunk(_) => AwaitQuietBefore(ins, pos + 1, false, last, stopHeld);
      case Poll(held, v) =>
        if held != stopHeld && DirectionOf(v) == last {
          AwaitQuietBefore(ins, pos + 1, false, last, stopHeld);
        }
    }
  }

  /** The sample blocks delivered by the inputs at positions `from` to
      `to - 1`, in arrival order; each is the samples of one delivery. */
  function ChunksIn(ins: seq<Input>, from: nat, to: nat): (cs: seq<seq<int>>)
    requires from <= to <= |ins|
    ensures forall b :: b in cs ==> exists j :: from <= j < to && ins[j] == Chunk(b)
  {
    if to == from then []
    else if ins[to - 1].Chunk? then
      assert ins[to - 1] == Chunk(ins[to - 1].samples);
      ChunksIn(ins, from, to - 1) + [ins[to - 1].samples]
    else ChunksIn(ins, from, to - 1)
  }

  /** The blocks of two adjacent stretches of input are those of the first
      followed by those of the second: arrival order is kept. */
  lemma {:induction false} ChunksInSplit(ins: seq<Input>, a: nat, b: nat, c: nat)
    requires a <= b <= c <= |ins|
    ensures ChunksIn(ins, a, c) == ChunksIn(ins, a, b) + ChunksIn(ins, b, c)
  {
    if c > b {
      ChunksInSplit(ins, a, b, c - 1);
    }
  }

  /** A stretch of input yields no block exactly when it holds no delivery. */
  lemma {:induction false} ChunksInEmpty(ins: seq<Input>, from: nat, to: nat)
    requires from <= to <= |ins|
    ensures ChunksIn(ins, from, to) == [] <==> (forall j :: from <= j < to ==> !ins[j].Chunk?)
  {
    if to > from {
      ChunksInEmpty(ins, from, to - 1);
    }
  }

  /** The end of the run of deliveries starting at `from`: the blocks
      still in flight when a recording wait ends, up to the first input
      that is not a delivery. */
  function LateEnd(ins: seq<Input>, from: nat): (to: nat)
    requires from <= |ins|
    ensures from <= to <= |ins|
    ensures forall j :: from <= j < to ==> ins[j].Chunk?
    ensures to == |ins| || !ins[to].Chunk?
    decreases |ins| - from
  {
    if from < |ins| && ins[from].Chunk? then LateEnd(ins, from + 1) else from
  }

  /** Blocks in flight do not change how a following wait ends. */
  lemma {:induction false} AwaitSkipsLate(ins: seq<Input>, from: nat, last: Direction, stopHeld: bool)
    requires from <= |ins|
    ensures Await(ins, from, false, last, stopHeld) == Await(ins, LateEnd(ins, from), false, last, stopHeld)
    decreases |ins| - from
  {
    if from < |ins| && ins[from].Chunk? {
      AwaitSkipsLate(ins, from + 1, last, stopHeld);
    }
  }
}
