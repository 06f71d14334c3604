/** The readers of one hub's terminals, which stop at the hub's high mark and
    sleep until its pending bytes drain to the low mark.

    A count change and the wake-up it may call for are two steps, as are a
    waiter's registration and its look at the count. */
module Readers {
  import opened Types
  import F = Flow

  type ReaderId = nat

  datatype Reader =
    | Starting                      // about to look whether the hub is full already
    | Ready                         // not held back: the terminal may be read
    | Checking                      // has sent on a read, about to look at the count
    | Held                          // held back, not yet registered for a wake-up
    | Registered(notified: bool)    // registered, about to look at the count
    | Asleep(notified: bool)        // saw the count above the low mark
    | Resuming                      // saw it at or below the low mark
    | Ended

  datatype State = State(pending: nat, undelivered: nat, readers: map<ReaderId, Reader>)

  const START := State(0, 0, map[])

  datatype Step =
    | Change(after: nat)            // anyone changes the counts
    | Deliver                       // a wake-up reaches the registered waiters
    | Spawn(id: ReaderId)
    | Decide(id: ReaderId)
    | ReadOutput(id: ReaderId, bytes: nat)
    | ReadNothing(id: ReaderId)     // a read of which nothing is left to send
    | ReadEnd(id: ReaderId)
    | Check(id: ReaderId)
    | Register(id: ReaderId)
    | Look(id: ReaderId)
    | Wake(id: ReaderId)
    | Cancel(id: ReaderId)          // another event of the terminal came first
    | Resume(id: ReaderId)

  predicate Is(s: State, id: ReaderId, r: Reader)
  {
    id in s.readers && s.readers[id] == r
  }

  predicate Enabled(s: State, step: Step)
  {
    match step
    case Change(_) => true
    case Deliver => s.undelivered > 0
    case Spawn(id) => id !in s.readers
    case Decide(id) => Is(s, id, Starting)
    case ReadOutput(id, n) => Is(s, id, Ready) && n > 0
    case ReadNothing(id) => Is(s, id, Ready)
    case ReadEnd(id) => Is(s, id, Ready)
    case Check(id) => Is(s, id, Checking)
    case Register(id) => Is(s, id, Held)
    case Look(id) => id in s.readers && s.readers[id].Registered?
    case Wake(id) => Is(s, id, Asleep(true))
    case Cancel(id) => id in s.readers && (s.readers[id].Registered? || s.readers[id].Asleep?)
    case Resume(id) => Is(s, id, Resuming)
  }

  function Notified(r: Reader): Reader
  {
    match r
    case Registered(_) => Registered(true)
    case Asleep(_) => Asleep(true)
    case _ => r
  }

  function Put(s: State, id: ReaderId, r: Reader): State
  {
    s.(readers := s.readers[id := r])
  }

  function Apply(m: F.Marks, s: State, step: Step): State
    requires Enabled(s, step)
  {
    match step
    case Change(after) =>
      s.(pending := after, undelivered := s.undelivered + if F.Drains(m, s.pending, after) then 1 else 0)
    case Deliver =>
      s.(undelivered := s.undelivered - 1, readers := map id | id in s.readers :: Notified(s.readers[id]))
    case Spawn(id) => Put(s, id, Starting)
    case Decide(id) => Put(s, id, if s.pending >= m.high then Held else Ready)
    case ReadOutput(id, n) => Put(s.(pending := s.pending + n), id, Checking)
    case ReadNothing(id) => s
    case ReadEnd(id) => Put(s, id, Ended)
    case Check(id) => Put(s, id, if s.pending >= m.high then Held else Ready)
    case Register(id) => Put(s, id, Registered(false))
    case Look(id) => Put(s, id, if s.pending <= m.low then Resuming else Asleep(s.readers[id].notified))
    case Wake(id) => Put(s, id, Held)
    case Cancel(id) => Put(s, id, Held)
    case Resume(id) => Put(s, id, Ready)
  }

  ghost predicate Run(m: F.Marks, states: seq<State>, steps: seq<Step>)
  {
    |states| == |steps| + 1 && states[0] == START &&
    forall i :: 0 <= i < |steps| ==> Enabled(states[i], steps[i]) && states[i + 1] == Apply(m, states[i], steps[i])
  }

  // ----- No lost wake-up -----

  /** A reader asleep and not notified has something left to wait for, or a
      wake-up on its way. */
  ghost predicate NoneForgotten(m: F.Marks, s: State)
  {
    forall id :: id in s.readers && s.readers[id] == Asleep(false) ==> s.pending > m.low || s.undelivered > 0
  }

  lemma StepForgetsNone(m: F.Marks, s: State, step: Step)
    requires NoneForgotten(m, s) && Enabled(s, step)
    ensures NoneForgotten(m, Apply(m, s, step))
  {
  }

  /** In every interleaving, a reader asleep while the pending bytes are at or
      below the low mark was notified already, or will be. */
  lemma {:induction false} NoLostWakeup(m: F.Marks, states: seq<State>, steps: seq<Step>, n: nat, id: ReaderId)
    requires Run(m, states, steps) && n <= |steps|
    requires id in states[n].readers && states[n].readers[id].Asleep? && states[n].pending <= m.low
    ensures states[n].readers[id].notified || states[n].undelivered > 0
  {
    RunForgetsNone(m, states, steps, n);
  }

  lemma {:induction false} RunForgetsNone(m: F.Marks, states: seq<State>, steps: seq<Step>, n: nat)
    requires Run(m, states, steps) && n <= |steps|
    ensures NoneForgotten(m, states[n])
  {
    if n > 0 {
      RunForgetsNone(m, states, steps, n - 1);
      StepForgetsNone(m, states[n - 1], steps[n - 1]);
      assert states[n - 1 + 1] == Apply(m, states[n - 1], steps[n - 1]);
    }
  }

  /** Delivering a wake-up lets every sleeping reader go on. */
  lemma DeliveryReachesAll(m: F.Marks, s: State, id: ReaderId)
    requires s.undelivered > 0 && id in s.readers && s.readers[id].Asleep?
    ensures Enabled(Apply(m, s, Deliver), Wake(id))
  {
  }

  // ----- Hold-back -----

  /** The terminal cannot be read before its reader looks at the count again. */
  predicate Waits(s: State, id: ReaderId)
  {
    id in s.readers ==> !s.readers[id].Ready? && !s.readers[id].Resuming?
  }

  predicate Reads(step: Step, id: ReaderId)
  {
    (step.ReadOutput? || step.ReadNothing? || step.ReadEnd?) && step.id == id
  }

  /** The hub is full in every state from `a` to `b`. */
  ghost predicate FullThroughout(m: F.Marks, states: seq<State>, a: nat, b: nat)
    requires a <= b < |states|
  {
    forall i :: a <= i <= b ==> states[i].pending >= m.high
  }

  lemma WaitingGoesOn(m: F.Marks, s: State, step: Step, id: ReaderId)
    requires Enabled(s, step) && m.low < m.high <= s.pending && Waits(s, id)
    ensures !Reads(step, id) && Waits(Apply(m, s, step), id)
  {
  }

  /** While the hub stays full, a reader that waits goes on waiting. */
  lemma {:induction false} WaitsThroughout(m: F.Marks, states: seq<State>, steps: seq<Step>, a: nat, b: nat, id: ReaderId)
    requires Run(m, states, steps) && a <= b <= |steps| && m.low < m.high
    requires FullThroughout(m, states, a, b) && Waits(states[a], id)
    ensures Waits(states[b], id)
    ensures forall i :: a <= i < b ==> !Reads(steps[i], id)
    decreases b
  {
    if a < b {
      WaitsThroughout(m, states, steps, a, b - 1, id);
      WaitingGoesOn(m, states[b - 1], steps[b - 1], id);
      assert states[b - 1 + 1] == Apply(m, states[b - 1], steps[b - 1]);
    }
  }

  /** Hold-back is prompt: while the hub stays full a terminal is read at most
      once for output.  Of any two reads of it, the earlier gave nothing. */
  lemma HoldBackIsPrompt(
    m: F.Marks, states: seq<State>, steps: seq<Step>, a: nat, b: nat, id: ReaderId, i: nat, j: nat)
    requires Run(m, states, steps) && a <= b <= |steps| && m.low < m.high && FullThroughout(m, states, a, b)
    requires a <= i < j < b && Reads(steps[i], id) && Reads(steps[j], id)
    ensures steps[i].ReadNothing?
  {
    if !steps[i].ReadNothing? {
      assert states[i + 1] == Apply(m, states[i], steps[i]);
      WaitsThroughout(m, states, steps, i + 1, b, id);
    }
  }

  /** A terminal spawned while the hub is full is not read at all. */
  lemma SpawnedIsNotRead(m: F.Marks, states: seq<State>, steps: seq<Step>, a: nat, b: nat, id: ReaderId, i: nat)
    requires Run(m, states, steps) && a <= b <= |steps| && m.low < m.high && FullThroughout(m, states, a, b)
    requires id !in states[a].readers && a <= i < b
    ensures !Reads(steps[i], id)
  {
    WaitsThroughout(m, states, steps, a, b, id);
  }

  predicate IsHeld(s: State, id: ReaderId)
  {
    id in s.readers && (s.readers[id].Held? || s.readers[id].Registered? || s.readers[id].Asleep?)
  }

  /** A held reader is read again only after the pending bytes were seen at or
      below the low mark. */
  lemma {:induction false} ResumesOnlyBelowLow(
    m: F.Marks, states: seq<State>, steps: seq<Step>, a: nat, b: nat, id: ReaderId)
    requires Run(m, states, steps) && a <= b <= |steps|
    requires IsHeld(states[a], id) && !IsHeld(states[b], id)
    ensures exists k :: a <= k < b && steps[k] == Look(id) && states[k].pending <= m.low
    decreases b
  {
    assert a < b;
    assert states[b - 1 + 1] == Apply(m, states[b - 1], steps[b - 1]);
    if IsHeld(states[b - 1], id) {
      assert steps[b - 1] == Look(id);
    } else {
      ResumesOnlyBelowLow(m, states, steps, a, b - 1, id);
    }
  }

  /** A reader is held back only where the pending bytes were seen at or above
      the high mark, by the reader itself, and not resumed since. */
  lemma {:induction false} HeldOnlyWhenFull(m: F.Marks, states: seq<State>, steps: seq<Step>, n: nat, id: ReaderId)
    requires Run(m, states, steps) && n <= |steps| && IsHeld(states[n], id)
    ensures exists k :: 0 <= k < n && (steps[k] == Decide(id) || steps[k] == Check(id)) && states[k].pending >= m.high &&
              forall i :: k < i <= n ==> IsHeld(states[i], id)
  {
    assert n > 0;
    assert states[n - 1 + 1] == Apply(m, states[n - 1], steps[n - 1]);
    if IsHeld(states[n - 1], id) {
      HeldOnlyWhenFull(m, states, steps, n - 1, id);
    }
  }

  /** A terminal below the high mark is read on: after each look at the count its
      reader is ready exactly if the hub is not full. */
  lemma ReadsOnBelowHigh(m: F.Marks, s: State, id: ReaderId)
    requires Is(s, id, Starting) || Is(s, id, Checking)
    ensures var step := if Is(s, id, Starting) then Decide(id) else Check(id);
            Enabled(s, step) && (Is(Apply(m, s, step), id, Ready) <==> s.pending < m.high)
  {
  }

  /** A reader woken at or below the low mark goes on to read. */
  lemma WokenReadsOn(m: F.Marks, s: State, id: ReaderId)
    requires Is(s, id, Asleep(true)) && s.pending <= m.low
    ensures Enabled(s, Wake(id))
    ensures var held := Apply(m, s, Wake(id));
            Enabled(held, Register(id)) &&
            var registered := Apply(m, held, Register(id));
            Enabled(registered, Look(id)) &&
            var resuming := Apply(m, registered, Look(id));
            Enabled(resuming, Resume(id)) && Is(Apply(m, resuming, Resume(id)), id, Ready)
  {
  }

  // ----- Reads that give nothing escape the hold-back -----

  ghost function Fill(m: F.Marks, k: nat): (seq<State>, seq<Step>)
  {
    var s1 := State(0, 0, map[0 := Starting]);
    var s2 := State(0, 0, map[0 := Ready]);
    var s3 := State(m.high, 0, map[0 := Ready]);
    ([START, s1, s2] + seq(k + 1, _ => s3), [Spawn(0), Decide(0), Change(m.high)] + seq(k, _ => ReadNothing(0)))
  }

  /** Reads of which nothing is left to send are not followed by a look at the
      count: a terminal can give any number of them while its hub stays full. */
  lemma NothingIsNeverHeldBack(m: F.Marks, k: nat)
    requires m.high > 0
    ensures var (states, steps) := Fill(m, k);
            Run(m, states, steps) && FullThroughout(m, states, 3, 3 + k) &&
            |steps| == 3 + k && forall i :: 3 <= i < 3 + k ==> Reads(steps[i], 0)
  {
    var (states, steps) := Fill(m, k);
    var s0 := START;
    assert Apply(m, s0, Spawn(0)).readers == map[0 := Starting];
    assert Apply(m, states[1], Decide(0)).readers == map[0 := Ready];
    forall i | 0 <= i < |steps| ensures Enabled(states[i], steps[i]) && states[i + 1] == Apply(m, states[i], steps[i]) {
    }
  }
}
