/** A terminal's input queue and the writer that takes it to the PTY, as
    concurrent steps: offers under the queue's lock, and a writer that takes an
    input, writes it chunk by chunk and counts each chunk out. */
module Input {
  import opened Types

  const WRITE_CHUNK: nat := 4096

  datatype Offer = Queued | Overflowed | Dropped | Closed

  /** What the lock protects. */
  datatype Counts = Counts(queued: nat, dropping: bool, closed: bool)

  const NO_COUNTS := Counts(0, false, false)

  /** The answer to an offer of `len` bytes and the counts it leaves; `alive` is
      whether the writer still receives. */
  function Answer(k: Counts, bound: nat, len: nat, alive: bool): (Offer, Counts)
  {
    if k.closed then (Closed, k)
    else if k.dropping && k.queued > 0 then (Dropped, k)
    else if k.queued + len > bound then (Overflowed, k.(dropping := true))
    else if !alive then (Closed, k.(dropping := false, closed := true))
    else (Queued, k.(dropping := false, queued := k.queued + len))
  }

  datatype Writer =
    | Waiting
    /** `at` bytes of `data` written, all counted out. */
    | Writing(data: Bytes, at: nat)
    /** A chunk of `chunk` bytes written at `at` and not yet counted out. */
    | Counting(data: Bytes, at: nat, chunk: nat)
    /** The PTY refused a chunk. */
    | Failing
    | Gone

  datatype State = State(
    counts: Counts,
    inbox: seq<Bytes>,          // sent to the writer, not yet taken
    writer: Writer,
    written: Bytes,             // what the PTY took
    accepted: seq<Bytes>)       // every input answered Queued, in order

  const START := State(NO_COUNTS, [], Waiting, [], [])

  datatype Step =
    | Offers(data: Bytes)
    | Receive
    | WriteChunk
    | CountChunk
    | NextInput
    | Refuse(took: nat)         // the PTY took `took` bytes of a chunk, then failed
    | Close
    | Abandon                   // the writer task ends without closing the queue

  function ChunkLen(data: Bytes, at: nat): nat
    requires at <= |data|
  {
    if |data| - at < WRITE_CHUNK then |data| - at else WRITE_CHUNK
  }

  predicate Enabled(s: State, step: Step)
  {
    match step
    case Offers(_) => true
    case Receive => s.writer.Waiting? && s.inbox != []
    case WriteChunk => s.writer.Writing? && s.writer.at < |s.writer.data|
    case CountChunk => s.writer.Counting?
    case NextInput => s.writer.Writing? && s.writer.at >= |s.writer.data|
    case Refuse(took) => s.writer.Writing? && s.writer.at < |s.writer.data| && took <= ChunkLen(s.writer.data, s.writer.at)
    case Close => s.writer.Failing?
    case Abandon => !s.writer.Gone?
  }

  function Apply(bound: nat, s: State, step: Step): State
    requires Enabled(s, step)
  {
    match step
    case Offers(data) =>
      var (answer, counts) := Answer(s.counts, bound, |data|, !s.writer.Gone?);
      if answer.Queued? then s.(counts := counts, inbox := s.inbox + [data], accepted := s.accepted + [data])
      else s.(counts := counts)
    case Receive => s.(writer := Writing(s.inbox[0], 0), inbox := s.inbox[1..])
    case WriteChunk =>
      var w := s.writer;
      var n := ChunkLen(w.data, w.at);
      s.(written := s.written + w.data[w.at..w.at + n], writer := Counting(w.data, w.at, n))
    case CountChunk =>
      var w := s.writer;
      s.(counts := s.counts.(queued := SaturatingSub(s.counts.queued, w.chunk)), writer := Writing(w.data, w.at + w.chunk))
    case NextInput => s.(writer := Waiting)
    case Refuse(took) =>
      var w := s.writer;
      s.(written := s.written + w.data[w.at..w.at + took], writer := Failing)
    case Close => s.(counts := s.counts.(queued := 0, closed := true), writer := Gone)
    case Abandon => s.(writer := Gone)
  }

  // ----- The invariant -----

  /** What the writer has in hand and not yet written. */
  function InHand(w: Writer): Bytes
  {
    match w
    case Writing(data, at) => if at <= |data| then data[at..] else []
    case Counting(data, at, n) => if at + n <= |data| then data[at + n..] else []
    case _ => []
  }

  predicate WriterOk(w: Writer)
  {
    match w
    case Writing(data, at) => at <= |data|
    case Counting(data, at, n) => at + n <= |data|
    case _ => true
  }

  predicate Running(w: Writer) { w.Waiting? || w.Writing? || w.Counting? }

  function Uncounted(w: Writer): nat
  {
    if w.Counting? then w.chunk else 0
  }

  ghost predicate Inv(bound: nat, s: State)
  {
    WriterOk(s.writer) && s.counts.queued <= bound &&
    s.written <= Flatten(s.accepted) &&
    (Running(s.writer) ==>
       s.written + InHand(s.writer) + Flatten(s.inbox) == Flatten(s.accepted) && !s.counts.closed &&
       s.counts.queued == |InHand(s.writer)| + |Flatten(s.inbox)| + Uncounted(s.writer)) &&
    (s.writer.Failing? ==> s.counts.queued > 0) &&
    (s.counts.closed ==> s.writer.Gone?)
  }

  lemma {:induction false} FlattenCons(s: Bytes, ss: seq<Bytes>)
    ensures Flatten([s] + ss) == s + Flatten(ss)
  {
    FlattenConcat([s], ss);
    assert [s] == [] + [s];
    FlattenSnoc([], s);
    assert Flatten<Byte>([]) == [];
  }

  lemma OfferKeeps(bound: nat, s: State, data: Bytes)
    requires Inv(bound, s)
    ensures Inv(bound, Apply(bound, s, Offers(data)))
  {
    FlattenSnoc(s.inbox, data);
    FlattenSnoc(s.accepted, data);
    var t := Apply(bound, s, Offers(data));
    if t.accepted != s.accepted {
      assert s.written <= Flatten(s.accepted) + data;
      if Running(s.writer) {
        assert s.written + InHand(s.writer) + (Flatten(s.inbox) + data) ==
               (s.written + InHand(s.writer) + Flatten(s.inbox)) + data;
      }
    }
  }

  lemma ReceiveKeeps(bound: nat, s: State)
    requires Inv(bound, s) && Enabled(s, Receive)
    ensures Inv(bound, Apply(bound, s, Receive))
  {
    assert s.inbox == [s.inbox[0]] + s.inbox[1..];
    FlattenCons(s.inbox[0], s.inbox[1..]);
    assert s.written + [] == s.written;
    assert s.inbox[0][0..] == s.inbox[0];
    assert s.written + (s.inbox[0] + Flatten(s.inbox[1..])) == s.written + s.inbox[0] + Flatten(s.inbox[1..]);
  }

  lemma WriteKeeps(bound: nat, s: State)
    requires Inv(bound, s) && Enabled(s, WriteChunk)
    ensures Inv(bound, Apply(bound, s, WriteChunk))
  {
    var w := s.writer;
    var n := ChunkLen(w.data, w.at);
    assert w.data[w.at..] == w.data[w.at..w.at + n] + w.data[w.at + n..];
    var t := Apply(bound, s, WriteChunk);
    assert t.written + InHand(t.writer) == s.written + InHand(s.writer);
  }

  lemma RefuseKeeps(bound: nat, s: State, took: nat)
    requires Inv(bound, s) && Enabled(s, Refuse(took))
    ensures Inv(bound, Apply(bound, s, Refuse(took)))
  {
    var w := s.writer;
    assert w.data[w.at..] == w.data[w.at..w.at + took] + w.data[w.at + took..];
    var rest := w.data[w.at + took..] + Flatten(s.inbox);
    assert (s.written + w.data[w.at..w.at + took]) + rest == s.written + InHand(w) + Flatten(s.inbox);
  }

  lemma StepKeepsInv(bound: nat, s: State, step: Step)
    requires Inv(bound, s) && Enabled(s, step)
    ensures Inv(bound, Apply(bound, s, step))
  {
    match step
    case Offers(data) => OfferKeeps(bound, s, data);
    case Receive => ReceiveKeeps(bound, s);
    case WriteChunk => WriteKeeps(bound, s);
    case Refuse(took) => RefuseKeeps(bound, s, took);
    case _ =>
  }

  ghost predicate Run(bound: nat, states: seq<State>, steps: seq<Step>)
  {
    |states| == |steps| + 1 && states[0] == START &&
    forall i :: 0 <= i < |steps| ==> Enabled(states[i], steps[i]) && states[i + 1] == Apply(bound, states[i], steps[i])
  }

  lemma {:induction false} RunInv(bound: nat, states: seq<State>, steps: seq<Step>, n: nat)
    requires Run(bound, states, steps) && n <= |steps|
    ensures Inv(bound, states[n])
  {
    if n > 0 {
      RunInv(bound, states, steps, n - 1);
      StepKeepsInv(bound, states[n - 1], steps[n - 1]);
      assert states[n - 1 + 1] == Apply(bound, states[n - 1], steps[n - 1]);
    } else {
      assert Flatten<Byte>([]) == [];
    }
  }

  // ----- What a terminal's input promises -----

  /** In every interleaving the PTY takes a prefix of the accepted inputs, and
      what is queued never exceeds the bound. */
  lemma WholeInputsInOrder(bound: nat, states: seq<State>, steps: seq<Step>, n: nat)
    requires Run(bound, states, steps) && n <= |steps|
    ensures states[n].written <= Flatten(states[n].accepted)
    ensures states[n].counts.queued <= bound
  {
    RunInv(bound, states, steps, n);
  }

  function AnswerAt(bound: nat, s: State, step: Step): Option<Offer>
  {
    if step.Offers? then Some(Answer(s.counts, bound, |step.data|, !s.writer.Gone?).0) else None
  }

  /** Nothing is clipped when a chunk is counted out, and the count is what the
      terminal has not taken. */
  lemma CountIsExact(bound: nat, states: seq<State>, steps: seq<Step>, n: nat)
    requires Run(bound, states, steps) && n <= |steps| && Running(states[n].writer)
    ensures var s := states[n];
            s.counts.queued == |Flatten(s.accepted)| - |s.written| + Uncounted(s.writer)
  {
    RunInv(bound, states, steps, n);
  }

  lemma DroppingUntilEmpty(bound: nat, s: State, step: Step)
    requires Enabled(s, step) && s.counts.dropping && s.counts.queued > 0
    ensures Apply(bound, s, step).counts.dropping
    ensures AnswerAt(bound, s, step) != Some(Overflowed) && AnswerAt(bound, s, step) != Some(Queued)
  {
  }

  lemma {:induction false} StillDropping(bound: nat, states: seq<State>, steps: seq<Step>, i: nat, j: nat)
    requires Run(bound, states, steps) && i < j <= |steps|
    requires states[i + 1].counts.dropping
    requires forall k :: i < k < j ==> states[k].counts.queued > 0
    ensures states[j].counts.dropping
    decreases j
  {
    if i + 1 < j {
      StillDropping(bound, states, steps, i, j - 1);
      DroppingUntilEmpty(bound, states[j - 1], steps[j - 1]);
      assert states[j - 1 + 1] == Apply(bound, states[j - 1], steps[j - 1]);
    }
  }

  /** Nothing accepted or written before is taken back. */
  ghost predicate Grows(s: State, t: State)
  {
    Flatten(s.accepted) <= Flatten(t.accepted) && s.written <= t.written
  }

  lemma GrowsOn(s: State, t: State, u: State)
    requires Grows(s, t) && Grows(t, u)
    ensures Grows(s, u)
  {
  }

  lemma StepGrows(bound: nat, s: State, step: Step)
    requires Enabled(s, step)
    ensures Grows(s, Apply(bound, s, step))
  {
    if step.Offers? { FlattenSnoc(s.accepted, step.data); }
  }

  lemma NextGrows(bound: nat, states: seq<State>, steps: seq<Step>, n: nat)
    requires Run(bound, states, steps) && n < |steps|
    ensures Grows(states[n], states[n + 1])
  {
    StepGrows(bound, states[n], steps[n]);
  }

  lemma {:induction false} AllGrow(states: seq<State>, i: nat, j: nat)
    requires i <= j < |states| && forall n :: i <= n < j ==> Grows(states[n], states[n + 1])
    ensures Grows(states[i], states[j])
    decreases j
  {
    if i < j {
      AllGrow(states, i, j - 1);
      assert Grows(states[j - 1], states[j - 1 + 1]);
      GrowsOn(states[i], states[j - 1], states[j]);
    }
  }

  lemma OnlyGrows(bound: nat, states: seq<State>, steps: seq<Step>, i: nat, j: nat)
    requires Run(bound, states, steps) && i <= j <= |steps|
    ensures Grows(states[i], states[j])
  {
    forall n | i <= n < j ensures Grows(states[n], states[n + 1]) { NextGrows(bound, states, steps, n); }
    AllGrow(states, i, j);
  }

  /** Where the terminal took everything queued, it has taken everything accepted. */
  lemma EmptyMeansTaken(bound: nat, s: State)
    requires Inv(bound, s) && s.counts.queued == 0 && !s.writer.Gone?
    ensures s.written == Flatten(s.accepted)
  {
  }

  predicate Drops(a: Option<Offer>) { a == Some(Overflowed) || a == Some(Dropped) }

  /** One gap at a time: an input accepted after a drop is accepted only once
      the terminal took everything accepted before the drop. */
  lemma OneGap(bound: nat, states: seq<State>, steps: seq<Step>, i: nat, n: nat)
    requires Run(bound, states, steps) && i < n < |steps|
    requires Drops(AnswerAt(bound, states[i], steps[i])) && AnswerAt(bound, states[n], steps[n]) == Some(Queued)
    ensures Flatten(states[i].accepted) <= states[n].written
  {
    assert states[i + 1] == Apply(bound, states[i], steps[i]);
    if forall k :: i < k < n ==> states[k].counts.queued > 0 {
      StillDropping(bound, states, steps, i, n);
      TakenBy(bound, states, steps, i, n, n);
    } else {
      var k :| i < k < n && states[k].counts.queued == 0;
      TakenBy(bound, states, steps, i, k, n);
    }
  }

  /** Whatever was accepted before a point where nothing is queued is taken by then. */
  lemma TakenBy(bound: nat, states: seq<State>, steps: seq<Step>, i: nat, k: nat, n: nat)
    requires Run(bound, states, steps) && i <= k <= n < |steps| && states[k].counts.queued == 0
    requires AnswerAt(bound, states[n], steps[n]) == Some(Queued)
    ensures Flatten(states[i].accepted) <= states[n].written
  {
    GoneStays(bound, states, steps, k, n);
    RunInv(bound, states, steps, k);
    EmptyMeansTaken(bound, states[k]);
    OnlyGrows(bound, states, steps, i, k);
    OnlyGrows(bound, states, steps, k, n);
  }

  lemma {:induction false} GoneStays(bound: nat, states: seq<State>, steps: seq<Step>, k: nat, n: nat)
    requires Run(bound, states, steps) && k <= n <= |steps|
    ensures states[k].writer.Gone? ==> states[n].writer.Gone?
    decreases n
  {
    if k < n {
      GoneStays(bound, states, steps, k, n - 1);
      assert states[n - 1 + 1] == Apply(bound, states[n - 1], steps[n - 1]);
    }
  }

  /** The hub is told once per gap: between two Overflowed answers the terminal
      had taken everything queued. */
  lemma OncePerGap(bound: nat, states: seq<State>, steps: seq<Step>, i: nat, j: nat)
    requires Run(bound, states, steps) && i < j < |steps|
    requires AnswerAt(bound, states[i], steps[i]) == Some(Overflowed)
    requires AnswerAt(bound, states[j], steps[j]) == Some(Overflowed)
    ensures exists k :: i < k <= j && states[k].counts.queued == 0
  {
    assert states[i + 1] == Apply(bound, states[i], steps[i]);
    if forall k :: i < k <= j ==> states[k].counts.queued > 0 {
      StillDropping(bound, states, steps, i, j);
      DroppingUntilEmpty(bound, states[j], steps[j]);
    }
  }

  lemma ClosedStays(bound: nat, s: State, step: Step)
    requires Enabled(s, step) && s.counts.closed
    ensures Apply(bound, s, step).counts.closed
    ensures step.Offers? ==> AnswerAt(bound, s, step) == Some(Closed)
  {
  }

  /** Once an offer is answered Closed, every later one is. */
  lemma {:induction false} ClosedIsFinal(bound: nat, states: seq<State>, steps: seq<Step>, i: nat, j: nat)
    requires Run(bound, states, steps) && i < j <= |steps|
    requires AnswerAt(bound, states[i], steps[i]) == Some(Closed)
    ensures states[j].counts.closed
    ensures j < |steps| && steps[j].Offers? ==> AnswerAt(bound, states[j], steps[j]) == Some(Closed)
    decreases j
  {
    assert states[j - 1 + 1] == Apply(bound, states[j - 1], steps[j - 1]);
    if i + 1 < j {
      ClosedIsFinal(bound, states, steps, i, j - 1);
      ClosedStays(bound, states[j - 1], steps[j - 1]);
    }
  }

  // ----- Exactly when an input is accepted -----

  /** Bytes accepted that the terminal has not taken, with the chunk it took and
      the writer has not counted out. */
  ghost function Left(s: State): int
  {
    |Flatten(s.accepted)| - |s.written| + Uncounted(s.writer)
  }

  /** An input was dropped before step `n`, and something has been left of what
      was accepted ever since. */
  ghost predicate InGap(bound: nat, states: seq<State>, steps: seq<Step>, n: nat)
    requires |states| == |steps| + 1 && n <= |steps|
  {
    exists i :: 0 <= i < n && Drops(AnswerAt(bound, states[i], steps[i])) && NeverEmpty(states, i, n)
  }

  ghost predicate NeverEmpty(states: seq<State>, i: nat, n: nat)
    requires i <= n < |states|
  {
    forall k :: i < k <= n ==> Left(states[k]) > 0
  }

  lemma LeftIsQueued(bound: nat, states: seq<State>, steps: seq<Step>, n: nat)
    requires Run(bound, states, steps) && n <= |steps| && Running(states[n].writer)
    ensures Left(states[n]) == states[n].counts.queued && !states[n].counts.closed
  {
    RunInv(bound, states, steps, n);
  }

  /** The writer still runs at any point before one where it runs. */
  lemma {:induction false} RanBefore(bound: nat, states: seq<State>, steps: seq<Step>, k: nat, n: nat)
    requires Run(bound, states, steps) && k <= n <= |steps| && Running(states[n].writer)
    ensures Running(states[k].writer)
    decreases n
  {
    if k < n {
      assert states[n - 1 + 1] == Apply(bound, states[n - 1], steps[n - 1]);
      RanBefore(bound, states, steps, k, n - 1);
    }
  }

  lemma QueuedThroughout(bound: nat, states: seq<State>, steps: seq<Step>, i: nat, n: nat)
    requires Run(bound, states, steps) && i <= n <= |steps| && Running(states[n].writer)
    ensures NeverEmpty(states, i, n) <==> forall k :: i < k <= n ==> states[k].counts.queued > 0
  {
    forall k | i < k <= n ensures Left(states[k]) == states[k].counts.queued {
      RanBefore(bound, states, steps, k, n);
      LeftIsQueued(bound, states, steps, k);
    }
  }

  /** Where something is queued, everything is being dropped exactly in a gap. */
  lemma {:induction false} DroppingIsGap(bound: nat, states: seq<State>, steps: seq<Step>, n: nat)
    requires Run(bound, states, steps) && n <= |steps| && Running(states[n].writer)
    ensures states[n].counts.dropping && states[n].counts.queued > 0 <==> InGap(bound, states, steps, n)
  {
    if InGap(bound, states, steps, n) {
      var i: nat :| i < n && Drops(AnswerAt(bound, states[i], steps[i])) && NeverEmpty(states, i, n);
      QueuedThroughout(bound, states, steps, i, n);
      assert states[i + 1] == Apply(bound, states[i], steps[i]);
      StillDropping(bound, states, steps, i, n);
      assert states[n].counts.queued > 0;
    }
    if n > 0 && states[n].counts.dropping && states[n].counts.queued > 0 {
      GapOpened(bound, states, steps, n - 1);
    }
  }

  lemma {:induction false} GapOpened(bound: nat, states: seq<State>, steps: seq<Step>, n: nat)
    requires Run(bound, states, steps) && n < |steps| && Running(states[n + 1].writer)
    requires states[n + 1].counts.dropping && states[n + 1].counts.queued > 0
    ensures InGap(bound, states, steps, n + 1)
    decreases n, 1
  {
    var s := states[n];
    assert states[n + 1] == Apply(bound, s, steps[n]);
    RanBefore(bound, states, steps, n, n + 1);
    LeftIsQueued(bound, states, steps, n + 1);
    if Drops(AnswerAt(bound, s, steps[n])) {
      assert NeverEmpty(states, n, n + 1);
    } else {
      assert s.counts.dropping && s.counts.queued > 0 && n > 0;
      GapOpened(bound, states, steps, n - 1);
      var i: nat :| i < n && Drops(AnswerAt(bound, states[i], steps[i])) && NeverEmpty(states, i, n);
      assert NeverEmpty(states, i, n + 1);
    }
  }

  /** What every input is answered while the writer runs: Dropped as long as
      something has been left since the last drop, and otherwise Queued if it
      fits beside what is left and Overflowed if not.  In particular, once the
      terminal took everything, any input within the bound is Queued. */
  lemma AnsweredExactly(bound: nat, states: seq<State>, steps: seq<Step>, n: nat)
    requires Run(bound, states, steps) && n < |steps| && steps[n].Offers? && Running(states[n].writer)
    ensures AnswerAt(bound, states[n], steps[n]) ==
            Some(if InGap(bound, states, steps, n) then Dropped
                 else if Left(states[n]) + |steps[n].data| <= bound then Queued
                 else Overflowed)
  {
    LeftIsQueued(bound, states, steps, n);
    DroppingIsGap(bound, states, steps, n);
  }

  /** A gap ends: where the terminal took everything accepted, an input within the
      bound is Queued, whatever was dropped before. */
  lemma GapEnds(bound: nat, states: seq<State>, steps: seq<Step>, n: nat)
    requires Run(bound, states, steps) && n < |steps| && steps[n].Offers? && Running(states[n].writer)
    requires states[n].written == Flatten(states[n].accepted) && Uncounted(states[n].writer) == 0
    requires |steps[n].data| <= bound
    ensures AnswerAt(bound, states[n], steps[n]) == Some(Queued)
  {
    AnsweredExactly(bound, states, steps, n);
    assert Left(states[n]) == 0;
  }

  /** Once the writer is gone nothing is accepted. */
  lemma NothingAfterGone(bound: nat, s: State, step: Step)
    requires s.writer.Gone? && step.Offers?
    ensures AnswerAt(bound, s, step) != Some(Queued)
  {
  }

  // ----- The queue itself -----

  class InputQueue {
    const bound: nat
    var queued: nat
    var dropping: bool
    var closed: bool
    /** The channel to the writer, and whether the writer still receives. */
    var inbox: seq<Bytes>
    var receiving: bool

    function State(): Counts
      reads this
    {
      Counts(queued, dropping, closed)
    }

    constructor (bound: nat)
      ensures this.bound == bound && State() == NO_COUNTS && inbox == [] && receiving
    {
      this.bound := bound;
      queued, dropping, closed, inbox, receiving := 0, false, false, [], true;
    }

    /** Queue an input whole, or drop it whole. */
    method OfferInput(data: Bytes) returns (answer: Offer)
      modifies this
      ensures (answer, State()) == Answer(old(State()), bound, |data|, receiving)
      ensures inbox == if answer.Queued? then old(inbox) + [data] else old(inbox)
      ensures receiving == old(receiving)
    {
      if closed {
        return Closed;
      }
      if dropping {
        if queued > 0 {
          return Dropped;
        }
        dropping := false;
      }
      var len := |data|;
      if queued + len > bound {
        dropping := true;
        return Overflowed;
      }
      queued := queued + len;
      if !receiving {
        queued := queued - len;
        closed := true;
        return Closed;
      }
      inbox := inbox + [data];
      return Queued;
    }

    /** Write one input chunk by chunk to a PTY that takes `takes` chunks whole
        and then `partial` bytes of the next before it fails. */
    method WriteInput(data: Bytes, takes: nat, partial: nat) returns (written: Bytes, refused: bool)
      modifies this
      ensures written <= data
      ensures !refused ==> written == data && queued == SaturatingSub(old(queued), |data|) && closed == old(closed)
      ensures refused ==> queued == 0 && closed
      ensures refused <==> takes * WRITE_CHUNK < |data|
      ensures refused ==>
                var at := takes * WRITE_CHUNK;
                var n := ChunkLen(data, at);
                |written| == at + if partial < n then partial else n
      ensures dropping == old(dropping) && inbox == old(inbox) && receiving == old(receiving)
    {
      written, refused := [], false;
      var at, chunks := 0, 0;
      while at < |data|
        invariant at <= |data| && written == data[..at] && !refused
        invariant queued == SaturatingSub(old(queued), at) && closed == old(closed)
        invariant dropping == old(dropping) && inbox == old(inbox) && receiving == old(receiving)
        invariant chunks <= takes && (at == chunks * WRITE_CHUNK || (at == |data| && at <= chunks * WRITE_CHUNK))
        decreases |data| - at
      {
        var n := ChunkLen(data, at);
        if chunks == takes {
          var k := if partial < n then partial else n;
          written := written + data[at..at + k];
          assert written == data[..at + k];
          closed := true;
          queued := 0;
          refused := true;
          return;
        }
        written := written + data[at..at + n];
        assert written == data[..at + n];
        queued := SaturatingSub(queued, n);
        at := at + n;
        chunks := chunks + 1;
      }
    }
  }
}
