/** How much of one hub's output the agent holds, and when its readers wake. */
module Flow {
  import opened Types

  datatype Marks = Marks(high: nat, low: nat)

  datatype FlowState = FlowState(inTransit: nat, connection: Option<ConnId>, queued: nat) {
    function Pending(): nat { inTransit + queued }
  }

  const START := FlowState(0, None, 0)

  /** Output queued for one connection and not yet written to it. */
  datatype Queued = Queued(connection: ConnId, bytes: nat, counted: bool)

  // ----- The changes made to the counts, each under the flow's own lock -----

  function Read(f: FlowState, bytes: nat): FlowState
  {
    f.(inTransit := f.inTransit + bytes)
  }

  function ReleaseTransit(f: FlowState, bytes: nat): FlowState
  {
    f.(inTransit := SaturatingSub(f.inTransit, bytes))
  }

  function Queue(f: FlowState, connection: ConnId, bytes: nat): (FlowState, Queued)
  {
    var counted := f.connection == Some(connection);
    (if counted then f.(queued := f.queued + bytes) else f, Queued(connection, bytes, counted))
  }

  /** An in-transit charge becomes a queued one in a single change. */
  function QueueFor(f: FlowState, transit: nat, connection: ConnId, frameLen: nat): (FlowState, Queued)
  {
    Queue(ReleaseTransit(f, transit), connection, frameLen)
  }

  function ReleaseQueued(f: FlowState, q: Queued): FlowState
  {
    if q.counted && f.connection == Some(q.connection)
    then f.(queued := SaturatingSub(f.queued, q.bytes))
    else f
  }

  function Attach(f: FlowState, connection: ConnId): FlowState
  {
    f.(connection := Some(connection), queued := 0)
  }

  function Detach(f: FlowState, connection: ConnId): FlowState
  {
    if f.connection == Some(connection) then f.(connection := None, queued := 0) else f
  }

  /** A charge made and released leaves the counts as they were, in transit or
      queued, whichever connection is the hub's. */
  lemma ChargesCancel(f: FlowState, bytes: nat, c: ConnId)
    ensures ReleaseTransit(Read(f, bytes), bytes) == f
    ensures var (g, q) := Queue(f, c, bytes); ReleaseQueued(g, q) == f
  {
  }

  /** What a connection that is no longer the hub's still releases, or its late
      detach, changes nothing. */
  lemma LateChangesNothing(f: FlowState, c: ConnId, q: Queued)
    requires q.connection == c && f.connection != Some(c)
    ensures ReleaseQueued(f, q) == f && Detach(f, c) == f && Queue(f, c, q.bytes).0 == f
  {
  }

  /** Nothing queued for an earlier connection counts against a new one, and
      nothing counts once the hub's connection is detached. */
  lemma ConnectionsStartEmpty(f: FlowState, c: ConnId)
    ensures Attach(f, c).Pending() == f.inTransit && Attach(f, c).connection == Some(c)
    ensures Detach(Attach(f, c), c).Pending() == f.inTransit && Detach(Attach(f, c), c).connection == None
  {
  }

  /** Whether a change of the pending bytes wakes the paused readers. */
  predicate Drains(marks: Marks, before: nat, after: nat)
  {
    before > marks.low && after <= marks.low
  }

  /** Handing a frame no shorter than its charge to the hub's connection wakes
      nobody: the count does not dip on the way. */
  lemma HandingOverWakesNobody(marks: Marks, f: FlowState, transit: nat, c: ConnId, frameLen: nat)
    requires f.connection == Some(c) && transit <= f.inTransit && transit <= frameLen
    ensures !Drains(marks, f.Pending(), QueueFor(f, transit, c, frameLen).0.Pending())
  {
  }

  /** Whether a hub's terminals must stop being read. */
  predicate IsFull(marks: Marks, f: FlowState) { f.Pending() >= marks.high }

  /** Stopping is never for good: however the counts change after a hub was full,
      they reach the low mark only by a change that wakes the paused readers. */
  lemma {:induction false} FullEndsInAWake(marks: Marks, counts: seq<FlowState>)
    requires marks.low < marks.high && counts != []
    requires IsFull(marks, counts[0]) && counts[|counts| - 1].Pending() <= marks.low
    ensures exists i :: 0 < i < |counts| && Drains(marks, counts[i - 1].Pending(), counts[i].Pending())
  {
    var n := |counts| - 1;
    if counts[n - 1].Pending() <= marks.low {
      FullEndsInAWake(marks, counts[..n]);
      var i :| 0 < i < n && Drains(marks, counts[..n][i - 1].Pending(), counts[..n][i].Pending());
      assert Drains(marks, counts[i - 1].Pending(), counts[i].Pending());
    } else {
      assert Drains(marks, counts[n - 1].Pending(), counts[n].Pending());
    }
  }

  /** The flow as the readers, the router and the writers share it. */
  class HubFlow {
    const marks: Marks
    var inTransit: nat
    var connection: Option<ConnId>
    var queued: nat
    /** How many times the paused readers were woken. */
    var wakeups: nat

    function State(): FlowState
      reads this
    {
      FlowState(inTransit, connection, queued)
    }

    ghost predicate Woke(before: FlowState, wakeupsBefore: nat)
      reads this
    {
      wakeups == wakeupsBefore + if Drains(marks, before.Pending(), State().Pending()) then 1 else 0
    }

    constructor (marks: Marks)
      ensures this.marks == marks && State() == START && wakeups == 0
    {
      this.marks := marks;
      inTransit, connection, queued, wakeups := 0, None, 0, 0;
    }

    /** Called after every change, with the pending bytes it started from. */
    method WakeIfDrained(before: nat)
      modifies this`wakeups
      ensures wakeups == old(wakeups) + if Drains(marks, before, State().Pending()) then 1 else 0
    {
      if before > marks.low && inTransit + queued <= marks.low {
        wakeups := wakeups + 1;
      }
    }

    method Full() returns (full: bool)
      ensures full == IsFull(marks, State())
    {
      full := inTransit + queued >= marks.high;
    }

    method ReadFrom(bytes: nat)
      modifies this
      ensures State() == Read(old(State()), bytes)
      ensures Woke(old(State()), old(wakeups))
    {
      var before := inTransit + queued;
      inTransit := inTransit + bytes;
      WakeIfDrained(before);
    }

    method DropTransit(bytes: nat)
      modifies this
      ensures State() == ReleaseTransit(old(State()), bytes)
      ensures Woke(old(State()), old(wakeups))
    {
      var before := inTransit + queued;
      inTransit := SaturatingSub(inTransit, bytes);
      WakeIfDrained(before);
    }

    method QueueFrame(c: ConnId, bytes: nat) returns (q: Queued)
      modifies this
      ensures (State(), q) == Queue(old(State()), c, bytes)
      ensures Woke(old(State()), old(wakeups))
    {
      var before := inTransit + queued;
      var counted := false;
      if connection == Some(c) {
        queued := queued + bytes;
        counted := true;
      }
      WakeIfDrained(before);
      q := Queued(c, bytes, counted);
    }

    method HandOver(transit: nat, c: ConnId, frameLen: nat) returns (q: Queued)
      modifies this
      ensures (State(), q) == QueueFor(old(State()), transit, c, frameLen)
      ensures Woke(old(State()), old(wakeups))
    {
      var before := inTransit + queued;
      var counted := false;
      inTransit := SaturatingSub(inTransit, transit);
      if connection == Some(c) {
        queued := queued + frameLen;
        counted := true;
      }
      WakeIfDrained(before);
      q := Queued(c, frameLen, counted);
    }

    method DropQueued(q: Queued)
      modifies this
      ensures State() == ReleaseQueued(old(State()), q)
      ensures wakeups == old(wakeups) +
              if q.counted && Drains(marks, old(State()).Pending(), State().Pending()) then 1 else 0
    {
      if !q.counted {
        return;
      }
      var before := inTransit + queued;
      if connection == Some(q.connection) {
        queued := SaturatingSub(queued, q.bytes);
      }
      WakeIfDrained(before);
    }

    method AttachConnection(c: ConnId)
      modifies this
      ensures State() == Attach(old(State()), c)
      ensures Woke(old(State()), old(wakeups))
    {
      var before := inTransit + queued;
      connection := Some(c);
      queued := 0;
      WakeIfDrained(before);
    }

    method DetachConnection(c: ConnId)
      modifies this
      ensures State() == Detach(old(State()), c)
      ensures Woke(old(State()), old(wakeups))
    {
      var before := inTransit + queued;
      if connection == Some(c) {
        connection := None;
        queued := 0;
      }
      WakeIfDrained(before);
    }
  }
}
