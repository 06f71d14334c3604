/** One hub of the daemon: its current connection, its away queue, its flow and
    every connection it ever opened, as a machine whose steps are the agent's
    atomic actions.

    The route table is changed under one lock, but the flow's counts and the
    connections' queues are shared with readers and writers that do not take
    that lock, so a route or a registration is several steps.  `lock` says how
    far the holder of the route table's lock has come. */
module Hub {
  import opened Types
  import opened Away
  import F = Flow

  /** A frame on its way to a connection's writer.  `rank` is the frame's
      position among all the frames routed to this hub. */
  datatype Outgoing =
    | Reply(frame: Bytes)
    | Terminal(rank: nat, frame: Bytes, charge: F.Queued)

  /** A connection.  `open` holds until its writer ends, `taken` lists the ranks
      its queue ever accepted and `written` what its writer wrote. */
  datatype Conn = Conn(
    registered: bool, open: bool, queue: seq<Outgoing>, writing: Option<Outgoing>,
    written: seq<Outgoing>, taken: seq<nat>) {

    /** Accepted and not yet written, oldest first. */
    function Unwritten(): seq<Outgoing>
    {
      (if writing.Some? then [writing.value] else []) + queue
    }
  }

  const FRESH := Conn(false, true, [], None, [], [])

  datatype Lock =
    | Idle
    /** Charged to `conn`, about to enter its queue. */
    | Sending(rank: nat, conn: ConnId, charge: F.Queued)
    /** The writer is gone: the charge is to be released. */
    | Bounced(rank: nat, charge: F.Queued)
    /** On its way to the away queue; `transit` is a charge still to release. */
    | Keeping(rank: nat, transit: Option<nat>)
    | Releasing(bytes: nat)
    /** Registering `conn`: the previous connection is out of the table. */
    | Attaching(conn: ConnId)
    /** Registering `conn`: the drained frames still to be sent on. */
    | Replaying(conn: ConnId, ranks: seq<nat>)
    | ReplaySending(conn: ConnId, rank: nat, charge: F.Queued, ranks: seq<nat>)
    | ReplayRefused(conn: ConnId, charge: F.Queued, ranks: seq<nat>)
    /** `conn` is out of the table; the flow still counts it. */
    | Detaching(conn: ConnId)

  datatype World = World(
    active: Option<ConnId>,
    flow: F.FlowState,
    transit: seq<nat>,          // the live in-transit charges
    away: History,              // what the away queue holds and has dropped
    conns: map<ConnId, Conn>,
    lock: Lock,
    // Histories
    routed: seq<Entry>,         // every frame the router took up, in order
    dropped: set<nat>,          // ranks the away queue dropped
    refused: set<nat>,          // ranks a registration offered to a dead writer
    sessions: seq<ConnId>)      // the registered connections, in order

  const START := World(None, F.START, [], EMPTY, map[], Idle, [], {}, {}, [])

  datatype Step =
    | Open(conn: ConnId)
    | Charge(bytes: nat)
    | Absorb(into: nat, other: nat)
    | DropTransit(index: nat)
    | RouteBegin(index: nat, entry: Entry)
    | RouteSend
    | RouteBounce
    | RouteKeep(kept: History)
    | RouteRelease
    | RegisterBegin(conn: ConnId, notice: Bytes)
    | RegisterAttach
    | RegisterCharge
    | RegisterSend
    | RegisterRefuse
    | RegisterEnd
    | ClearBegin(conn: ConnId)
    | Detach
    | SendReply(conn: ConnId, frame: Bytes)
    | WriterTake(conn: ConnId)
    | WriterDone(conn: ConnId)
    | WriterEnd(conn: ConnId)
    | Discard(conn: ConnId)

  function Shift(base: nat, ranks: seq<nat>): (r: seq<nat>)
    ensures |r| == |ranks|
  {
    seq(|ranks|, i requires 0 <= i < |ranks| => base + ranks[i])
  }

  function ShiftOne(base: nat, k: nat): nat { base + k }

  /** Where the away queue's frames start among the routed ones. */
  function Base(w: World): int
  {
    |w.routed| - |w.away.entries| - if w.lock.Sending? || w.lock.Bounced? || w.lock.Keeping? then 1 else 0
  }

  /** What a channel does with a frame: queue it, or nothing once its reader is gone. */
  function Accept(c: Conn, out: Outgoing): Conn
  {
    if !c.open then c
    else c.(queue := c.queue + [out], taken := c.taken + if out.Terminal? then [out.rank] else [])
  }

  function Release(f: F.FlowState, out: Outgoing): F.FlowState
  {
    if out.Terminal? then F.ReleaseQueued(f, out.charge) else f
  }

  function Without(xs: seq<nat>, i: nat): seq<nat>
    requires i < |xs|
  {
    xs[..i] + xs[i + 1..]
  }

  // ----- Readers and the batch loop: in-transit charges -----

  function DoCharge(w: World, n: nat): World
  {
    w.(flow := F.Read(w.flow, n), transit := w.transit + [n])
  }

  function DoAbsorb(w: World, i: nat, j: nat): World
    requires i < |w.transit| && j < |w.transit|
  {
    w.(transit := Without(w.transit[i := w.transit[i] + w.transit[j]], j))
  }

  function DoDropTransit(w: World, i: nat): World
    requires i < |w.transit|
  {
    w.(flow := F.ReleaseTransit(w.flow, w.transit[i]), transit := Without(w.transit, i))
  }

  // ----- Routing one frame -----

  /** Take a frame up: hand its charge to the current connection, if any. */
  function DoRouteBegin(w: World, i: nat, e: Entry): World
    requires i < |w.transit|
  {
    var next := w.(transit := Without(w.transit, i), routed := w.routed + [e]);
    if w.active.Some? then
      var (f, q) := F.QueueFor(w.flow, w.transit[i], w.active.value, |e.frame|);
      next.(flow := f, lock := Sending(|w.routed|, w.active.value, q))
    else next.(lock := Keeping(|w.routed|, Some(w.transit[i])))
  }

  function DoRouteSend(w: World): World
    requires w.lock.Sending? && w.lock.conn in w.conns && w.lock.rank < |w.routed|
  {
    var c := w.lock.conn;
    if w.conns[c].open then
      var out := Terminal(w.lock.rank, w.routed[w.lock.rank].frame, w.lock.charge);
      w.(conns := w.conns[c := Accept(w.conns[c], out)], lock := Idle)
    else w.(lock := Bounced(w.lock.rank, w.lock.charge))
  }

  function DoRouteBounce(w: World): World
    requires w.lock.Bounced?
  {
    w.(flow := F.ReleaseQueued(w.flow, w.lock.charge), lock := Keeping(w.lock.rank, None))
  }

  /** The away queue takes the frame, dropping what `kept` no longer holds. */
  function DoRouteKeep(w: World, kept: History): World
    requires w.lock.Keeping? && Base(w) >= 0
  {
    w.(away := kept,
       dropped := w.dropped + (set k | k in kept.lost :: ShiftOne(Base(w), k)),
       lock := if w.lock.transit.Some? then Releasing(w.lock.transit.value) else Idle)
  }

  function DoRouteRelease(w: World): World
    requires w.lock.Releasing?
  {
    w.(flow := F.ReleaseTransit(w.flow, w.lock.bytes), lock := Idle)
  }

  // ----- Registering a connection -----

  function Notified(w: World, notice: Bytes): map<ConnId, Conn>
  {
    if w.active.Some? && w.active.value in w.conns
    then w.conns[w.active.value := Accept(w.conns[w.active.value], Reply(notice))]
    else w.conns
  }

  /** The previous connection is told and leaves the table. */
  function DoRegisterBegin(w: World, c: ConnId, notice: Bytes): World
    requires c in w.conns
  {
    var conns := Notified(w, notice);
    w.(active := None, conns := conns[c := conns[c].(registered := true)],
       sessions := w.sessions + [c], lock := Attaching(c))
  }

  /** The flow follows the new connection, and the away queue is drained. */
  function DoRegisterAttach(w: World): World
    requires w.lock.Attaching? && Base(w) >= 0
  {
    var ranks := Shift(Base(w), Kept(|w.away.entries|, w.away.lost));
    w.(flow := F.Attach(w.flow, w.lock.conn), away := EMPTY, lock := Replaying(w.lock.conn, ranks))
  }

  function DoRegisterCharge(w: World): World
    requires w.lock.Replaying? && w.lock.ranks != [] && w.lock.ranks[0] < |w.routed|
  {
    var r := w.lock.ranks[0];
    var (f, q) := F.Queue(w.flow, w.lock.conn, |w.routed[r].frame|);
    w.(flow := f, lock := ReplaySending(w.lock.conn, r, q, w.lock.ranks[1..]))
  }

  function DoRegisterSend(w: World): World
    requires w.lock.ReplaySending? && w.lock.conn in w.conns && w.lock.rank < |w.routed|
  {
    var c := w.lock.conn;
    if w.conns[c].open then
      var out := Terminal(w.lock.rank, w.routed[w.lock.rank].frame, w.lock.charge);
      w.(conns := w.conns[c := Accept(w.conns[c], out)], lock := Replaying(c, w.lock.ranks))
    else
      w.(refused := w.refused + {w.lock.rank}, lock := ReplayRefused(c, w.lock.charge, w.lock.ranks))
  }

  function DoRegisterRefuse(w: World): World
    requires w.lock.ReplayRefused?
  {
    w.(flow := F.ReleaseQueued(w.flow, w.lock.charge), lock := Replaying(w.lock.conn, w.lock.ranks))
  }

  function DoRegisterEnd(w: World): World
    requires w.lock.Replaying?
  {
    w.(active := Some(w.lock.conn), lock := Idle)
  }

  // ----- Connections that end -----

  function DoClearBegin(w: World, c: ConnId): World
  {
    w.(active := None, lock := Detaching(c))
  }

  function DoDetach(w: World): World
    requires w.lock.Detaching?
  {
    w.(flow := F.Detach(w.flow, w.lock.conn), lock := Idle)
  }

  // ----- A connection's queue and its writer -----

  function DoWriterTake(w: World, c: ConnId): World
    requires c in w.conns && w.conns[c].queue != []
  {
    var k := w.conns[c];
    w.(conns := w.conns[c := k.(writing := Some(k.queue[0]), queue := k.queue[1..])])
  }

  function DoWriterDone(w: World, c: ConnId): World
    requires c in w.conns && w.conns[c].writing.Some?
  {
    var k := w.conns[c];
    w.(flow := Release(w.flow, k.writing.value),
       conns := w.conns[c := k.(writing := None, written := k.written + [k.writing.value])])
  }

  function DoWriterEnd(w: World, c: ConnId): World
    requires c in w.conns
  {
    w.(conns := w.conns[c := w.conns[c].(open := false)])
  }

  /** A frame of an ended writer is thrown away. */
  function DoDiscard(w: World, c: ConnId): World
    requires c in w.conns && w.conns[c].Unwritten() != []
  {
    var k := w.conns[c];
    w.(flow := Release(w.flow, k.Unwritten()[0]),
       conns := w.conns[c := if k.writing.Some? then k.(writing := None) else k.(queue := k.queue[1..])])
  }

  ghost predicate Enabled(w: World, step: Step)
  {
    match step
    case Open(c) => c !in w.conns
    case Charge(_) => true
    case Absorb(i, j) => i < |w.transit| && j < |w.transit| && i != j
    case DropTransit(i) => i < |w.transit|
    case RouteBegin(i, _) => w.lock.Idle? && i < |w.transit|
    case RouteSend => w.lock.Sending? && w.lock.conn in w.conns && w.lock.rank < |w.routed|
    case RouteBounce => w.lock.Bounced?
    case RouteKeep(kept) =>
      w.lock.Keeping? && w.lock.rank < |w.routed| && Base(w) >= 0 && Pushes(w.away, w.routed[w.lock.rank], kept)
    case RouteRelease => w.lock.Releasing?
    case RegisterBegin(c, _) => w.lock.Idle? && c in w.conns && !w.conns[c].registered
    case RegisterAttach => w.lock.Attaching? && Base(w) >= 0
    case RegisterCharge => w.lock.Replaying? && w.lock.ranks != [] && w.lock.ranks[0] < |w.routed|
    case RegisterSend => w.lock.ReplaySending? && w.lock.conn in w.conns && w.lock.rank < |w.routed|
    case RegisterRefuse => w.lock.ReplayRefused?
    case RegisterEnd => w.lock.Replaying? && w.lock.ranks == []
    case ClearBegin(c) => w.lock.Idle? && w.active == Some(c)
    case Detach => w.lock.Detaching?
    case SendReply(c, _) => c in w.conns
    case WriterTake(c) => c in w.conns && w.conns[c].open && w.conns[c].writing.None? && w.conns[c].queue != []
    case WriterDone(c) => c in w.conns && w.conns[c].open && w.conns[c].writing.Some?
    case WriterEnd(c) => c in w.conns
    case Discard(c) => c in w.conns && !w.conns[c].open && w.conns[c].Unwritten() != []
  }

  ghost function Apply(w: World, step: Step): World
    requires Enabled(w, step)
  {
    match step
    case Open(c) => w.(conns := w.conns[c := FRESH])
    case Charge(n) => DoCharge(w, n)
    case Absorb(i, j) => DoAbsorb(w, i, j)
    case DropTransit(i) => DoDropTransit(w, i)
    case RouteBegin(i, e) => DoRouteBegin(w, i, e)
    case RouteSend => DoRouteSend(w)
    case RouteBounce => DoRouteBounce(w)
    case RouteKeep(kept) => DoRouteKeep(w, kept)
    case RouteRelease => DoRouteRelease(w)
    case RegisterBegin(c, notice) => DoRegisterBegin(w, c, notice)
    case RegisterAttach => DoRegisterAttach(w)
    case RegisterCharge => DoRegisterCharge(w)
    case RegisterSend => DoRegisterSend(w)
    case RegisterRefuse => DoRegisterRefuse(w)
    case RegisterEnd => DoRegisterEnd(w)
    case ClearBegin(c) => DoClearBegin(w, c)
    case Detach => DoDetach(w)
    case SendReply(c, frame) => w.(conns := w.conns[c := Accept(w.conns[c], Reply(frame))])
    case WriterTake(c) => DoWriterTake(w, c)
    case WriterDone(c) => DoWriterDone(w, c)
    case WriterEnd(c) => DoWriterEnd(w, c)
    case Discard(c) => DoDiscard(w, c)
  }

  // ----- Sums -----

  function Sum(xs: seq<nat>): nat
  {
    if xs == [] then 0 else Sum(xs[..|xs| - 1]) + xs[|xs| - 1]
  }

  lemma {:induction false} SumRemove(xs: seq<nat>, i: nat)
    requires i < |xs|
    ensures Sum(Without(xs, i)) == Sum(xs) - xs[i]
  {
    var n := |xs| - 1;
    if i == n {
      assert Without(xs, i) == xs[..n];
    } else {
      SumRemove(xs[..n], i);
      assert Without(xs, i)[..n - 1] == Without(xs[..n], i);
    }
  }

  lemma {:induction false} SumUpdate(xs: seq<nat>, i: nat, v: nat)
    requires i < |xs|
    ensures Sum(xs[i := v]) == Sum(xs) - xs[i] + v
  {
    var n := |xs| - 1;
    if i == n {
      assert xs[i := v][..n] == xs[..n];
    } else {
      SumUpdate(xs[..n], i, v);
      assert xs[i := v][..n] == xs[..n][i := v];
    }
  }

  /** The bytes of the terminal frames among `outs`. */
  function Weight(outs: seq<Outgoing>): nat
  {
    if outs == [] then 0
    else (if outs[0].Terminal? then |outs[0].frame| else 0) + Weight(outs[1..])
  }

  lemma {:induction false} WeightAppend(outs: seq<Outgoing>, out: Outgoing)
    ensures Weight(outs + [out]) == Weight(outs) + if out.Terminal? then |out.frame| else 0
  {
    if outs == [] {
      assert outs + [out] == [out];
    } else {
      WeightAppend(outs[1..], out);
      assert (outs + [out])[1..] == outs[1..] + [out];
    }
  }

  /** The ranks of the terminal frames among `outs`. */
  function Ranks(outs: seq<Outgoing>): seq<nat>
  {
    if outs == [] then []
    else if outs[0].Terminal? then [outs[0].rank] + Ranks(outs[1..])
    else Ranks(outs[1..])
  }

  lemma {:induction false} RanksConcat(xs: seq<Outgoing>, ys: seq<Outgoing>)
    ensures Ranks(xs + ys) == Ranks(xs) + Ranks(ys)
  {
    if xs == [] {
      assert xs + ys == ys;
    } else {
      RanksConcat(xs[1..], ys);
      assert (xs + ys)[1..] == xs[1..] + ys;
    }
  }

  // ----- Exact accounting -----

  function LockTransit(lock: Lock): nat
  {
    match lock
    case Keeping(_, transit) => if transit.Some? then transit.value else 0
    case Releasing(n) => n
    case _ => 0
  }

  /** What the holder of the lock has charged to `c` and not yet sent or released. */
  function LockCharge(lock: Lock, c: ConnId): nat
  {
    match lock
    case Sending(_, _, q) => if q.connection == c then q.bytes else 0
    case Bounced(_, q) => if q.connection == c then q.bytes else 0
    case ReplaySending(_, _, q, _) => if q.connection == c then q.bytes else 0
    case ReplayRefused(_, q, _) => if q.connection == c then q.bytes else 0
    case _ => 0
  }

  /** A terminal frame in the hands of `c` is one routed to this hub, and is
      charged to `c` for its length. */
  ghost predicate OutOk(routed: seq<Entry>, c: ConnId, out: Outgoing)
  {
    out.Terminal? ==>
      out.rank < |routed| && out.frame == routed[out.rank].frame &&
      out.charge == F.Queued(c, |out.frame|, true)
  }

  ghost predicate AllOk(routed: seq<Entry>, c: ConnId, outs: seq<Outgoing>)
  {
    forall i :: 0 <= i < |outs| ==> OutOk(routed, c, outs[i])
  }

  ghost predicate ConnOk(w: World, c: ConnId)
    requires c in w.conns
  {
    var k := w.conns[c];
    AllOk(w.routed, c, k.Unwritten()) && AllOk(w.routed, c, k.written) &&
    (k.open ==> Ranks(k.written + k.Unwritten()) == k.taken) &&
    Ranks(k.written) <= k.taken &&
    (!k.registered ==> k.taken == [] && Weight(k.Unwritten()) == 0 && w.flow.connection != Some(c))
  }

  ghost predicate ConnsOk(w: World)
  {
    forall c :: c in w.conns ==> ConnOk(w, c)
  }

  ghost predicate Counted(w: World)
  {
    w.flow.inTransit == Sum(w.transit) + LockTransit(w.lock) &&
    match w.flow.connection
    case None => w.flow.queued == 0
    case Some(c) =>
      c in w.conns && w.flow.queued == Weight(w.conns[c].Unwritten()) + LockCharge(w.lock, c)
  }

  ghost predicate ActiveOk(w: World, c: ConnId)
  {
    c in w.conns && w.conns[c].registered
  }

  ghost predicate ChargeOk(w: World, c: ConnId, rank: nat, q: F.Queued)
  {
    rank < |w.routed| && q == F.Queued(c, |w.routed[rank].frame|, true)
  }

  /** The flow names the connection the route table names, whatever the holder
      of the lock is in the middle of. */
  ghost predicate Attached(w: World)
  {
    (w.active.Some? ==> ActiveOk(w, w.active.value)) &&
    match w.lock
    case Attaching(c) =>
      w.active == None && ActiveOk(w, c) && w.flow.connection != Some(c) && Weight(w.conns[c].Unwritten()) == 0 && w.conns[c].taken == []
    case Replaying(c, _) => w.active == None && ActiveOk(w, c) && w.flow.connection == Some(c)
    case ReplaySending(c, r, q, _) =>
      w.active == None && ActiveOk(w, c) && w.flow.connection == Some(c) && ChargeOk(w, c, r, q)
    case ReplayRefused(c, q, _) =>
      w.active == None && ActiveOk(w, c) && w.flow.connection == Some(c) &&
      q.connection == c && q.counted && !w.conns[c].open
    case Detaching(c) => w.active == None && ActiveOk(w, c) && w.flow.connection == Some(c)
    case Sending(r, c, q) =>
      w.active == Some(c) && w.flow.connection == w.active && r == |w.routed| - 1 && ChargeOk(w, c, r, q)
    case Bounced(r, q) =>
      w.flow.connection == w.active && r == |w.routed| - 1 &&
      w.active == Some(q.connection) && !w.conns[q.connection].open && q.counted
    case Keeping(r, _) => w.flow.connection == w.active && r == |w.routed| - 1 && AwayFrom(w)
    case _ => w.flow.connection == w.active
  }

  /** No open connection is in the table: what is routed goes to the away queue. */
  ghost predicate AwayFrom(w: World)
  {
    w.active.Some? ==> w.active.value in w.conns && !w.conns[w.active.value].open
  }

  // ----- Delivery -----

  /** The frames the registration in progress has still to send on. */
  function InReplay(lock: Lock): seq<nat>
  {
    match lock
    case Replaying(_, ranks) => ranks
    case ReplaySending(_, r, _, ranks) => [r] + ranks
    case ReplayRefused(_, _, ranks) => ranks
    case _ => []
  }

  predicate Replays(lock: Lock)
  {
    lock.Replaying? || lock.ReplaySending? || lock.ReplayRefused?
  }

  /** What the hub's successive connections accepted, in order. */
  ghost function Handed(conns: map<ConnId, Conn>, sessions: seq<ConnId>): seq<nat>
  {
    if sessions == [] then []
    else
      var c := sessions[|sessions| - 1];
      Handed(conns, sessions[..|sessions| - 1]) + if c in conns then conns[c].taken else []
  }

  /** Of the routed frames, the first `base` were handed on except those lost,
      and the away queue holds the rest except what it dropped. */
  ghost predicate Delivered(
    handed: seq<nat>, base: int, routed: seq<Entry>, away: History, dropped: set<nat>, refused: set<nat>)
  {
    0 <= base && base + |away.entries| <= |routed| && InRange(away) &&
    (forall k :: k in refused ==> k < base) &&
    (forall k :: k in dropped ==> k < base + |away.entries|) &&
    away.entries == routed[base..base + |away.entries|] &&
    (forall k: nat :: k < |away.entries| ==> (k in away.lost <==> ShiftOne(base, k) in dropped)) &&
    handed == Kept(base, dropped + refused)
  }

  ghost predicate Lossy(w: World)
  {
    Delivered(Handed(w.conns, w.sessions) + InReplay(w.lock), Base(w), w.routed, w.away, w.dropped, w.refused) &&
    (w.away.entries != [] ==> AwayFrom(w) && !Replays(w.lock))
  }

  /** Sessions are distinct, and only the last one is ever sent to. */
  ghost predicate SessionsOk(w: World)
  {
    (forall i :: 0 <= i < |w.sessions| ==> w.sessions[i] in w.conns && w.conns[w.sessions[i]].registered) &&
    (forall i, j :: 0 <= i < j < |w.sessions| ==> w.sessions[i] != w.sessions[j]) &&
    (w.active.Some? ==> IsLast(w.sessions, w.active.value)) &&
    (w.lock.Attaching? || Replays(w.lock) ==>
       IsLast(w.sessions, w.lock.conn))
  }

  predicate IsLast(s: seq<ConnId>, c: ConnId)
  {
    s != [] && s[|s| - 1] == c
  }

  ghost predicate Inv(w: World)
  {
    ConnsOk(w) && Counted(w) && Attached(w) && SessionsOk(w) && Lossy(w)
  }
}
