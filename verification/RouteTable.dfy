/** The daemon's route table as the object it is: for each hub its current
    connection, its away queue and its flow.

    Every method is proved to do to its hub's part of the table what a relation
    on values says, and nothing to any other hub's.  Each relation is then shown
    to be a path of the hub machine, so that what is proved of all the
    machine's runs holds of this table however readers and writers interleave. */
module RouteTable {
  import opened Types
  import opened Away
  import H = Hub
  import HP = HubProofs
  import HT = HubTheorems
  import F = Flow

  /** A frame in a connection's queue; replies carry no charge. */
  datatype Frame = Frame(bytes: Bytes, charge: Option<F.Queued>)

  /** A connection's outgoing queue, as a value. */
  datatype Channel = Channel(id: ConnId, open: bool, queue: seq<Frame>)

  /** One hub's part of the table. */
  datatype Seen = Seen(active: Option<Channel>, flow: F.FlowState, away: History)

  function Sent(ch: Channel, frame: Frame): Channel
  {
    if ch.open then ch.(queue := ch.queue + [frame]) else ch
  }

  // ----- What the operations do to one hub's part -----

  predicate Takes(active: Option<Channel>)
  {
    active.Some? && active.value.open
  }

  /** A frame is charged to the current connection and sent to it; a charge
      nobody takes is released.  A frame may come without a charge. */
  function Charged(active: Option<Channel>, flow: F.FlowState, charge: Option<nat>, frame: Bytes):
    (Option<Channel>, F.FlowState)
  {
    match (active, charge)
    case (Some(ch), Some(bytes)) =>
      var (f, q) := F.QueueFor(flow, bytes, ch.id, |frame|);
      (Some(Sent(ch, Frame(frame, Some(q)))), if ch.open then f else F.ReleaseQueued(f, q))
    case (Some(ch), None) => (Some(Sent(ch, Frame(frame, None))), flow)
    case (None, Some(bytes)) => (None, F.ReleaseTransit(flow, bytes))
    case (None, None) => (None, flow)
  }

  /** A frame goes to the current connection, charged to it, or is kept. */
  ghost predicate Routed(s: Seen, charge: Option<nat>, e: Entry, t: Seen)
  {
    (t.active, t.flow) == Charged(s.active, s.flow, charge, e.frame) &&
    if Takes(s.active) then t.away == s.away else Pushes(s.away, e, t.away)
  }

  /** One kept frame goes to the new connection, or is lost with its charge. */
  function ReplayOne(f: F.FlowState, ch: Channel, frame: Bytes): (F.FlowState, Channel)
  {
    var (g, q) := F.Queue(f, ch.id, |frame|);
    (if ch.open then g else F.ReleaseQueued(g, q), Sent(ch, Frame(frame, Some(q))))
  }

  function Replay(f: F.FlowState, ch: Channel, frames: seq<Bytes>): (F.FlowState, Channel)
  {
    if frames == [] then (f, ch)
    else
      var (g, k) := Replay(f, ch, frames[..|frames| - 1]);
      ReplayOne(g, k, frames[|frames| - 1])
  }

  ghost function KeptFrames(a: History): seq<Bytes>
  {
    FramesAt(a.entries, Kept(|a.entries|, a.lost))
  }

  /** A connection becomes the hub's and is sent what was kept. */
  ghost function Registered(s: Seen, tx: Channel): Seen
  {
    var (f, ch) := Replay(F.Attach(s.flow, tx.id), tx, KeptFrames(s.away));
    Seen(Some(ch), f, EMPTY)
  }

  /** The hub's connection, if any, is no longer its current one. */
  function Cleared(s: Seen): Seen
  {
    if s.active.None? then s else Seen(None, F.Detach(s.flow, s.active.value.id), s.away)
  }

  // ----- The operations are paths of the hub machine -----

  function Bare(out: H.Outgoing): Frame
  {
    match out
    case Reply(frame) => Frame(frame, None)
    case Terminal(_, frame, charge) => Frame(frame, Some(charge))
  }

  function BareAll(outs: seq<H.Outgoing>): (r: seq<Frame>)
    ensures |r| == |outs|
  {
    seq(|outs|, i requires 0 <= i < |outs| => Bare(outs[i]))
  }

  ghost predicate Carries(ch: Channel, w: H.World)
  {
    ch.id in w.conns && w.conns[ch.id].open == ch.open && BareAll(w.conns[ch.id].queue) == ch.queue
  }

  /** The table holds for this hub what world `w` says. */
  ghost predicate Shows(s: Seen, w: H.World)
  {
    w.flow == s.flow && w.away == s.away &&
    match s.active
    case None => w.active == None
    case Some(ch) => w.active == Some(ch.id) && Carries(ch, w)
  }

  /** A world between two operations on the table. */
  ghost predicate Resting(w: H.World)
  {
    H.Inv(w) && w.lock.Idle?
  }

  ghost function After(w: H.World, steps: seq<H.Step>): Option<H.World>
  {
    if steps == [] then Some(w)
    else
      var u := After(w, steps[..|steps| - 1]);
      if u.Some? && H.Enabled(u.value, steps[|steps| - 1]) then Some(H.Apply(u.value, steps[|steps| - 1])) else None
  }

  lemma Go(w: H.World, steps: seq<H.Step>, u: H.World, step: H.Step) returns (v: H.World, more: seq<H.Step>)
    requires After(w, steps) == Some(u) && H.Enabled(u, step)
    ensures v == H.Apply(u, step) && After(w, more) == Some(v)
  {
    v, more := H.Apply(u, step), steps + [step];
    assert more[..|steps|] == steps;
  }

  lemma {:induction false} PathKeepsInv(w: H.World, steps: seq<H.Step>)
    requires H.Inv(w) && After(w, steps).Some?
    ensures H.Inv(After(w, steps).value)
  {
    if steps != [] {
      var n := |steps| - 1;
      PathKeepsInv(w, steps[..n]);
      HP.StepKeepsInv(After(w, steps[..n]).value, steps[n]);
    }
  }

  /** A path of operations continues any run of the hub machine. */
  lemma {:induction false} PathExtendsRun(worlds: seq<H.World>, steps: seq<H.Step>, more: seq<H.Step>)
    returns (ws: seq<H.World>, ss: seq<H.Step>)
    requires HP.HubRun(worlds, steps) && After(worlds[|steps|], more).Some?
    ensures HP.HubRun(ws, ss) && ws[|ss|] == After(worlds[|steps|], more).value
  {
    ws, ss := worlds, steps;
    if more != [] {
      var n := |more| - 1;
      ws, ss := PathExtendsRun(worlds, steps, more[..n]);
      ws, ss := HT.Extend(ws, ss, more[n]);
    }
  }

  lemma AcceptCarries(k: H.Conn, out: H.Outgoing, ch: Channel)
    requires BareAll(k.queue) == ch.queue && k.open == ch.open
    ensures var a := H.Accept(k, out); BareAll(a.queue) == Sent(ch, Bare(out)).queue && a.open == ch.open
  {
  }

  /** Keeping a frame, once no connection took it. */
  lemma KeepIsSteps(w: H.World, steps: seq<H.Step>, u: H.World, kept: History) returns (v: H.World, more: seq<H.Step>)
    requires After(w, steps) == Some(u) && H.Base(u) >= 0
    requires u.lock.Keeping? && u.lock.rank < |u.routed| && Pushes(u.away, u.routed[u.lock.rank], kept)
    ensures After(w, more) == Some(v) && v.lock.Idle?
    ensures v.active == u.active && v.away == kept && v.conns == u.conns && v.routed == u.routed
    ensures v.flow == if u.lock.transit.Some? then F.ReleaseTransit(u.flow, u.lock.transit.value) else u.flow
  {
    v, more := Go(w, steps, u, H.RouteKeep(kept));
    if v.lock.Releasing? {
      v, more := Go(w, more, v, H.RouteRelease);
    }
  }

  /** The current connection takes the frame, or its charge comes back. */
  lemma OfferIsSteps(w: H.World, steps: seq<H.Step>, u: H.World, ch: Channel) returns (v: H.World, more: seq<H.Step>)
    requires After(w, steps) == Some(u) && u.lock.Sending? && u.lock.conn == ch.id && Carries(ch, u)
    requires u.lock.rank < |u.routed|
    ensures After(w, more) == Some(v)
    ensures v.active == u.active && v.away == u.away && v.routed == u.routed
    ensures if ch.open
            then v.lock.Idle? && v.flow == u.flow &&
                 Carries(Sent(ch, Frame(u.routed[u.lock.rank].frame, Some(u.lock.charge))), v)
            else v.lock == H.Keeping(u.lock.rank, None) && v.flow == F.ReleaseQueued(u.flow, u.lock.charge) && Carries(ch, v)
  {
    v, more := Go(w, steps, u, H.RouteSend);
    if ch.open {
      AcceptCarries(u.conns[ch.id], H.Terminal(u.lock.rank, u.routed[u.lock.rank].frame, u.lock.charge), ch);
    } else {
      v, more := Go(w, more, v, H.RouteBounce);
    }
  }

  lemma RoutePath(s: Seen, w: H.World, i: nat, e: Entry, t: Seen) returns (v: H.World, steps: seq<H.Step>)
    requires w.lock.Idle? && H.Base(w) >= 0 && Shows(s, w) && i < |w.transit| && Routed(s, Some(w.transit[i]), e, t)
    ensures After(w, steps) == Some(v) && v.lock.Idle? && Shows(t, v) && v.routed == w.routed + [e]
  {
    v, steps := Go(w, [], w, H.RouteBegin(i, e));
    if s.active.Some? {
      v, steps := OfferIsSteps(w, steps, v, s.active.value);
    }
    if s.active.None? || !s.active.value.open {
      v, steps := KeepIsSteps(w, steps, v, t.away);
    }
  }

  /** Routing a frame is a path of the hub machine. */
  lemma RouteIsSteps(s: Seen, w: H.World, i: nat, e: Entry, t: Seen) returns (v: H.World, steps: seq<H.Step>)
    requires Resting(w) && Shows(s, w) && i < |w.transit| && Routed(s, Some(w.transit[i]), e, t)
    ensures After(w, steps) == Some(v) && Resting(v) && Shows(t, v) && v.routed == w.routed + [e]
  {
    assert H.Lossy(w);
    v, steps := RoutePath(s, w, i, e, t);
    PathKeepsInv(w, steps);
  }

  /** Only connection `c`, the flow and the lock differ. */
  ghost predicate SameBut(u: H.World, v: H.World, c: ConnId)
  {
    v.active == u.active && v.away == u.away && v.routed == u.routed && v.sessions == u.sessions &&
    forall d :: d in u.conns && d != c ==> d in v.conns && v.conns[d] == u.conns[d]
  }

  /** Sending one kept frame on is a path of the hub machine. */
  lemma ReplayOneIsSteps(w: H.World, steps: seq<H.Step>, u: H.World, ch: Channel) returns (v: H.World, more: seq<H.Step>)
    requires After(w, steps) == Some(u) && Carries(ch, u)
    requires u.lock.Replaying? && u.lock.conn == ch.id && u.lock.ranks != [] && u.lock.ranks[0] < |u.routed|
    ensures After(w, more) == Some(v) && v.lock == H.Replaying(ch.id, u.lock.ranks[1..])
    ensures SameBut(u, v, ch.id)
    ensures var (f, k) := ReplayOne(u.flow, ch, u.routed[u.lock.ranks[0]].frame); v.flow == f && Carries(k, v)
  {
    v, more := Go(w, steps, u, H.RegisterCharge);
    var lock := v.lock;
    v, more := Go(w, more, v, H.RegisterSend);
    if ch.open {
      AcceptCarries(u.conns[ch.id], H.Terminal(lock.rank, u.routed[lock.rank].frame, lock.charge), ch);
    } else {
      v, more := Go(w, more, v, H.RegisterRefuse);
    }
  }

  /** The frames at `ranks`, among those routed. */
  ghost predicate FramesOf(routed: seq<Entry>, ranks: seq<nat>, frames: seq<Bytes>)
  {
    |frames| == |ranks| && forall i :: 0 <= i < |ranks| ==> ranks[i] < |routed| && routed[ranks[i]].frame == frames[i]
  }

  lemma ReplaySnoc(f: F.FlowState, ch: Channel, frames: seq<Bytes>, n: nat)
    requires n < |frames|
    ensures var (g, k) := Replay(f, ch, frames[..n]);
            Replay(f, ch, frames[..n + 1]) == ReplayOne(g, k, frames[n])
  {
    assert frames[..n + 1][..n] == frames[..n];
  }

  lemma {:induction false} ReplayKeepsId(f: F.FlowState, ch: Channel, frames: seq<Bytes>)
    ensures Replay(f, ch, frames).1.id == ch.id && Replay(f, ch, frames).1.open == ch.open
  {
    if frames != [] { ReplayKeepsId(f, ch, frames[..|frames| - 1]); }
  }

  /** Sending the first `n` kept frames on is a path of the hub machine. */
  lemma {:induction false} ReplayIsSteps(
    w: H.World, steps: seq<H.Step>, u: H.World, ch: Channel, frames: seq<Bytes>, n: nat)
    returns (v: H.World, more: seq<H.Step>)
    requires After(w, steps) == Some(u) && Carries(ch, u)
    requires u.lock.Replaying? && u.lock.conn == ch.id && FramesOf(u.routed, u.lock.ranks, frames) && n <= |frames|
    ensures After(w, more) == Some(v) && v.lock == H.Replaying(ch.id, u.lock.ranks[n..])
    ensures SameBut(u, v, ch.id)
    ensures var (f, k) := Replay(u.flow, ch, frames[..n]); v.flow == f && Carries(k, v)
  {
    v, more := u, steps;
    if n == 0 {
      assert u.lock.ranks[0..] == u.lock.ranks;
    } else {
      v, more := ReplayIsSteps(w, steps, u, ch, frames, n - 1);
      ReplayKeepsId(u.flow, ch, frames[..n - 1]);
      assert v.lock.ranks[0] == u.lock.ranks[n - 1] && v.lock.ranks[1..] == u.lock.ranks[n..];
      v, more := ReplayOneIsSteps(w, more, v, Replay(u.flow, ch, frames[..n - 1]).1);
      ReplaySnoc(u.flow, ch, frames, n - 1);
    }
  }

  /** What the away queue drained is what was routed under those ranks. */
  lemma DrainedFrames(w: H.World)
    requires H.Lossy(w)
    ensures H.Base(w) >= 0
    ensures FramesOf(w.routed, H.Shift(H.Base(w), Kept(|w.away.entries|, w.away.lost)), KeptFrames(w.away))
  {
  }

  /** The previous connection is told. */
  lemma RegisterBegins(s: Seen, w: H.World, tx: Channel, notice: Bytes) returns (v: H.World, steps: seq<H.Step>)
    requires w.lock.Idle? && Shows(s, w) && Carries(tx, w) && !w.conns[tx.id].registered
    requires s.active.Some? ==> s.active.value.id != tx.id
    ensures After(w, steps) == Some(v) && Carries(tx, v) && v.lock == H.Attaching(tx.id)
    ensures v.flow == w.flow && v.away == w.away && v.routed == w.routed && v.sessions == w.sessions + [tx.id]
    ensures s.active.Some? ==> Carries(Sent(s.active.value, Frame(notice, None)), v)
  {
    if s.active.Some? {
      AcceptCarries(w.conns[s.active.value.id], H.Reply(notice), s.active.value);
    }
    v, steps := Go(w, [], w, H.RegisterBegin(tx.id, notice));
  }

  /** The flow follows the new connection, and the away queue is drained. */
  lemma AttachDrains(w: H.World, steps: seq<H.Step>, u: H.World) returns (v: H.World, more: seq<H.Step>)
    requires After(w, steps) == Some(u) && u.lock.Attaching? && H.Base(u) >= 0
    ensures After(w, more) == Some(v)
    ensures v == u.(flow := F.Attach(u.flow, u.lock.conn), away := EMPTY,
                    lock := H.Replaying(u.lock.conn, H.Shift(H.Base(u), Kept(|u.away.entries|, u.away.lost))))
  {
    v, more := Go(w, steps, u, H.RegisterAttach);
  }

  /** The registration up to the first kept frame. */
  lemma RegisterStarts(s: Seen, w: H.World, tx: Channel, notice: Bytes) returns (v: H.World, steps: seq<H.Step>)
    requires w.lock.Idle? && H.Base(w) >= 0 && Shows(s, w) && Carries(tx, w) && !w.conns[tx.id].registered
    requires s.active.Some? ==> s.active.value.id != tx.id
    ensures After(w, steps) == Some(v) && Carries(tx, v) && v.flow == F.Attach(w.flow, tx.id) && v.away == EMPTY
    ensures v.lock == H.Replaying(tx.id, H.Shift(H.Base(w), Kept(|w.away.entries|, w.away.lost)))
    ensures v.sessions == w.sessions + [tx.id] && v.routed == w.routed
    ensures s.active.Some? ==> Carries(Sent(s.active.value, Frame(notice, None)), v)
  {
    v, steps := RegisterBegins(s, w, tx, notice);
    v, steps := AttachDrains(w, steps, v);
  }

  lemma RegisterPath(s: Seen, w: H.World, tx: Channel, notice: Bytes) returns (v: H.World, steps: seq<H.Step>)
    requires w.lock.Idle? && H.Base(w) >= 0 && Shows(s, w) && Carries(tx, w) && !w.conns[tx.id].registered
    requires s.active.Some? ==> s.active.value.id != tx.id
    requires FramesOf(w.routed, H.Shift(H.Base(w), Kept(|w.away.entries|, w.away.lost)), KeptFrames(w.away))
    ensures After(w, steps) == Some(v) && v.lock.Idle? && Shows(Registered(s, tx), v)
    ensures v.sessions == w.sessions + [tx.id] && v.routed == w.routed
    ensures s.active.Some? ==> Carries(Sent(s.active.value, Frame(notice, None)), v)
  {
    v, steps := RegisterStarts(s, w, tx, notice);
    var frames := KeptFrames(w.away);
    v, steps := ReplayIsSteps(w, steps, v, tx, frames, |frames|);
    assert frames[..|frames|] == frames;
    ReplayKeepsId(F.Attach(s.flow, tx.id), tx, frames);
    v, steps := Go(w, steps, v, H.RegisterEnd);
  }

  /** Registering a connection is a path of the hub machine. */
  lemma RegisterIsSteps(s: Seen, w: H.World, tx: Channel, notice: Bytes) returns (v: H.World, steps: seq<H.Step>)
    requires Resting(w) && Shows(s, w) && Carries(tx, w) && !w.conns[tx.id].registered
    ensures After(w, steps) == Some(v) && Resting(v) && Shows(Registered(s, tx), v)
    ensures v.sessions == w.sessions + [tx.id] && v.routed == w.routed
    ensures s.active.Some? ==> Carries(Sent(s.active.value, Frame(notice, None)), v)
  {
    DrainedFrames(w);
    v, steps := RegisterPath(s, w, tx, notice);
    PathKeepsInv(w, steps);
  }

  /** Clearing a hub's connection is a path of the hub machine. */
  lemma ClearIsSteps(s: Seen, w: H.World) returns (v: H.World, steps: seq<H.Step>)
    requires Resting(w) && Shows(s, w)
    ensures After(w, steps) == Some(v) && Resting(v) && Shows(Cleared(s), v) && v.routed == w.routed
  {
    v, steps := w, [];
    if s.active.Some? {
      v, steps := Go(w, steps, v, H.ClearBegin(s.active.value.id));
      v, steps := Go(w, steps, v, H.Detach);
    }
    PathKeepsInv(w, steps);
  }

  // ----- The table itself -----

  /** The away queues of all the hubs that have one. */
  class AwayQueues {
    var byOwner: map<Owner, AwayQueue>

    ghost predicate Valid()
      reads this, byOwner.Values
    {
      (forall o :: o in byOwner ==> byOwner[o].Valid()) &&
      forall o, p :: o in byOwner && p in byOwner && byOwner[o] == byOwner[p] ==> o == p
    }

    ghost function Of(owner: Owner): History
      reads this, byOwner.Values
    {
      if owner in byOwner then byOwner[owner].history else EMPTY
    }

    constructor ()
      ensures Valid() && byOwner == map[]
    {
      byOwner := map[];
    }

    /** The queue of `owner`, made when it is first asked for. */
    method QueueOf(owner: Owner) returns (queue: AwayQueue)
      requires Valid()
      modifies this
      ensures Valid() && owner in byOwner && queue == byOwner[owner]
      ensures queue in old(byOwner.Values) || fresh(queue)
      ensures forall p :: Of(p) == old(Of(p))
    {
      if owner !in byOwner {
        queue := new AwayQueue();
        byOwner := byOwner[owner := queue];
      }
      queue := byOwner[owner];
    }

    /** Keep a frame for `owner`'s next connection. */
    method Keep(owner: Owner, channel: ChannelId, frame: Bytes)
      requires Valid()
      modifies this, byOwner.Values
      ensures Valid() && Pushes(old(Of(owner)), Entry(channel, frame), Of(owner))
      ensures forall p :: p != owner ==> Of(p) == old(Of(p))
    {
      var queue := QueueOf(owner);
      PushTo(owner, channel, frame);
    }

    method PushTo(owner: Owner, channel: ChannelId, frame: Bytes)
      requires Valid() && owner in byOwner
      modifies byOwner[owner]
      ensures Valid() && Pushes(old(Of(owner)), Entry(channel, frame), Of(owner))
      ensures forall p :: p != owner ==> Of(p) == old(Of(p))
    {
      byOwner[owner].Push(channel, frame);
    }

    /** What was kept for `owner`, which then has no queue. */
    method TakeFor(owner: Owner) returns (frames: seq<Bytes>)
      requires Valid()
      modifies this
      ensures Valid() && frames == KeptFrames(old(Of(owner)))
      ensures Of(owner) == EMPTY && forall p :: p != owner ==> Of(p) == old(Of(p))
    {
      if owner in byOwner {
        var lost;
        frames, lost := byOwner[owner].Drain();
        byOwner := byOwner - {owner};
      } else {
        frames := [];
      }
    }
  }

  /** The table's own fields, as a value. */
  datatype Table = Table(
    connections: map<Owner, ConnId>,
    flows: map<Owner, F.FlowState>,         // each hub's counts, shared with its readers and writers
    channels: map<ConnId, Channel>) {       // the sending half of every connection

    /** No two hubs share a connection. */
    ghost predicate Ok()
    {
      (forall o :: o in connections ==> connections[o] in channels) &&
      (forall o, p :: o in connections && p in connections && connections[o] == connections[p] ==> o == p) &&
      forall c :: c in channels ==> channels[c].id == c
    }

    function Flow(owner: Owner): F.FlowState
    {
      if owner in flows then flows[owner] else F.START
    }

    function Active(owner: Owner): Option<Channel>
    {
      if owner in connections && connections[owner] in channels then Some(channels[connections[owner]]) else None
    }
  }

  /** Nothing of any other hub's differs. */
  ghost predicate OnlyFor(owner: Owner, t: Table, u: Table)
  {
    forall p :: p != owner ==> u.Active(p) == t.Active(p) && u.Flow(p) == t.Flow(p)
  }

  function Displaced(t: Table, owner: Owner, notice: Bytes): Table
    requires owner in t.connections && t.connections[owner] in t.channels
  {
    var c := t.connections[owner];
    t.(connections := t.connections - {owner}, channels := t.channels[c := Sent(t.channels[c], Frame(notice, None))])
  }

  /** Table `u` follows `t` by sending `frames` on to connection `c` of `owner`. */
  ghost predicate SentOn(owner: Owner, c: ConnId, frames: seq<Bytes>, t: Table, u: Table)
  {
    c in t.channels && c in u.channels && u.connections == t.connections &&
    (u.Flow(owner), u.channels[c]) == Replay(t.Flow(owner), t.channels[c], frames) &&
    u.channels == t.channels[c := u.channels[c]] &&
    forall p :: p != owner ==> u.Flow(p) == t.Flow(p)
  }

  /** The steps of a registration, put together. */
  lemma RegisteredTable(owner: Owner, c: ConnId, frames: seq<Bytes>, notice: Bytes, t: Table, u: Table, v: Table)
    requires t.Ok() && c in t.channels && c !in t.connections.Values
    requires var d := if owner in t.connections then Displaced(t, owner, notice) else t;
             u == d.(flows := d.flows[owner := F.Attach(d.Flow(owner), c)])
    requires SentOn(owner, c, frames, u, v)
    ensures var r := v.(connections := v.connections[owner := c]);
            r.Ok() && OnlyFor(owner, t, r) &&
            (r.Flow(owner), r.channels[c]) == Replay(F.Attach(t.Flow(owner), c), t.channels[c], frames) &&
            r.Active(owner) == Some(r.channels[c]) &&
            (owner in t.connections ==>
               var d := t.connections[owner];
               d in r.channels && r.channels[d] == Sent(t.channels[d], Frame(notice, None)))
  {
    ReplayKeepsId(F.Attach(t.Flow(owner), c), t.channels[c], frames);
    var r := v.(connections := v.connections[owner := c]);
    forall p | p != owner ensures r.Active(p) == t.Active(p) && r.Flow(p) == t.Flow(p) {
      assert v.Flow(p) == u.Flow(p) == t.Flow(p);
      if p in t.connections { assert t.connections[p] in t.connections.Values; }
    }
  }

  class HubRoutes {
    var connections: map<Owner, ConnId>
    /** Each hub's counts as they are when an operation starts: readers and
        writers change them between operations. */
    var flows: map<Owner, F.FlowState>
    var channels: map<ConnId, Channel>
    /** The connections told to end. */
    var cancelled: set<ConnId>
    const queues: AwayQueues

    function Value(): Table
      reads this
    {
      Table(connections, flows, channels)
    }

    /** `owner`'s part of the table and of the queues. */
    ghost function Picture(owner: Owner): Seen
      reads this, queues, queues.byOwner.Values
    {
      Seen(Value().Active(owner), Value().Flow(owner), queues.Of(owner))
    }

    constructor ()
      ensures Value() == Table(map[], map[], map[]) && cancelled == {}
      ensures fresh(queues) && queues.Valid() && queues.byOwner == map[]
    {
      connections, flows, channels, cancelled := map[], map[], map[], {};
      queues := new AwayQueues();
    }

    /** Offer a frame to a connection's writer. */
    method Send(c: ConnId, frame: Frame) returns (ok: bool)
      requires c in channels
      modifies this`channels
      ensures ok == old(channels[c]).open && channels == old(channels)[c := Sent(old(channels[c]), frame)]
    {
      ok := channels[c].open;
      if ok {
        channels := channels[c := channels[c].(queue := channels[c].queue + [frame])];
      }
    }

    // ----- Routing -----

    /** Charge a frame to `owner`'s connection and offer it. */
    method Offer(owner: Owner, frame: Bytes, charge: Option<nat>) returns (taken: bool)
      requires Value().Ok() && owner in connections
      modifies this`flows, this`channels
      ensures Value().Ok() && taken == Takes(old(Value()).Active(owner))
      ensures (Value().Active(owner), Value().Flow(owner)) ==
              Charged(old(Value()).Active(owner), old(Value()).Flow(owner), charge, frame)
      ensures OnlyFor(owner, old(Value()), Value())
      ensures queues.Valid() == old(queues.Valid()) && forall p :: queues.Of(p) == old(queues.Of(p))
    {
      var active := connections[owner];
      if charge.None? {
        taken := Send(active, Frame(frame, None));
        return;
      }
      var (flow, q) := F.QueueFor(Value().Flow(owner), charge.value, active, |frame|);
      flows := flows[owner := flow];
      taken := Send(active, Frame(frame, Some(q)));
      if !taken {
        flows := flows[owner := F.ReleaseQueued(flow, q)];
      }
    }

    /** Release the charge of a frame no connection was there to take. */
    method Release(owner: Owner, charge: Option<nat>)
      requires Value().Ok() && owner !in connections
      modifies this`flows
      ensures Value().Ok()
      ensures (Value().Active(owner), Value().Flow(owner)) ==
              Charged(old(Value()).Active(owner), old(Value()).Flow(owner), charge, [])
      ensures OnlyFor(owner, old(Value()), Value())
      ensures queues.Valid() == old(queues.Valid()) && forall p :: queues.Of(p) == old(queues.Of(p))
    {
      if charge.Some? {
        flows := flows[owner := F.ReleaseTransit(Value().Flow(owner), charge.value)];
      }
    }

    /** Keep a frame for `owner`'s next connection. */
    method Keep(owner: Owner, channel: ChannelId, frame: Bytes)
      requires queues.Valid()
      modifies queues, queues.byOwner.Values
      ensures queues.Valid() && Value() == old(Value())
      ensures Pushes(old(queues.Of(owner)), Entry(channel, frame), queues.Of(owner))
      ensures forall p :: p != owner ==> queues.Of(p) == old(queues.Of(p))
    {
      queues.Keep(owner, channel, frame);
    }

    /** Send a frame to `owner`'s connection, charged to it until written, or
        keep it for the next one.  `charge` is what it was charged until now. */
    method Route(owner: Owner, channel: ChannelId, frame: Bytes, charge: Option<nat>)
      requires Value().Ok() && queues.Valid()
      modifies this, queues, queues.byOwner.Values
      ensures Value().Ok() && queues.Valid()
      ensures Routed(old(Picture(owner)), charge, Entry(channel, frame), Picture(owner))
      ensures forall p :: p != owner ==> Picture(p) == old(Picture(p))
    {
      if owner in connections {
        var taken := Offer(owner, frame, charge);
        if !taken {
          Keep(owner, channel, frame);
        }
      } else {
        Keep(owner, channel, frame);
        Release(owner, charge);
      }
    }

    // ----- Registering -----

    /** The hub's previous connection is told and leaves the table. */
    method Displace(owner: Owner, notice: Bytes)
      requires Value().Ok() && owner in connections
      modifies this`connections, this`channels, this`cancelled
      ensures Value() == Displaced(old(Value()), owner, notice)
      ensures cancelled == old(cancelled) + {old(connections[owner])}
      ensures queues.Valid() == old(queues.Valid()) && forall p :: queues.Of(p) == old(queues.Of(p))
    {
      var c := connections[owner];
      connections := connections - {owner};
      var ok := Send(c, Frame(notice, None));
      cancelled := cancelled + {c};
    }

    /** Send `frames` on to connection `c`, charged to it. */
    method SendOn(owner: Owner, c: ConnId, frames: seq<Bytes>)
      requires c in channels && channels[c].id == c
      modifies this`flows, this`channels
      ensures SentOn(owner, c, frames, old(Value()), Value())
      ensures queues.Valid() == old(queues.Valid()) && forall p :: queues.Of(p) == old(queues.Of(p))
    {
      ghost var before := Value();
      for i := 0 to |frames|
        invariant SentOn(owner, c, frames[..i], before, Value())
      {
        ReplayKeepsId(before.Flow(owner), before.channels[c], frames[..i]);
        ReplaySnoc(before.Flow(owner), before.channels[c], frames, i);
        var (flow, q) := F.Queue(Value().Flow(owner), c, |frames[i]|);
        flows := flows[owner := flow];
        var ok := Send(c, Frame(frames[i], Some(q)));
        if !ok {
          flows := flows[owner := F.ReleaseQueued(flow, q)];
        }
      }
      assert frames[..|frames|] == frames;
    }

    /** Take what was kept for `owner`, which then has no queue. */
    method TakeKept(owner: Owner) returns (frames: seq<Bytes>)
      requires queues.Valid()
      modifies queues
      ensures queues.Valid() && frames == KeptFrames(old(queues.Of(owner))) && Value() == old(Value())
      ensures cancelled == old(cancelled)
      ensures queues.Of(owner) == EMPTY && forall p :: p != owner ==> queues.Of(p) == old(queues.Of(p))
    {
      frames := queues.TakeFor(owner);
    }

    /** The flow of `owner` follows connection `c`; what its previous connection
        still holds no longer counts. */
    method Attach(owner: Owner, c: ConnId)
      modifies this`flows
      ensures Value() == old(Value()).(flows := old(flows)[owner := F.Attach(old(Value()).Flow(owner), c)])
      ensures queues.Valid() == old(queues.Valid()) && forall p :: queues.Of(p) == old(queues.Of(p))
    {
      flows := flows[owner := F.Attach(Value().Flow(owner), c)];
    }

    method Insert(owner: Owner, c: ConnId)
      modifies this`connections
      ensures Value() == old(Value()).(connections := old(connections)[owner := c])
      ensures queues.Valid() == old(queues.Valid()) && forall p :: queues.Of(p) == old(queues.Of(p))
    {
      connections := connections[owner := c];
    }

    /** Make `c` the current connection of `owner`, replacing its previous one,
        and send it what was kept. */
    method RegisterActive(owner: Owner, c: ConnId, notice: Bytes)
      requires Value().Ok() && queues.Valid() && c in channels && c !in connections.Values
      modifies this, queues
      ensures Value().Ok() && queues.Valid()
      ensures Picture(owner) == Registered(old(Picture(owner)), old(channels[c]))
      ensures forall p :: p != owner ==> Picture(p) == old(Picture(p))
      ensures owner in old(connections) ==>
                var d := old(connections[owner]);
                d in channels && channels[d] == Sent(old(channels[d]), Frame(notice, None)) && d in cancelled
    {
      ghost var before := Value();
      if owner in connections {
        Displace(owner, notice);
      }
      Attach(owner, c);
      ghost var attached := Value();
      var frames := TakeKept(owner);
      SendOn(owner, c, frames);
      RegisteredTable(owner, c, frames, notice, before, attached, Value());
      Insert(owner, c);
    }

    // ----- Connections that end -----

    /** Unregister connection `c`, if it is still `owner`'s current one. */
    method ClearActiveIfOurs(owner: Owner, c: ConnId)
      requires Value().Ok()
      modifies this`connections, this`flows
      ensures Value().Ok() && channels == old(channels)
      ensures Picture(owner) == if owner in old(connections) && old(connections)[owner] == c
                                then Cleared(old(Picture(owner))) else old(Picture(owner))
      ensures forall p :: p != owner ==> Picture(p) == old(Picture(p))
    {
      if owner in connections && connections[owner] == c {
        connections := connections - {owner};
        flows := flows[owner := F.Detach(Value().Flow(owner), c)];
      }
    }

    /** End every hub's connection. */
    method DisconnectAll()
      requires Value().Ok()
      modifies this
      ensures Value().Ok() && connections == map[] && channels == old(channels)
      ensures cancelled == old(cancelled) + old(connections).Values
      ensures forall o :: Picture(o) == Cleared(old(Picture(o)))
    {
      var ended := connections;
      connections := map[];
      DetachEach(ended);
    }

    method DetachEach(ended: map<Owner, ConnId>)
      modifies this`flows, this`cancelled
      ensures cancelled == old(cancelled) + ended.Values
      ensures forall o ::
                Value().Flow(o) == if o in ended then F.Detach(old(Value()).Flow(o), ended[o]) else old(Value()).Flow(o)
    {
      var rest := ended.Keys;
      while rest != {}
        invariant rest <= ended.Keys
        invariant cancelled == old(cancelled) + set o | o in ended && o !in rest :: ended[o]
        invariant forall o ::
          Value().Flow(o) == if o in ended && o !in rest then F.Detach(old(Value()).Flow(o), ended[o]) else old(Value()).Flow(o)
      {
        var owner :| owner in rest;
        flows := flows[owner := F.Detach(Value().Flow(owner), ended[owner])];
        cancelled := cancelled + {ended[owner]};
        rest := rest - {owner};
      }
    }
  }
}
