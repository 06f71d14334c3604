/** What the hub machine's invariant says about whole runs. */
module HubTheorems {
  import opened Types
  import opened Away
  import opened Hub
  import opened HubProofs
  import F = Flow

  // ----- Delivery -----

  /** The frame the router holds and has not yet placed. */
  function InHand(lock: Lock): seq<nat>
  {
    match lock
    case Sending(r, _, _) => [r]
    case Bounced(r, _) => [r]
    case Keeping(r, _) => [r]
    case _ => []
  }

  /** Where every frame of the run is, in the order the agent would send it. */
  ghost function Surviving(w: World): seq<nat>
    requires Base(w) >= 0
  {
    Handed(w.conns, w.sessions) + InReplay(w.lock) +
    Shift(Base(w), Kept(|w.away.entries|, w.away.lost)) + InHand(w.lock)
  }

  lemma DeliveredRanks(
    handed: seq<nat>, base: nat, routed: seq<Entry>, away: History, dropped: set<nat>, refused: set<nat>, inHand: seq<nat>)
    requires Delivered(handed, base, routed, away, dropped, refused)
    requires if inHand == [] then base + |away.entries| == |routed|
             else inHand == [|routed| - 1] && base + |away.entries| == |routed| - 1
    ensures handed + Shift(base, Kept(|away.entries|, away.lost)) + inHand == Kept(|routed|, dropped + refused)
  {
    forall k: nat | k < |away.entries| ensures k in away.lost <==> ShiftOne(base, k) in dropped + refused { }
    KeptSplit(base, |away.entries|, dropped + refused, away.lost);
  }

  lemma SurvivingRanks(w: World)
    requires Inv(w)
    ensures Surviving(w) == Kept(|w.routed|, w.dropped + w.refused)
  {
    DeliveredRanks(Handed(w.conns, w.sessions) + InReplay(w.lock), Base(w), w.routed, w.away, w.dropped, w.refused, InHand(w.lock));
  }

  /** Routing refines a lossy FIFO.  In every run, what the hub's successive
      connections accepted, then what a registration is sending on, then what
      the away queue holds, then the frame in the router's hands, are all the
      frames routed, in routing order across all terminals, without exactly
      those the away queue dropped or a dead writer refused. */
  lemma LossyFifo(worlds: seq<World>, steps: seq<Step>, n: nat)
    requires HubRun(worlds, steps) && n <= |steps|
    ensures Base(worlds[n]) >= 0
    ensures Surviving(worlds[n]) == Kept(|worlds[n].routed|, worlds[n].dropped + worlds[n].refused)
  {
    RunInv(worlds, steps, n);
    SurvivingRanks(worlds[n]);
  }

  /** Each connection's writer writes a prefix of what its queue accepted, and
      every frame it writes is the one routed under that rank. */
  lemma WritersKeepOrder(worlds: seq<World>, steps: seq<Step>, n: nat, c: ConnId)
    requires HubRun(worlds, steps) && n <= |steps| && c in worlds[n].conns
    ensures var k := worlds[n].conns[c];
            Ranks(k.written) <= k.taken &&
            (k.open ==> Ranks(k.written + k.Unwritten()) == k.taken) &&
            forall out :: out in k.written && out.Terminal? ==>
              out.rank < |worlds[n].routed| && out.frame == worlds[n].routed[out.rank].frame
  {
    RunInv(worlds, steps, n);
    var k := worlds[n].conns[c];
    assert ConnOk(worlds[n], c);
    forall out | out in k.written && out.Terminal?
      ensures out.rank < |worlds[n].routed| && out.frame == worlds[n].routed[out.rank].frame
    {
      var i :| 0 <= i < |k.written| && k.written[i] == out;
      assert OutOk(worlds[n].routed, c, k.written[i]);
    }
  }

  /** Everything a connection's queue accepted, replies included. */
  function All(k: Conn): seq<Outgoing>
  {
    k.written + k.Unwritten()
  }

  /** What a step adds to the queue of `c`. */
  function Added(w: World, step: Step, c: ConnId): seq<Outgoing>
  {
    if step.SendReply? && step.conn == c then [Reply(step.frame)]
    else if step.RegisterBegin? && w.active == Some(c) && step.conn != c then [Reply(step.notice)]
    else if ((step.RouteSend? && w.lock.Sending?) || (step.RegisterSend? && w.lock.ReplaySending?)) && w.lock.conn == c &&
            w.lock.rank < |w.routed|
    then [Terminal(w.lock.rank, w.routed[w.lock.rank].frame, w.lock.charge)]
    else []
  }

  /** Connection `l` follows `k` by accepting `added`, or by a step of its writer. */
  predicate ConnStep(k: Conn, l: Conn, added: seq<Outgoing>)
  {
    if added == [] then
      l == k.(registered := l.registered) ||
      (k.writing.None? && k.queue != [] && l == k.(writing := Some(k.queue[0]), queue := k.queue[1..])) ||
      (k.writing.Some? && l == k.(writing := None, written := k.written + [k.writing.value]))
    else
      |added| == 1 && k.open && l == Accept(k, added[0])
  }

  lemma StepOfConn(w: World, step: Step, c: ConnId)
    requires Enabled(w, step) && Attached(w) && c in w.conns
    requires c in Apply(w, step).conns && Apply(w, step).conns[c].open
    ensures w.conns[c].open && ConnStep(w.conns[c], Apply(w, step).conns[c], Added(w, step, c))
  {
  }

  lemma TakingKeepsAll(k: Conn, l: Conn)
    requires k.writing.None? && k.queue != [] && l == k.(writing := Some(k.queue[0]), queue := k.queue[1..])
    ensures All(l) == All(k)
  {
    assert k.queue == [k.queue[0]] + k.queue[1..];
    assert l.Unwritten() == k.Unwritten();
  }

  lemma WritingKeepsAll(k: Conn, l: Conn)
    requires k.writing.Some? && l == k.(writing := None, written := k.written + [k.writing.value])
    ensures All(l) == All(k)
  {
    assert k.Unwritten() == [k.writing.value] + k.queue && l.Unwritten() == k.queue;
  }

  lemma AcceptingKeepsAll(k: Conn, l: Conn, out: Outgoing)
    requires k.open && l == Accept(k, out)
    ensures All(l) == All(k) + [out]
  {
    assert l.Unwritten() == k.Unwritten() + [out];
  }

  lemma ConnKeepsAll(k: Conn, l: Conn, added: seq<Outgoing>)
    requires ConnStep(k, l, added)
    ensures All(l) == All(k) + added && k.written <= l.written
  {
    if added != [] {
      AcceptingKeepsAll(k, l, added[0]);
      assert added == [added[0]];
    } else {
      assert All(k) + [] == All(k);
      if l != k.(registered := l.registered) {
        if k.writing.None? { TakingKeepsAll(k, l); } else { WritingKeepsAll(k, l); }
      }
    }
  }

  /** While a writer lives, a step adds to its queue what is sent to it, and
      neither the writer nor anyone else takes anything out but by writing it. */
  lemma QueueKeepsAll(w: World, step: Step, c: ConnId)
    requires Enabled(w, step) && Attached(w) && c in w.conns
    requires c in Apply(w, step).conns && Apply(w, step).conns[c].open
    ensures w.conns[c].open && All(Apply(w, step).conns[c]) == All(w.conns[c]) + Added(w, step, c)
    ensures w.conns[c].written <= Apply(w, step).conns[c].written
  {
    StepOfConn(w, step, c);
    ConnKeepsAll(w.conns[c], Apply(w, step).conns[c], Added(w, step, c));
  }

  lemma ConnsStay(w: World, step: Step, c: ConnId)
    requires Enabled(w, step) && Attached(w) && c in w.conns
    ensures c in Apply(w, step).conns
  {
  }

  lemma NextHasConn(worlds: seq<World>, steps: seq<Step>, n: nat, c: ConnId)
    requires HubRun(worlds, steps) && n < |steps| && c in worlds[n].conns
    ensures c in worlds[n + 1].conns
  {
    RunInv(worlds, steps, n);
    ConnsStay(worlds[n], steps[n], c);
  }

  lemma {:induction false} ConnsLast(worlds: seq<World>, steps: seq<Step>, i: nat, j: nat, c: ConnId)
    requires HubRun(worlds, steps) && i <= j <= |steps| && c in worlds[i].conns
    ensures c in worlds[j].conns
    decreases j
  {
    if i < j {
      ConnsLast(worlds, steps, i, j - 1, c);
      NextHasConn(worlds, steps, j - 1, c);
    }
  }

  /** What `k` accepted leads what `l` accepted, and what it wrote stays written. */
  predicate Leads(k: Conn, l: Conn)
  {
    All(k) <= All(l) && k.written <= l.written
  }

  lemma LeadsOn(k: Conn, l: Conn, m: Conn)
    requires Leads(k, l) && Leads(l, m)
    ensures Leads(k, m)
  {
  }

  lemma {:induction false} AllLead(ks: seq<Conn>, j: nat)
    requires j < |ks| && forall n :: 0 <= n < j ==> Leads(ks[n], ks[n + 1])
    ensures Leads(ks[0], ks[j])
  {
    if j > 0 {
      AllLead(ks, j - 1);
      assert Leads(ks[j - 1], ks[j - 1 + 1]);
      LeadsOn(ks[0], ks[j - 1], ks[j]);
    }
  }

  lemma {:induction false} OpenBefore(worlds: seq<World>, steps: seq<Step>, i: nat, j: nat, c: ConnId)
    requires HubRun(worlds, steps) && i <= j <= |steps| && c in worlds[i].conns
    requires c in worlds[j].conns && worlds[j].conns[c].open
    ensures c in worlds[i].conns && worlds[i].conns[c].open
    decreases j
  {
    if i < j {
      ConnsLast(worlds, steps, i, j - 1, c);
      NextLeads(worlds, steps, j - 1, c);
      OpenBefore(worlds, steps, i, j - 1, c);
    }
  }

  /** Whatever a connection's queue accepts is written in order, replies among
      terminals' frames: while its writer lives, what was accepted by step `i`
      leads what is accepted by step `j`, and what was written stays written. */
  lemma QueueKeepsOrder(worlds: seq<World>, steps: seq<Step>, i: nat, j: nat, c: ConnId)
    requires HubRun(worlds, steps) && i <= j <= |steps| && c in worlds[i].conns
    requires c in worlds[j].conns && worlds[j].conns[c].open
    ensures Leads(worlds[i].conns[c], worlds[j].conns[c])
  {
    forall n | i <= n <= j ensures c in worlds[n].conns { ConnsLast(worlds, steps, i, n, c); }
    var ks := Past(worlds, i, j, c);
    forall n | 0 <= n < j - i ensures Leads(ks[n], ks[n + 1]) { PastLeads(worlds, steps, i, j, c, n); }
    AllLead(ks, j - i);
  }

  /** What connection `c` was at each point from `i` to `j`. */
  function Past(worlds: seq<World>, i: nat, j: nat, c: ConnId): (r: seq<Conn>)
    requires i <= j < |worlds| && forall n :: i <= n <= j ==> c in worlds[n].conns
    ensures |r| == j - i + 1 && forall n :: 0 <= n <= j - i ==> r[n] == worlds[i + n].conns[c]
  {
    seq(j - i + 1, n requires 0 <= n <= j - i => worlds[i + n].conns[c])
  }

  lemma PastLeads(worlds: seq<World>, steps: seq<Step>, i: nat, j: nat, c: ConnId, n: nat)
    requires HubRun(worlds, steps) && i + n < j <= |steps| && worlds[j].conns.Keys >= {c} && worlds[j].conns[c].open
    requires forall m :: i <= m <= j ==> c in worlds[m].conns
    ensures Leads(Past(worlds, i, j, c)[n], Past(worlds, i, j, c)[n + 1])
  {
    OpenBefore(worlds, steps, i + n + 1, j, c);
    NextLeads(worlds, steps, i + n, c);
  }

  lemma NextLeads(worlds: seq<World>, steps: seq<Step>, n: nat, c: ConnId)
    requires HubRun(worlds, steps) && n < |steps| && c in worlds[n].conns
    requires c in worlds[n + 1].conns && worlds[n + 1].conns[c].open
    ensures worlds[n].conns[c].open && Leads(worlds[n].conns[c], worlds[n + 1].conns[c])
  {
    RunInv(worlds, steps, n);
    QueueKeepsAll(worlds[n], steps[n], c);
  }

  /** At step `i` a registration offered rank `k` to a writer that had ended. */
  ghost predicate RefusedAt(worlds: seq<World>, steps: seq<Step>, i: nat, k: nat)
    requires HubRun(worlds, steps) && i < |steps|
  {
    var w := worlds[i];
    steps[i].RegisterSend? && w.lock.rank == k && !w.conns[w.lock.conn].open
  }

  lemma OnlyRegistrationRefuses(w: World, step: Step)
    requires Enabled(w, step)
    ensures Apply(w, step).refused ==
            w.refused + if step.RegisterSend? && !w.conns[w.lock.conn].open then {w.lock.rank} else {}
  {
  }

  /** A drained frame is lost on the way to a new connection if and only if that
      connection's writer had already ended when it was its turn. */
  lemma {:induction false} RefusedExactly(worlds: seq<World>, steps: seq<Step>, n: nat, k: nat)
    requires HubRun(worlds, steps) && n <= |steps|
    ensures k in worlds[n].refused <==> exists i: nat :: i < n && RefusedAt(worlds, steps, i, k)
  {
    if n > 0 {
      RefusedExactly(worlds, steps, n - 1, k);
      OnlyRegistrationRefuses(worlds[n - 1], steps[n - 1]);
      assert worlds[n - 1 + 1] == Apply(worlds[n - 1], steps[n - 1]);
      if RefusedAt(worlds, steps, n - 1, k) { assert k in worlds[n].refused; }
    }
  }

  /** What is offered to a dead writer was not dropped before. */
  lemma RefusedWasKept(w: World)
    requires Lossy(w) && w.lock.ReplaySending?
    ensures w.lock.rank !in w.dropped
  {
    var handed, kept := Handed(w.conns, w.sessions), Kept(Base(w), w.dropped + w.refused);
    assert (handed + InReplay(w.lock))[|handed|] == w.lock.rank;
    assert kept[|handed|] == w.lock.rank;
  }

  /** What the away queue drops was never offered. */
  lemma DroppedWasKept(w: World, kept: History)
    requires Lossy(w) && Enabled(w, RouteKeep(kept)) && w.dropped !! w.refused
    ensures DoRouteKeep(w, kept).dropped !! w.refused
  {
    forall k | k in kept.lost ensures ShiftOne(Base(w), k) !in w.refused { }
  }

  lemma StaysDisjoint(w: World, step: Step)
    requires Lossy(w) && Enabled(w, step) && w.dropped !! w.refused
    ensures Apply(w, step).dropped !! Apply(w, step).refused
  {
    match step
    case RegisterSend => RefusedWasKept(w);
    case RouteKeep(kept) => DroppedWasKept(w, kept);
    case _ =>
  }

  lemma NextIsDisjoint(worlds: seq<World>, steps: seq<Step>, n: nat)
    requires HubRun(worlds, steps) && n < |steps| && worlds[n].dropped !! worlds[n].refused
    ensures worlds[n + 1].dropped !! worlds[n + 1].refused
  {
    RunInv(worlds, steps, n);
    StaysDisjoint(worlds[n], steps[n]);
  }

  /** No frame is counted lost twice. */
  lemma {:induction false} NeverBoth(worlds: seq<World>, steps: seq<Step>, n: nat)
    requires HubRun(worlds, steps) && n <= |steps|
    ensures worlds[n].dropped !! worlds[n].refused
  {
    if n > 0 {
      NeverBoth(worlds, steps, n - 1);
      NextIsDisjoint(worlds, steps, n - 1);
    }
  }

  lemma {:induction false} SameKept(n: nat, lost: set<nat>, more: set<nat>)
    requires lost !! more && Kept(n, lost + more) == Kept(n, lost)
    ensures forall k :: k in more ==> k >= n
  {
    KeptSpec(n, lost);
    forall k | k in more ensures k >= n { assert k !in Kept(n, lost + more); }
  }

  /** No registration before step `n` found its connection's writer ended. */
  ghost predicate WritersOutlive(worlds: seq<World>, steps: seq<Step>, n: nat)
    requires HubRun(worlds, steps) && n <= |steps|
  {
    forall i: nat, k: nat :: i < n ==> !RefusedAt(worlds, steps, i, k)
  }

  lemma NoneRefused(worlds: seq<World>, steps: seq<Step>, n: nat)
    requires HubRun(worlds, steps) && n <= |steps|
    ensures worlds[n].refused == {} <==> WritersOutlive(worlds, steps, n)
  {
    if worlds[n].refused == {} {
      forall i: nat, k: nat | i < n ensures !RefusedAt(worlds, steps, i, k) { RefusedExactly(worlds, steps, n, k); }
    } else {
      var k :| k in worlds[n].refused;
      RefusedExactly(worlds, steps, n, k);
    }
  }

  /** Routing loses exactly what the away queue drops if and only if no
      registration finds its connection's writer ended. */
  lemma OnlyDroppedIsLost(worlds: seq<World>, steps: seq<Step>, n: nat)
    requires HubRun(worlds, steps) && n <= |steps|
    ensures Base(worlds[n]) >= 0
    ensures Surviving(worlds[n]) == Kept(|worlds[n].routed|, worlds[n].dropped) <==> WritersOutlive(worlds, steps, n)
  {
    var w := worlds[n];
    RunInv(worlds, steps, n);
    SurvivingRanks(w);
    NeverBoth(worlds, steps, n);
    NoneRefused(worlds, steps, n);
    if Surviving(w) == Kept(|w.routed|, w.dropped) {
      SameKept(|w.routed|, w.dropped, w.refused);
      assert w.refused == {};
    }
    if w.refused == {} {
      assert w.dropped + w.refused == w.dropped;
    }
  }

  // ----- Accounting -----

  /** In every reachable state the pending bytes are the live in-transit charges
      plus the terminal frames the current connection has yet to write, and
      between two changes of the route table the flow names the connection the
      table names. */
  lemma ExactAccounting(worlds: seq<World>, steps: seq<Step>, n: nat)
    requires HubRun(worlds, steps) && n <= |steps|
    ensures var w := worlds[n];
            w.flow.Pending() ==
              Sum(w.transit) + LockTransit(w.lock) +
              (if w.flow.connection.Some? && w.flow.connection.value in w.conns
               then Weight(w.conns[w.flow.connection.value].Unwritten()) + LockCharge(w.lock, w.flow.connection.value)
               else 0)
    ensures worlds[n].lock.Idle? ==>
              worlds[n].flow.connection == worlds[n].active &&
              LockTransit(worlds[n].lock) == 0
  {
    RunInv(worlds, steps, n);
  }

  /** No release clips at zero. */
  ghost predicate Unclipped(w: World, step: Step)
    requires Enabled(w, step)
  {
    match step
    case DropTransit(i) => w.transit[i] <= w.flow.inTransit
    case RouteBegin(i, _) => w.transit[i] <= w.flow.inTransit
    case RouteRelease => w.lock.bytes <= w.flow.inTransit
    case RouteBounce => Fits(w.flow, w.lock.charge)
    case RegisterRefuse => Fits(w.flow, w.lock.charge)
    case WriterDone(c) => w.conns[c].writing.value.Terminal? ==> Fits(w.flow, w.conns[c].writing.value.charge)
    case Discard(c) => w.conns[c].Unwritten()[0].Terminal? ==> Fits(w.flow, w.conns[c].Unwritten()[0].charge)
    case _ => true
  }

  predicate Fits(f: F.FlowState, q: F.Queued)
  {
    q.counted && f.connection == Some(q.connection) ==> q.bytes <= f.queued
  }

  lemma HeadFits(w: World, c: ConnId)
    requires Inv(w) && c in w.conns && w.conns[c].Unwritten() != [] && w.conns[c].Unwritten()[0].Terminal?
    ensures Fits(w.flow, w.conns[c].Unwritten()[0].charge)
  {
    assert ConnOk(w, c);
    assert OutOk(w.routed, c, w.conns[c].Unwritten()[0]);
  }

  lemma NothingClips(worlds: seq<World>, steps: seq<Step>, n: nat)
    requires HubRun(worlds, steps) && n < |steps|
    ensures Unclipped(worlds[n], steps[n])
  {
    RunInv(worlds, steps, n);
    var w := worlds[n];
    match steps[n]
    case DropTransit(i) => DropTransitInv(w, i);
    case RouteBegin(i, e) => RouteBeginInv(w, i, e);
    case WriterDone(c) => if w.conns[c].writing.value.Terminal? { HeadFits(w, c); }
    case Discard(c) => if w.conns[c].Unwritten()[0].Terminal? { HeadFits(w, c); }
    case _ =>
  }

  /** What a replaced or ended connection still writes or throws away changes
      no count. */
  lemma ReplacedConnectionCountsForNothing(worlds: seq<World>, steps: seq<Step>, n: nat, c: ConnId)
    requires HubRun(worlds, steps) && n < |steps|
    requires steps[n] == WriterDone(c) || steps[n] == Discard(c)
    requires worlds[n].flow.connection != Some(c)
    ensures worlds[n + 1].flow == worlds[n].flow
  {
    RunInv(worlds, steps, n);
    var w := worlds[n];
    assert ConnOk(w, c);
    assert OutOk(w.routed, c, w.conns[c].Unwritten()[0]);
  }

  // ----- A registration can lose what was kept -----

  lemma FirstPush(e: Entry)
    requires |e.frame| <= AWAY_BYTES_PER_CHANNEL
    ensures Pushes(EMPTY, e, History([e], {}))
  {
    var es := EMPTY.entries + [e];
    assert es == [e] && es[..0] == [];
    HeldAppend([], e, {}, e.channel, {e.channel});
    TotalAppend([], e, {});
    assert TrimChannel(es, {}, e.channel) == {};
    assert HubDrops(es, {}, [], {});
  }

  lemma Extend(worlds: seq<World>, steps: seq<Step>, step: Step) returns (ws: seq<World>, ss: seq<Step>)
    requires HubRun(worlds, steps) && Enabled(worlds[|steps|], step)
    ensures HubRun(ws, ss) && ws[|ss|] == Apply(worlds[|steps|], step)
  {
    ws, ss := worlds + [Apply(worlds[|steps|], step)], steps + [step];
  }

  lemma DeadConnection() returns (worlds: seq<World>, steps: seq<Step>)
    ensures HubRun(worlds, steps)
    ensures worlds[|steps|] == Hub.START.(conns := map[1 := FRESH.(open := false)])
  {
    worlds, steps := [Hub.START], [];
    worlds, steps := Extend(worlds, steps, Open(1));
    worlds, steps := Extend(worlds, steps, WriterEnd(1));
  }

  /** The frame is taken up and on its way to the away queue. */
  function TakenUp(e: Entry): World
  {
    Hub.START.(conns := map[1 := FRESH.(open := false)], flow := F.FlowState(1, None, 0), routed := [e], lock := Keeping(0, Some(1)))
  }

  lemma OneFrameTakenUp(e: Entry) returns (worlds: seq<World>, steps: seq<Step>)
    ensures HubRun(worlds, steps) && worlds[|steps|] == TakenUp(e)
  {
    worlds, steps := DeadConnection();
    worlds, steps := Extend(worlds, steps, Step.Charge(1));
    worlds, steps := Extend(worlds, steps, RouteBegin(0, e));
  }

  /** A push that drops nothing, as a step of the router. */
  lemma KeepsAll(w: World, kept: History, bytes: nat)
    requires w.lock.Keeping? && w.lock.transit == Some(bytes) && w.lock.rank < |w.routed| && Base(w) >= 0
    requires kept.lost == {} && Pushes(w.away, w.routed[w.lock.rank], kept)
    ensures Enabled(w, RouteKeep(kept)) && Apply(w, RouteKeep(kept)) == w.(away := kept, lock := Releasing(bytes))
  {
    assert DoRouteKeep(w, kept).dropped == w.dropped;
  }

  /** A hub that is away, whose only connection has stopped writing before it
      was registered, and whose one frame is kept. */
  lemma OneFrameKept(e: Entry) returns (worlds: seq<World>, steps: seq<Step>)
    requires |e.frame| <= AWAY_BYTES_PER_CHANNEL
    ensures HubRun(worlds, steps)
    ensures worlds[|steps|] ==
            Hub.START.(conns := map[1 := FRESH.(open := false)], away := History([e], {}), routed := [e])
  {
    worlds, steps := OneFrameTakenUp(e);
    FirstPush(e);
    KeepsAll(TakenUp(e), History([e], {}), 1);
    worlds, steps := Extend(worlds, steps, RouteKeep(History([e], {})));
    worlds, steps := Extend(worlds, steps, RouteRelease);
  }

  /** The new connection is registered and the kept frame is to be sent on. */
  lemma ReplayStarts(e: Entry) returns (worlds: seq<World>, steps: seq<Step>)
    requires |e.frame| <= AWAY_BYTES_PER_CHANNEL
    ensures HubRun(worlds, steps)
    ensures var w := worlds[|steps|];
            w.routed == [e] && w.dropped == {} && w.refused == {} &&
            w.lock == Replaying(1, [0]) && 1 in w.conns && !w.conns[1].open
  {
    worlds, steps := OneFrameKept(e);
    worlds, steps := Extend(worlds, steps, RegisterBegin(1, []));
    worlds, steps := Extend(worlds, steps, RegisterAttach);
    assert Kept(1, {}) == [0];
    assert worlds[|steps|].lock.ranks == [0];
  }

  /** The newest frame of a terminal, kept while its hub was away, is lost when
      the hub's next connection has stopped writing before it is registered. */
  lemma RegistrationCanLose(e: Entry) returns (worlds: seq<World>, steps: seq<Step>)
    requires |e.frame| <= AWAY_BYTES_PER_CHANNEL
    ensures HubRun(worlds, steps)
    ensures var w := worlds[|steps|]; w.routed == [e] && w.dropped == {} && w.refused == {0}
  {
    worlds, steps := ReplayStarts(e);
    worlds, steps := Extend(worlds, steps, RegisterCharge);
    worlds, steps := Extend(worlds, steps, RegisterSend);
  }
}
