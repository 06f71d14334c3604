/** Every step of the hub machine keeps its invariant. */
module HubProofs {
  import opened Types
  import opened Away
  import opened Hub
  import F = Flow

  lemma StartInv()
    ensures Inv(Hub.START)
  {
  }

  /** A connection left alone stays well-formed as the routed history grows. */
  lemma ConnKept(w: World, v: World, c: ConnId)
    requires c in w.conns && c in v.conns && ConnOk(w, c)
    requires v.conns[c] == w.conns[c] && w.routed <= v.routed
    requires v.flow.connection == Some(c) ==> w.conns[c].registered
    ensures ConnOk(v, c)
  {
  }

  lemma ConnsKept(w: World, v: World)
    requires ConnsOk(w) && v.conns == w.conns && w.routed <= v.routed
    requires v.flow.connection.Some? && v.flow.connection.value in w.conns ==> w.conns[v.flow.connection.value].registered
    ensures ConnsOk(v)
  {
    forall c | c in v.conns ensures ConnOk(v, c) { ConnKept(w, v, c); }
  }

  lemma OpenConns(w: World, v: World, c: ConnId)
    requires ConnsOk(w) && Counted(w) && c !in w.conns && v == w.(conns := w.conns[c := FRESH])
    ensures ConnsOk(v) && Counted(v)
  {
    forall d | d in v.conns ensures ConnOk(v, d) {
      if d != c { ConnKept(w, v, d); }
    }
  }

  lemma OpenInv(w: World, c: ConnId)
    requires Inv(w) && c !in w.conns
    ensures Inv(w.(conns := w.conns[c := FRESH]))
  {
    OpenConns(w, w.(conns := w.conns[c := FRESH]), c);
    HandedElsewhere(w.conns, c, FRESH, w.sessions);
  }

  lemma {:induction false} HandedElsewhere(conns: map<ConnId, Conn>, c: ConnId, k: Conn, sessions: seq<ConnId>)
    requires c in sessions ==> c in conns && conns[c].taken == k.taken
    ensures Handed(conns[c := k], sessions) == Handed(conns, sessions)
  {
    if sessions != [] {
      HandedElsewhere(conns, c, k, sessions[..|sessions| - 1]);
    }
  }

  /** Only the in-transit side changed. */
  lemma TransitChanged(w: World, t: seq<nat>, n: nat)
    requires Inv(w) && n == Sum(t) + LockTransit(w.lock)
    ensures Inv(w.(flow := w.flow.(inTransit := n), transit := t))
  {
    ConnsKept(w, w.(flow := w.flow.(inTransit := n), transit := t));
  }

  lemma ChargeInv(w: World, n: nat)
    requires Inv(w)
    ensures Inv(DoCharge(w, n))
  {
    assert (w.transit + [n])[..|w.transit|] == w.transit;
    TransitChanged(w, w.transit + [n], w.flow.inTransit + n);
  }

  lemma SumAbsorb(xs: seq<nat>, i: nat, j: nat)
    requires i < |xs| && j < |xs| && i != j
    ensures Sum(Without(xs[i := xs[i] + xs[j]], j)) == Sum(xs)
  {
    var merged := xs[i := xs[i] + xs[j]];
    SumUpdate(xs, i, xs[i] + xs[j]);
    assert merged[j] == xs[j];
    SumRemove(merged, j);
  }

  lemma TransitReplaced(w: World, t: seq<nat>)
    requires Inv(w) && Sum(t) == Sum(w.transit)
    ensures Inv(w.(transit := t))
  {
    TransitChanged(w, t, w.flow.inTransit);
    assert w.flow.(inTransit := w.flow.inTransit) == w.flow;
  }

  lemma AbsorbInv(w: World, i: nat, j: nat)
    requires Inv(w) && i < |w.transit| && j < |w.transit| && i != j
    ensures Inv(DoAbsorb(w, i, j))
  {
    SumAbsorb(w.transit, i, j);
    TransitReplaced(w, Without(w.transit[i := w.transit[i] + w.transit[j]], j));
  }

  lemma DropTransitInv(w: World, i: nat)
    requires Inv(w) && i < |w.transit|
    ensures w.transit[i] <= w.flow.inTransit
    ensures Inv(DoDropTransit(w, i))
  {
    SumRemove(w.transit, i);
    TransitChanged(w, Without(w.transit, i), w.flow.inTransit - w.transit[i]);
  }

  lemma DeliveredGrows(
    handed: seq<nat>, base: nat, routed: seq<Entry>, away: History, dropped: set<nat>, refused: set<nat>, e: Entry)
    requires Delivered(handed, base, routed, away, dropped, refused)
    ensures Delivered(handed, base, routed + [e], away, dropped, refused)
  {
    assert (routed + [e])[base..base + |away.entries|] == routed[base..base + |away.entries|];
  }

  lemma RouteBeginCounted(w: World, i: nat, e: Entry)
    requires Counted(w) && Attached(w) && w.lock.Idle? && i < |w.transit|
    ensures w.transit[i] <= w.flow.inTransit
    ensures Counted(DoRouteBegin(w, i, e)) && Attached(DoRouteBegin(w, i, e))
  {
    SumRemove(w.transit, i);
  }

  lemma RouteBeginLossy(w: World, i: nat, e: Entry)
    requires Lossy(w) && w.lock.Idle? && i < |w.transit|
    ensures Lossy(DoRouteBegin(w, i, e))
  {
    DeliveredGrows(Handed(w.conns, w.sessions) + [], Base(w), w.routed, w.away, w.dropped, w.refused, e);
  }

  lemma RouteBeginInv(w: World, i: nat, e: Entry)
    requires Inv(w) && w.lock.Idle? && i < |w.transit|
    ensures w.transit[i] <= w.flow.inTransit
    ensures Inv(DoRouteBegin(w, i, e))
  {
    RouteBeginCounted(w, i, e);
    RouteBeginLossy(w, i, e);
    ConnsKept(w, DoRouteBegin(w, i, e));
  }

  lemma RouteBounceInv(w: World)
    requires Inv(w) && w.lock.Bounced?
    ensures w.lock.charge.bytes <= w.flow.queued
    ensures Inv(DoRouteBounce(w))
  {
    ConnsKept(w, DoRouteBounce(w));
  }

  lemma RouteReleaseInv(w: World)
    requires Inv(w) && w.lock.Releasing?
    ensures w.lock.bytes <= w.flow.inTransit
    ensures Inv(DoRouteRelease(w))
  {
    ConnsKept(w, DoRouteRelease(w));
  }

  lemma DetachInv(w: World)
    requires Inv(w) && w.lock.Detaching?
    ensures Inv(DoDetach(w))
  {
    ConnsKept(w, DoDetach(w));
  }

  lemma ClearBeginInv(w: World, c: ConnId)
    requires Inv(w) && w.lock.Idle? && w.active == Some(c)
    ensures Inv(DoClearBegin(w, c))
  {
    ConnsKept(w, DoClearBegin(w, c));
  }

  lemma RegisterEndInv(w: World)
    requires Inv(w) && w.lock.Replaying? && w.lock.ranks == []
    ensures Inv(DoRegisterEnd(w))
  {
    ConnsKept(w, DoRegisterEnd(w));
  }

  lemma RegisterRefuseInv(w: World)
    requires Inv(w) && w.lock.ReplayRefused?
    ensures w.lock.charge.bytes <= w.flow.queued
    ensures Inv(DoRegisterRefuse(w))
  {
    ConnsKept(w, DoRegisterRefuse(w));
  }

  // ----- Sending to a connection -----

  lemma {:induction false} WeightRanks(outs: seq<Outgoing>, out: Outgoing)
    ensures Weight(outs + [out]) == Weight(outs) + if out.Terminal? then |out.frame| else 0
    ensures Ranks(outs + [out]) == Ranks(outs) + if out.Terminal? then [out.rank] else []
  {
    WeightAppend(outs, out);
    RanksConcat(outs, [out]);
  }

  /** An accepted frame joins the connection's queue and nothing else. */
  lemma AcceptOk(w: World, v: World, c: ConnId, out: Outgoing)
    requires c in w.conns && ConnOk(w, c) && w.conns[c].open
    requires c in v.conns && v.conns[c] == Accept(w.conns[c], out)
    requires v.routed == w.routed && v.flow == w.flow
    requires OutOk(w.routed, c, out) && (out.Terminal? ==> w.conns[c].registered)
    ensures ConnOk(v, c)
    ensures Weight(v.conns[c].Unwritten()) == Weight(w.conns[c].Unwritten()) + if out.Terminal? then |out.frame| else 0
  {
    var k, l := w.conns[c], v.conns[c];
    assert l.Unwritten() == k.Unwritten() + [out];
    WeightRanks(k.Unwritten(), out);
    assert k.written + l.Unwritten() == (k.written + k.Unwritten()) + [out];
    WeightRanks(k.written + k.Unwritten(), out);
  }

  /** One connection changed: the others are as they were. */
  lemma OneConnChanged(w: World, v: World, c: ConnId)
    requires ConnsOk(w) && c in w.conns && c in v.conns
    requires v.conns == w.conns[c := v.conns[c]] && ConnOk(v, c)
    requires v.routed == w.routed && v.flow.connection == w.flow.connection
    ensures ConnsOk(v)
  {
    forall d | d in v.conns ensures ConnOk(v, d) {
      if d != c { ConnKept(w, v, d); }
    }
  }

  lemma {:induction false} HandedLast(conns: map<ConnId, Conn>, c: ConnId, k: Conn, sessions: seq<ConnId>, r: nat)
    requires IsLast(sessions, c) && c in conns && k.taken == conns[c].taken + [r]
    requires forall i, j :: 0 <= i < j < |sessions| ==> sessions[i] != sessions[j]
    ensures Handed(conns[c := k], sessions) == Handed(conns, sessions) + [r]
  {
    HandedElsewhere(conns, c, k, sessions[..|sessions| - 1]);
  }

  /** One connection changed without taking a terminal frame on. */
  ghost predicate ConnStep(w: World, v: World, c: ConnId)
  {
    c in w.conns && c in v.conns &&
    v == w.(flow := v.flow, conns := w.conns[c := v.conns[c]]) &&
    v.flow.connection == w.flow.connection &&
    v.conns[c].registered == w.conns[c].registered && v.conns[c].taken == w.conns[c].taken &&
    (v.conns[c].open ==> w.conns[c].open) &&
    (w.lock == Attaching(c) ==> Weight(v.conns[c].Unwritten()) == 0)
  }

  lemma ConnStepAttached(w: World, v: World, c: ConnId)
    requires Attached(w) && ConnStep(w, v, c)
    ensures Attached(v)
  {
  }

  lemma ConnStepSessions(w: World, v: World, c: ConnId)
    requires SessionsOk(w) && ConnStep(w, v, c)
    ensures SessionsOk(v)
  {
  }

  lemma ConnStepLossy(w: World, v: World, c: ConnId)
    requires Lossy(w) && ConnStep(w, v, c)
    ensures Lossy(v)
  {
    HandedElsewhere(w.conns, c, v.conns[c], w.sessions);
    assert Handed(v.conns, v.sessions) == Handed(w.conns, w.sessions);
  }

  lemma ConnStepInv(w: World, v: World, c: ConnId)
    requires Inv(w) && ConnStep(w, v, c) && ConnOk(v, c) && Counted(v)
    ensures Inv(v)
  {
    OneConnChanged(w, v, c);
    ConnStepAttached(w, v, c);
    ConnStepSessions(w, v, c);
    ConnStepLossy(w, v, c);
  }

  lemma SendReplyInv(w: World, c: ConnId, frame: Bytes)
    requires Inv(w) && c in w.conns
    ensures Inv(w.(conns := w.conns[c := Accept(w.conns[c], Reply(frame))]))
  {
    var v := w.(conns := w.conns[c := Accept(w.conns[c], Reply(frame))]);
    if w.conns[c].open {
      AcceptOk(w, v, c, Reply(frame));
      ConnStepInv(w, v, c);
    } else {
      assert v.conns == w.conns;
      assert v == w;
    }
  }

  lemma WriterTakeInv(w: World, c: ConnId)
    requires Inv(w) && c in w.conns && w.conns[c].writing.None? && w.conns[c].queue != []
    ensures Inv(DoWriterTake(w, c))
  {
    var v := DoWriterTake(w, c);
    assert v.conns[c].Unwritten() == w.conns[c].Unwritten();
    ConnStepInv(w, v, c);
  }

  lemma WriterEndInv(w: World, c: ConnId)
    requires Inv(w) && c in w.conns
    ensures Inv(DoWriterEnd(w, c))
  {
    var v := DoWriterEnd(w, c);
    assert v.conns[c].Unwritten() == w.conns[c].Unwritten();
    ConnStepInv(w, v, c);
  }

  /** Releasing the oldest unwritten frame of `c` counts it out of the flow if
      `c` is the hub's connection, without clipping, and changes nothing if not. */
  lemma ReleaseCounted(w: World, v: World, c: ConnId)
    requires Counted(w) && c in w.conns && ConnOk(w, c) && w.conns[c].Unwritten() != []
    requires c in v.conns && v.conns[c].Unwritten() == w.conns[c].Unwritten()[1..]
    requires v == w.(flow := Release(w.flow, w.conns[c].Unwritten()[0]), conns := w.conns[c := v.conns[c]])
    ensures Counted(v) && v.flow.connection == w.flow.connection
    ensures Weight(v.conns[c].Unwritten()) <= Weight(w.conns[c].Unwritten())
    ensures w.flow.connection != Some(c) ==> v.flow == w.flow
    ensures var out := w.conns[c].Unwritten()[0];
            w.flow.connection == Some(c) && out.Terminal? ==>
              out.charge.bytes <= w.flow.queued && v.flow.queued == w.flow.queued - |out.frame|
  {
    assert OutOk(w.routed, c, w.conns[c].Unwritten()[0]);
  }

  lemma WriterDoneOk(w: World, v: World, c: ConnId)
    requires c in w.conns && ConnOk(w, c) && w.conns[c].open && w.conns[c].writing.Some?
    requires c in v.conns && v.routed == w.routed && v.flow.connection == w.flow.connection
    requires var k := w.conns[c]; v.conns[c] == k.(writing := None, written := k.written + [k.writing.value])
    ensures v.conns[c].Unwritten() == w.conns[c].Unwritten()[1..]
    ensures ConnOk(v, c)
  {
    var k, l := w.conns[c], v.conns[c];
    assert OutOk(w.routed, c, k.Unwritten()[0]);
    assert l.Unwritten() == k.Unwritten()[1..];
    assert l.written + l.Unwritten() == k.written + k.Unwritten();
    RanksConcat(l.written, l.Unwritten());
  }

  lemma WriterDoneInv(w: World, c: ConnId)
    requires Inv(w) && c in w.conns && w.conns[c].open && w.conns[c].writing.Some?
    ensures Inv(DoWriterDone(w, c))
    ensures var out, flow := w.conns[c].writing.value, DoWriterDone(w, c).flow;
            if w.flow.connection == Some(c) && out.Terminal?
            then |out.frame| <= w.flow.queued && flow == w.flow.(queued := w.flow.queued - |out.frame|)
            else flow == w.flow
  {
    var v := DoWriterDone(w, c);
    assert OutOk(w.routed, c, w.conns[c].Unwritten()[0]);
    WriterDoneOk(w, v, c);
    ReleaseCounted(w, v, c);
    ConnStepInv(w, v, c);
  }

  lemma DiscardOk(w: World, v: World, c: ConnId)
    requires c in w.conns && ConnOk(w, c) && !w.conns[c].open && w.conns[c].Unwritten() != []
    requires c in v.conns && v.routed == w.routed && v.flow.connection == w.flow.connection
    requires v.conns[c] == w.conns[c].(writing := v.conns[c].writing, queue := v.conns[c].queue)
    requires v.conns[c].Unwritten() == w.conns[c].Unwritten()[1..]
    ensures ConnOk(v, c)
  {
  }

  lemma DiscardInv(w: World, c: ConnId)
    requires Inv(w) && c in w.conns && !w.conns[c].open && w.conns[c].Unwritten() != []
    ensures Inv(DoDiscard(w, c))
  {
    var v := DoDiscard(w, c);
    assert v.conns[c].Unwritten() == w.conns[c].Unwritten()[1..];
    DiscardOk(w, v, c);
    ReleaseCounted(w, v, c);
    ConnStepInv(w, v, c);
  }

  // ----- Handing terminal frames on -----

  /** A terminal frame enters the queue of the last session's connection. */
  lemma HandOn(w: World, v: World, c: ConnId, rank: nat)
    requires ConnsOk(w) && SessionsOk(w) && IsLast(w.sessions, c)
    requires c in w.conns && w.conns[c].open && w.conns[c].registered && rank < |w.routed|
    requires var out := Terminal(rank, w.routed[rank].frame, F.Queued(c, |w.routed[rank].frame|, true));
             v == w.(conns := w.conns[c := Accept(w.conns[c], out)], lock := v.lock)
    ensures ConnsOk(v)
    ensures Handed(v.conns, v.sessions) == Handed(w.conns, w.sessions) + [rank]
    ensures Weight(v.conns[c].Unwritten()) == Weight(w.conns[c].Unwritten()) + |w.routed[rank].frame|
  {
    AcceptOk(w, v, c, Terminal(rank, w.routed[rank].frame, F.Queued(c, |w.routed[rank].frame|, true)));
    OneConnChanged(w, v, c);
    HandedLast(w.conns, c, v.conns[c], w.sessions, rank);
  }

  lemma RouteSendLossy(w: World, v: World)
    requires w.lock.Sending? && Lossy(w) && w.lock.rank == |w.routed| - 1 && !AwayFrom(w)
    requires v == w.(conns := v.conns, lock := Idle)
    requires Handed(v.conns, v.sessions) == Handed(w.conns, w.sessions) + [w.lock.rank]
    ensures Lossy(v)
  {
    assert w.away.entries == [];
    assert v.routed[Base(v)..Base(v)] == [];
    assert Kept(Base(v), w.dropped + w.refused) == Kept(Base(w), w.dropped + w.refused) + [w.lock.rank];
  }

  lemma RouteSendSent(w: World, v: World)
    requires w.lock.Sending? && Counted(w) && Attached(w) && SessionsOk(w)
    requires var c := w.lock.conn;
             c in v.conns && v == w.(conns := w.conns[c := v.conns[c]], lock := Idle) &&
             v.conns[c].registered &&
             Weight(v.conns[c].Unwritten()) == Weight(w.conns[c].Unwritten()) + |w.routed[w.lock.rank].frame|
    ensures Counted(v) && Attached(v) && SessionsOk(v)
  {
  }

  lemma RouteSendInv(w: World)
    requires Inv(w) && w.lock.Sending?
    ensures Inv(DoRouteSend(w))
  {
    var v := DoRouteSend(w);
    if w.conns[w.lock.conn].open {
      HandOn(w, v, w.lock.conn, w.lock.rank);
      RouteSendSent(w, v);
      RouteSendLossy(w, v);
    } else {
      ConnsKept(w, v);
    }
  }

  lemma RegisterChargeInv(w: World)
    requires Inv(w) && w.lock.Replaying? && w.lock.ranks != [] && w.lock.ranks[0] < |w.routed|
    ensures Inv(DoRegisterCharge(w))
  {
    ConnsKept(w, DoRegisterCharge(w));
  }

  lemma {:induction false} KeptIgnores(n: nat, lost: set<nat>, more: set<nat>)
    requires forall k :: k in more ==> k >= n || k in lost
    ensures Kept(n, lost + more) == Kept(n, lost)
  {
    if n > 0 { KeptIgnores(n - 1, lost, more); }
  }

  /** The kept ranks split at `base` into those before it and the away queue's. */
  lemma {:induction false} KeptSplit(base: nat, m: nat, lost: set<nat>, late: set<nat>)
    requires forall k: nat :: k < m ==> (k in late <==> ShiftOne(base, k) in lost)
    ensures Kept(base + m, lost) == Kept(base, lost) + Shift(base, Kept(m, late))
  {
    if m == 0 {
      assert Shift(base, Kept(0, late)) == [];
    } else {
      KeptSplit(base, m - 1, lost, late);
      assert ShiftOne(base, m - 1) == base + m - 1;
      var before := Kept(m - 1, late);
      assert m - 1 !in late ==> Shift(base, before + [m - 1]) == Shift(base, before) + [base + m - 1];
    }
  }

  /** Losing a kept rank takes exactly it out of the sequence. */
  lemma {:induction false} KeptWithout(n: nat, lost: set<nat>, xs: seq<nat>, r: nat, ys: seq<nat>)
    requires Kept(n, lost) == xs + [r] + ys
    ensures r < n && Kept(n, lost + {r}) == xs + ys
  {
    assert Kept(n, lost)[|xs|] == r;
    if n - 1 in lost {
      KeptWithout(n - 1, lost, xs, r, ys);
    } else if ys == [] {
      assert xs + [r] + ys == xs + [r];
      assert r == n - 1 && Kept(n, lost)[..|xs|] == xs;
      assert Kept(n - 1, lost) == xs;
      KeptIgnores(n - 1, lost, {r});
    } else {
      var m := |ys| - 1;
      assert xs + [r] + ys == (xs + [r] + ys[..m]) + [ys[m]];
      assert Kept(n, lost)[|xs| + 1 + m] == ys[m];
      assert Kept(n, lost)[..|xs| + 1 + m] == xs + [r] + ys[..m];
      assert Kept(n - 1, lost) == xs + [r] + ys[..m] && ys[m] == n - 1;
      KeptWithout(n - 1, lost, xs, r, ys[..m]);
    }
  }

  lemma RefuseLossy(w: World, v: World)
    requires w.lock.ReplaySending? && Lossy(w) && Base(w) >= 0
    requires v == w.(refused := w.refused + {w.lock.rank}, lock := ReplayRefused(w.lock.conn, w.lock.charge, w.lock.ranks))
    ensures Lossy(v)
  {
    var r := w.lock.rank;
    var handed := Handed(w.conns, w.sessions);
    assert handed + ([r] + w.lock.ranks) == handed + [r] + w.lock.ranks;
    KeptWithout(Base(w), w.dropped + w.refused, handed, r, w.lock.ranks);
    assert v.dropped + v.refused == (w.dropped + w.refused) + {r};
  }

  lemma ReplayLossy(w: World, v: World)
    requires w.lock.ReplaySending? && Lossy(w)
    requires v == w.(conns := v.conns, lock := Replaying(w.lock.conn, w.lock.ranks))
    requires Handed(v.conns, v.sessions) == Handed(w.conns, w.sessions) + [w.lock.rank]
    ensures Lossy(v)
  {
    var handed := Handed(w.conns, w.sessions);
    assert handed + ([w.lock.rank] + w.lock.ranks) == (handed + [w.lock.rank]) + w.lock.ranks;
  }

  lemma RegisterSendInv(w: World)
    requires Inv(w) && w.lock.ReplaySending?
    ensures Inv(DoRegisterSend(w))
  {
    var v := DoRegisterSend(w);
    if w.conns[w.lock.conn].open {
      HandOn(w, v, w.lock.conn, w.lock.rank);
      ReplayLossy(w, v);
    } else {
      ConnsKept(w, v);
      RefuseLossy(w, v);
    }
  }

  lemma AttachDelivered(
    handed: seq<nat>, base: nat, routed: seq<Entry>, away: History, dropped: set<nat>, refused: set<nat>)
    requires Delivered(handed, base, routed, away, dropped, refused) && base + |away.entries| == |routed|
    ensures Delivered(handed + Shift(base, Kept(|away.entries|, away.lost)), |routed|, routed, EMPTY, dropped, refused)
  {
    forall k: nat | k < |away.entries| ensures k in away.lost <==> ShiftOne(base, k) in dropped + refused { }
    KeptSplit(base, |away.entries|, dropped + refused, away.lost);
    assert routed[|routed|..|routed|] == [];
  }

  lemma RegisterAttachInv(w: World)
    requires Inv(w) && w.lock.Attaching?
    ensures Inv(DoRegisterAttach(w))
  {
    var v := DoRegisterAttach(w);
    ConnsKept(w, v);
    assert Handed(w.conns, w.sessions) + [] == Handed(w.conns, w.sessions);
    AttachDelivered(Handed(w.conns, w.sessions), Base(w), w.routed, w.away, w.dropped, w.refused);
  }

  lemma MarkConns(u: World, v: World, c: ConnId)
    requires ConnsOk(u) && c in u.conns
    requires v.routed == u.routed && v.flow == u.flow
    requires v.conns == u.conns[c := u.conns[c].(registered := true)]
    ensures ConnsOk(v)
  {
    forall d | d in v.conns ensures ConnOk(v, d) {
      if d != c { ConnKept(u, v, d); } else { assert ConnOk(u, c); }
    }
  }

  lemma MarkLossy(u: World, v: World, c: ConnId)
    requires Lossy(u) && u.lock.Idle? && c in u.conns && u.conns[c].taken == []
    requires v == u.(active := None, conns := u.conns[c := u.conns[c].(registered := true)],
                     sessions := u.sessions + [c], lock := Attaching(c))
    ensures Lossy(v)
  {
    HandedElsewhere(u.conns, c, v.conns[c], u.sessions);
    assert v.sessions[..|u.sessions|] == u.sessions;
    assert Handed(v.conns, v.sessions) == Handed(u.conns, u.sessions);
  }

  lemma RegisterMarkInv(u: World, v: World, c: ConnId)
    requires Inv(u) && u.lock.Idle? && c in u.conns && !u.conns[c].registered
    requires v == u.(active := None, conns := u.conns[c := u.conns[c].(registered := true)],
                     sessions := u.sessions + [c], lock := Attaching(c))
    ensures Inv(v)
  {
    MarkConns(u, v, c);
    MarkLossy(u, v, c);
    assert ConnOk(u, c);
  }

  lemma RegisterBeginInv(w: World, c: ConnId, notice: Bytes)
    requires Inv(w) && w.lock.Idle? && c in w.conns && !w.conns[c].registered
    ensures Inv(DoRegisterBegin(w, c, notice))
  {
    if w.active.Some? { SendReplyInv(w, w.active.value, notice); }
    RegisterMarkInv(w.(conns := Notified(w, notice)), DoRegisterBegin(w, c, notice), c);
  }

  lemma DroppedShift(base: nat, m: nat, dropped: set<nat>, before: set<nat>, lost: set<nat>, k: nat)
    requires k <= m && before <= lost && (forall x :: x in dropped ==> x < base + m)
    requires forall x: nat :: x < m ==> (x in before <==> ShiftOne(base, x) in dropped)
    ensures k in lost <==> ShiftOne(base, k) in dropped + (set x | x in lost :: ShiftOne(base, x))
  {
    var more := set x | x in lost :: ShiftOne(base, x);
    if ShiftOne(base, k) in more {
      var l :| l in lost && ShiftOne(base, l) == ShiftOne(base, k);
      assert l == k;
    }
  }

  lemma KeepDelivered(
    handed: seq<nat>, base: nat, routed: seq<Entry>, away: History, dropped: set<nat>, refused: set<nat>, kept: History)
    requires Delivered(handed, base, routed, away, dropped, refused) && base + |away.entries| < |routed|
    requires kept.entries == away.entries + [routed[base + |away.entries|]] && away.lost <= kept.lost && InRange(kept)
    ensures Delivered(handed, base, routed, kept, dropped + (set k | k in kept.lost :: ShiftOne(base, k)), refused)
  {
    var m := |away.entries|;
    var more := set k | k in kept.lost :: ShiftOne(base, k);
    assert routed[base..base + m + 1] == routed[base..base + m] + [routed[base + m]];
    forall k: nat | k <= m ensures k in kept.lost <==> ShiftOne(base, k) in dropped + more {
      DroppedShift(base, m, dropped, away.lost, kept.lost, k);
    }
    KeptIgnores(base, dropped + refused, more);
    assert dropped + more + refused == dropped + refused + more;
  }

  lemma KeepInv(w: World, kept: History)
    requires Inv(w) && w.lock.Keeping? && |kept.entries| == |w.away.entries| + 1
    requires Delivered(Handed(w.conns, w.sessions), Base(w), w.routed, kept, DoRouteKeep(w, kept).dropped, w.refused)
    ensures Inv(DoRouteKeep(w, kept))
  {
    var v := DoRouteKeep(w, kept);
    ConnsKept(w, v);
    assert Base(v) == Base(w);
    assert Handed(w.conns, w.sessions) + [] == Handed(w.conns, w.sessions);
  }

  lemma RouteKeepInv(w: World, kept: History)
    requires Inv(w) && w.lock.Keeping? && Pushes(w.away, w.routed[w.lock.rank], kept)
    ensures Inv(DoRouteKeep(w, kept))
  {
    assert Handed(w.conns, w.sessions) + [] == Handed(w.conns, w.sessions);
    PushGrows(w.away, w.routed[w.lock.rank], kept);
    KeepDelivered(Handed(w.conns, w.sessions), Base(w), w.routed, w.away, w.dropped, w.refused, kept);
    KeepInv(w, kept);
  }

  // ----- Runs -----

  /** Every atomic action keeps the invariant. */
  lemma StepKeepsInv(w: World, step: Step)
    requires Inv(w) && Enabled(w, step)
    ensures Inv(Apply(w, step))
  {
    match step
    case Open(c) => OpenInv(w, c);
    case Charge(n) => ChargeInv(w, n);
    case Absorb(i, j) => AbsorbInv(w, i, j);
    case DropTransit(i) => DropTransitInv(w, i);
    case RouteBegin(i, e) => RouteBeginInv(w, i, e);
    case RouteSend => RouteSendInv(w);
    case RouteBounce => RouteBounceInv(w);
    case RouteKeep(kept) => RouteKeepInv(w, kept);
    case RouteRelease => RouteReleaseInv(w);
    case RegisterBegin(c, notice) => RegisterBeginInv(w, c, notice);
    case RegisterAttach => RegisterAttachInv(w);
    case RegisterCharge => RegisterChargeInv(w);
    case RegisterSend => RegisterSendInv(w);
    case RegisterRefuse => RegisterRefuseInv(w);
    case RegisterEnd => RegisterEndInv(w);
    case ClearBegin(c) => ClearBeginInv(w, c);
    case Detach => DetachInv(w);
    case SendReply(c, frame) => SendReplyInv(w, c, frame);
    case WriterTake(c) => WriterTakeInv(w, c);
    case WriterDone(c) => WriterDoneInv(w, c);
    case WriterEnd(c) => WriterEndInv(w, c);
    case Discard(c) => DiscardInv(w, c);
  }

  /** `worlds[i + 1]` follows `worlds[i]` by `steps[i]`, from a hub never seen. */
  ghost predicate HubRun(worlds: seq<World>, steps: seq<Step>)
  {
    |worlds| == |steps| + 1 && worlds[0] == Hub.START &&
    forall i :: 0 <= i < |steps| ==> Enabled(worlds[i], steps[i]) && worlds[i + 1] == Apply(worlds[i], steps[i])
  }

  lemma {:induction false} RunInv(worlds: seq<World>, steps: seq<Step>, n: nat)
    requires HubRun(worlds, steps) && n <= |steps|
    ensures Inv(worlds[n])
  {
    if n == 0 {
      StartInv();
    } else {
      RunInv(worlds, steps, n - 1);
      StepKeepsInv(worlds[n - 1], steps[n - 1]);
      assert worlds[n - 1 + 1] == Apply(worlds[n - 1], steps[n - 1]);
    }
  }
}
