/** All the hubs of a daemon behind one route table.

    Every table is keyed by owner; connections carry the owner their handshake
    established, and ids are never reused.  One lock guards the route table, so
    at most one hub's route or registration is in progress, while readers and
    writers of all hubs go on.  Each action done for an owner is a step of that
    owner's hub machine, run on what the shared tables hold for it. */
module Routes {
  import opened Types
  import opened Away
  import H = Hub
  import HP = HubProofs
  import HT = HubTheorems
  import F = Flow

  datatype Table = Table(
    active: Option<ConnId>, flow: F.FlowState, transit: seq<nat>, away: History,
    routed: seq<Entry>, dropped: set<nat>, refused: set<nat>, sessions: seq<ConnId>)

  const NEW_TABLE := Table(None, F.START, [], EMPTY, [], {}, {}, [])

  datatype Lock =
    | Free
    | Busy(owner: Owner, doing: H.Lock)
    /** The daemon is ending every connection; these are still counted. */
    | Ending(rest: map<Owner, ConnId>)

  datatype State = State(
    tables: map<Owner, Table>, conns: map<ConnId, H.Conn>, ownerOf: map<ConnId, Owner>, lock: Lock)

  const START := State(map[], map[], map[], Free)

  datatype Step =
    | At(owner: Owner, step: H.Step)
    | DisconnectAll
    | EndOne(owner: Owner)

  function TableOf(s: State, o: Owner): Table
  {
    if o in s.tables then s.tables[o] else NEW_TABLE
  }

  function LockFor(lock: Lock, o: Owner): H.Lock
  {
    match lock
    case Free => H.Idle
    case Busy(owner, doing) => if owner == o then doing else H.Idle
    case Ending(rest) => if o in rest then H.Detaching(rest[o]) else H.Idle
  }

  /** What the shared tables hold for `o`. */
  ghost function View(s: State, o: Owner): H.World
  {
    var t := TableOf(s, o);
    H.World(t.active, t.flow, t.transit, t.away,
            Mine(s.conns, s.ownerOf, o), LockFor(s.lock, o), t.routed, t.dropped, t.refused, t.sessions)
  }

  function TableFrom(w: H.World): Table
  {
    Table(w.active, w.flow, w.transit, w.away, w.routed, w.dropped, w.refused, w.sessions)
  }

  /** Steps that start by taking the route table's lock. */
  predicate Takes(step: H.Step)
  {
    step.RouteBegin? || step.RegisterBegin? || step.ClearBegin?
  }

  /** Steps of whoever holds it. */
  predicate Holds(step: H.Step)
  {
    step.RouteSend? || step.RouteBounce? || step.RouteKeep? || step.RouteRelease? || step.RegisterAttach? ||
    step.RegisterCharge? || step.RegisterSend? || step.RegisterRefuse? || step.RegisterEnd? || step.Detach?
  }

  ghost predicate Enabled(s: State, step: Step)
  {
    match step
    case At(o, st) =>
      H.Enabled(View(s, o), st) &&
      (Takes(st) ==> s.lock.Free?) && (Holds(st) ==> s.lock.Busy? && s.lock.owner == o) &&
      (st.Open? ==> st.conn !in s.conns)
    case DisconnectAll => s.lock.Free?
    case EndOne(o) => s.lock.Ending? && o in s.lock.rest
  }

  /** The lock after a step for `o` left it doing `doing`. */
  function LockAfter(lock: Lock, o: Owner, st: H.Step, doing: H.Lock): Lock
  {
    if !Takes(st) && !Holds(st) then lock
    else if doing.Idle? then Free
    else Busy(o, doing)
  }

  ghost function Apply(s: State, step: Step): State
    requires Enabled(s, step)
  {
    match step
    case At(o, st) =>
      var w := H.Apply(View(s, o), st);
      State(s.tables[o := TableFrom(w)], s.conns + w.conns,
            if st.Open? then s.ownerOf[st.conn := o] else s.ownerOf,
            LockAfter(s.lock, o, st, w.lock))
    case DisconnectAll =>
      s.(tables := map o | o in s.tables :: s.tables[o].(active := None),
         lock := Ending(map o | o in s.tables && s.tables[o].active.Some? :: s.tables[o].active.value))
    case EndOne(o) =>
      var t := TableOf(s, o);
      s.(tables := s.tables[o := t.(flow := F.Detach(t.flow, s.lock.rest[o]))],
         lock := if s.lock.rest.Keys == {o} then Free else Ending(s.lock.rest - {o}))
  }

  // ----- Isolation -----

  /** The id tables agree, and no lock is held for nothing. */
  ghost predicate Sane(s: State)
  {
    s.conns.Keys == s.ownerOf.Keys && (s.lock.Busy? ==> !s.lock.doing.Idle?)
  }

  /** Steps never create a connection but by opening it. */
  lemma SameConns(w: H.World, st: H.Step)
    requires H.Enabled(w, st) && H.Base(w) >= 0
    requires w.active.Some? ==> w.active.value in w.conns
    ensures H.Apply(w, st).conns.Keys == w.conns.Keys + if st.Open? then {st.conn} else {}
  {
  }

  lemma LockOutside(w: H.World, st: H.Step)
    requires H.Enabled(w, st) && !Takes(st) && !Holds(st)
    ensures H.Apply(w, st).lock == w.lock
  {
  }

  /** The connections of `o`, out of all of them. */
  ghost function Mine(conns: map<ConnId, H.Conn>, ownerOf: map<ConnId, Owner>, o: Owner): map<ConnId, H.Conn>
  {
    map c | c in conns && c in ownerOf && ownerOf[c] == o :: conns[c]
  }

  lemma MineAfter(
    conns: map<ConnId, H.Conn>, ownerOf: map<ConnId, Owner>, o: Owner, v: map<ConnId, H.Conn>, other: Owner)
    requires v.Keys == Mine(conns, ownerOf, o).Keys
    ensures Mine(conns + v, ownerOf, o) == v
    ensures other != o ==> Mine(conns + v, ownerOf, other) == Mine(conns, ownerOf, other)
  {
  }

  lemma MineOpened(
    conns: map<ConnId, H.Conn>, ownerOf: map<ConnId, Owner>, o: Owner, v: map<ConnId, H.Conn>, c: ConnId, other: Owner)
    requires c !in conns && v.Keys == Mine(conns, ownerOf, o).Keys + {c}
    ensures Mine(conns + v, ownerOf[c := o], o) == v
    ensures other != o ==> Mine(conns + v, ownerOf[c := o], other) == Mine(conns, ownerOf, other)
  {
  }

  lemma ConnsAfter(s: State, t: State, o: Owner, st: H.Step, v: map<ConnId, H.Conn>, other: Owner)
    requires Sane(s) && (st.Open? ==> st.conn !in s.conns)
    requires v.Keys == View(s, o).conns.Keys + if st.Open? then {st.conn} else {}
    requires t.conns == s.conns + v && t.ownerOf == if st.Open? then s.ownerOf[st.conn := o] else s.ownerOf
    ensures View(t, o).conns == v
    ensures other != o ==> View(t, other).conns == View(s, other).conns
    ensures t.conns.Keys == t.ownerOf.Keys
  {
    if st.Open? {
      MineOpened(s.conns, s.ownerOf, o, v, st.conn, other);
    } else {
      MineAfter(s.conns, s.ownerOf, o, v, other);
    }
  }

  lemma LockAfterFor(s: State, o: Owner, st: H.Step)
    requires Sane(s) && Enabled(s, At(o, st))
    ensures var lock := LockAfter(s.lock, o, st, H.Apply(View(s, o), st).lock);
            LockFor(lock, o) == H.Apply(View(s, o), st).lock &&
            (lock.Busy? ==> !lock.doing.Idle?) &&
            forall other :: other != o ==> LockFor(lock, other) == LockFor(s.lock, other)
  {
    if !Takes(st) && !Holds(st) { LockOutside(View(s, o), st); }
  }

  /** An action for `o` is the step of `o`'s hub, and no step at all for any
      other hub: neither its tables nor its connections change. */
  lemma ActionIsLocal(s: State, o: Owner, st: H.Step)
    requires Sane(s) && Enabled(s, At(o, st)) && H.Base(View(s, o)) >= 0
    requires View(s, o).active.Some? ==> View(s, o).active.value in View(s, o).conns
    ensures View(Apply(s, At(o, st)), o) == H.Apply(View(s, o), st)
    ensures forall other :: other != o ==> View(Apply(s, At(o, st)), other) == View(s, other)
    ensures Sane(Apply(s, At(o, st)))
  {
    var w := View(s, o);
    SameConns(w, st);
    LockAfterFor(s, o, st);
    forall other ensures other != o ==> View(Apply(s, At(o, st)), other) == View(s, other) {
      ConnsAfter(s, Apply(s, At(o, st)), o, st, H.Apply(w, st).conns, other);
    }
    ConnsAfter(s, Apply(s, At(o, st)), o, st, H.Apply(w, st).conns, o);
  }

  lemma EndingIsClearing(s: State, o: Owner)
    requires Sane(s) && s.lock.Free? && H.Inv(View(s, o))
    ensures Sane(Apply(s, DisconnectAll))
    ensures View(Apply(s, DisconnectAll), o) ==
            if View(s, o).active.Some? then H.DoClearBegin(View(s, o), View(s, o).active.value) else View(s, o)
    ensures H.Inv(View(Apply(s, DisconnectAll), o))
  {
    var t := Apply(s, DisconnectAll);
    var w := View(s, o);
    assert View(t, o).conns == w.conns;
    if w.active.Some? {
      assert View(t, o) == H.DoClearBegin(w, w.active.value);
      HP.ClearBeginInv(w, w.active.value);
    } else {
      assert View(t, o) == w;
    }
  }

  /** Ending one connection is the step of its hub, and none of any other's. */
  lemma EndOneIsLocal(s: State, o: Owner, other: Owner)
    requires Sane(s) && Enabled(s, EndOne(o))
    ensures Sane(Apply(s, EndOne(o)))
    ensures View(Apply(s, EndOne(o)), other) == if other == o then H.DoDetach(View(s, o)) else View(s, other)
  {
    var t := Apply(s, EndOne(o));
    assert View(t, other).conns == View(s, other).conns;
    if other != o { assert LockFor(t.lock, other) == LockFor(s.lock, other); }
  }

  lemma EndOneIsDetach(s: State, o: Owner, other: Owner)
    requires Sane(s) && Enabled(s, EndOne(o)) && H.Inv(View(s, o)) && H.Inv(View(s, other))
    ensures Sane(Apply(s, EndOne(o)))
    ensures View(Apply(s, EndOne(o)), other) == if other == o then H.DoDetach(View(s, o)) else View(s, other)
    ensures H.Inv(View(Apply(s, EndOne(o)), other))
  {
    EndOneIsLocal(s, o, other);
    if other == o { HP.DetachInv(View(s, o)); }
  }

  ghost predicate Inv(s: State)
  {
    Sane(s) && forall o :: H.Inv(View(s, o))
  }

  lemma StepKeepsInv(s: State, step: Step)
    requires Inv(s) && Enabled(s, step)
    ensures Inv(Apply(s, step))
  {
    match step
    case At(o, st) =>
      ActionIsLocal(s, o, st);
      HP.StepKeepsInv(View(s, o), st);
      forall p ensures H.Inv(View(Apply(s, step), p)) {
        if p != o { assert View(Apply(s, step), p) == View(s, p); }
      }
    case DisconnectAll =>
      forall o ensures H.Inv(View(Apply(s, step), o)) && Sane(Apply(s, step)) { EndingIsClearing(s, o); }
    case EndOne(o) =>
      forall p ensures H.Inv(View(Apply(s, step), p)) && Sane(Apply(s, step)) { EndOneIsDetach(s, o, p); }
  }

  ghost predicate Run(states: seq<State>, steps: seq<Step>)
  {
    |states| == |steps| + 1 && states[0] == START &&
    forall i :: 0 <= i < |steps| ==> Enabled(states[i], steps[i]) && states[i + 1] == Apply(states[i], steps[i])
  }

  lemma {:induction false} RunInv(states: seq<State>, steps: seq<Step>, n: nat)
    requires Run(states, steps) && n <= |steps|
    ensures Inv(states[n])
  {
    if n == 0 {
      forall o ensures H.Inv(View(START, o)) {
        HP.StartInv();
        assert View(START, o) == H.START;
      }
    } else {
      RunInv(states, steps, n - 1);
      StepKeepsInv(states[n - 1], steps[n - 1]);
      assert states[n - 1 + 1] == Apply(states[n - 1], steps[n - 1]);
    }
  }

  /** Every terminal frame `c` holds or wrote is one routed to its own hub. */
  ghost predicate HoldsOwn(s: State, c: ConnId)
    requires c in s.conns
  {
    c in s.ownerOf &&
    var routed := TableOf(s, s.ownerOf[c]).routed;
    H.AllOk(routed, c, s.conns[c].written) && H.AllOk(routed, c, s.conns[c].Unwritten())
  }

  /** Owner isolation over whole runs: every terminal frame a connection holds
      or wrote is one the router took up for that connection's own hub, and
      every frame in an away queue is one of its hub's. */
  lemma OwnerIsolation(states: seq<State>, steps: seq<Step>, n: nat)
    requires Run(states, steps) && n <= |steps|
    ensures forall c :: c in states[n].conns ==> HoldsOwn(states[n], c)
    ensures forall o, e :: e in TableOf(states[n], o).away.entries ==> e in TableOf(states[n], o).routed
  {
    RunInv(states, steps, n);
    var s := states[n];
    forall c | c in s.conns ensures HoldsOwn(s, c) {
      var w := View(s, s.ownerOf[c]);
      assert H.Inv(w);
      assert H.ConnOk(w, c);
    }
    forall o, e | e in TableOf(s, o).away.entries ensures e in TableOf(s, o).routed {
      assert H.Lossy(View(s, o));
    }
  }

  /** For every hub of the daemon and every interleaving: what its successive
      connections accepted and what is still held are the frames routed to it,
      in order, without exactly those dropped or refused. */
  lemma EveryHubIsALossyFifo(states: seq<State>, steps: seq<Step>, n: nat, o: Owner)
    requires Run(states, steps) && n <= |steps|
    ensures var w := View(states[n], o);
            H.Base(w) >= 0 && HT.Surviving(w) == Kept(|w.routed|, w.dropped + w.refused)
  {
    RunInv(states, steps, n);
    HT.SurvivingRanks(View(states[n], o));
  }
}
