/** Every byte a hub is charged in transit is somewhere on the way: read and not
    yet batched, buffered, sent to the router, or in the router's hands.

    The charges are followed as multisets, so the router always finds the charge
    of the item it takes up, and the batch loop those it merges. */
module Charges {
  import opened Types
  import B = Batch
  import H = Hub
  import P = Pipeline
  import R = Routes

  // ----- Where the charges are -----

  function ChargeOf(owner: Owner, charge: B.Charge, o: Owner): multiset<nat>
  {
    if owner == o then multiset{charge.bytes} else multiset{}
  }

  /** The charges of hub `o` among events read and not yet batched. */
  function Waiting(events: seq<B.Event>, o: Owner): multiset<nat>
  {
    if events == [] then multiset{}
    else ChargeOf(events[0].owner, events[0].charge, o) + Waiting(events[1..], o)
  }

  function InBuffer(b: B.Buffer, o: Owner): multiset<nat>
  {
    if b.charge.Some? then ChargeOf(b.owner, b.charge.value, o) else multiset{}
  }

  /** Those of what is buffered, terminal by terminal in any order. */
  ghost function Buffered(bs: map<ChannelId, B.Buffer>, o: Owner): multiset<nat>
    decreases |bs|
  {
    if bs == map[] then multiset{}
    else
      var c :| c in bs;
      InBuffer(bs[c], o) + Buffered(bs - {c}, o)
  }

  function OfItem(item: B.Batched, o: Owner): multiset<nat>
  {
    ChargeOf(P.OwnerOf(item), B.ChargeOf(item), o)
  }

  /** Those of the items sent and not yet taken up. */
  function Unrouted(items: seq<B.Batched>, o: Owner): multiset<nat>
  {
    if items == [] then multiset{} else Unrouted(items[..|items| - 1], o) + OfItem(items[|items| - 1], o)
  }

  ghost function InBatcher(b: B.State, taken: nat, o: Owner): multiset<nat>
    requires taken <= |b.sent|
  {
    Buffered(b.buffers, o) + Unrouted(b.sent[taken..], o)
  }

  ghost function OnTheWay(s: P.State, o: Owner): multiset<nat>
    requires |s.stamps| <= |s.Sent()|
  {
    Waiting(s.inbox, o) + InBatcher(s.Batcher(), |s.stamps|, o)
  }

  // ----- Sums of charges do not depend on the order -----

  lemma SomeBuffer(bs: map<ChannelId, B.Buffer>, o: Owner) returns (d: ChannelId)
    requires bs != map[]
    ensures d in bs && Buffered(bs, o) == InBuffer(bs[d], o) + Buffered(bs - {d}, o)
  {
    d :| d in bs && Buffered(bs, o) == InBuffer(bs[d], o) + Buffered(bs - {d}, o);
  }

  lemma EitherOrder(bs: map<ChannelId, B.Buffer>, c: ChannelId, d: ChannelId, f: map<ChannelId, B.Buffer> -> multiset<nat>,
                    x: multiset<nat>, y: multiset<nat>)
    requires f(bs) == x + f(bs - {d}) && f(bs - {d}) == y + f(bs - {d} - {c}) && f(bs - {c}) == x + f(bs - {c} - {d})
    ensures f(bs) == y + f(bs - {c})
  {
    assert bs - {d} - {c} == bs - {c} - {d};
  }

  /** The buffer of any one terminal, and the others. */
  lemma {:induction false} PickBuffer(bs: map<ChannelId, B.Buffer>, c: ChannelId, o: Owner)
    requires c in bs
    ensures Buffered(bs, o) == InBuffer(bs[c], o) + Buffered(bs - {c}, o)
    decreases |bs|
  {
    var d := SomeBuffer(bs, o);
    if d != c {
      PickBuffer(bs - {d}, c, o);
      PickBuffer(bs - {c}, d, o);
      EitherOrder(bs, c, d, m => Buffered(m, o), InBuffer(bs[d], o), InBuffer(bs[c], o));
    }
  }

  lemma PutBuffer(bs: map<ChannelId, B.Buffer>, c: ChannelId, b: B.Buffer, o: Owner)
    ensures Buffered(bs[c := b], o) == InBuffer(b, o) + Buffered(bs - {c}, o)
  {
    PickBuffer(bs[c := b], c, o);
    assert bs[c := b] - {c} == bs - {c};
  }

  lemma WithoutBuffer(bs: map<ChannelId, B.Buffer>, c: ChannelId, o: Owner)
    requires c !in bs || bs[c].charge.None?
    ensures Buffered(bs - {c}, o) == Buffered(bs, o)
  {
    if c in bs { PickBuffer(bs, c, o); } else { assert bs - {c} == bs; }
  }

  lemma UnroutedSnoc(sent: seq<B.Batched>, item: B.Batched, taken: nat, o: Owner)
    requires taken <= |sent|
    ensures Unrouted((sent + [item])[taken..], o) == Unrouted(sent[taken..], o) + OfItem(item, o)
  {
    var items := sent[taken..];
    assert (sent + [item])[taken..] == items + [item];
    assert (items + [item])[..|items|] == items;
  }

  // ----- The batch loop moves charges and changes none -----

  /** Buffers are charged to their own hub, and only for what they hold. */
  ghost predicate Tidy(b: B.State)
  {
    forall c :: c in b.buffers ==> TidyBuffer(b.buffers[c])
  }

  predicate TidyBuffer(b: B.Buffer)
  {
    (b.data == [] <==> b.charge.None?) && (b.charge.Some? ==> b.charge.value.flow == b.owner)
  }

  lemma StepsAreTidy(steps: seq<B.Step>)
    requires forall i :: 0 <= i < |steps| && steps[i].Accepts? ==> B.WellFormed(steps[i].event)
    ensures Tidy(B.After(steps))
  {
    var b := B.After(steps);
    var g := B.BatchingPreservesStreams(steps);
    forall c | c in b.buffers ensures TidyBuffer(b.buffers[c]) {
      assert B.BufferOk(b.buffers[c], c, g.held[c]);
      B.NoReadsNoData(g.held[c], c, b.buffers[c].owner);
    }
  }

  lemma TakeMoves(b: B.State, c: ChannelId, taken: nat, o: Owner)
    requires Tidy(b) && taken <= |b.sent|
    ensures var t := B.Take(b, c);
            Tidy(t) && taken <= |t.sent| && InBatcher(t, taken, o) == InBatcher(b, taken, o)
    ensures c in B.Take(b, c).buffers ==> B.Take(b, c).buffers[c].charge.None?
  {
    if c in b.buffers && b.buffers[c].data != [] {
      var buf := b.buffers[c];
      PickBuffer(b.buffers, c, o);
      PutBuffer(b.buffers, c, B.Emptied(buf), o);
      UnroutedSnoc(b.sent, B.Batch(buf.owner, c, buf.lastNumber, buf.data, buf.charge), taken, o);
    }
  }

  lemma {:induction false} FlushMoves(b: B.State, order: seq<ChannelId>, taken: nat, o: Owner)
    requires Tidy(b) && taken <= |b.sent|
    ensures var t := B.Flush(b, order);
            Tidy(t) && taken <= |t.sent| && InBatcher(t, taken, o) == InBatcher(b, taken, o)
  {
    if order != [] {
      var n := |order| - 1;
      FlushMoves(b, order[..n], taken, o);
      TakeMoves(B.Flush(b, order[..n]), order[n], taken, o);
    }
  }

  lemma ClaimMoves(b: B.State, c: ChannelId, owner: Owner, taken: nat, o: Owner)
    requires Tidy(b) && taken <= |b.sent|
    ensures var t := B.Claim(b, c, owner);
            Tidy(t) && taken <= |t.sent| && t.buffers[c].owner == owner &&
            InBatcher(t, taken, o) == InBatcher(b, taken, o)
  {
    if c !in b.buffers {
      WithoutBuffer(b.buffers, c, o);
      PutBuffer(b.buffers, c, B.Buffer(owner, [], 0, None), o);
    } else if b.buffers[c].owner != owner {
      var t := B.Take(b, c);
      TakeMoves(b, c, taken, o);
      WithoutBuffer(t.buffers, c, o);
      PutBuffer(t.buffers, c, t.buffers[c].(owner := owner), o);
    }
  }

  /** What a charge becomes when another joins it. */
  function Join(charge: Option<B.Charge>, e: B.Event): multiset<nat>
  {
    if charge.Some? then multiset{charge.value.bytes + e.charge.bytes} else multiset{e.charge.bytes}
  }

  function Alone(charge: Option<B.Charge>): multiset<nat>
  {
    if charge.Some? then multiset{charge.value.bytes} else multiset{}
  }

  /** For the event's hub, its charge is added, or joins the one of its buffer;
      for any other hub nothing changes. */
  ghost predicate Adds(before: multiset<nat>, after: multiset<nat>, charge: Option<B.Charge>, e: B.Event, o: Owner)
  {
    if e.owner == o then after + Alone(charge) == before + Join(charge, e) else after == before
  }

  lemma ExtendAdds(b: B.State, e: B.Event, taken: nat, o: Owner)
    requires Tidy(b) && taken <= |b.sent| && e.Output? && B.WellFormed(e)
    requires e.channel in b.buffers && b.buffers[e.channel].owner == e.owner
    ensures var t := B.Extend(b, e);
            Tidy(t) && taken <= |t.sent| &&
            Adds(InBatcher(b, taken, o), InBatcher(t, taken, o), b.buffers[e.channel].charge, e, o)
  {
    PickBuffer(b.buffers, e.channel, o);
    PutBuffer(b.buffers, e.channel, B.Extend(b, e).buffers[e.channel], o);
  }

  lemma OutputAdds(b: B.State, e: B.Event, taken: nat, o: Owner)
    requires Tidy(b) && taken <= |b.sent| && B.WellFormed(e) && e.Output?
    ensures var t := B.Accept(b, e);
            taken <= |t.sent| && Adds(InBatcher(b, taken, o), InBatcher(t, taken, o), P.Joined(b, e), e, o)
  {
    var claimed := B.Claim(b, e.channel, e.owner);
    ClaimMoves(b, e.channel, e.owner, taken, o);
    ExtendAdds(claimed, e, taken, o);
    TakeMoves(B.Extend(claimed, e), e.channel, taken, o);
  }

  lemma NoticeAdds(b: B.State, e: B.Event, taken: nat, o: Owner)
    requires Tidy(b) && taken <= |b.sent| && B.WellFormed(e) && e.Notice?
    ensures var t := B.Accept(b, e);
            taken <= |t.sent| && Adds(InBatcher(b, taken, o), InBatcher(t, taken, o), P.Joined(b, e), e, o)
  {
    TakeMoves(b, e.channel, taken, o);
    PassAdds(B.Take(b, e.channel), e, taken, o);
  }

  lemma PassAdds(b: B.State, e: B.Event, taken: nat, o: Owner)
    requires taken <= |b.sent| && e.Notice? && (e.channel in b.buffers ==> b.buffers[e.channel].charge.None?)
    ensures var t := B.State(if e.endsChannel then b.buffers - {e.channel} else b.buffers, b.sent + [B.Passed(e)]);
            taken <= |t.sent| && InBatcher(t, taken, o) == InBatcher(b, taken, o) + ChargeOf(e.owner, e.charge, o)
  {
    WithoutBuffer(b.buffers, e.channel, o);
    UnroutedSnoc(b.sent, B.Passed(e), taken, o);
  }

  lemma AcceptAdds(b: B.State, e: B.Event, taken: nat, o: Owner)
    requires Tidy(b) && taken <= |b.sent| && B.WellFormed(e)
    ensures var t := B.Accept(b, e);
            taken <= |t.sent| && Adds(InBatcher(b, taken, o), InBatcher(t, taken, o), P.Joined(b, e), e, o)
  {
    if e.Output? { OutputAdds(b, e, taken, o); } else { NoticeAdds(b, e, taken, o); }
  }

  // ----- The flow's charges are those on the way -----

  ghost predicate Joined(s: P.State)
  {
    |s.stamps| <= |s.Sent()| && forall o :: multiset(s.Transit(o)) == OnTheWay(s, o)
  }

  lemma WithoutOne(xs: seq<nat>, i: nat)
    requires i < |xs|
    ensures multiset(H.Without(xs, i)) == multiset(xs) - multiset{xs[i]}
  {
    assert xs == xs[..i] + [xs[i]] + xs[i + 1..];
  }

  lemma Replaced(xs: seq<nat>, i: nat, v: nat)
    requires i < |xs|
    ensures multiset(xs[i := v]) == multiset(xs) - multiset{xs[i]} + multiset{v}
  {
  }

  /** In `zs` the charges `x` and `y` of `xs` are one. */
  ghost predicate Merged(xs: seq<nat>, zs: seq<nat>, x: nat, y: nat)
  {
    var both: nat := x + y;
    multiset(zs) + multiset{x} + multiset{y} == multiset(xs) + multiset{both}
  }

  lemma AbsorbMerges(xs: seq<nat>, i: nat, j: nat, zs: seq<nat>)
    requires i < |xs| && j < |xs| && i != j && zs == H.Without(xs[i := xs[i] + xs[j]], j)
    ensures Merged(xs, zs, xs[i], xs[j])
  {
    var ys := xs[i := xs[i] + xs[j]];
    Replaced(xs, i, xs[i] + xs[j]);
    WithoutOne(ys, j);
    assert xs[i] in multiset(xs) && ys[j] in multiset(ys);
  }

  /** What a step at the route table does to the charges of `o`. */
  lemma TransitAfter(s: R.State, r: R.Step, o: Owner)
    requires R.Enabled(s, r)
    ensures var before, after := R.TableOf(s, o).transit, R.TableOf(R.Apply(s, r), o).transit;
            if !(r.At? && r.owner == o) then after == before
            else match r.step
              case Charge(n) => after == before + [n]
              case Absorb(i, j) => after == H.Without(before[i := before[i] + before[j]], j)
              case DropTransit(i) => after == H.Without(before, i)
              case RouteBegin(i, _) => after == H.Without(before, i)
              case _ => after == before
  {
  }

  lemma {:induction false} WaitingSnoc(events: seq<B.Event>, e: B.Event, o: Owner)
    ensures Waiting(events + [e], o) == Waiting(events, o) + ChargeOf(e.owner, e.charge, o)
  {
    if events == [] {
      assert events + [e] == [e] && [e][1..] == [];
    } else {
      WaitingSnoc(events[1..], e, o);
      assert (events + [e])[1..] == events[1..] + [e];
    }
  }

  lemma ReadsJoin(z: P.Codec, s: P.State, e: B.Event)
    requires Joined(s) && P.Enabled(z, s, P.Reads(e))
    ensures Joined(P.Apply(z, s, P.Reads(e)))
  {
    var t := P.Apply(z, s, P.Reads(e));
    forall o ensures multiset(t.Transit(o)) == OnTheWay(t, o) {
      TransitAfter(s.routes, R.At(e.owner, H.Charge(e.charge.bytes)), o);
      WaitingSnoc(s.inbox, e, o);
      assert multiset(s.Transit(o)) == OnTheWay(s, o);
    }
  }

  /** The charge of an event the batch loop takes, seen from both sides. */
  lemma SameMerge(transit: multiset<nat>, transit': multiset<nat>, rest: multiset<nat>, batcher: multiset<nat>,
                  batcher': multiset<nat>, charge: Option<B.Charge>, e: B.Event, o: Owner)
    requires transit == ChargeOf(e.owner, e.charge, o) + rest + batcher && Adds(batcher, batcher', charge, e, o)
    requires if e.owner == o && charge.Some?
             then transit' + multiset{charge.value.bytes} + multiset{e.charge.bytes} == transit + Join(charge, e)
             else transit' == transit
    ensures transit' == rest + batcher'
  {
    if e.owner == o && charge.Some? {
      var x, y := multiset{charge.value.bytes}, multiset{e.charge.bytes};
      assert transit' + x + y == y + rest + (batcher + Join(charge, e));
      assert transit' + x + y == y + rest + (batcher' + x);
      assert transit' == transit' + x + y - x - y;
    }
  }

  lemma AbsorbTransit(routes: R.State, owner: Owner, i: nat, j: nat, x: nat, y: nat)
    requires R.Enabled(routes, R.At(owner, H.Absorb(i, j)))
    requires R.TableOf(routes, owner).transit[i] == x && R.TableOf(routes, owner).transit[j] == y
    ensures Merged(R.TableOf(routes, owner).transit, R.TableOf(R.Apply(routes, R.At(owner, H.Absorb(i, j))), owner).transit, x, y)
  {
    var after := R.TableOf(R.Apply(routes, R.At(owner, H.Absorb(i, j))), owner).transit;
    AbsorbAfter(routes, owner, i, j, owner);
    AbsorbMerges(R.TableOf(routes, owner).transit, i, j, after);
  }

  lemma AbsorbAfter(routes: R.State, owner: Owner, i: nat, j: nat, o: Owner)
    requires R.Enabled(routes, R.At(owner, H.Absorb(i, j)))
    ensures var before, after := R.TableOf(routes, o).transit, R.TableOf(R.Apply(routes, R.At(owner, H.Absorb(i, j))), o).transit;
            after == if owner == o then H.Without(before[i := before[i] + before[j]], j) else before
  {
  }

  lemma AcceptTransit(z: P.Codec, s: P.State, i: nat, j: nat, o: Owner)
    requires P.Enabled(z, s, P.Accepts(i, j))
    ensures var e, before, after := s.inbox[0], s.Transit(o), P.Apply(z, s, P.Accepts(i, j)).Transit(o);
            var charge := P.Joined(s.Batcher(), e);
            if e.owner == o && charge.Some? then Merged(before, after, charge.value.bytes, e.charge.bytes)
            else after == before
  {
    var e, charge := s.inbox[0], P.Joined(s.Batcher(), s.inbox[0]);
    if charge.Some? {
      AbsorbAfter(s.routes, e.owner, i, j, o);
      if e.owner == o { AbsorbTransit(s.routes, e.owner, i, j, charge.value.bytes, e.charge.bytes); }
    }
  }

  lemma AcceptJoins(z: P.Codec, s: P.State, i: nat, j: nat, o: Owner)
    requires Joined(s) && Tidy(s.Batcher()) && P.Enabled(z, s, P.Accepts(i, j)) && B.WellFormed(s.inbox[0])
    ensures var t := P.Apply(z, s, P.Accepts(i, j));
            |t.stamps| <= |t.Sent()| && multiset(t.Transit(o)) == OnTheWay(t, o)
  {
    var t, e := P.Apply(z, s, P.Accepts(i, j)), s.inbox[0];
    P.AfterOneMore(s.batching, B.Accepts(e));
    AcceptTransit(z, s, i, j, o);
    AcceptAdds(s.Batcher(), e, |s.stamps|, o);
    assert multiset(s.Transit(o)) == OnTheWay(s, o);
    SameMerge(multiset(s.Transit(o)), multiset(t.Transit(o)), Waiting(t.inbox, o),
              InBatcher(s.Batcher(), |s.stamps|, o), InBatcher(t.Batcher(), |s.stamps|, o), P.Joined(s.Batcher(), e), e, o);
  }

  lemma AcceptsJoin(z: P.Codec, s: P.State, i: nat, j: nat)
    requires P.Inv(z, s) && Joined(s) && P.Enabled(z, s, P.Accepts(i, j))
    ensures Joined(P.Apply(z, s, P.Accepts(i, j)))
  {
    StepsAreTidy(s.batching);
    AcceptJoins(z, s, i, j, "");
    forall o ensures multiset(P.Apply(z, s, P.Accepts(i, j)).Transit(o)) == OnTheWay(P.Apply(z, s, P.Accepts(i, j)), o) {
      AcceptJoins(z, s, i, j, o);
    }
  }

  lemma TicksJoin(z: P.Codec, s: P.State, order: seq<ChannelId>)
    requires P.Inv(z, s) && Joined(s)
    ensures Joined(P.Apply(z, s, P.Ticks(order)))
  {
    var t := P.Apply(z, s, P.Ticks(order));
    P.AfterOneMore(s.batching, B.Ticks(order));
    assert t.Batcher() == B.Flush(s.Batcher(), order);
    StepsAreTidy(s.batching);
    FlushMoves(s.Batcher(), order, |s.stamps|, "");
    forall o ensures multiset(t.Transit(o)) == OnTheWay(t, o) {
      FlushMoves(s.Batcher(), order, |s.stamps|, o);
      assert multiset(s.Transit(o)) == OnTheWay(s, o);
    }
  }

  lemma {:induction false} UnroutedCons(items: seq<B.Batched>, o: Owner)
    requires items != []
    ensures Unrouted(items, o) == OfItem(items[0], o) + Unrouted(items[1..], o)
  {
    var n := |items| - 1;
    if n > 0 {
      assert items[..n][1..] == items[1..][..n - 1];
      UnroutedCons(items[..n], o);
    }
  }

  /** `zs` is `xs` without a charge of `n`. */
  ghost predicate Less(xs: seq<nat>, zs: seq<nat>, n: nat)
  {
    multiset(xs) == multiset(zs) + multiset{n}
  }

  lemma WithoutIsLess(xs: seq<nat>, i: nat, zs: seq<nat>)
    requires i < |xs| && zs == H.Without(xs, i)
    ensures Less(xs, zs, xs[i])
  {
    WithoutOne(xs, i);
    assert xs[i] in multiset(xs);
  }

  lemma RouterAfter(routes: R.State, r: R.Step, i: nat, o: Owner)
    requires R.Enabled(routes, r) && r.At? && (r.step == H.DropTransit(i) || (r.step.RouteBegin? && r.step.index == i))
    ensures var before, after := R.TableOf(routes, o).transit, R.TableOf(R.Apply(routes, r), o).transit;
            after == if r.owner == o then H.Without(before, i) else before
  {
  }

  lemma TakesUpOne(z: P.Codec, s: P.State, i: nat, stamp: nat, o: Owner)
    requires P.Enabled(z, s, P.TakesUp(i, stamp))
    ensures var item, before, after := s.Sent()[|s.stamps|], s.Transit(o), P.Apply(z, s, P.TakesUp(i, stamp)).Transit(o);
            if P.OwnerOf(item) == o then Less(before, after, B.ChargeOf(item).bytes) else after == before
  {
    var item, after := s.Sent()[|s.stamps|], P.Apply(z, s, P.TakesUp(i, stamp)).Transit(o);
    RouterAfter(s.routes, P.RouterStep(z, item, i, stamp), i, o);
    if P.OwnerOf(item) == o { WithoutIsLess(s.Transit(o), i, after); }
  }

  lemma SameTaken(before: multiset<nat>, after: multiset<nat>, waiting: multiset<nat>, buffered: multiset<nat>,
                  item: multiset<nat>, rest: multiset<nat>)
    requires before == waiting + (buffered + (item + rest)) && before == after + item
    ensures after == waiting + (buffered + rest)
  {
    assert after == before - item;
  }

  lemma TakesUpJoins(z: P.Codec, s: P.State, i: nat, stamp: nat, o: Owner)
    requires Joined(s) && P.Enabled(z, s, P.TakesUp(i, stamp))
    ensures var t := P.Apply(z, s, P.TakesUp(i, stamp));
            |t.stamps| <= |t.Sent()| && multiset(t.Transit(o)) == OnTheWay(t, o)
  {
    var t, items := P.Apply(z, s, P.TakesUp(i, stamp)), s.Sent()[|s.stamps|..];
    TakesUpOne(z, s, i, stamp, o);
    UnroutedCons(items, o);
    assert items[1..] == t.Sent()[|t.stamps|..];
    assert multiset(s.Transit(o)) == OnTheWay(s, o);
    SameTaken(multiset(s.Transit(o)), multiset(t.Transit(o)), Waiting(s.inbox, o), Buffered(s.Batcher().buffers, o),
              OfItem(items[0], o), Unrouted(items[1..], o));
  }

  lemma TakesUpJoin(z: P.Codec, s: P.State, i: nat, stamp: nat)
    requires Joined(s) && P.Enabled(z, s, P.TakesUp(i, stamp))
    ensures Joined(P.Apply(z, s, P.TakesUp(i, stamp)))
  {
    TakesUpJoins(z, s, i, stamp, "");
    forall o ensures multiset(P.Apply(z, s, P.TakesUp(i, stamp)).Transit(o)) == OnTheWay(P.Apply(z, s, P.TakesUp(i, stamp)), o) {
      TakesUpJoins(z, s, i, stamp, o);
    }
  }

  lemma RoutingJoins(z: P.Codec, s: P.State, r: R.Step)
    requires Joined(s) && P.Enabled(z, s, P.Routing(r))
    ensures Joined(P.Apply(z, s, P.Routing(r)))
  {
    var t := P.Apply(z, s, P.Routing(r));
    forall o ensures multiset(t.Transit(o)) == OnTheWay(t, o) {
      TransitAfter(s.routes, r, o);
      assert multiset(s.Transit(o)) == OnTheWay(s, o);
    }
  }

  /** In every run the charges in transit of every hub, one by one, are those of
      its events read and not yet batched, buffered, or sent and not yet taken up. */
  lemma {:induction false} RunJoined(z: P.Codec, states: seq<P.State>, steps: seq<P.Step>, n: nat)
    requires P.Run(z, states, steps) && n <= |steps|
    ensures Joined(states[n])
  {
    if n > 0 {
      var s := states[n - 1];
      RunJoined(z, states, steps, n - 1);
      P.RunInv(z, states, steps, n - 1);
      assert states[n - 1 + 1] == P.Apply(z, s, steps[n - 1]);
      match steps[n - 1]
      case Reads(e) => ReadsJoin(z, s, e);
      case Accepts(i, j) => AcceptsJoin(z, s, i, j);
      case Ticks(order) => TicksJoin(z, s, order);
      case TakesUp(i, stamp) => TakesUpJoin(z, s, i, stamp);
      case Routing(r) => RoutingJoins(z, s, r);
    }
  }

  // ----- What that means for the counts -----

  /** The sum of charges, in any order. */
  ghost function Total(m: multiset<nat>): nat
    decreases |m|
  {
    if m == multiset{} then 0
    else
      var n :| n in m;
      n + Total(m - multiset{n})
  }

  lemma {:induction false} PickCharge(m: multiset<nat>, n: nat)
    requires n in m
    ensures Total(m) == n + Total(m - multiset{n})
    decreases |m|
  {
    var k :| k in m && Total(m) == k + Total(m - multiset{k});
    if k != n {
      PickCharge(m - multiset{k}, n);
      PickCharge(m - multiset{n}, k);
      assert m - multiset{k} - multiset{n} == m - multiset{n} - multiset{k};
    }
  }

  lemma {:induction false} TotalOfBoth(m: multiset<nat>, k: multiset<nat>)
    ensures Total(m + k) == Total(m) + Total(k)
    decreases |k|
  {
    if k == multiset{} {
      assert m + k == m;
    } else {
      var n :| n in k;
      PickCharge(k, n);
      PickCharge(m + k, n);
      assert m + k - multiset{n} == m + (k - multiset{n});
      TotalOfBoth(m, k - multiset{n});
    }
  }

  lemma {:induction false} SumIsTotal(xs: seq<nat>)
    ensures H.Sum(xs) == Total(multiset(xs))
  {
    if xs != [] {
      var n := |xs| - 1;
      SumIsTotal(xs[..n]);
      assert xs == xs[..n] + [xs[n]];
      PickCharge(multiset(xs), xs[n]);
      assert multiset(xs) - multiset{xs[n]} == multiset(xs[..n]);
    }
  }

  /** In every run the bytes a hub's flow counts in transit are exactly those of
      its events read and not yet batched, buffered, sent and not yet taken up,
      and in the router's hands. */
  lemma InTransitIsOnTheWay(z: P.Codec, states: seq<P.State>, steps: seq<P.Step>, n: nat, o: Owner)
    requires P.Run(z, states, steps) && n <= |steps|
    ensures var s := states[n];
            var w := R.View(s.routes, o);
            |s.stamps| <= |s.Sent()| &&
            w.flow.inTransit ==
              Total(Waiting(s.inbox, o)) + Total(Buffered(s.Batcher().buffers, o)) +
              Total(Unrouted(s.Sent()[|s.stamps|..], o)) + H.LockTransit(w.lock)
  {
    RunJoined(z, states, steps, n);
    P.RunInv(z, states, steps, n);
    var s := states[n];
    var w := R.View(s.routes, o);
    assert H.Counted(w);
    assert multiset(s.Transit(o)) == OnTheWay(s, o);
    SumIsTotal(w.transit);
    TotalOfBoth(Waiting(s.inbox, o), InBatcher(s.Batcher(), |s.stamps|, o));
    TotalOfBoth(Buffered(s.Batcher().buffers, o), Unrouted(s.Sent()[|s.stamps|..], o));
  }

  /** The router always finds the charge of the item it is to take up. */
  lemma RouterFindsCharge(z: P.Codec, states: seq<P.State>, steps: seq<P.Step>, n: nat) returns (i: nat)
    requires P.Run(z, states, steps) && n <= |steps| && |states[n].stamps| < |states[n].Sent()|
    ensures var s := states[n];
            var item := s.Sent()[|s.stamps|];
            i < |s.Transit(P.OwnerOf(item))| && s.Transit(P.OwnerOf(item))[i] == B.ChargeOf(item).bytes
  {
    RunJoined(z, states, steps, n);
    var s := states[n];
    var items, o := s.Sent()[|s.stamps|..], P.OwnerOf(s.Sent()[|s.stamps|]);
    UnroutedCons(items, o);
    assert B.ChargeOf(items[0]).bytes in OfItem(items[0], o);
    assert multiset(s.Transit(o)) == OnTheWay(s, o);
    assert B.ChargeOf(items[0]).bytes in multiset(s.Transit(o));
    i :| i < |s.Transit(o)| && s.Transit(o)[i] == B.ChargeOf(items[0]).bytes;
  }

  lemma TwoCharges(xs: seq<nat>, x: nat, y: nat) returns (i: nat, j: nat)
    requires multiset{x} + multiset{y} <= multiset(xs)
    ensures i < |xs| && j < |xs| && i != j && xs[i] == x && xs[j] == y
  {
    assert x in multiset(xs);
    i :| i < |xs| && xs[i] == x;
    var rest := H.Without(xs, i);
    WithoutOne(xs, i);
    assert y in multiset(rest);
    var k: nat :| k < |rest| && rest[k] == y;
    j := if k < i then k else k + 1;
  }

  /** A charge an event joins is its own hub's, and buffered. */
  lemma JoinedIsBuffered(b: B.State, e: B.Event)
    requires Tidy(b) && P.Joined(b, e).Some?
    ensures multiset{P.Joined(b, e).value.bytes} <= Buffered(b.buffers, e.owner)
  {
    PickBuffer(b.buffers, e.channel, e.owner);
  }

  /** The batch loop always finds the two charges it merges. */
  lemma BatcherFindsCharges(z: P.Codec, states: seq<P.State>, steps: seq<P.Step>, n: nat) returns (i: nat, j: nat)
    requires P.Run(z, states, steps) && n <= |steps| && states[n].inbox != []
    ensures P.Enabled(z, states[n], P.Accepts(i, j))
  {
    RunJoined(z, states, steps, n);
    P.RunInv(z, states, steps, n);
    var s := states[n];
    var e := s.inbox[0];
    i, j := 0, 0;
    if P.Joined(s.Batcher(), e).Some? {
      StepsAreTidy(s.batching);
      JoinedIsBuffered(s.Batcher(), e);
      assert multiset(s.Transit(e.owner)) == OnTheWay(s, e.owner);
      i, j := TwoCharges(s.Transit(e.owner), P.Joined(s.Batcher(), e).value.bytes, e.charge.bytes);
    }
  }
}
