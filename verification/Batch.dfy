/** The batch loop: what readers send is merged per terminal and let go by size,
    by the timer, or by an event of the same terminal.

    The reference is a grouping of the accepted events: every item sent is the
    merge of consecutive events of one terminal and one hub. */
module Batch {
  import opened Types

  const BATCH_MAX_BYTES: nat := 4096
  const READ_BYTES: nat := 4096

  /** Bytes charged to the flow of the hub `flow`. */
  datatype Charge = Charge(flow: Owner, bytes: nat)

  datatype Event =
    | Output(owner: Owner, channel: ChannelId, number: nat, data: Bytes, charge: Charge)
    | Notice(owner: Owner, channel: ChannelId, frame: Bytes, endsChannel: bool, charge: Charge)

  datatype Batched =
    | Batch(owner: Owner, channel: ChannelId, number: nat, data: Bytes, charge: Option<Charge>)
    | Passed(event: Event)

  datatype Buffer = Buffer(owner: Owner, data: Bytes, lastNumber: nat, charge: Option<Charge>)

  /** What readers send: output is what one read gave, never empty, and every
      charge is on the flow of the terminal's own hub. */
  predicate WellFormed(e: Event)
  {
    e.charge.flow == e.owner && (e.Output? ==> 0 < |e.data| <= READ_BYTES)
  }

  /** Take on another charge, or release it if it is another hub's. */
  function Absorb(charge: Option<Charge>, other: Charge): Option<Charge>
  {
    match charge
    case None => Some(other)
    case Some(c) => Some(if c.flow == other.flow then Charge(c.flow, c.bytes + other.bytes) else c)
  }

  datatype State = State(buffers: map<ChannelId, Buffer>, sent: seq<Batched>)

  const START := State(map[], [])

  function Emptied(b: Buffer): Buffer { b.(data := [], charge := None) }

  /** Let go what terminal `c` has buffered, if anything. */
  function Take(s: State, c: ChannelId): State
  {
    if c !in s.buffers || s.buffers[c].data == [] then s
    else
      var b := s.buffers[c];
      State(s.buffers[c := Emptied(b)], s.sent + [Batch(b.owner, c, b.lastNumber, b.data, b.charge)])
  }

  /** The terminal's buffer, with what another hub's workload left let go first. */
  function Claim(s: State, c: ChannelId, owner: Owner): (r: State)
    ensures c in r.buffers
  {
    if c !in s.buffers then s.(buffers := s.buffers[c := Buffer(owner, [], 0, None)])
    else if s.buffers[c].owner == owner then s
    else
      var t := Take(s, c);
      t.(buffers := t.buffers[c := t.buffers[c].(owner := owner)])
  }

  function Extend(s: State, e: Event): (r: State)
    requires e.Output? && e.channel in s.buffers
    ensures e.channel in r.buffers
  {
    var b := s.buffers[e.channel];
    s.(buffers := s.buffers[e.channel := Buffer(b.owner, b.data + e.data, e.number, Absorb(b.charge, e.charge))])
  }

  function Accept(s: State, e: Event): State
  {
    match e
    case Output(_, _, _, _, _) =>
      var t := Extend(Claim(s, e.channel, e.owner), e);
      if |t.buffers[e.channel].data| >= BATCH_MAX_BYTES then Take(t, e.channel) else t
    case Notice(_, _, _, _, _) =>
      var t := Take(s, e.channel);
      State(if e.endsChannel then t.buffers - {e.channel} else t.buffers, t.sent + [Passed(e)])
  }

  /** The timer lets everything go, in whatever order the map is visited. */
  function Flush(s: State, order: seq<ChannelId>): State
  {
    if order == [] then s else Take(Flush(s, order[..|order| - 1]), order[|order| - 1])
  }

  datatype Step =
    | Accepts(event: Event)
    | Ticks(order: seq<ChannelId>)

  function Apply(s: State, step: Step): State
  {
    match step
    case Accepts(e) => Accept(s, e)
    case Ticks(order) => Flush(s, order)
  }

  // ----- The reference: groups of consecutive events -----

  /** Which events each sent item merged, and which each buffer holds. */
  datatype Grouping = Grouping(groups: seq<seq<Event>>, held: map<ChannelId, seq<Event>>)

  function Data(es: seq<Event>): Bytes
  {
    if es == [] then []
    else if es[|es| - 1].Output? then Data(es[..|es| - 1]) + es[|es| - 1].data
    else Data(es[..|es| - 1])
  }

  function Charged(es: seq<Event>): nat
  {
    if es == [] then 0 else Charged(es[..|es| - 1]) + es[|es| - 1].charge.bytes
  }

  /** Reads of one terminal and one hub. */
  ghost predicate OneSource(es: seq<Event>, c: ChannelId, owner: Owner)
  {
    forall i :: 0 <= i < |es| ==> es[i].Output? && es[i].channel == c && es[i].owner == owner && WellFormed(es[i])
  }

  ghost predicate GroupOk(g: seq<Event>)
  {
    g != [] &&
    (OneSource(g, g[0].channel, g[0].owner) || (|g| == 1 && g[0].Notice?))
  }

  /** One group as it is sent: all its data, the number of its last read, and
      the charges of all its reads. */
  function Merge(g: seq<Event>): Batched
    requires g != []
  {
    var last := g[|g| - 1];
    if last.Notice? then Passed(last)
    else Batch(last.owner, last.channel, last.number, Data(g), Some(Charge(last.owner, Charged(g))))
  }

  ghost predicate BufferOk(b: Buffer, c: ChannelId, held: seq<Event>)
  {
    OneSource(held, c, b.owner) && b.data == Data(held) && |b.data| < BATCH_MAX_BYTES &&
    if held == [] then b.charge == None
    else b.charge == Some(Charge(b.owner, Charged(held))) && b.lastNumber == held[|held| - 1].number
  }

  /** The accepted events of one terminal. */
  function Only(es: seq<Event>, c: ChannelId): seq<Event>
  {
    if es == [] then []
    else if es[|es| - 1].channel == c then Only(es[..|es| - 1], c) + [es[|es| - 1]]
    else Only(es[..|es| - 1], c)
  }

  function GroupsOf(gs: seq<seq<Event>>, c: ChannelId): seq<Event>
  {
    if gs == [] then []
    else
      var g := gs[|gs| - 1];
      if g != [] && g[0].channel == c then GroupsOf(gs[..|gs| - 1], c) + g else GroupsOf(gs[..|gs| - 1], c)
  }

  function HeldFor(g: Grouping, c: ChannelId): seq<Event>
  {
    if c in g.held then g.held[c] else []
  }

  ghost predicate BuffersOk(s: State, g: Grouping)
  {
    s.buffers.Keys == g.held.Keys &&
    forall c :: c in s.buffers ==> BufferOk(s.buffers[c], c, g.held[c])
  }

  ghost predicate SentOk(s: State, g: Grouping)
  {
    |s.sent| == |g.groups| &&
    forall i :: 0 <= i < |s.sent| ==> IsMerge(s.sent[i], g.groups[i])
  }

  /** `b` is a group as it is sent, and not too large. */
  ghost predicate IsMerge(b: Batched, g: seq<Event>)
  {
    GroupOk(g) && b == Merge(g) && |Data(g)| < BATCH_MAX_BYTES + READ_BYTES
  }

  /** All the events of terminal `c` the grouping accounts for. */
  function Stream(g: Grouping, c: ChannelId): seq<Event>
  {
    GroupsOf(g.groups, c) + HeldFor(g, c)
  }

  ghost predicate StreamsOk(g: Grouping, accepted: seq<Event>)
  {
    forall c :: Stream(g, c) == Only(accepted, c)
  }

  /** The items sent and the buffers are the grouping's, and the grouping is the
      accepted stream of every terminal cut into consecutive pieces. */
  ghost predicate Matches(s: State, g: Grouping, accepted: seq<Event>)
  {
    BuffersOk(s, g) && SentOk(s, g) && StreamsOk(g, accepted)
  }

  // ----- Proofs -----

  lemma DataSnoc(es: seq<Event>, e: Event)
    ensures Data(es + [e]) == if e.Output? then Data(es) + e.data else Data(es)
    ensures Charged(es + [e]) == Charged(es) + e.charge.bytes
  {
    assert (es + [e])[..|es|] == es;
  }

  lemma OnlySnoc(es: seq<Event>, e: Event, c: ChannelId)
    ensures Only(es + [e], c) == if e.channel == c then Only(es, c) + [e] else Only(es, c)
  {
    assert (es + [e])[..|es|] == es;
  }

  lemma {:induction false} NoReadsNoData(es: seq<Event>, c: ChannelId, owner: Owner)
    requires OneSource(es, c, owner)
    ensures Data(es) == [] <==> es == []
  {
  }

  lemma GroupsSnoc(gs: seq<seq<Event>>, g: seq<Event>, c: ChannelId)
    ensures GroupsOf(gs + [g], c) == if g != [] && g[0].channel == c then GroupsOf(gs, c) + g else GroupsOf(gs, c)
  {
    assert (gs + [g])[..|gs|] == gs;
  }

  /** Closing the group of terminal `c` moves no event. */
  lemma CloseKeepsStreams(g: Grouping, h: Grouping, c: ChannelId)
    requires c in g.held && h == Grouping(g.groups + [g.held[c]], g.held[c := []])
    requires g.held[c] != [] && g.held[c][0].channel == c
    ensures forall d :: Stream(h, d) == Stream(g, d)
  {
    forall d ensures Stream(h, d) == Stream(g, d) {
      GroupsSnoc(g.groups, g.held[c], d);
    }
  }

  lemma BufferMerges(b: Buffer, c: ChannelId, held: seq<Event>)
    requires BufferOk(b, c, held) && held != []
    ensures IsMerge(Batch(b.owner, c, b.lastNumber, b.data, b.charge), held)
    ensures BufferOk(Emptied(b), c, [])
  {
  }

  lemma SentGrows(s: State, g: Grouping, buffers: map<ChannelId, Buffer>, held: map<ChannelId, seq<Event>>,
                  b: Batched, group: seq<Event>)
    requires SentOk(s, g) && IsMerge(b, group)
    ensures SentOk(State(buffers, s.sent + [b]), Grouping(g.groups + [group], held))
  {
  }

  /** Letting a buffer go closes its group and moves no event. */
  lemma TakeMatches(s: State, g: Grouping, c: ChannelId) returns (h: Grouping)
    requires BuffersOk(s, g) && SentOk(s, g)
    ensures BuffersOk(Take(s, c), h) && SentOk(Take(s, c), h)
    ensures forall d :: Stream(h, d) == Stream(g, d)
    ensures HeldFor(h, c) == [] && h.held.Keys == g.held.Keys
    ensures c in s.buffers ==> c in Take(s, c).buffers && Take(s, c).buffers[c].data == []
  {
    h := g;
    if c in s.buffers {
      var b, held := s.buffers[c], g.held[c];
      NoReadsNoData(held, c, b.owner);
      if b.data != [] {
        h := Grouping(g.groups + [held], g.held[c := []]);
        CloseKeepsStreams(g, h, c);
        BufferMerges(b, c, held);
        SentGrows(s, g, s.buffers[c := Emptied(b)], h.held, Batch(b.owner, c, b.lastNumber, b.data, b.charge), held);
      }
    }
  }

  /** A buffer that holds nothing may be anyone's. */
  lemma EmptyBuffer(s: State, g: Grouping, accepted: seq<Event>, c: ChannelId, b: Buffer)
    requires Matches(s, g, accepted) && HeldFor(g, c) == [] && b.data == [] && b.charge == None
    ensures Matches(s.(buffers := s.buffers[c := b]), g.(held := g.held[c := []]), accepted)
  {
    var h := g.(held := g.held[c := []]);
    forall d ensures Stream(h, d) == Only(accepted, d) {
      assert HeldFor(h, d) == HeldFor(g, d);
      assert Stream(g, d) == Only(accepted, d);
    }
  }

  lemma ClaimMatches(s: State, g: Grouping, accepted: seq<Event>, c: ChannelId, owner: Owner) returns (h: Grouping)
    requires Matches(s, g, accepted)
    ensures Matches(Claim(s, c, owner), h, accepted) && Claim(s, c, owner).buffers[c].owner == owner
  {
    h := g;
    if c !in s.buffers {
      EmptyBuffer(s, g, accepted, c, Buffer(owner, [], 0, None));
      h := g.(held := g.held[c := []]);
    } else if s.buffers[c].owner != owner {
      var t := Take(s, c);
      var g1 := TakeMatches(s, g, c);
      assert StreamsOk(g1, accepted);
      assert BufferOk(t.buffers[c], c, g1.held[c]);
      EmptyBuffer(t, g1, accepted, c, t.buffers[c].(owner := owner));
      h := g1.(held := g1.held[c := []]);
    }
  }

  /** One more event of a terminal joins what its buffer holds. */
  lemma StreamExtends(g: Grouping, h: Grouping, accepted: seq<Event>, e: Event)
    requires StreamsOk(g, accepted) && e.channel in g.held
    requires h == g.(held := g.held[e.channel := g.held[e.channel] + [e]])
    ensures StreamsOk(h, accepted + [e])
  {
    forall d ensures Stream(h, d) == Only(accepted + [e], d) {
      OnlySnoc(accepted, e, d);
      assert Stream(g, d) == Only(accepted, d);
      if d == e.channel {
        assert Stream(h, d) == Stream(g, d) + [e];
      } else {
        assert HeldFor(h, d) == HeldFor(g, d);
      }
    }
  }

  /** The buffer after one more read, which may have filled it. */
  ghost predicate Filling(b: Buffer, c: ChannelId, held: seq<Event>)
  {
    held != [] && OneSource(held, c, b.owner) && b.data == Data(held) &&
    |b.data| < BATCH_MAX_BYTES + READ_BYTES &&
    b.charge == Some(Charge(b.owner, Charged(held))) && b.lastNumber == held[|held| - 1].number
  }

  lemma BufferExtends(b: Buffer, c: ChannelId, held: seq<Event>, e: Event)
    requires BufferOk(b, c, held) && e.Output? && WellFormed(e) && e.channel == c && e.owner == b.owner
    ensures Filling(Buffer(b.owner, b.data + e.data, e.number, Absorb(b.charge, e.charge)), c, held + [e])
  {
    DataSnoc(held, e);
  }

  lemma ExtendMatches(s: State, g: Grouping, accepted: seq<Event>, e: Event) returns (h: Grouping)
    requires Matches(s, g, accepted) && e.Output? && WellFormed(e)
    requires e.channel in s.buffers && s.buffers[e.channel].owner == e.owner
    ensures var t := Extend(s, e);
            SentOk(t, h) && StreamsOk(h, accepted + [e]) && t.buffers.Keys == h.held.Keys &&
            (forall d :: d in t.buffers && d != e.channel ==> BufferOk(t.buffers[d], d, h.held[d])) &&
            Filling(t.buffers[e.channel], e.channel, h.held[e.channel])
  {
    var c := e.channel;
    h := g.(held := g.held[c := g.held[c] + [e]]);
    StreamExtends(g, h, accepted, e);
    BufferExtends(s.buffers[c], c, g.held[c], e);
  }

  /** A full buffer is let go at once. */
  lemma TakeFull(s: State, g: Grouping, accepted: seq<Event>, c: ChannelId) returns (h: Grouping)
    requires SentOk(s, g) && StreamsOk(g, accepted) && s.buffers.Keys == g.held.Keys && c in s.buffers
    requires forall d :: d in s.buffers && d != c ==> BufferOk(s.buffers[d], d, g.held[d])
    requires Filling(s.buffers[c], c, g.held[c]) && BATCH_MAX_BYTES <= |s.buffers[c].data|
    ensures Matches(Take(s, c), h, accepted)
  {
    h := Grouping(g.groups + [g.held[c]], g.held[c := []]);
    forall d ensures Stream(h, d) == Only(accepted, d) {
      GroupsSnoc(g.groups, g.held[c], d);
    }
  }

  lemma AcceptMatches(s: State, g: Grouping, accepted: seq<Event>, e: Event) returns (h: Grouping)
    requires Matches(s, g, accepted) && WellFormed(e)
    ensures Matches(Accept(s, e), h, accepted + [e])
  {
    match e
    case Output(_, c, _, _, _) =>
      var claimed := Claim(s, c, e.owner);
      var g1 := ClaimMatches(s, g, accepted, c, e.owner);
      var t := Extend(claimed, e);
      var g2 := ExtendMatches(claimed, g1, accepted, e);
      if |t.buffers[c].data| >= BATCH_MAX_BYTES {
        h := TakeFull(t, g2, accepted + [e], c);
      } else {
        h := g2;
      }
    case Notice(_, c, _, _, _) =>
      var g1 := TakeMatches(s, g, c);
      h := NoticeMatches(Take(s, c), g1, accepted, e);
  }

  lemma StreamPasses(g: Grouping, h: Grouping, accepted: seq<Event>, e: Event)
    requires StreamsOk(g, accepted) && HeldFor(g, e.channel) == [] && h.groups == g.groups + [[e]]
    requires forall d :: HeldFor(h, d) == HeldFor(g, d)
    ensures StreamsOk(h, accepted + [e])
  {
    forall d ensures Stream(h, d) == Only(accepted + [e], d) {
      GroupsSnoc(g.groups, [e], d);
      OnlySnoc(accepted, e, d);
      assert Stream(g, d) == Only(accepted, d);
      if d == e.channel {
        assert Stream(g, d) == GroupsOf(g.groups, d);
      }
    }
  }

  lemma NoticeMatches(s: State, g: Grouping, accepted: seq<Event>, e: Event) returns (h: Grouping)
    requires Matches(s, g, accepted) && e.Notice? && HeldFor(g, e.channel) == []
    ensures Matches(State(if e.endsChannel then s.buffers - {e.channel} else s.buffers, s.sent + [Passed(e)]), h, accepted + [e])
  {
    h := Grouping(g.groups + [[e]], if e.endsChannel then g.held - {e.channel} else g.held);
    DataSnoc([], e);
    assert [] + [e] == [e];
    StreamPasses(g, h, accepted, e);
  }

  lemma {:induction false} FlushMatches(s: State, g: Grouping, accepted: seq<Event>, order: seq<ChannelId>) returns (h: Grouping)
    requires Matches(s, g, accepted)
    ensures Matches(Flush(s, order), h, accepted)
  {
    h := g;
    if order != [] {
      var n := |order| - 1;
      var g1 := FlushMatches(s, g, accepted, order[..n]);
      h := TakeMatches(Flush(s, order[..n]), g1, order[n]);
    }
  }

  /** The events among `steps`, in order. */
  function Accepted(steps: seq<Step>): seq<Event>
  {
    if steps == [] then []
    else if steps[|steps| - 1].Accepts? then Accepted(steps[..|steps| - 1]) + [steps[|steps| - 1].event]
    else Accepted(steps[..|steps| - 1])
  }

  function After(steps: seq<Step>): State
  {
    if steps == [] then START else Apply(After(steps[..|steps| - 1]), steps[|steps| - 1])
  }

  lemma StartMatches()
    ensures Matches(START, Grouping([], map[]), [])
  {
    forall c ensures GroupsOf([], c) + HeldFor(Grouping([], map[]), c) == Only([], c) {
    }
  }

  /** For any interleaving of accepts and timer flushes there is a grouping of
      the accepted events that accounts for everything sent and buffered. */
  lemma {:induction false} BatchingPreservesStreams(steps: seq<Step>) returns (g: Grouping)
    requires forall i :: 0 <= i < |steps| && steps[i].Accepts? ==> WellFormed(steps[i].event)
    ensures Matches(After(steps), g, Accepted(steps))
  {
    if steps == [] {
      g := Grouping([], map[]);
      StartMatches();
    } else {
      var n := |steps| - 1;
      var g1 := BatchingPreservesStreams(steps[..n]);
      match steps[n]
      case Accepts(e) => g := AcceptMatches(After(steps[..n]), g1, Accepted(steps[..n]), e);
      case Ticks(order) => g := FlushMatches(After(steps[..n]), g1, Accepted(steps[..n]), order);
    }
  }

  // ----- What a hub receives, without the grouping -----

  /** The output bytes sent for `owner` under terminal `c`, in order. */
  function SentData(sent: seq<Batched>, owner: Owner, c: ChannelId): Bytes
  {
    if sent == [] then []
    else
      SentData(sent[..|sent| - 1], owner, c) + SentAdds(sent[|sent| - 1], owner, c)
  }

  function SentAdds(b: Batched, owner: Owner, c: ChannelId): Bytes
  {
    if b.Batch? && b.owner == owner && b.channel == c then b.data else []
  }

  /** The output bytes read from `owner`'s workloads under terminal `c`. */
  function ReadData(es: seq<Event>, owner: Owner, c: ChannelId): Bytes
  {
    if es == [] then []
    else
      ReadData(es[..|es| - 1], owner, c) + Adds(es[|es| - 1], owner, c)
  }

  /** The bytes one event adds to that stream. */
  function Adds(e: Event, owner: Owner, c: ChannelId): Bytes
  {
    if e.Output? && e.owner == owner && e.channel == c then e.data else []
  }

  lemma ReadSnoc(es: seq<Event>, e: Event, owner: Owner, c: ChannelId)
    ensures ReadData(es + [e], owner, c) == ReadData(es, owner, c) + Adds(e, owner, c)
  {
    assert (es + [e])[..|es|] == es;
  }

  lemma {:induction false} ReadConcat(xs: seq<Event>, ys: seq<Event>, owner: Owner, c: ChannelId)
    ensures ReadData(xs + ys, owner, c) == ReadData(xs, owner, c) + ReadData(ys, owner, c)
  {
    if ys == [] {
      assert xs + ys == xs;
    } else {
      var init, last := ys[..|ys| - 1], ys[|ys| - 1];
      ReadConcat(xs, init, owner, c);
      assert ys == init + [last] && xs + ys == (xs + init) + [last];
      ReadSnoc(xs + init, last, owner, c);
      ReadSnoc(init, last, owner, c);
    }
  }

  lemma {:induction false} ReadOnly(es: seq<Event>, owner: Owner, c: ChannelId)
    ensures ReadData(Only(es, c), owner, c) == ReadData(es, owner, c)
  {
    if es != [] {
      var init, last := es[..|es| - 1], es[|es| - 1];
      ReadOnly(init, owner, c);
      assert es == init + [last];
      OnlySnoc(init, last, c);
      ReadSnoc(init, last, owner, c);
      ReadSnoc(Only(init, c), last, owner, c);
    }
  }

  lemma {:induction false} ReadGroup(g: seq<Event>, d: ChannelId, o: Owner, owner: Owner, c: ChannelId)
    requires OneSource(g, d, o)
    ensures ReadData(g, owner, c) == if d == c && o == owner then Data(g) else []
  {
    if g != [] { ReadGroup(g[..|g| - 1], d, o, owner, c); }
  }

  lemma ReadOneGroup(g: seq<Event>, owner: Owner, c: ChannelId)
    requires GroupOk(g)
    ensures ReadData(g, owner, c) == SentAdds(Merge(g), owner, c)
    ensures g[0].channel != c ==> ReadData(g, owner, c) == []
  {
    if g[0].Output? {
      ReadGroup(g, g[0].channel, g[0].owner, owner, c);
    } else {
      assert g == [] + [g[0]];
      ReadSnoc([], g[0], owner, c);
    }
  }

  /** What holds of nothing sent, and still holds after one more item and its
      group, holds of all that was sent. */
  lemma {:induction false} OverAllSent(
    P: (seq<Batched>, seq<seq<Event>>) -> bool, s: State, g: Grouping, n: nat)
    requires P([], []) && SentOk(s, g) && n <= |s.sent|
    requires forall xs, b, ys, y :: P(xs, ys) && IsMerge(b, y) ==> P(xs + [b], ys + [y])
    ensures P(s.sent[..n], g.groups[..n])
  {
    if n > 0 {
      OverAllSent(P, s, g, n - 1);
      assert s.sent[..n] == s.sent[..n - 1] + [s.sent[n - 1]];
      assert g.groups[..n] == g.groups[..n - 1] + [g.groups[n - 1]];
      assert IsMerge(s.sent[n - 1], g.groups[n - 1]);
    }
  }

  lemma SentSnoc(sent: seq<Batched>, b: Batched, gs: seq<seq<Event>>, g: seq<Event>, owner: Owner, c: ChannelId)
    requires SentData(sent, owner, c) == ReadData(GroupsOf(gs, c), owner, c) && IsMerge(b, g)
    ensures SentData(sent + [b], owner, c) == ReadData(GroupsOf(gs + [g], c), owner, c)
  {
    assert (sent + [b])[..|sent|] == sent;
    GroupsSnoc(gs, g, c);
    ReadOneGroup(g, owner, c);
    ReadConcat(GroupsOf(gs, c), g, owner, c);
  }

  lemma SentIsGroups(s: State, g: Grouping, owner: Owner, c: ChannelId)
    requires SentOk(s, g)
    ensures SentData(s.sent, owner, c) == ReadData(GroupsOf(g.groups, c), owner, c)
  {
    var P := (xs, ys) => SentData(xs, owner, c) == ReadData(GroupsOf(ys, c), owner, c);
    forall xs, b, ys, y | P(xs, ys) && IsMerge(b, y) ensures P(xs + [b], ys + [y]) {
      SentSnoc(xs, b, ys, y, owner, c);
    }
    OverAllSent(P, s, g, |s.sent|);
    assert s.sent[..|s.sent|] == s.sent && g.groups[..|s.sent|] == g.groups;
  }

  /** Each hub gets exactly the bytes of its own workloads, in order, even when
      a terminal's id passes to another hub before its buffer was let go: what
      was sent for a hub under an id, then what its buffer holds, is everything
      that hub's reads gave under that id. */
  lemma EachHubItsOwnBytes(steps: seq<Step>, owner: Owner, c: ChannelId)
    requires forall i :: 0 <= i < |steps| && steps[i].Accepts? ==> WellFormed(steps[i].event)
    ensures var s := After(steps);
            SentData(s.sent, owner, c) +
            (if c in s.buffers && s.buffers[c].owner == owner then s.buffers[c].data else []) ==
            ReadData(Accepted(steps), owner, c)
  {
    var s := After(steps);
    var g := BatchingPreservesStreams(steps);
    SentIsGroups(s, g, owner, c);
    ReadOnly(Accepted(steps), owner, c);
    assert Stream(g, c) == Only(Accepted(steps), c);
    ReadConcat(GroupsOf(g.groups, c), HeldFor(g, c), owner, c);
    if c in s.buffers {
      ReadGroup(g.held[c], c, s.buffers[c].owner, owner, c);
    }
  }

  function ChargeOf(b: Batched): Charge
  {
    match b
    case Batch(o, _, _, _, charge) => if charge.Some? then charge.value else Charge(o, 0)
    case Passed(e) => e.charge
  }

  function SentCharges(sent: seq<Batched>, c: ChannelId): nat
  {
    if sent == [] then 0
    else
      var last := sent[|sent| - 1];
      SentCharges(sent[..|sent| - 1], c) +
      if (if last.Batch? then last.channel else last.event.channel) == c then ChargeOf(last).bytes else 0
  }

  lemma {:induction false} ChargedConcat(xs: seq<Event>, ys: seq<Event>)
    ensures Charged(xs + ys) == Charged(xs) + Charged(ys)
  {
    if ys == [] {
      assert xs + ys == xs;
    } else {
      var n := |ys| - 1;
      ChargedConcat(xs, ys[..n]);
      assert (xs + ys)[..|xs| + n] == xs + ys[..n];
    }
  }

  lemma OneGroupCharges(g: seq<Event>)
    requires GroupOk(g)
    ensures ChargeOf(Merge(g)).bytes == Charged(g)
    ensures (if Merge(g).Batch? then Merge(g).channel else Merge(g).event.channel) == g[0].channel
  {
    var last := g[|g| - 1];
    assert last.channel == g[0].channel;
    if last.Notice? {
      assert g == [] + [last];
      DataSnoc([], last);
    }
  }

  lemma ChargesSnoc(sent: seq<Batched>, b: Batched, gs: seq<seq<Event>>, g: seq<Event>, c: ChannelId)
    requires SentCharges(sent, c) == Charged(GroupsOf(gs, c)) && IsMerge(b, g)
    ensures SentCharges(sent + [b], c) == Charged(GroupsOf(gs + [g], c))
  {
    assert (sent + [b])[..|sent|] == sent;
    GroupsSnoc(gs, g, c);
    OneGroupCharges(g);
    ChargedConcat(GroupsOf(gs, c), g);
  }

  lemma GroupCharges(s: State, g: Grouping, c: ChannelId)
    requires SentOk(s, g)
    ensures SentCharges(s.sent, c) == Charged(GroupsOf(g.groups, c))
  {
    var P := (xs, ys) => SentCharges(xs, c) == Charged(GroupsOf(ys, c));
    forall xs, b, ys, y | P(xs, ys) && IsMerge(b, y) ensures P(xs + [b], ys + [y]) {
      ChargesSnoc(xs, b, ys, y, c);
    }
    OverAllSent(P, s, g, |s.sent|);
    assert s.sent[..|s.sent|] == s.sent && g.groups[..|s.sent|] == g.groups;
  }

  /** No charge is lost, made up or moved between hubs: those sent and those
      buffered add up to those accepted, and everything sent is charged to the
      flow of the hub it is for. */
  lemma ChargesConserved(steps: seq<Step>, c: ChannelId)
    requires forall i :: 0 <= i < |steps| && steps[i].Accepts? ==> WellFormed(steps[i].event)
    ensures var s := After(steps);
            SentCharges(s.sent, c) +
            (if c in s.buffers && s.buffers[c].charge.Some? then s.buffers[c].charge.value.bytes else 0) ==
            Charged(Only(Accepted(steps), c))
    ensures forall b :: b in After(steps).sent && b.Batch? ==>
              b.charge.Some? && b.charge.value.flow == b.owner && 0 < |b.data| < BATCH_MAX_BYTES + READ_BYTES
  {
    var s := After(steps);
    var g := BatchingPreservesStreams(steps);
    GroupCharges(s, g, c);
    assert Stream(g, c) == Only(Accepted(steps), c);
    ChargedConcat(GroupsOf(g.groups, c), HeldFor(g, c));
    forall b | b in s.sent && b.Batch?
      ensures b.charge.Some? && b.charge.value.flow == b.owner && 0 < |b.data| < BATCH_MAX_BYTES + READ_BYTES
    {
      var i :| 0 <= i < |s.sent| && s.sent[i] == b;
      assert IsMerge(s.sent[i], g.groups[i]);
      NoReadsNoData(g.groups[i], g.groups[i][0].channel, g.groups[i][0].owner);
    }
  }

  /** A charge of another hub is never taken on. */
  lemma AbsorbKeepsToItsFlow(charge: Charge, other: Charge)
    ensures var r := Absorb(Some(charge), other);
            r.Some? && r.value.flow == charge.flow &&
            r.value.bytes == charge.bytes + if other.flow == charge.flow then other.bytes else 0
  {
  }

  // ----- When a buffer is let go -----

  /** A read that does not fill its terminal's buffer is buffered, and nothing is
      sent for it; one that fills it sends the buffer whole and at once. */
  lemma SentOnlyWhenDue(s: State, e: Event)
    requires e.Output?
    requires e.channel in s.buffers ==> s.buffers[e.channel].owner == e.owner
    ensures var data := (if e.channel in s.buffers then s.buffers[e.channel].data else []) + e.data;
            var t := Accept(s, e);
            e.channel in t.buffers &&
            if |data| < BATCH_MAX_BYTES then t.sent == s.sent && t.buffers[e.channel].data == data
            else t.buffers[e.channel].data == [] && |t.sent| == |s.sent| + 1 &&
                 t.sent[|s.sent|].Batch? && t.sent[|s.sent|].data == data && t.sent[|s.sent|].number == e.number
  {
  }

  /** Another event sends what its terminal has buffered and then itself, and
      the last one leaves no buffer. */
  lemma NoticeSendsBuffer(s: State, e: Event)
    requires e.Notice?
    ensures var t, c := Accept(s, e), e.channel;
            t.sent[|t.sent| - 1] == Passed(e) && (e.endsChannel ==> c !in t.buffers) &&
            (c in t.buffers ==> t.buffers[c].data == []) &&
            (forall d :: d != c ==> (d in t.buffers <==> d in s.buffers) && (d in s.buffers ==> t.buffers[d] == s.buffers[d])) &&
            |t.sent| == |s.sent| + if c in s.buffers && s.buffers[c].data != [] then 2 else 1
  {
  }

  /** A tick that visits every terminal leaves nothing buffered. */
  lemma {:induction false} TickSendsAll(s: State, order: seq<ChannelId>)
    ensures Flush(s, order).buffers.Keys == s.buffers.Keys
    ensures forall c :: c in order && c in s.buffers ==> Flush(s, order).buffers[c].data == []
  {
    if order != [] { TickSendsAll(s, order[..|order| - 1]); }
  }

  // ----- The batcher itself -----

  /** The sending half of the channel to the router. */
  class Outbox {
    var sent: seq<Batched>

    constructor ()
      ensures sent == []
    {
      sent := [];
    }
  }

  class Batcher {
    var buffers: map<ChannelId, Buffer>

    constructor ()
      ensures buffers == map[]
    {
      buffers := map[];
    }

    /** Send on what terminal `c` has buffered, if anything. */
    method TakeBuffer(c: ChannelId, tx: Outbox)
      requires c in buffers
      modifies this, tx
      ensures State(buffers, tx.sent) == Take(State(old(buffers), old(tx.sent)), c)
    {
      var buf := buffers[c];
      if buf.data == [] {
        return;
      }
      tx.sent := tx.sent + [Batch(buf.owner, c, buf.lastNumber, buf.data, buf.charge)];
      buffers := buffers[c := Buffer(buf.owner, [], buf.lastNumber, None)];
    }

    method AcceptEvent(event: Event, tx: Outbox)
      modifies this, tx
      ensures State(buffers, tx.sent) == Accept(State(old(buffers), old(tx.sent)), event)
    {
      match event
      case Output(owner, c, number, data, charge) =>
        if c !in buffers {
          buffers := buffers[c := Buffer(owner, [], 0, None)];
        }
        if buffers[c].owner != owner {
          TakeBuffer(c, tx);
          buffers := buffers[c := buffers[c].(owner := owner)];
        }
        var buf := buffers[c];
        buffers := buffers[c := Buffer(buf.owner, buf.data + data, number, Absorb(buf.charge, charge))];
        if |buffers[c].data| >= BATCH_MAX_BYTES {
          TakeBuffer(c, tx);
        }
      case Notice(_, c, _, endsChannel, _) =>
        if c in buffers {
          TakeBuffer(c, tx);
        }
        if endsChannel {
          buffers := buffers - {c};
        }
        tx.sent := tx.sent + [Passed(event)];
    }

    method FlushAll(tx: Outbox) returns (ghost order: seq<ChannelId>)
      modifies this, tx
      ensures State(buffers, tx.sent) == Flush(State(old(buffers), old(tx.sent)), order)
      ensures forall c :: c in order <==> c in old(buffers)
      ensures forall c :: c in buffers ==> buffers[c].data == []
    {
      order := [];
      var rest := buffers.Keys;
      ghost var start := State(buffers, tx.sent);
      while rest != {}
        invariant rest <= buffers.Keys == start.buffers.Keys
        invariant State(buffers, tx.sent) == Flush(start, order)
        invariant forall c :: c in order <==> c in start.buffers && c !in rest
        invariant forall c :: c in buffers && c !in rest ==> buffers[c].data == []
      {
        var c :| c in rest;
        TakeBuffer(c, tx);
        assert (order + [c])[..|order|] == order;
        order := order + [c];
        rest := rest - {c};
      }
    }
  }
}
