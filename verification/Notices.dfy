/** What each frame says to its hub: output comes as it was batched, and every
    other event (an exit, a title, a bell, a notification, a log line) as its
    reader encoded it. */
module Notices {
  import opened Types
  import opened Away
  import opened LittleEndian
  import B = Batch
  import D = Delivery
  import Framing
  import H = Hub
  import HT = HubTheorems
  import P = Pipeline
  import R = Routes

  /** A frame of a terminal, to the hub that reads it. */
  datatype Heard =
    | Said(channel: ChannelId, message: P.Output)
    | Told(channel: ChannelId, frame: Bytes)

  function Hear(z: P.Codec, e: Entry): Heard
  {
    var m := P.Message(z, e.frame);
    if m.Some? then Said(e.channel, m.value) else Told(e.channel, e.frame)
  }

  /** What an item sent by the batch loop is to say. */
  function Meant(item: B.Batched): Heard
  {
    match item
    case Batch(_, c, number, data, _) => Said(c, P.Output(c, number, data))
    case Passed(e) => Told(e.channel, if e.Notice? then e.frame else [])
  }

  predicate IsFor(item: B.Batched, o: Owner)
  {
    match item
    case Batch(owner, _, _, _, _) => owner == o
    case Passed(e) => e.owner == o
  }

  /** The length of the message an item is written as. */
  function Length(z: P.Codec, item: B.Batched, stamp: nat): nat
  {
    match item
    case Batch(_, c, number, data, _) => |z.write(P.Output(c, number, data), stamp)|
    case Passed(_) => 0
  }

  /** No message is so long that its length does not fit 32 bits. */
  ghost predicate Narrow(z: P.Codec, items: seq<B.Batched>, stamps: seq<nat>)
    requires |items| == |stamps|
  {
    forall k :: 0 <= k < |items| ==> Length(z, items[k], stamps[k]) < U32
  }

  /** What the items for hub `o` say, in order, without those too large for a frame. */
  function MeantFor(z: P.Codec, items: seq<B.Batched>, stamps: seq<nat>, o: Owner): seq<Heard>
    requires |items| == |stamps|
  {
    if items == [] then []
    else
      var n := |items| - 1;
      var before := MeantFor(z, items[..n], stamps[..n], o);
      if IsFor(items[n], o) && Length(z, items[n], stamps[n]) <= Framing.MAX_FRAME_SIZE then before + [Meant(items[n])] else before
  }

  function HearAll(z: P.Codec, entries: seq<Entry>): (r: seq<Heard>)
    ensures |r| == |entries|
  {
    seq(|entries|, i requires 0 <= i < |entries| => Hear(z, entries[i]))
  }

  lemma HearSnoc(z: P.Codec, entries: seq<Entry>, e: Entry)
    ensures HearAll(z, entries + [e]) == HearAll(z, entries) + [Hear(z, e)]
  {
  }

  /** One item is heard as it was meant, or not at all if it is too large. */
  lemma ItemHeard(z: P.Codec, item: B.Batched, stamp: nat)
    requires z.Lawful() && P.ItemOk(z, item) && Length(z, item, stamp) < U32
    ensures var frame := P.FrameOf(z, item, stamp);
            if Length(z, item, stamp) <= Framing.MAX_FRAME_SIZE
            then frame.Ok? && Hear(z, Entry(P.ChannelOf(item), frame.value)) == Meant(item)
            else frame.Err?
  {
    match item
    case Batch(_, c, number, data, _) =>
      var out := P.Output(c, number, data);
      Framing.OneFrameIffWithinMaximum(z.write(out, stamp));
      assert z.read(z.write(out, stamp)) == Some(out);
    case Passed(e) =>
  }

  lemma {:induction false} FramesSay(z: P.Codec, items: seq<B.Batched>, stamps: seq<nat>, o: Owner)
    requires z.Lawful() && |items| == |stamps| && P.ItemsOk(z, items) && Narrow(z, items, stamps)
    ensures HearAll(z, P.FramesFor(z, items, stamps, o)) == MeantFor(z, items, stamps, o)
  {
    if items != [] {
      var n := |items| - 1;
      var item, before := items[n], P.FramesFor(z, items[..n], stamps[..n], o);
      FramesSay(z, items[..n], stamps[..n], o);
      ItemHeard(z, item, stamps[n]);
      if P.FrameOf(z, item, stamps[n]).Ok? {
        HearSnoc(z, before, Entry(P.ChannelOf(item), P.FrameOf(z, item, stamps[n]).value));
      }
    }
  }

  /** What a hub hears.  In every run the frames routed to hub `o` say, one for
      one and in order, what the items the batch loop sent for it were to say:
      output with its terminal, its number and its data, every other event byte
      for byte, and only output too large for a frame left out. */
  lemma WhatAHubHears(z: P.Codec, states: seq<P.State>, steps: seq<P.Step>, n: nat, o: Owner)
    requires z.Lawful() && P.Run(z, states, steps) && n <= |steps|
    requires |states[n].stamps| <= |states[n].Sent()| ==>
               Narrow(z, states[n].Sent()[..|states[n].stamps|], states[n].stamps)
    ensures var s := states[n];
            var w := R.View(s.routes, o);
            |s.stamps| <= |s.Sent()| && H.Base(w) >= 0 &&
            HearAll(z, w.routed) == MeantFor(z, s.Sent()[..|s.stamps|], s.stamps, o) &&
            HT.Surviving(w) == Kept(|w.routed|, w.dropped + w.refused)
  {
    D.WhatAHubIsSent(z, states, steps, n, o);
    P.RunInv(z, states, steps, n);
    FramesSay(z, states[n].Sent()[..|states[n].stamps|], states[n].stamps, o);
  }

  // ----- The events of a terminal that are not output -----

  /** The frame of each entry of terminal `c` that is not output. */
  function NoticeOf(z: P.Codec, c: ChannelId): Entry -> seq<Bytes>
  {
    (e: Entry) => if e.channel == c && P.Message(z, e.frame).None? then [e.frame] else []
  }

  function Adds(e: B.Event, o: Owner, c: ChannelId): seq<Bytes>
  {
    if e.Notice? && e.owner == o && e.channel == c then [e.frame] else []
  }

  /** The frames read from `o`'s workloads under terminal `c` that are not output. */
  function NoticesRead(es: seq<B.Event>, o: Owner, c: ChannelId): seq<Bytes>
  {
    if es == [] then [] else NoticesRead(es[..|es| - 1], o, c) + Adds(es[|es| - 1], o, c)
  }

  function ItemAdds(item: B.Batched, o: Owner, c: ChannelId): seq<Bytes>
  {
    if item.Passed? then Adds(item.event, o, c) else []
  }

  /** Those among the items sent. */
  function NoticesSent(items: seq<B.Batched>, o: Owner, c: ChannelId): seq<Bytes>
  {
    if items == [] then [] else NoticesSent(items[..|items| - 1], o, c) + ItemAdds(items[|items| - 1], o, c)
  }

  lemma ReadSnoc(es: seq<B.Event>, e: B.Event, o: Owner, c: ChannelId)
    ensures NoticesRead(es + [e], o, c) == NoticesRead(es, o, c) + Adds(e, o, c)
  {
    assert (es + [e])[..|es|] == es;
  }

  lemma {:induction false} ReadConcat(xs: seq<B.Event>, ys: seq<B.Event>, o: Owner, c: ChannelId)
    ensures NoticesRead(xs + ys, o, c) == NoticesRead(xs, o, c) + NoticesRead(ys, o, c)
  {
    if ys == [] {
      assert xs + ys == xs;
    } else {
      var init, last := ys[..|ys| - 1], ys[|ys| - 1];
      assert ys == init + [last] && xs + ys == (xs + init) + [last];
      ReadSnoc(xs + init, last, o, c);
      ReadSnoc(init, last, o, c);
      ReadConcat(xs, init, o, c);
    }
  }

  lemma SentSnoc(items: seq<B.Batched>, item: B.Batched, o: Owner, c: ChannelId)
    ensures NoticesSent(items + [item], o, c) == NoticesSent(items, o, c) + ItemAdds(item, o, c)
  {
    assert (items + [item])[..|items|] == items;
  }

  lemma {:induction false} SentConcat(xs: seq<B.Batched>, ys: seq<B.Batched>, o: Owner, c: ChannelId)
    ensures NoticesSent(xs + ys, o, c) == NoticesSent(xs, o, c) + NoticesSent(ys, o, c)
  {
    if ys == [] {
      assert xs + ys == xs;
    } else {
      var init, last := ys[..|ys| - 1], ys[|ys| - 1];
      assert ys == init + [last] && xs + ys == (xs + init) + [last];
      SentSnoc(xs + init, last, o, c);
      SentSnoc(init, last, o, c);
      SentConcat(xs, init, o, c);
    }
  }

  // ----- The batch loop passes them on in order -----

  /** Batches hold none of them. */
  lemma {:induction false} BatchesHoldNone(items: seq<B.Batched>, o: Owner, c: ChannelId)
    requires forall i :: 0 <= i < |items| ==> items[i].Batch?
    ensures NoticesSent(items, o, c) == []
  {
    if items != [] { BatchesHoldNone(items[..|items| - 1], o, c); }
  }

  lemma AddingBatches(s: seq<B.Batched>, t: seq<B.Batched>, o: Owner, c: ChannelId)
    requires P.AddsBatches(s, t)
    ensures NoticesSent(t, o, c) == NoticesSent(s, o, c)
  {
    assert t == s + t[|s|..];
    SentConcat(s, t[|s|..], o, c);
    BatchesHoldNone(t[|s|..], o, c);
  }

  lemma AcceptPasses(b: B.State, e: B.Event, o: Owner, c: ChannelId)
    ensures NoticesSent(B.Accept(b, e).sent, o, c) == NoticesSent(b.sent, o, c) + Adds(e, o, c)
  {
    P.TakeAdds(b, e.channel);
    match e
    case Output(_, _, _, _, _) =>
      var t := B.Extend(B.Claim(b, e.channel, e.owner), e);
      P.TakeAdds(t, e.channel);
      assert P.AddsBatches(b.sent, B.Accept(b, e).sent);
      AddingBatches(b.sent, B.Accept(b, e).sent, o, c);
    case Notice(_, _, _, _, _) =>
      AddingBatches(b.sent, B.Take(b, e.channel).sent, o, c);
      SentSnoc(B.Take(b, e.channel).sent, B.Passed(e), o, c);
  }

  /** What the batch loop sent of them is what it accepted, in order, at once. */
  lemma {:induction false} BatchingPasses(steps: seq<B.Step>, o: Owner, c: ChannelId)
    ensures NoticesSent(B.After(steps).sent, o, c) == NoticesRead(B.Accepted(steps), o, c)
  {
    if steps != [] {
      var n := |steps| - 1;
      BatchingPasses(steps[..n], o, c);
      match steps[n]
      case Accepts(e) =>
        AcceptPasses(B.After(steps[..n]), e, o, c);
        ReadSnoc(B.Accepted(steps[..n]), e, o, c);
      case Ticks(order) =>
        P.FlushAdds(B.After(steps[..n]), order);
        AddingBatches(B.After(steps[..n]).sent, B.After(steps).sent, o, c);
    }
  }

  // ----- The whole way -----

  lemma ItemTold(z: P.Codec, item: B.Batched, stamp: nat, o: Owner, c: ChannelId)
    requires z.Lawful() && P.ItemOk(z, item) && Length(z, item, stamp) < U32
    ensures var frame := P.FrameOf(z, item, stamp);
            ItemAdds(item, o, c) ==
            if P.OwnerOf(item) == o && frame.Ok? then NoticeOf(z, c)(Entry(P.ChannelOf(item), frame.value)) else []
  {
    ItemHeard(z, item, stamp);
  }

  lemma {:induction false} FramesTell(z: P.Codec, items: seq<B.Batched>, stamps: seq<nat>, o: Owner, c: ChannelId)
    requires z.Lawful() && |items| == |stamps| && P.ItemsOk(z, items) && Narrow(z, items, stamps)
    ensures D.PiecesIn(NoticeOf(z, c), P.FramesFor(z, items, stamps, o)) == NoticesSent(items, o, c)
  {
    if items != [] {
      var n := |items| - 1;
      var item, before := items[n], P.FramesFor(z, items[..n], stamps[..n], o);
      FramesTell(z, items[..n], stamps[..n], o, c);
      ItemTold(z, item, stamps[n], o, c);
      if P.FrameOf(z, item, stamps[n]).Ok? {
        D.PiecesSnoc(NoticeOf(z, c), before, Entry(P.ChannelOf(item), P.FrameOf(z, item, stamps[n]).value));
      }
    }
  }

  /** The events of terminal `c` on their way to hub `o`: accepted by the hub's
      successive connections or held for it, then sent to the router, then read
      and not yet taken by the batch loop, which holds none back. */
  ghost function NoticesOnTheirWay(z: P.Codec, s: P.State, o: Owner, c: ChannelId): seq<Bytes>
    requires |s.stamps| <= |s.Sent()| && H.Base(R.View(s.routes, o)) >= 0
    requires forall i :: 0 <= i < |HT.Surviving(R.View(s.routes, o))| ==>
               HT.Surviving(R.View(s.routes, o))[i] < |R.View(s.routes, o).routed|
  {
    var w := R.View(s.routes, o);
    D.PiecesAt(NoticeOf(z, c), w.routed, HT.Surviving(w)) +
    (NoticesSent(s.Sent()[|s.stamps|..], o, c) + NoticesRead(s.inbox, o, c))
  }

  lemma NoticesReadAre(s: P.State, o: Owner, c: ChannelId)
    requires |s.stamps| <= |s.Sent()|
    ensures NoticesSent(s.Sent()[..|s.stamps|], o, c) +
            (NoticesSent(s.Sent()[|s.stamps|..], o, c) + NoticesRead(s.inbox, o, c)) == NoticesRead(s.Read(), o, c)
  {
    BatchingPasses(s.batching, o, c);
    ReadConcat(B.Accepted(s.batching), s.inbox, o, c);
    Splits(s.Sent(), |s.stamps|, o, c);
    Regroup(NoticesSent(s.Sent()[..|s.stamps|], o, c), NoticesSent(s.Sent()[|s.stamps|..], o, c), NoticesRead(s.inbox, o, c));
  }

  lemma Splits(sent: seq<B.Batched>, n: nat, o: Owner, c: ChannelId)
    requires n <= |sent|
    ensures NoticesSent(sent[..n], o, c) + NoticesSent(sent[n..], o, c) == NoticesSent(sent, o, c)
  {
    SentConcat(sent[..n], sent[n..], o, c);
    assert sent[..n] + sent[n..] == sent;
  }

  lemma Regroup(x: seq<Bytes>, y: seq<Bytes>, u: seq<Bytes>)
    ensures x + (y + u) == (x + y) + u
  {
  }

  lemma SurvivingNotices(z: P.Codec, s: P.State, w: H.World, o: Owner, c: ChannelId)
    requires z.Lawful() && P.Inv(z, s) && H.Inv(w) && w == R.View(s.routes, o)
    requires Narrow(z, s.Sent()[..|s.stamps|], s.stamps)
    ensures H.Base(w) >= 0 && forall i :: 0 <= i < |HT.Surviving(w)| ==> HT.Surviving(w)[i] < |w.routed|
    ensures D.AllOrLess(D.PiecesAt(NoticeOf(z, c), w.routed, HT.Surviving(w)), NoticesSent(s.Sent()[..|s.stamps|], o, c),
                        D.LosesNone(NoticeOf(z, c), w.routed, w.dropped + w.refused, |w.routed|))
  {
    var items := s.Sent()[..|s.stamps|];
    HT.SurvivingRanks(w);
    assert w.routed == P.FramesFor(z, items, s.stamps, o);
    assert w.routed[..|w.routed|] == w.routed;
    D.KeptWhole(NoticeOf(z, c), w.routed, w.dropped + w.refused, |w.routed|);
    FramesTell(z, items, s.stamps, o, c);
  }

  /** Every event reaches its hub as it was read.  In every run the events of
      terminal `c` on their way to hub `o` that are not output are those read from
      `o`'s workloads under `c`, in order and byte for byte, if and only if none
      of them was dropped by the away queue or refused by a dead writer. */
  lemma NoticesReachTheHub(z: P.Codec, states: seq<P.State>, steps: seq<P.Step>, n: nat, o: Owner, c: ChannelId)
    requires z.Lawful() && P.Run(z, states, steps) && n <= |steps|
    requires |states[n].stamps| <= |states[n].Sent()| ==>
               Narrow(z, states[n].Sent()[..|states[n].stamps|], states[n].stamps)
    ensures var s := states[n];
            var w := R.View(s.routes, o);
            |s.stamps| <= |s.Sent()| && H.Base(w) >= 0 &&
            (forall i :: 0 <= i < |HT.Surviving(w)| ==> HT.Surviving(w)[i] < |w.routed|) &&
            (NoticesOnTheirWay(z, s, o, c) == NoticesRead(s.Read(), o, c) <==>
             D.LosesNone(NoticeOf(z, c), w.routed, w.dropped + w.refused, |w.routed|))
  {
    P.RunInv(z, states, steps, n);
    var s := states[n];
    SurvivingNotices(z, s, R.View(s.routes, o), o, c);
    NoticesReadAre(s, o, c);
  }
}
