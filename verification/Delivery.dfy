/** What reaches a hub is what its terminals printed, and exactly when. */
module Delivery {
  import opened Types
  import opened Away
  import P = Pipeline
  import B = Batch
  import Framing
  import H = Hub
  import HT = HubTheorems
  import R = Routes

  /** The output of terminal `c` in a frame. */
  function FrameData(z: P.Codec, frame: Bytes, c: ChannelId): Bytes
  {
    var m := P.Message(z, frame);
    if m.Some? && m.value.channel == c then m.value.data else []
  }

  /** What each frame holds of the output of terminal `c`. */
  function OutputOf(z: P.Codec, c: ChannelId): Entry -> Bytes
  {
    (e: Entry) => FrameData(z, e.frame, c)
  }

  /** The pieces of the frames at `ranks`, in that order. */
  function PiecesAt<T>(piece: Entry -> seq<T>, routed: seq<Entry>, ranks: seq<nat>): seq<T>
    requires forall i :: 0 <= i < |ranks| ==> ranks[i] < |routed|
  {
    if ranks == [] then []
    else PiecesAt(piece, routed, ranks[..|ranks| - 1]) + piece(routed[ranks[|ranks| - 1]])
  }

  function PiecesIn<T>(piece: Entry -> seq<T>, entries: seq<Entry>): seq<T>
  {
    if entries == [] then [] else PiecesIn(piece, entries[..|entries| - 1]) + piece(entries[|entries| - 1])
  }

  lemma PiecesSnoc<T>(piece: Entry -> seq<T>, entries: seq<Entry>, e: Entry)
    ensures PiecesIn(piece, entries + [e]) == PiecesIn(piece, entries) + piece(e)
  {
    assert (entries + [e])[..|entries|] == entries;
  }

  // ----- Keeping all the pieces -----

  /** None of the lost frames holds a piece. */
  ghost predicate LosesNone<T>(piece: Entry -> seq<T>, routed: seq<Entry>, lost: set<nat>, n: nat)
    requires n <= |routed|
  {
    forall k :: 0 <= k < n && k in lost ==> piece(routed[k]) == []
  }

  lemma KeptSnoc<T>(piece: Entry -> seq<T>, routed: seq<Entry>, lost: set<nat>, n: nat)
    requires n < |routed|
    ensures PiecesAt(piece, routed, Kept(n + 1, lost)) ==
            if n in lost then PiecesAt(piece, routed, Kept(n, lost))
            else PiecesAt(piece, routed, Kept(n, lost)) + piece(routed[n])
  {
    if n !in lost {
      assert Kept(n + 1, lost)[..|Kept(n, lost)|] == Kept(n, lost);
    }
  }

  /** `kept` is all of it if `whole`, and shorter if not. */
  predicate AllOrLess<T(==)>(kept: seq<T>, all: seq<T>, whole: bool)
  {
    if whole then kept == all else |kept| < |all|
  }

  /** What is kept stays shorter than all of it once some is gone. */
  lemma OneMorePiece<T>(kept: seq<T>, all: seq<T>, piece: seq<T>, whole: bool, gone: bool)
    requires AllOrLess(kept, all, whole)
    ensures AllOrLess(if gone then kept else kept + piece, all + piece, whole && (gone ==> piece == []))
  {
  }

  lemma PiecesOneMore<T>(piece: Entry -> seq<T>, routed: seq<Entry>, n: nat)
    requires n < |routed|
    ensures PiecesIn(piece, routed[..n + 1]) == PiecesIn(piece, routed[..n]) + piece(routed[n])
  {
    assert routed[..n + 1] == routed[..n] + [routed[n]];
    PiecesSnoc(piece, routed[..n], routed[n]);
  }

  lemma LosesOneMore<T>(piece: Entry -> seq<T>, routed: seq<Entry>, lost: set<nat>, n: nat)
    requires n < |routed|
    ensures LosesNone(piece, routed, lost, n + 1) <==>
            LosesNone(piece, routed, lost, n) && (n in lost ==> piece(routed[n]) == [])
  {
  }

  lemma KeptOneMore<T>(piece: Entry -> seq<T>, routed: seq<Entry>, lost: set<nat>, n: nat, kept: seq<T>, all: seq<T>)
    requires n < |routed| && AllOrLess(kept, all, LosesNone(piece, routed, lost, n))
    requires kept == PiecesAt(piece, routed, Kept(n, lost)) && all == PiecesIn(piece, routed[..n])
    ensures AllOrLess(PiecesAt(piece, routed, Kept(n + 1, lost)), PiecesIn(piece, routed[..n + 1]),
                      LosesNone(piece, routed, lost, n + 1))
  {
    KeptSnoc(piece, routed, lost, n);
    PiecesOneMore(piece, routed, n);
    LosesOneMore(piece, routed, lost, n);
    OneMorePiece(kept, all, piece(routed[n]), LosesNone(piece, routed, lost, n), n in lost);
  }

  /** What is kept is all the pieces, or fewer, exactly when some was lost. */
  lemma {:induction false} KeptWhole<T>(piece: Entry -> seq<T>, routed: seq<Entry>, lost: set<nat>, n: nat)
    requires n <= |routed|
    ensures AllOrLess(PiecesAt(piece, routed, Kept(n, lost)), PiecesIn(piece, routed[..n]), LosesNone(piece, routed, lost, n))
  {
    if n > 0 {
      KeptWhole(piece, routed, lost, n - 1);
      KeptOneMore(piece, routed, lost, n - 1, PiecesAt(piece, routed, Kept(n - 1, lost)), PiecesIn(piece, routed[..n - 1]));
    }
  }

  // ----- What a frame holds of its item -----

  /** An item within the maximum is read as it was sent; one over it is refused,
      or read as no message at all. */
  lemma ItemComesBack(z: P.Codec, item: B.Batched, stamp: nat, o: Owner, c: ChannelId)
    requires z.Lawful() && P.ItemOk(z, item) && P.OwnerOf(item) == o
    ensures P.Fits(z, item, stamp) ==> P.FrameOf(z, item, stamp).Ok?
    ensures P.FrameOf(z, item, stamp).Ok? ==>
              FrameData(z, P.FrameOf(z, item, stamp).value, c) ==
              if P.Fits(z, item, stamp) then B.SentAdds(item, o, c) else []
  {
    match item
    case Batch(_, channel, number, data, _) =>
      var out := P.Output(channel, number, data);
      Framing.OneFrameIffWithinMaximum(z.write(out, stamp));
      assert z.read(z.write(out, stamp)) == Some(out);
    case Passed(e) =>
  }

  /** What one item adds to the stream of terminal `c` at hub `o`. */
  function Arrives(z: P.Codec, item: B.Batched, stamp: nat, o: Owner, c: ChannelId): Bytes
  {
    if P.Fits(z, item, stamp) then B.SentAdds(item, o, c) else []
  }

  function AllArrive(z: P.Codec, items: seq<B.Batched>, stamps: seq<nat>, o: Owner, c: ChannelId): Bytes
    requires |items| == |stamps|
  {
    if items == [] then []
    else
      var n := |items| - 1;
      AllArrive(z, items[..n], stamps[..n], o, c) + Arrives(z, items[n], stamps[n], o, c)
  }

  /** The frames of a hub's items hold the output of those that fit. */
  lemma {:induction false} FramesHold(z: P.Codec, items: seq<B.Batched>, stamps: seq<nat>, o: Owner, c: ChannelId)
    requires z.Lawful() && |items| == |stamps| && P.ItemsOk(z, items)
    ensures PiecesIn(OutputOf(z, c), P.FramesFor(z, items, stamps, o)) == AllArrive(z, items, stamps, o, c)
  {
    if items != [] {
      var n := |items| - 1;
      var item, before := items[n], P.FramesFor(z, items[..n], stamps[..n], o);
      FramesHold(z, items[..n], stamps[..n], o, c);
      if P.OwnerOf(item) == o {
        ItemComesBack(z, item, stamps[n], o, c);
        if P.FrameOf(z, item, stamps[n]).Ok? {
          PiecesSnoc(OutputOf(z, c), before, Entry(P.ChannelOf(item), P.FrameOf(z, item, stamps[n]).value));
        }
      }
    }
  }

  // ----- When nothing is missing -----

  /** No output of terminal `c` for hub `o` is too large for a frame. */
  ghost predicate AllFit(z: P.Codec, items: seq<B.Batched>, stamps: seq<nat>, o: Owner, c: ChannelId)
    requires |items| == |stamps|
  {
    forall k :: 0 <= k < |items| && P.OwnerOf(items[k]) == o && P.ChannelOf(items[k]) == c ==> P.Fits(z, items[k], stamps[k])
  }

  /** Every batch holds output. */
  ghost predicate Filled(items: seq<B.Batched>)
  {
    forall k :: 0 <= k < |items| ==> (items[k].Batch? ==> items[k].data != [])
  }

  /** What arrives is what was sent, or less, exactly when something did not fit. */
  lemma {:induction false} ArrivesWhole(z: P.Codec, items: seq<B.Batched>, stamps: seq<nat>, o: Owner, c: ChannelId)
    requires |items| == |stamps| && Filled(items)
    ensures var arrives, sent := AllArrive(z, items, stamps, o, c), B.SentData(items, o, c);
            if AllFit(z, items, stamps, o, c) then arrives == sent else |arrives| < |sent|
  {
    if items != [] {
      var n := |items| - 1;
      ArrivesWhole(z, items[..n], stamps[..n], o, c);
      FitOneMore(z, items, stamps, o, c);
    }
  }

  lemma FitOneMore(z: P.Codec, items: seq<B.Batched>, stamps: seq<nat>, o: Owner, c: ChannelId)
    requires |items| == |stamps| > 0
    ensures var n := |items| - 1;
            AllFit(z, items, stamps, o, c) <==>
            AllFit(z, items[..n], stamps[..n], o, c) &&
            (P.OwnerOf(items[n]) == o && P.ChannelOf(items[n]) == c ==> P.Fits(z, items[n], stamps[n]))
  {
    var n := |items| - 1;
    if AllFit(z, items, stamps, o, c) {
      forall k | 0 <= k < n && P.OwnerOf(items[..n][k]) == o && P.ChannelOf(items[..n][k]) == c
        ensures P.Fits(z, items[..n][k], stamps[..n][k])
      {
        assert items[..n][k] == items[k] && stamps[..n][k] == stamps[k];
      }
    } else {
      var k :| 0 <= k <= n && P.OwnerOf(items[k]) == o && P.ChannelOf(items[k]) == c && !P.Fits(z, items[k], stamps[k]);
      if k < n { assert items[..n][k] == items[k] && stamps[..n][k] == stamps[k]; }
    }
  }

  // ----- The whole way -----

  /** What a hub is sent, whatever was lost.  In every run the frames routed to
      hub `o` are the items the batch loop sent for it that a frame could hold,
      in that order, and those accepted or still held are all of them without
      exactly the dropped and the refused ones. */
  lemma WhatAHubIsSent(z: P.Codec, states: seq<P.State>, steps: seq<P.Step>, n: nat, o: Owner)
    requires P.Run(z, states, steps) && n <= |steps|
    ensures var s := states[n];
            var w := R.View(s.routes, o);
            |s.stamps| <= |s.Sent()| && H.Base(w) >= 0 &&
            w.routed == P.FramesFor(z, s.Sent()[..|s.stamps|], s.stamps, o) &&
            HT.Surviving(w) == Kept(|w.routed|, w.dropped + w.refused)
  {
    P.RunInv(z, states, steps, n);
    var s := states[n];
    assert R.TableOf(s.routes, o).routed == P.FramesFor(z, s.Sent()[..|s.stamps|], s.stamps, o);
    HT.SurvivingRanks(R.View(s.routes, o));
  }

  /** What the batch loop has buffered for `o` under `c`. */
  function Buffered(b: B.State, o: Owner, c: ChannelId): Bytes
  {
    if c in b.buffers && b.buffers[c].owner == o then b.buffers[c].data else []
  }

  /** The output of terminal `c` on its way to hub `o`: accepted by the hub's
      successive connections or held for it, then sent to the router, then
      buffered, then read and not yet batched. */
  ghost function OnItsWay(z: P.Codec, s: P.State, o: Owner, c: ChannelId): Bytes
    requires |s.stamps| <= |s.Sent()| && H.Base(R.View(s.routes, o)) >= 0
    requires forall i :: 0 <= i < |HT.Surviving(R.View(s.routes, o))| ==>
               HT.Surviving(R.View(s.routes, o))[i] < |R.View(s.routes, o).routed|
  {
    var w := R.View(s.routes, o);
    PiecesAt(OutputOf(z, c), w.routed, HT.Surviving(w)) +
    (B.SentData(s.Sent()[|s.stamps|..], o, c) + Buffered(s.Batcher(), o, c) + B.ReadData(s.inbox, o, c))
  }

  /** No frame with output of terminal `c` for hub `o` was dropped, refused or too large. */
  ghost predicate NothingMissing(z: P.Codec, s: P.State, o: Owner, c: ChannelId)
    requires |s.stamps| <= |s.Sent()|
  {
    var w := R.View(s.routes, o);
    AllFit(z, s.Sent()[..|s.stamps|], s.stamps, o, c) &&
    LosesNone(OutputOf(z, c), w.routed, w.dropped + w.refused, |w.routed|)
  }

  lemma {:induction false} SentConcat(xs: seq<B.Batched>, ys: seq<B.Batched>, o: Owner, c: ChannelId)
    ensures B.SentData(xs + ys, o, c) == B.SentData(xs, o, c) + B.SentData(ys, o, c)
  {
    if ys == [] {
      assert xs + ys == xs;
    } else {
      var init, last := ys[..|ys| - 1], ys[|ys| - 1];
      assert ys == init + [last] && xs + ys == (xs + init) + [last];
      SentSnoc(xs + init, last, o, c);
      SentSnoc(init, last, o, c);
      SentConcat(xs, init, o, c);
    }
  }

  lemma SentSnoc(items: seq<B.Batched>, item: B.Batched, o: Owner, c: ChannelId)
    ensures B.SentData(items + [item], o, c) == B.SentData(items, o, c) + B.SentAdds(item, o, c)
  {
    assert (items + [item])[..|items|] == items;
  }

  /** What was read is what the router took up, then the rest. */
  lemma ReadIs(z: P.Codec, s: P.State, o: Owner, c: ChannelId)
    requires P.Inv(z, s)
    ensures B.SentData(s.Sent()[..|s.stamps|], o, c) +
            (B.SentData(s.Sent()[|s.stamps|..], o, c) + Buffered(s.Batcher(), o, c) + B.ReadData(s.inbox, o, c)) ==
            B.ReadData(s.Read(), o, c)
  {
    B.EachHubItsOwnBytes(s.batching, o, c);
    B.ReadConcat(B.Accepted(s.batching), s.inbox, o, c);
    SentSplits(s.Sent(), |s.stamps|, o, c);
    Regroup(B.SentData(s.Sent()[..|s.stamps|], o, c), B.SentData(s.Sent()[|s.stamps|..], o, c),
            Buffered(s.Batcher(), o, c), B.ReadData(s.inbox, o, c));
  }

  lemma SentSplits(sent: seq<B.Batched>, n: nat, o: Owner, c: ChannelId)
    requires n <= |sent|
    ensures B.SentData(sent[..n], o, c) + B.SentData(sent[n..], o, c) == B.SentData(sent, o, c)
  {
    SentConcat(sent[..n], sent[n..], o, c);
    assert sent[..n] + sent[n..] == sent;
  }

  lemma Regroup(x: Bytes, y: Bytes, u: Bytes, v: Bytes)
    ensures x + (y + u + v) == ((x + y) + u) + v
  {
  }

  lemma SentIsFilled(z: P.Codec, s: P.State)
    requires P.Inv(z, s)
    ensures Filled(s.Sent()[..|s.stamps|])
  {
    B.ChargesConserved(s.batching, "");
    forall k | 0 <= k < |s.stamps| && s.Sent()[k].Batch? ensures s.Sent()[k].data != [] {
      assert s.Sent()[k] in s.Sent();
    }
  }

  /** What survives of what was taken up, in length and, if whole, in content. */
  lemma SurvivesWhole(z: P.Codec, s: P.State, w: H.World, o: Owner, c: ChannelId)
    requires z.Lawful() && P.Inv(z, s) && H.Inv(w) && w == R.View(s.routes, o)
    ensures H.Base(w) >= 0 && forall i :: 0 <= i < |HT.Surviving(w)| ==> HT.Surviving(w)[i] < |w.routed|
    ensures var sent := B.SentData(s.Sent()[..|s.stamps|], o, c);
            var data := PiecesAt(OutputOf(z, c), w.routed, HT.Surviving(w));
            if NothingMissing(z, s, o, c) then data == sent else |data| < |sent|
  {
    var items := s.Sent()[..|s.stamps|];
    HT.SurvivingRanks(w);
    SentIsFilled(z, s);
    assert w.routed == P.FramesFor(z, items, s.stamps, o);
    assert w.routed[..|w.routed|] == w.routed;
    KeptWhole(OutputOf(z, c), w.routed, w.dropped + w.refused, |w.routed|);
    FramesHold(z, items, s.stamps, o, c);
    ArrivesWhole(z, items, s.stamps, o, c);
  }

  /** From terminal to hub.  In every run of readers, batch loop, router,
      connections and writers, the output of terminal `c` on its way to hub `o`
      is exactly what was read from `o`'s workloads under `c`, in order, if and
      only if no frame holding some of it was dropped by the away queue, refused
      by a dead writer or too large to encode. */
  lemma FromTerminalToHub(z: P.Codec, states: seq<P.State>, steps: seq<P.Step>, n: nat, o: Owner, c: ChannelId)
    requires z.Lawful() && P.Run(z, states, steps) && n <= |steps|
    ensures var s := states[n];
            var w := R.View(s.routes, o);
            |s.stamps| <= |s.Sent()| && H.Base(w) >= 0 &&
            (forall i :: 0 <= i < |HT.Surviving(w)| ==> HT.Surviving(w)[i] < |w.routed|) &&
            (OnItsWay(z, s, o, c) == B.ReadData(s.Read(), o, c) <==> NothingMissing(z, s, o, c))
  {
    P.RunInv(z, states, steps, n);
    var s := states[n];
    SurvivesWhole(z, s, R.View(s.routes, o), o, c);
    ReadIs(z, s, o, c);
  }

  // ----- Output too large for a frame is lost -----

  lemma Extend(z: P.Codec, states: seq<P.State>, steps: seq<P.Step>, step: P.Step)
    returns (ss: seq<P.State>, ts: seq<P.Step>)
    requires P.Run(z, states, steps) && P.Enabled(z, states[|steps|], step)
    ensures P.Run(z, ss, ts) && ss[|ts|] == P.Apply(z, states[|steps|], step)
  {
    ss, ts := states + [P.Apply(z, states[|steps|], step)], steps + [step];
  }

  /** The batch of one read. */
  function Alone(e: B.Event): B.Batched
    requires e.Output?
  {
    B.Batch(e.owner, e.channel, e.number, e.data, Some(e.charge))
  }

  lemma OneReadBatched(e: B.Event)
    requires e.Output? && B.WellFormed(e)
    ensures var b := B.After([B.Accepts(e), B.Ticks([e.channel])]);
            b.sent == [Alone(e)] && e.channel in b.buffers && b.buffers[e.channel].data == []
    ensures B.Accepted([B.Accepts(e), B.Ticks([e.channel])]) == [e]
  {
    assert [] + [B.Accepts(e)] == [B.Accepts(e)];
    assert [B.Accepts(e)] + [B.Ticks([e.channel])] == [B.Accepts(e), B.Ticks([e.channel])];
    P.AfterOneMore([], B.Accepts(e));
    P.AfterOneMore([B.Accepts(e)], B.Ticks([e.channel]));
    OneReadAccepted(e);
    var s := B.Accept(B.START, e);
    assert [e.channel][..0] == [];
    assert B.Flush(s, [e.channel]) == B.Take(s, e.channel);
  }

  lemma OneReadAccepted(e: B.Event)
    requires e.Output? && B.WellFormed(e)
    ensures var t := B.Take(B.Accept(B.START, e), e.channel);
            t.sent == [Alone(e)] && e.channel in t.buffers && t.buffers[e.channel].data == []
  {
    assert [] + e.data == e.data && [] + [Alone(e)] == [Alone(e)];
  }

  /** A run in which one read reaches the router. */
  lemma OneReadSent(z: P.Codec, e: B.Event) returns (states: seq<P.State>, steps: seq<P.Step>)
    requires e.Output? && P.EventOk(z, e)
    ensures P.Run(z, states, steps)
    ensures var s := states[|steps|];
            s.inbox == [] && s.batching == [B.Accepts(e), B.Ticks([e.channel])] && s.stamps == [] &&
            s.routes == R.Apply(R.START, R.At(e.owner, H.Charge(e.charge.bytes)))
  {
    states, steps := [P.START], [];
    states, steps := Extend(z, states, steps, P.Reads(e));
    states, steps := Extend(z, states, steps, P.Accepts(0, 0));
    states, steps := Extend(z, states, steps, P.Ticks([e.channel]));
  }

  /** A read whose message is refused by the encoder is lost: everything is taken
      up, nothing was dropped or refused, and no frame was routed. */
  lemma TooLargeIsLost(z: P.Codec, e: B.Event, stamp: nat) returns (states: seq<P.State>, steps: seq<P.Step>)
    requires e.Output? && P.EventOk(z, e) && P.FrameOf(z, Alone(e), stamp).Err?
    ensures P.Run(z, states, steps)
    ensures var s := states[|steps|];
            var w := R.View(s.routes, e.owner);
            s.Read() == [e] && s.inbox == [] && s.Sent() == [Alone(e)] && |s.stamps| == 1 &&
            Buffered(s.Batcher(), e.owner, e.channel) == [] &&
            w.routed == [] && w.dropped == {} && w.refused == {}
  {
    states, steps := OneReadSent(z, e);
    OneReadBatched(e);
    ChargedOnce(e.owner, e.charge.bytes);
    states, steps := Extend(z, states, steps, P.TakesUp(0, stamp));
  }

  /** One charge made, then released without a frame. */
  lemma ChargedOnce(o: Owner, n: nat)
    ensures var s := R.Apply(R.START, R.At(o, H.Charge(n)));
            R.TableOf(s, o).transit == [n] && R.Enabled(s, R.At(o, H.DropTransit(0))) &&
            var t := R.TableOf(R.Apply(s, R.At(o, H.DropTransit(0))), o);
            t.routed == [] && t.dropped == {} && t.refused == {}
  {
  }
}
