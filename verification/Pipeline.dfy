/** The whole way of a terminal's output: from its reader through the batch loop
    and the router to the connections of its hub.

    Readers charge what they read to their hub's flow and send it to the batch
    loop, which sends items to a channel the router empties in order.  The router
    writes each item as a frame and takes the route table's lock for it; an item
    whose encoding is refused is skipped and its charge released.  Everything
    else (connections, writers, registrations, other hubs) goes on in between. */
module Pipeline {
  import opened Types
  import opened Away
  import B = Batch
  import Framing
  import H = Hub
  import HT = HubTheorems
  import R = Routes

  /** An OUTPUT message. */
  datatype Output = Output(channel: ChannelId, number: nat, data: Bytes)

  /** How an OUTPUT message is written, at a given moment, and read. */
  datatype Codec = Codec(write: (Output, nat) -> Bytes, read: Bytes -> Option<Output>) {
    ghost predicate Lawful()
    {
      forall o, at :: read(write(o, at)) == Some(o)
    }
  }

  /** `inbox` is what readers sent to the batch loop, `stamps` the moment at which
      the router wrote each item it took up. */
  datatype State = State(inbox: seq<B.Event>, batching: seq<B.Step>, stamps: seq<nat>, routes: R.State) {
    function Batcher(): B.State { B.After(batching) }

    function Sent(): seq<B.Batched> { Batcher().sent }

    /** Everything read so far, in order. */
    function Read(): seq<B.Event> { B.Accepted(batching) + inbox }

    ghost function Transit(o: Owner): seq<nat> { R.TableOf(routes, o).transit }
  }

  const START := State([], [], [], R.START)

  datatype Step =
    | Reads(event: B.Event)
    /** The batch loop takes an event; its charge joins the one at `into`, if any. */
    | Accepts(into: nat, other: nat)
    | Ticks(order: seq<ChannelId>)
    /** The router takes up the next item, charged at `index`, and writes it. */
    | TakesUp(index: nat, stamp: nat)
    | Routing(routing: R.Step)

  function OwnerOf(item: B.Batched): Owner
  {
    match item
    case Batch(owner, _, _, _, _) => owner
    case Passed(e) => e.owner
  }

  function ChannelOf(item: B.Batched): ChannelId
  {
    match item
    case Batch(_, c, _, _, _) => c
    case Passed(e) => e.channel
  }

  /** `item` as a frame: output is encoded when it leaves, another event was
      encoded by its reader. */
  function FrameOf(z: Codec, item: B.Batched, stamp: nat): Result<Bytes>
  {
    match item
    case Batch(_, c, number, data, _) => Framing.EncodeFrame(z.write(Output(c, number, data), stamp))
    case Passed(e) => if e.Notice? then Ok(e.frame) else Err
  }

  /** The message is within the maximum a frame holds. */
  predicate Fits(z: Codec, item: B.Batched, stamp: nat)
  {
    item.Batch? ==> |z.write(Output(item.channel, item.number, item.data), stamp)| <= Framing.MAX_FRAME_SIZE
  }

  /** The OUTPUT message a frame is, if it is one. */
  function Message(z: Codec, frame: Bytes): Option<Output>
  {
    var payload := Framing.OnlyPayload(frame);
    if payload.Some? then z.read(payload.value) else None
  }

  /** What the next item does at the route table. */
  function RouterStep(z: Codec, item: B.Batched, index: nat, stamp: nat): R.Step
  {
    var frame := FrameOf(z, item, stamp);
    R.At(OwnerOf(item),
         if frame.Ok? then H.RouteBegin(index, Entry(ChannelOf(item), frame.value)) else H.DropTransit(index))
  }

  /** Steps that move charges not yet routed: only readers, the batch loop and the
      router take them. */
  predicate MovesCharges(r: R.Step)
  {
    r.At? && (r.step.Charge? || r.step.Absorb? || r.step.DropTransit? || r.step.RouteBegin?)
  }

  /** The charge the event's joins in its terminal's buffer, if any. */
  function Joined(b: B.State, e: B.Event): Option<B.Charge>
  {
    if e.Output? then B.Claim(b, e.channel, e.owner).buffers[e.channel].charge else None
  }

  ghost predicate Merges(s: State, into: nat, other: nat)
    requires s.inbox != []
  {
    var e := s.inbox[0];
    var joined, transit := Joined(s.Batcher(), e), s.Transit(e.owner);
    joined.Some? ==>
      into < |transit| && other < |transit| && into != other &&
      transit[into] == joined.value.bytes && transit[other] == e.charge.bytes
  }

  /** What readers send: well-formed, and no other event's frame is an OUTPUT message. */
  predicate EventOk(z: Codec, e: B.Event)
  {
    B.WellFormed(e) && (e.Notice? ==> Message(z, e.frame) == None)
  }

  ghost predicate Enabled(z: Codec, s: State, step: Step)
  {
    match step
    case Reads(e) => EventOk(z, e)
    case Accepts(i, j) => s.inbox != [] && Merges(s, i, j)
    case Ticks(_) => true
    case TakesUp(i, stamp) =>
      |s.stamps| < |s.Sent()| &&
      var item := s.Sent()[|s.stamps|];
      R.Enabled(s.routes, RouterStep(z, item, i, stamp)) &&
      s.Transit(OwnerOf(item))[i] == B.ChargeOf(item).bytes
    case Routing(r) => R.Enabled(s.routes, r) && !MovesCharges(r)
  }

  ghost function Apply(z: Codec, s: State, step: Step): State
    requires Enabled(z, s, step)
  {
    match step
    case Reads(e) =>
      s.(inbox := s.inbox + [e], routes := R.Apply(s.routes, R.At(e.owner, H.Charge(e.charge.bytes))))
    case Accepts(i, j) =>
      var e := s.inbox[0];
      s.(inbox := s.inbox[1..], batching := s.batching + [B.Accepts(e)],
         routes := if Joined(s.Batcher(), e).Some? then R.Apply(s.routes, R.At(e.owner, H.Absorb(i, j))) else s.routes)
    case Ticks(order) => s.(batching := s.batching + [B.Ticks(order)])
    case TakesUp(i, stamp) =>
      s.(stamps := s.stamps + [stamp],
         routes := R.Apply(s.routes, RouterStep(z, s.Sent()[|s.stamps|], i, stamp)))
    case Routing(r) => s.(routes := R.Apply(s.routes, r))
  }

  ghost predicate Run(z: Codec, states: seq<State>, steps: seq<Step>)
  {
    |states| == |steps| + 1 && states[0] == START &&
    forall i :: 0 <= i < |steps| ==> Enabled(z, states[i], steps[i]) && states[i + 1] == Apply(z, states[i], steps[i])
  }

  // ----- The invariant -----

  /** The frames of the items for hub `o`, in order, without those refused. */
  function FramesFor(z: Codec, items: seq<B.Batched>, stamps: seq<nat>, o: Owner): seq<Entry>
    requires |items| == |stamps|
  {
    if items == [] then []
    else
      var n := |items| - 1;
      var before, frame := FramesFor(z, items[..n], stamps[..n], o), FrameOf(z, items[n], stamps[n]);
      if OwnerOf(items[n]) == o && frame.Ok? then before + [Entry(ChannelOf(items[n]), frame.value)] else before
  }

  /** What was routed to each hub is what was taken up for it, as frames. */
  ghost predicate RoutesItems(z: Codec, s: State)
  {
    |s.stamps| <= |s.Sent()| &&
    forall o :: R.TableOf(s.routes, o).routed == FramesFor(z, s.Sent()[..|s.stamps|], s.stamps, o)
  }

  ghost predicate EventsOk(z: Codec, s: State)
  {
    (forall i :: 0 <= i < |s.inbox| ==> EventOk(z, s.inbox[i])) &&
    (forall i :: 0 <= i < |s.batching| && s.batching[i].Accepts? ==> EventOk(z, s.batching[i].event))
  }

  /** Only readers' events are passed on. */
  predicate ItemOk(z: Codec, item: B.Batched)
  {
    item.Passed? ==> item.event.Notice? && EventOk(z, item.event)
  }

  ghost predicate ItemsOk(z: Codec, items: seq<B.Batched>)
  {
    forall i :: 0 <= i < |items| ==> ItemOk(z, items[i])
  }

  ghost predicate Inv(z: Codec, s: State)
  {
    RoutesItems(z, s) && EventsOk(z, s) && ItemsOk(z, s.Sent()) && R.Inv(s.routes)
  }

  // ----- The batch loop only adds to what it sent -----

  /** `t` is `s` and then batches. */
  predicate AddsBatches(s: seq<B.Batched>, t: seq<B.Batched>)
  {
    s <= t && forall i :: |s| <= i < |t| ==> t[i].Batch?
  }

  lemma TakeAdds(s: B.State, c: ChannelId)
    ensures AddsBatches(s.sent, B.Take(s, c).sent)
  {
  }

  lemma {:induction false} FlushAdds(s: B.State, order: seq<ChannelId>)
    ensures AddsBatches(s.sent, B.Flush(s, order).sent)
  {
    if order != [] {
      FlushAdds(s, order[..|order| - 1]);
      TakeAdds(B.Flush(s, order[..|order| - 1]), order[|order| - 1]);
    }
  }

  lemma AcceptAdds(z: Codec, s: B.State, e: B.Event)
    requires EventOk(z, e) && ItemsOk(z, s.sent)
    ensures s.sent <= B.Accept(s, e).sent && ItemsOk(z, B.Accept(s, e).sent)
  {
    TakeAdds(s, e.channel);
    if e.Output? {
      var t := B.Extend(B.Claim(s, e.channel, e.owner), e);
      assert AddsBatches(s.sent, t.sent);
      TakeAdds(t, e.channel);
    }
  }

  lemma AfterOneMore(batching: seq<B.Step>, b: B.Step)
    ensures B.After(batching + [b]) == B.Apply(B.After(batching), b)
    ensures B.Accepted(batching + [b]) == if b.Accepts? then B.Accepted(batching) + [b.event] else B.Accepted(batching)
  {
    assert (batching + [b])[..|batching|] == batching;
  }

  /** The batch loop's steps leave what was taken up as it was. */
  lemma BatchingKeepsItems(z: Codec, s: State, b: B.Step, inbox: seq<B.Event>)
    requires RoutesItems(z, s) && ItemsOk(z, s.Sent()) && (b.Accepts? ==> EventOk(z, b.event))
    ensures var t := s.(batching := s.batching + [b], inbox := inbox); RoutesItems(z, t) && ItemsOk(z, t.Sent())
  {
    var t := s.(batching := s.batching + [b], inbox := inbox);
    AfterOneMore(s.batching, b);
    match b {
      case Accepts(e) => AcceptAdds(z, s.Batcher(), e);
      case Ticks(order) => FlushAdds(s.Batcher(), order);
    }
    assert t.Sent()[..|s.stamps|] == s.Sent()[..|s.stamps|];
  }

  // ----- The router takes items up in order -----

  predicate Routes(r: R.Step)
  {
    r.At? && r.step.RouteBegin?
  }

  /** Only taking a frame up adds to what was routed. */
  lemma RoutedGrows(s: R.State, r: R.Step, o: Owner)
    requires R.Enabled(s, r)
    ensures R.TableOf(R.Apply(s, r), o).routed ==
            if Routes(r) && r.owner == o then R.TableOf(s, o).routed + [r.step.entry] else R.TableOf(s, o).routed
  {
  }

  lemma FramesOneMore(z: Codec, sent: seq<B.Batched>, stamps: seq<nat>, stamp: nat, o: Owner)
    requires |stamps| < |sent|
    ensures var n, item := |stamps|, sent[|stamps|];
            var frame := FrameOf(z, item, stamp);
            FramesFor(z, sent[..n + 1], stamps + [stamp], o) ==
            if OwnerOf(item) == o && frame.Ok? then FramesFor(z, sent[..n], stamps, o) + [Entry(ChannelOf(item), frame.value)]
            else FramesFor(z, sent[..n], stamps, o)
  {
    var n := |stamps|;
    assert sent[..n + 1][..n] == sent[..n] && (stamps + [stamp])[..n] == stamps;
  }

  lemma RouterRoutes(z: Codec, routes: R.State, item: B.Batched, i: nat, stamp: nat, o: Owner)
    requires R.Enabled(routes, RouterStep(z, item, i, stamp))
    ensures var before, after := R.TableOf(routes, o).routed, R.TableOf(R.Apply(routes, RouterStep(z, item, i, stamp)), o).routed;
            var frame := FrameOf(z, item, stamp);
            after == if OwnerOf(item) == o && frame.Ok? then before + [Entry(ChannelOf(item), frame.value)] else before
  {
    RoutedGrows(routes, RouterStep(z, item, i, stamp), o);
  }

  lemma OneMoreRouted(z: Codec, sent: seq<B.Batched>, stamps: seq<nat>, stamp: nat, i: nat, routes: R.State, o: Owner)
    requires |stamps| < |sent| && R.Enabled(routes, RouterStep(z, sent[|stamps|], i, stamp))
    requires R.TableOf(routes, o).routed == FramesFor(z, sent[..|stamps|], stamps, o)
    ensures R.TableOf(R.Apply(routes, RouterStep(z, sent[|stamps|], i, stamp)), o).routed ==
            FramesFor(z, sent[..|stamps| + 1], stamps + [stamp], o)
  {
    RouterRoutes(z, routes, sent[|stamps|], i, stamp, o);
    FramesOneMore(z, sent, stamps, stamp, o);
  }

  lemma TakingUpKeepsItems(z: Codec, s: State, i: nat, stamp: nat, o: Owner)
    requires RoutesItems(z, s) && Enabled(z, s, TakesUp(i, stamp))
    ensures var t := Apply(z, s, TakesUp(i, stamp));
            R.TableOf(t.routes, o).routed == FramesFor(z, t.Sent()[..|t.stamps|], t.stamps, o)
  {
    assert R.TableOf(s.routes, o).routed == FramesFor(z, s.Sent()[..|s.stamps|], s.stamps, o);
    OneMoreRouted(z, s.Sent(), s.stamps, stamp, i, s.routes, o);
  }

  lemma OthersKeepItems(z: Codec, s: State, r: R.Step, inbox: seq<B.Event>)
    requires RoutesItems(z, s) && R.Enabled(s.routes, r) && !Routes(r)
    ensures RoutesItems(z, s.(routes := R.Apply(s.routes, r), inbox := inbox))
  {
    forall o ensures R.TableOf(R.Apply(s.routes, r), o).routed == R.TableOf(s.routes, o).routed {
      RoutedGrows(s.routes, r, o);
    }
  }

  lemma AcceptingKeepsInv(z: Codec, s: State, i: nat, j: nat)
    requires Inv(z, s) && Enabled(z, s, Accepts(i, j))
    ensures Inv(z, Apply(z, s, Accepts(i, j)))
  {
    var e := s.inbox[0];
    var t := s.(batching := s.batching + [B.Accepts(e)], inbox := s.inbox[1..]);
    AcceptedInv(z, s);
    if Joined(s.Batcher(), e).Some? { RoutingKeepsInv(z, t, R.At(e.owner, H.Absorb(i, j))); }
  }

  /** The batch loop's side of taking an event. */
  lemma AcceptedInv(z: Codec, s: State)
    requires Inv(z, s) && s.inbox != []
    ensures Inv(z, s.(batching := s.batching + [B.Accepts(s.inbox[0])], inbox := s.inbox[1..]))
  {
    BatchingKeepsItems(z, s, B.Accepts(s.inbox[0]), s.inbox[1..]);
  }

  /** A step at the route table that takes no frame up. */
  lemma RoutingKeepsInv(z: Codec, s: State, r: R.Step)
    requires Inv(z, s) && R.Enabled(s.routes, r) && !Routes(r)
    ensures Inv(z, s.(routes := R.Apply(s.routes, r)))
  {
    R.StepKeepsInv(s.routes, r);
    OthersKeepItems(z, s, r, s.inbox);
  }

  lemma StepKeepsInv(z: Codec, s: State, step: Step)
    requires Inv(z, s) && Enabled(z, s, step)
    ensures Inv(z, Apply(z, s, step))
  {
    match step
    case Reads(e) =>
      var r := R.At(e.owner, H.Charge(e.charge.bytes));
      R.StepKeepsInv(s.routes, r);
      OthersKeepItems(z, s, r, s.inbox + [e]);
    case Accepts(i, j) => AcceptingKeepsInv(z, s, i, j);
    case Ticks(order) => BatchingKeepsItems(z, s, B.Ticks(order), s.inbox);
    case TakesUp(i, stamp) =>
      R.StepKeepsInv(s.routes, RouterStep(z, s.Sent()[|s.stamps|], i, stamp));
      forall o ensures
        var t := Apply(z, s, step);
        R.TableOf(t.routes, o).routed == FramesFor(z, t.Sent()[..|t.stamps|], t.stamps, o)
      {
        TakingUpKeepsItems(z, s, i, stamp, o);
      }
    case Routing(r) => RoutingKeepsInv(z, s, r);
  }

  lemma {:induction false} RunInv(z: Codec, states: seq<State>, steps: seq<Step>, n: nat)
    requires Run(z, states, steps) && n <= |steps|
    ensures Inv(z, states[n])
  {
    if n == 0 {
      R.RunInv([R.START], [], 0);
    } else {
      RunInv(z, states, steps, n - 1);
      StepKeepsInv(z, states[n - 1], steps[n - 1]);
      assert states[n - 1 + 1] == Apply(z, states[n - 1], steps[n - 1]);
    }
  }
}
