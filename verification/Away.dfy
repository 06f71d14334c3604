/** What a hub's terminals print while that hub has no connection.

    The specification is a history: every frame pushed since the queue was
    created, and the set of ranks dropped so far.  Which frames a push drops is
    then a relation over histories, whose only freedom is which of several
    equally large terminals loses a frame.  `AwayQueue` is the mutable queue,
    proved to hold exactly what its history says. */
module Away {
  import opened Types

  const AWAY_BYTES_PER_CHANNEL: nat := 1024 * 1024
  const AWAY_BYTES_PER_HUB: nat := 16 * 1024 * 1024

  datatype Entry = Entry(channel: ChannelId, frame: Bytes)

  /** All pushed entries, indexed by rank, and the ranks no longer held. */
  datatype History = History(entries: seq<Entry>, lost: set<nat>)

  const EMPTY := History([], {})

  function Channels(es: seq<Entry>): set<ChannelId>
  {
    set e | e in es :: e.channel
  }

  /** The ranks `ch` still holds, oldest first. */
  function Held(es: seq<Entry>, lost: set<nat>, ch: ChannelId): (r: seq<nat>)
    ensures forall i :: 0 <= i < |r| ==> r[i] < |es| && es[r[i]].channel == ch && r[i] !in lost
  {
    if es == [] then []
    else
      var n := |es| - 1;
      var before := Held(es[..n], lost, ch);
      if es[n].channel == ch && n !in lost then before + [n] else before
  }

  /** The bytes the terminals in `cs` still hold together. */
  function HeldBytes(es: seq<Entry>, lost: set<nat>, cs: set<ChannelId>): nat
  {
    if es == [] then 0
    else
      var n := |es| - 1;
      HeldBytes(es[..n], lost, cs) +
      if es[n].channel in cs && n !in lost then |es[n].frame| else 0
  }

  function Total(es: seq<Entry>, lost: set<nat>): nat
  {
    HeldBytes(es, lost, Channels(es))
  }

  function LostBytes(es: seq<Entry>, lost: set<nat>): nat
  {
    if es == [] then 0
    else
      var n := |es| - 1;
      LostBytes(es[..n], lost) + if n in lost then |es[n].frame| else 0
  }

  function PushedBytes(es: seq<Entry>): nat
  {
    if es == [] then 0 else PushedBytes(es[..|es| - 1]) + |es[|es| - 1].frame|
  }

  /** The ranks kept across all terminals, in the order they were pushed. */
  function Kept(n: nat, lost: set<nat>): (r: seq<nat>)
    ensures forall i :: 0 <= i < |r| ==> r[i] < n && r[i] !in lost
  {
    if n == 0 then []
    else if n - 1 in lost then Kept(n - 1, lost)
    else Kept(n - 1, lost) + [n - 1]
  }

  function FramesAt(es: seq<Entry>, ranks: seq<nat>): (r: seq<Bytes>)
    requires forall i :: 0 <= i < |ranks| ==> ranks[i] < |es|
    ensures |r| == |ranks|
  {
    seq(|ranks|, i requires 0 <= i < |ranks| => es[ranks[i]].frame)
  }

  // ----- What a push drops -----

  /** The per-terminal bound: the oldest frames of `ch` go while it is over the
      bound, never its newest, and the loop gives up after an empty frame. */
  function TrimChannel(es: seq<Entry>, lost: set<nat>, ch: ChannelId): set<nat>
    decreases |Held(es, lost, ch)|
  {
    var held := Held(es, lost, ch);
    if HeldBytes(es, lost, {ch}) <= AWAY_BYTES_PER_CHANNEL || |held| <= 1 then lost
    else
      LoseOldest(es, lost, ch);
      if es[held[0]].frame == [] then lost + {held[0]}
      else TrimChannel(es, lost + {held[0]}, ch)
  }

  /** `ch` holds the most among the terminals that hold more than one frame. */
  ghost predicate Largest(es: seq<Entry>, lost: set<nat>, ch: ChannelId)
  {
    |Held(es, lost, ch)| > 1 &&
    forall c :: |Held(es, lost, c)| > 1 ==> HeldBytes(es, lost, {c}) <= HeldBytes(es, lost, {ch})
  }

  ghost predicate OneEach(es: seq<Entry>, lost: set<nat>)
  {
    forall c :: |Held(es, lost, c)| <= 1
  }

  /** The hub bound is met, or nothing more may go. */
  ghost predicate Settled(es: seq<Entry>, lost: set<nat>)
  {
    Total(es, lost) <= AWAY_BYTES_PER_HUB || OneEach(es, lost)
  }

  /** Over the hub bound, the terminals named in `drops` lose their oldest frame
      one after the other, each the largest at its turn. */
  ghost predicate HubDrops(es: seq<Entry>, lost: set<nat>, drops: seq<ChannelId>, to: set<nat>)
    decreases |drops|
  {
    if drops == [] then to == lost
    else
      Total(es, lost) > AWAY_BYTES_PER_HUB &&
      Largest(es, lost, drops[0]) &&
      HubDrops(es, lost + {Held(es, lost, drops[0])[0]}, drops[1..], to)
  }

  /** Pushing `e` takes history `a` to `b`. */
  ghost predicate Pushes(a: History, e: Entry, b: History)
  {
    var trimmed := TrimChannel(a.entries + [e], a.lost, e.channel);
    b.entries == a.entries + [e] && Settled(b.entries, b.lost) &&
    exists drops :: HubDrops(b.entries, trimmed, drops, b.lost)
  }

  // ----- Lemmas about histories -----

  /** Exactly the ranks of `ch` that are not lost, in ascending order. */
  lemma {:induction false} HeldSpec(es: seq<Entry>, lost: set<nat>, ch: ChannelId)
    ensures forall k :: 0 <= k < |es| && es[k].channel == ch && k !in lost ==> k in Held(es, lost, ch)
    ensures forall i, j :: 0 <= i < j < |Held(es, lost, ch)| ==> Held(es, lost, ch)[i] < Held(es, lost, ch)[j]
  {
    if es != [] {
      var n := |es| - 1;
      HeldSpec(es[..n], lost, ch);
      forall k | 0 <= k < |es| && es[k].channel == ch && k !in lost ensures k in Held(es, lost, ch) {
        if k < n { assert es[..n][k] == es[k]; }
      }
    }
  }

  lemma {:induction false} KeptSpec(n: nat, lost: set<nat>)
    ensures forall k :: 0 <= k < n && k !in lost ==> k in Kept(n, lost)
    ensures forall i, j :: 0 <= i < j < |Kept(n, lost)| ==> Kept(n, lost)[i] < Kept(n, lost)[j]
  {
    if n > 0 { KeptSpec(n - 1, lost); }
  }

  /** Losing a rank that is not there yet changes nothing. */
  lemma {:induction false} LoseLater(es: seq<Entry>, lost: set<nat>, k: nat, ch: ChannelId, cs: set<ChannelId>)
    requires |es| <= k
    ensures Held(es, lost + {k}, ch) == Held(es, lost, ch)
    ensures HeldBytes(es, lost + {k}, cs) == HeldBytes(es, lost, cs)
    ensures LostBytes(es, lost + {k}) == LostBytes(es, lost)
  {
    if es != [] {
      LoseLater(es[..|es| - 1], lost, k, ch, cs);
    }
  }

  /** Losing the held rank `k`: its terminal no longer holds it, the counters
      move by its length, and no other terminal changes. */
  lemma {:induction false} LoseRank(es: seq<Entry>, lost: set<nat>, k: nat, ch: ChannelId, cs: set<ChannelId>)
    requires k < |es| && k !in lost
    ensures es[k].channel != ch ==> Held(es, lost + {k}, ch) == Held(es, lost, ch)
    ensures HeldBytes(es, lost + {k}, cs) ==
            HeldBytes(es, lost, cs) - if es[k].channel in cs then |es[k].frame| else 0
    ensures LostBytes(es, lost + {k}) == LostBytes(es, lost) + |es[k].frame|
  {
    var n := |es| - 1;
    if k == n {
      LoseLater(es[..n], lost, k, ch, cs);
    } else {
      LoseRank(es[..n], lost, k, ch, cs);
    }
  }

  lemma {:induction false} LoseOldest(es: seq<Entry>, lost: set<nat>, ch: ChannelId)
    requires Held(es, lost, ch) != []
    ensures Held(es, lost + {Held(es, lost, ch)[0]}, ch) == Held(es, lost, ch)[1..]
  {
    var n := |es| - 1;
    var k := Held(es, lost, ch)[0];
    if Held(es[..n], lost, ch) == [] {
      LoseLater(es[..n], lost, k, ch, {});
    } else {
      LoseOldest(es[..n], lost, ch);
    }
  }

  lemma {:induction false} HeldAppend(es: seq<Entry>, e: Entry, lost: set<nat>, ch: ChannelId, cs: set<ChannelId>)
    requires |es| !in lost
    ensures Held(es + [e], lost, ch) == Held(es, lost, ch) + if e.channel == ch then [|es|] else []
    ensures HeldBytes(es + [e], lost, cs) == HeldBytes(es, lost, cs) + if e.channel in cs then |e.frame| else 0
    ensures LostBytes(es + [e], lost) == LostBytes(es, lost)
    ensures Channels(es + [e]) == Channels(es) + {e.channel}
  {
    assert (es + [e])[..|es|] == es;
    assert (es + [e])[|es|] == e;
    forall c ensures c in Channels(es + [e]) <==> c in Channels(es) + {e.channel} {
      assert e in es + [e];
    }
  }

  /** Only the terminals that printed something count. */
  lemma {:induction false} HeldBytesMonotone(es: seq<Entry>, lost: set<nat>, cs: set<ChannelId>, ds: set<ChannelId>)
    requires forall e :: e in es && e.channel in cs ==> e.channel in ds
    ensures HeldBytes(es, lost, cs) <= HeldBytes(es, lost, ds)
  {
    if es != [] {
      HeldBytesMonotone(es[..|es| - 1], lost, cs, ds);
      assert es[|es| - 1] in es;
    }
  }

  lemma TotalAppend(es: seq<Entry>, e: Entry, lost: set<nat>)
    requires |es| !in lost
    ensures Total(es + [e], lost) == Total(es, lost) + |e.frame|
  {
    HeldAppend(es, e, lost, e.channel, Channels(es + [e]));
    HeldBytesMonotone(es, lost, Channels(es), Channels(es) + {e.channel});
    HeldBytesMonotone(es, lost, Channels(es) + {e.channel}, Channels(es));
  }

  /** What is held and what was dropped make up what was pushed. */
  lemma {:induction false} KeptPlusLost(es: seq<Entry>, lost: set<nat>)
    ensures Total(es, lost) + LostBytes(es, lost) == PushedBytes(es)
  {
    if es != [] {
      var n := |es| - 1;
      KeptPlusLost(es[..n], lost);
      HeldBytesMonotone(es[..n], lost, Channels(es[..n]), Channels(es));
      HeldBytesMonotone(es[..n], lost, Channels(es), Channels(es[..n]));
      assert es[n] in es;
    }
  }

  lemma {:induction false} HeldBytesSplit(es: seq<Entry>, lost: set<nat>, ch: ChannelId, cs: set<ChannelId>)
    requires ch in cs
    ensures HeldBytes(es, lost, cs) == HeldBytes(es, lost, cs - {ch}) + HeldBytes(es, lost, {ch})
  {
    if es != [] {
      HeldBytesSplit(es[..|es| - 1], lost, ch, cs);
    }
  }

  lemma {:induction false} NoTerminalsNoBytes(es: seq<Entry>, lost: set<nat>)
    ensures HeldBytes(es, lost, {}) == 0
  {
    if es != [] {
      NoTerminalsNoBytes(es[..|es| - 1], lost);
    }
  }

  // ----- The invariant over any pushes -----

  ghost predicate SuffixKept(a: History)
  {
    forall i, j :: 0 <= i < j < |a.entries| && a.entries[i].channel == a.entries[j].channel && j in a.lost ==> i in a.lost
  }

  ghost predicate NewestKept(a: History)
  {
    forall c :: c in Channels(a.entries) ==> Held(a.entries, a.lost, c) != []
  }

  ghost predicate InRange(a: History)
  {
    forall k :: k in a.lost ==> k < |a.entries|
  }

  predicate AllNonEmpty(es: seq<Entry>)
  {
    forall i :: 0 <= i < |es| ==> es[i].frame != []
  }

  ghost predicate ChannelBounded(a: History, c: ChannelId)
  {
    HeldBytes(a.entries, a.lost, {c}) <= AWAY_BYTES_PER_CHANNEL || |Held(a.entries, a.lost, c)| == 1
  }

  ghost predicate Shape(a: History)
  {
    InRange(a) && SuffixKept(a) && NewestKept(a)
  }

  ghost predicate Invariant(a: History)
  {
    Shape(a) && Settled(a.entries, a.lost) &&
    (AllNonEmpty(a.entries) ==> forall c :: c in Channels(a.entries) ==> ChannelBounded(a, c))
  }

  /** Dropping the oldest of several frames keeps the shape. */
  lemma LoseKeepsShape(a: History, ch: ChannelId)
    requires Shape(a) && |Held(a.entries, a.lost, ch)| > 1
    ensures Shape(History(a.entries, a.lost + {Held(a.entries, a.lost, ch)[0]}))
  {
    var held := Held(a.entries, a.lost, ch);
    var k := held[0];
    var b := History(a.entries, a.lost + {k});
    LoseOldest(a.entries, a.lost, ch);
    forall c | c in Channels(a.entries)
      ensures Held(b.entries, b.lost, c) != []
    {
      LoseRank(a.entries, a.lost, k, c, {});
    }
    HeldSpec(a.entries, a.lost, ch);
    forall i, j | 0 <= i < j < |a.entries| && a.entries[i].channel == a.entries[j].channel && j in b.lost
      ensures i in b.lost
    {
      if j == k && i !in a.lost {
        assert i in held;
      }
    }
  }

  lemma {:induction false} TrimKeepsShape(a: History, ch: ChannelId)
    requires Shape(a) && Held(a.entries, a.lost, ch) != []
    ensures Shape(History(a.entries, TrimChannel(a.entries, a.lost, ch)))
    ensures AllNonEmpty(a.entries) ==> ChannelBounded(History(a.entries, TrimChannel(a.entries, a.lost, ch)), ch)
    ensures forall c :: c != ch ==>
      Held(a.entries, TrimChannel(a.entries, a.lost, ch), c) == Held(a.entries, a.lost, c) &&
      HeldBytes(a.entries, TrimChannel(a.entries, a.lost, ch), {c}) == HeldBytes(a.entries, a.lost, {c})
    decreases |Held(a.entries, a.lost, ch)|
  {
    var held := Held(a.entries, a.lost, ch);
    if HeldBytes(a.entries, a.lost, {ch}) <= AWAY_BYTES_PER_CHANNEL || |held| <= 1 {
    } else {
      var k := held[0];
      LoseKeepsShape(a, ch);
      LoseOldest(a.entries, a.lost, ch);
      forall c | c != ch
        ensures Held(a.entries, a.lost + {k}, c) == Held(a.entries, a.lost, c) &&
                HeldBytes(a.entries, a.lost + {k}, {c}) == HeldBytes(a.entries, a.lost, {c})
      {
        LoseRank(a.entries, a.lost, k, c, {c});
      }
      if a.entries[k].frame != [] {
        TrimKeepsShape(History(a.entries, a.lost + {k}), ch);
      }
    }
  }

  lemma {:induction false} DropsKeepShape(a: History, drops: seq<ChannelId>, to: set<nat>)
    requires Shape(a) && HubDrops(a.entries, a.lost, drops, to)
    ensures Shape(History(a.entries, to))
    ensures forall c :: c in Channels(a.entries) && ChannelBounded(a, c) ==>
      ChannelBounded(History(a.entries, to), c)
    decreases |drops|
  {
    if drops != [] {
      var held := Held(a.entries, a.lost, drops[0]);
      var k := held[0];
      var b := History(a.entries, a.lost + {k});
      LoseKeepsShape(a, drops[0]);
      forall c | c in Channels(a.entries) && ChannelBounded(a, c)
        ensures ChannelBounded(b, c)
      {
        LoseRank(a.entries, a.lost, k, c, {c});
        if c == drops[0] { LoseOldest(a.entries, a.lost, c); }
      }
      DropsKeepShape(b, drops[1..], to);
    }
  }

  /** Every push keeps the queue's invariant, whatever was pushed before. */
  lemma PushKeepsInvariant(a: History, e: Entry, b: History)
    requires Invariant(a) && Pushes(a, e, b)
    ensures Invariant(b)
  {
    var es := a.entries + [e];
    assert |a.entries| !in a.lost;
    GrownShape(a, e);
    HeldAppend(a.entries, e, a.lost, e.channel, {});
    TrimKeepsShape(History(es, a.lost), e.channel);
    var trimmed := TrimChannel(es, a.lost, e.channel);
    var drops :| HubDrops(es, trimmed, drops, b.lost);
    if AllNonEmpty(es) {
      assert AllNonEmpty(a.entries) by {
        forall i | 0 <= i < |a.entries| ensures a.entries[i].frame != [] { assert es[i] == a.entries[i]; }
      }
      forall c | c in Channels(es) ensures ChannelBounded(History(es, trimmed), c) {
        if c != e.channel {
          assert ChannelBounded(a, c);
          HeldAppend(a.entries, e, a.lost, c, {c});
        }
      }
    }
    DropsKeepShape(History(es, trimmed), drops, b.lost);
  }

  lemma {:induction false} TrimGrows(es: seq<Entry>, lost: set<nat>, ch: ChannelId)
    ensures lost <= TrimChannel(es, lost, ch)
    ensures forall k :: k in TrimChannel(es, lost, ch) ==> k in lost || k < |es|
    decreases |Held(es, lost, ch)|
  {
    var held := Held(es, lost, ch);
    if HeldBytes(es, lost, {ch}) > AWAY_BYTES_PER_CHANNEL && |held| > 1 && es[held[0]].frame != [] {
      LoseOldest(es, lost, ch);
      TrimGrows(es, lost + {held[0]}, ch);
    }
  }

  lemma {:induction false} DropsGrow(es: seq<Entry>, lost: set<nat>, drops: seq<ChannelId>, to: set<nat>)
    requires HubDrops(es, lost, drops, to)
    ensures lost <= to && forall k :: k in to ==> k in lost || k < |es|
    decreases |drops|
  {
    if drops != [] {
      DropsGrow(es, lost + {Held(es, lost, drops[0])[0]}, drops[1..], to);
    }
  }

  /** A push drops more of what was pushed, and brings nothing back. */
  lemma PushGrows(a: History, e: Entry, b: History)
    requires InRange(a) && Pushes(a, e, b)
    ensures b.entries == a.entries + [e] && a.lost <= b.lost && InRange(b)
  {
    var trimmed := TrimChannel(b.entries, a.lost, e.channel);
    TrimGrows(b.entries, a.lost, e.channel);
    var drops :| HubDrops(b.entries, trimmed, drops, b.lost);
    DropsGrow(b.entries, trimmed, drops, b.lost);
  }

  /** `states[i + 1]` follows `states[i]` by pushing `pushed[i]`. */
  ghost predicate Run(states: seq<History>, pushed: seq<Entry>)
  {
    |states| == |pushed| + 1 && states[0] == EMPTY &&
    forall i :: 0 <= i < |pushed| ==> Pushes(states[i], pushed[i], states[i + 1])
  }

  lemma {:induction false} RunInvariant(states: seq<History>, pushed: seq<Entry>, n: nat)
    requires Run(states, pushed) && n <= |pushed|
    ensures states[n].entries == pushed[..n] && Invariant(states[n])
  {
    if n > 0 {
      RunInvariant(states, pushed, n - 1);
      assert Pushes(states[n - 1], pushed[n - 1], states[n - 1 + 1]);
      PushKeepsInvariant(states[n - 1], pushed[n - 1], states[n]);
      PushGrows(states[n - 1], pushed[n - 1], states[n]);
    }
  }

  /** After any pushes: the history is what was pushed, held and dropped bytes
      add up to it, every terminal keeps a non-empty suffix of its own frames,
      and both bounds hold up to one frame per terminal. */
  lemma AnyPushes(states: seq<History>, pushed: seq<Entry>)
    requires Run(states, pushed)
    ensures var last := states[|pushed|];
            last.entries == pushed && Invariant(last) &&
            Total(last.entries, last.lost) + LostBytes(last.entries, last.lost) == PushedBytes(pushed)
  {
    RunInvariant(states, pushed, |pushed|);
    KeptPlusLost(states[|pushed|].entries, states[|pushed|].lost);
  }

  // ----- Fair share -----

  lemma Distribute(x: nat, y: nat, n: nat)
    ensures (x + y) * n == x * n + y * n
  {
  }

  lemma Scale(x: nat, y: nat, n: nat)
    ensures x <= y ==> x * n <= y * n
    ensures x < y && n > 0 ==> x * n < y * n
  {
  }

  /** If every terminal of `cs` holds at most an n-th of the hub bound, all of
      them together hold at most |cs| n-ths of it. */
  lemma {:induction false} Pigeonhole(es: seq<Entry>, lost: set<nat>, cs: set<ChannelId>, n: nat)
    requires forall c :: c in cs ==> HeldBytes(es, lost, {c}) * n <= AWAY_BYTES_PER_HUB
    ensures HeldBytes(es, lost, cs) * n <= |cs| * AWAY_BYTES_PER_HUB
    decreases |cs|
  {
    if cs == {} {
      NoTerminalsNoBytes(es, lost);
    } else {
      var c :| c in cs;
      HeldBytesSplit(es, lost, c, cs);
      Pigeonhole(es, lost, cs - {c}, n);
      Distribute(HeldBytes(es, lost, cs - {c}), HeldBytes(es, lost, {c}), n);
    }
  }

  /** A terminal holding more than one frame's worth holds more than one frame. */
  lemma {:induction false} OneFrameAtMost(es: seq<Entry>, lost: set<nat>, ch: ChannelId, n: nat)
    requires forall i :: 0 <= i < |es| ==> |es[i].frame| * n <= AWAY_BYTES_PER_HUB
    requires |Held(es, lost, ch)| <= 1
    ensures HeldBytes(es, lost, {ch}) * n <= AWAY_BYTES_PER_HUB
  {
    if es != [] {
      var k := |es| - 1;
      forall i | 0 <= i < k ensures |es[..k][i].frame| * n <= AWAY_BYTES_PER_HUB { assert es[..k][i] == es[i]; }
      OneFrameAtMost(es[..k], lost, ch, n);
      if es[k].channel == ch && k !in lost {
        NothingHeld(es[..k], lost, ch);
      }
    }
  }

  lemma {:induction false} NothingHeld(es: seq<Entry>, lost: set<nat>, ch: ChannelId)
    requires Held(es, lost, ch) == []
    ensures HeldBytes(es, lost, {ch}) == 0
  {
    if es != [] {
      NothingHeld(es[..|es| - 1], lost, ch);
    }
  }

  /** With n terminals and no frame over an n-th of the hub bound, the terminal
      the hub bound takes from holds more than an n-th of it. */
  lemma LargestHoldsMoreThanItsShare(es: seq<Entry>, lost: set<nat>, ch: ChannelId, n: nat)
    requires |Channels(es)| <= n
    requires forall i :: 0 <= i < |es| ==> |es[i].frame| * n <= AWAY_BYTES_PER_HUB
    requires Total(es, lost) > AWAY_BYTES_PER_HUB && Largest(es, lost, ch)
    ensures HeldBytes(es, lost, {ch}) * n > AWAY_BYTES_PER_HUB
  {
    if HeldBytes(es, lost, {ch}) * n <= AWAY_BYTES_PER_HUB {
      forall c ensures HeldBytes(es, lost, {c}) * n <= AWAY_BYTES_PER_HUB {
        if |Held(es, lost, c)| > 1 {
          Scale(HeldBytes(es, lost, {c}), HeldBytes(es, lost, {ch}), n);
        } else {
          OneFrameAtMost(es, lost, c, n);
        }
      }
      Pigeonhole(es, lost, Channels(es), n);
      var held := Held(es, lost, ch);
      assert es[held[0]] in es;
      assert es[held[0]].channel in Channels(es);
      Scale(|Channels(es)|, n, AWAY_BYTES_PER_HUB);
      Scale(AWAY_BYTES_PER_HUB, Total(es, lost), n);
    }
  }

  lemma GrownShape(a: History, e: Entry)
    requires Shape(a)
    ensures Shape(History(a.entries + [e], a.lost))
    ensures Held(a.entries + [e], a.lost, e.channel) != []
  {
    assert |a.entries| !in a.lost;
    forall c ensures Held(a.entries + [e], a.lost, c) ==
                     Held(a.entries, a.lost, c) + (if e.channel == c then [|a.entries|] else [])
    {
      HeldAppend(a.entries, e, a.lost, c, {});
    }
    HeldAppend(a.entries, e, a.lost, e.channel, {});
  }

  // ----- The queue itself -----

  /** A frame with its rank among all the hub's frames. */
  datatype Ranked = Ranked(rank: nat, frame: Bytes)

  /** One terminal's frames, oldest first. */
  datatype Backlog = Backlog(frames: seq<Ranked>, bytes: nat)

  function RankedAt(es: seq<Entry>, ranks: seq<nat>): (r: seq<Ranked>)
    requires forall i :: 0 <= i < |ranks| ==> ranks[i] < |es|
    ensures |r| == |ranks|
    ensures forall i :: 0 <= i < |r| ==> r[i] == Ranked(ranks[i], es[ranks[i]].frame)
  {
    seq(|ranks|, i requires 0 <= i < |ranks| => Ranked(ranks[i], es[ranks[i]].frame))
  }

  ghost function BacklogOf(a: History, c: ChannelId): Backlog
  {
    Backlog(RankedAt(a.entries, Held(a.entries, a.lost, c)), HeldBytes(a.entries, a.lost, {c}))
  }

  /** Dropping `c`'s oldest frame shortens its backlog and leaves every other. */
  lemma BacklogAfterDrop(a: History, c: ChannelId, d: ChannelId)
    requires |Held(a.entries, a.lost, c)| > 1
    ensures var k := Held(a.entries, a.lost, c)[0];
            var before := BacklogOf(a, c);
            HeldBytes(a.entries, a.lost, {c}) >= |a.entries[k].frame| &&
            BacklogOf(History(a.entries, a.lost + {k}), d) ==
            if d == c then Backlog(before.frames[1..], before.bytes - |a.entries[k].frame|) else BacklogOf(a, d)
  {
    var k := Held(a.entries, a.lost, c)[0];
    LoseOldest(a.entries, a.lost, c);
    LoseRank(a.entries, a.lost, k, d, {d});
    LoseRank(a.entries, a.lost, k, c, {c});
  }

  lemma BacklogAfterPush(a: History, e: Entry, d: ChannelId)
    requires |a.entries| !in a.lost
    ensures var before := BacklogOf(a, d);
            BacklogOf(History(a.entries + [e], a.lost), d) ==
            if d == e.channel then Backlog(before.frames + [Ranked(|a.entries|, e.frame)], before.bytes + |e.frame|)
            else before
  {
    HeldAppend(a.entries, e, a.lost, d, {d});
    var after := BacklogOf(History(a.entries + [e], a.lost), d);
    assert d != e.channel ==> after.frames == BacklogOf(a, d).frames;
  }

  lemma {:induction false} DropSnoc(es: seq<Entry>, lost: set<nat>, drops: seq<ChannelId>, to: set<nat>, c: ChannelId)
    requires HubDrops(es, lost, drops, to)
    requires Total(es, to) > AWAY_BYTES_PER_HUB && Largest(es, to, c)
    ensures HubDrops(es, lost, drops + [c], to + {Held(es, to, c)[0]})
    decreases |drops|
  {
    if drops == [] {
      assert drops + [c] == [c];
    } else {
      DropSnoc(es, lost + {Held(es, lost, drops[0])[0]}, drops[1..], to, c);
      assert (drops + [c])[1..] == drops[1..] + [c];
    }
  }

  ghost predicate AscendingRanks(s: seq<Ranked>)
  {
    forall i, j :: 0 <= i < j < |s| ==> s[i].rank < s[j].rank
  }

  /** Ascending ranks leave no choice of order. */
  lemma {:induction false} AscendingUnique(s: seq<Ranked>, t: seq<Ranked>)
    requires AscendingRanks(s) && AscendingRanks(t)
    requires forall x :: x in s <==> x in t
    ensures s == t
    decreases |s|
  {
    assert |t| == 0 || t[0] in s;
    if s != [] {
      assert s[0] in t;
      forall x ensures x in s[1..] <==> x in t[1..] {
        assert x in s <==> x == s[0] || x in s[1..];
        assert x in t <==> x == t[0] || x in t[1..];
      }
      AscendingUnique(s[1..], t[1..]);
    }
  }

  function Insert(x: Ranked, s: seq<Ranked>): (r: seq<Ranked>)
    ensures forall y :: y in r <==> y == x || y in s
    ensures AscendingRanks(s) && (forall y :: y in s ==> y.rank != x.rank) ==> AscendingRanks(r)
  {
    if s == [] || x.rank <= s[0].rank then [x] + s
    else
      var rest := Insert(x, s[1..]);
      assert forall i :: 0 <= i < |rest| ==> rest[i] in rest;
      [s[0]] + rest
  }

  /** One more backlog joins the frames sorted so far. */
  method InsertAll(backlog: seq<Ranked>, sorted: seq<Ranked>) returns (r: seq<Ranked>)
    requires AscendingRanks(backlog) && AscendingRanks(sorted)
    requires forall x, y :: x in backlog && y in sorted ==> x.rank != y.rank
    ensures AscendingRanks(r)
    ensures forall x :: x in r <==> x in sorted || x in backlog
  {
    r := sorted;
    for i := 0 to |backlog|
      invariant AscendingRanks(r)
      invariant forall x :: x in r <==> x in sorted || x in backlog[..i]
    {
      assert backlog[..i + 1] == backlog[..i] + [backlog[i]];
      r := Insert(backlog[i], r);
    }
    assert backlog[..|backlog|] == backlog;
  }

  class AwayQueue {
    var channels: map<ChannelId, Backlog>
    /** Bytes held across all the hub's terminals. */
    var bytes: nat
    /** The rank the next frame takes. */
    var next: nat
    /** Bytes dropped since the hub left. */
    var dropped: nat
    ghost var history: History

    /** The backlogs and the counters are what the history says. */
    ghost predicate Matches()
      reads this
    {
      channels.Keys == Channels(history.entries) &&
      (forall c :: c in channels ==> channels[c] == BacklogOf(history, c)) &&
      bytes == Total(history.entries, history.lost) &&
      next == |history.entries| &&
      dropped == LostBytes(history.entries, history.lost)
    }

    ghost predicate Valid()
      reads this
    {
      Invariant(history) && Matches()
    }

    constructor ()
      ensures Valid() && history == EMPTY
    {
      channels, bytes, next, dropped := map[], 0, 0, 0;
      history := EMPTY;
    }

    /** Drop `c`'s oldest frame, unless it is its newest, and count it out.
        Returns the bytes dropped. */
    method DropOldest(c: ChannelId) returns (n: nat)
      requires Shape(history) && Matches() && c in channels
      modifies this
      ensures Shape(history) && Matches()
      ensures var held := old(Held(history.entries, history.lost, c));
              if |held| <= 1 then n == 0 && history == old(history)
              else n == |old(history).entries[held[0]].frame| &&
                   history == History(old(history).entries, old(history).lost + {held[0]})
    {
      ghost var es, lost := history.entries, history.lost;
      ghost var held := Held(es, lost, c);
      var backlog := channels[c];
      if |backlog.frames| <= 1 {
        return 0;
      }
      n := |backlog.frames[0].frame|;
      LoseKeepsShape(history, c);
      BacklogAfterDrop(history, c, c);
      forall d ensures BacklogOf(History(es, lost + {held[0]}), d) ==
                       if d == c then Backlog(backlog.frames[1..], backlog.bytes - n) else BacklogOf(history, d)
      {
        BacklogAfterDrop(history, c, d);
      }
      assert es[held[0]] in es;
      LoseRank(es, lost, held[0], c, Channels(es));
      channels := channels[c := Backlog(backlog.frames[1..], backlog.bytes - n)];
      bytes := bytes - n;
      dropped := dropped + n;
      history := History(es, lost + {held[0]});
    }

    /** The terminal holding the most among those holding several frames. */
    method FindLargest() returns (r: Option<ChannelId>)
      requires Matches()
      ensures r == None ==> OneEach(history.entries, history.lost)
      ensures r.Some? ==> r.value in channels && Largest(history.entries, history.lost, r.value)
    {
      r := None;
      var rest := channels.Keys;
      while rest != {}
        invariant rest <= channels.Keys
        invariant r == None ==> forall c :: c in channels && c !in rest ==> |channels[c].frames| <= 1
        invariant r.Some? ==> r.value in channels && |channels[r.value].frames| > 1
        invariant r.Some? ==> forall c :: c in channels && c !in rest && |channels[c].frames| > 1 ==>
          channels[c].bytes <= channels[r.value].bytes
      {
        var c :| c in rest;
        if |channels[c].frames| > 1 && (r == None || channels[r.value].bytes <= channels[c].bytes) {
          r := Some(c);
        }
        rest := rest - {c};
      }
      forall c | c !in channels ensures |Held(history.entries, history.lost, c)| <= 1 {
        AbsentHoldsNothing(history.entries, history.lost, c);
      }
    }

    /** Keep a frame of `channel`, dropping the oldest output beyond the bounds. */
    method Push(channel: ChannelId, frame: Bytes)
      requires Valid()
      modifies this
      ensures Valid()
      ensures Pushes(old(history), Entry(channel, frame), history)
    {
      ghost var a, e := history, Entry(channel, frame);
      ghost var es := a.entries + [e];
      Count(channel, frame);
      ghost var trimmed := TrimChannel(es, a.lost, channel);
      while channels[channel].bytes > AWAY_BYTES_PER_CHANNEL
        invariant Shape(history) && Matches() && history.entries == es && channel in channels
        invariant TrimChannel(es, history.lost, channel) == trimmed
        decreases |channels[channel].frames|
      {
        LoseOldest(es, history.lost, channel);
        var n := DropOldest(channel);
        if n == 0 {
          break;
        }
      }
      assert history.lost == trimmed;
      ghost var drops: seq<ChannelId> := [];
      while bytes > AWAY_BYTES_PER_HUB
        invariant Shape(history) && Matches() && history.entries == es
        invariant HubDrops(es, trimmed, drops, history.lost)
        decreases |Kept(|es|, history.lost)|
      {
        var largest := FindLargest();
        if largest == None {
          break;
        }
        ghost var lost := history.lost;
        DropSnoc(es, trimmed, drops, lost, largest.value);
        FewerKept(|es|, lost, Held(es, lost, largest.value)[0]);
        var n := DropOldest(largest.value);
        drops := drops + [largest.value];
      }
      assert Pushes(a, e, history);
      PushKeepsInvariant(a, e, history);
    }

    /** The new frame joins its terminal's backlog, before anything is dropped. */
    method Count(channel: ChannelId, frame: Bytes)
      requires Valid()
      modifies this
      ensures Shape(history) && Matches() && channel in channels
      ensures history == History(old(history).entries + [Entry(channel, frame)], old(history).lost)
    {
      ghost var a, e := history, Entry(channel, frame);
      assert |a.entries| !in a.lost;
      var backlog := if channel in channels then channels[channel] else Backlog([], 0);
      if channel !in channels {
        AbsentHoldsNothing(a.entries, a.lost, channel);
        NothingHeld(a.entries, a.lost, channel);
      }
      assert backlog == BacklogOf(a, channel);
      channels := channels[channel := Backlog(backlog.frames + [Ranked(next, frame)], backlog.bytes + |frame|)];
      next := next + 1;
      bytes := bytes + |frame|;
      history := History(a.entries + [e], a.lost);
      GrownShape(a, e);
      TotalAppend(a.entries, e, a.lost);
      HeldAppend(a.entries, e, a.lost, channel, {});
      forall c | c in channels ensures channels[c] == BacklogOf(history, c) {
        BacklogAfterPush(a, e, c);
      }
    }

    /** The frames kept, in the order they were pushed, and the bytes dropped. */
    method Drain() returns (frames: seq<Bytes>, lostBytes: nat)
      requires Valid()
      ensures frames == FramesAt(history.entries, Kept(|history.entries|, history.lost))
      ensures lostBytes == LostBytes(history.entries, history.lost)
    {
      ghost var es, lost := history.entries, history.lost;
      var ranked: seq<Ranked> := [];
      var rest := channels.Keys;
      while rest != {}
        invariant rest <= channels.Keys
        invariant AscendingRanks(ranked)
        invariant forall x :: x in ranked <==>
          x.rank < |es| && x.rank !in lost && es[x.rank].channel !in rest && x.frame == es[x.rank].frame
      {
        var c :| c in rest;
        HeldSpec(es, lost, c);
        ranked := InsertAll(channels[c].frames, ranked);
        rest := rest - {c};
      }
      KeptSpec(|es|, lost);
      ghost var want := RankedAt(es, Kept(|es|, lost));
      AscendingUnique(ranked, want);
      frames := seq(|ranked|, i requires 0 <= i < |ranked| => ranked[i].frame);
      lostBytes := dropped;
    }
  }

  lemma {:induction false} AbsentHoldsNothing(es: seq<Entry>, lost: set<nat>, c: ChannelId)
    requires c !in Channels(es)
    ensures Held(es, lost, c) == []
  {
    if es != [] {
      var n := |es| - 1;
      assert es[n] in es;
      AbsentHoldsNothing(es[..n], lost, c);
    }
  }

  lemma {:induction false} FewerKept(n: nat, lost: set<nat>, k: nat)
    requires k !in lost
    ensures |Kept(n, lost + {k})| == |Kept(n, lost)| - if k < n then 1 else 0
  {
    if n > 0 { FewerKept(n - 1, lost, k); }
  }
}
