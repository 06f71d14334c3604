/** When a push to one terminal can take output from another.

    Over the hub's bound the queue takes from a terminal holding the most among
    those holding several frames, so a terminal's turn comes once every other
    one holds no more than it, or a single frame.  What is left at that point
    decides, and can be told before the push. */
module Fairness {
  import opened Types
  import opened Away

  /** The ranks below `k`. */
  function Below(k: nat): (r: set<nat>)
    ensures forall j: nat :: j in r <==> j < k
  {
    if k == 0 then {} else Below(k - 1) + {k - 1}
  }

  /** The frames of its terminal from rank `k` on. */
  function Tail(es: seq<Entry>, k: nat): seq<nat>
    requires k < |es|
  {
    Held(es, Below(k), es[k].channel)
  }

  function TailBytes(es: seq<Entry>, k: nat): nat
    requires k < |es|
  {
    HeldBytes(es, Below(k), {es[k].channel})
  }

  /** Rank `k` is another terminal's, not its newest, and from it on that
      terminal holds more than `limit`. */
  predicate Excess(es: seq<Entry>, quiet: ChannelId, limit: nat, k: nat)
  {
    k < |es| && es[k].channel != quiet && |Tail(es, k)| > 1 && TailBytes(es, k) > limit
  }

  function Excesses(es: seq<Entry>, quiet: ChannelId, limit: nat): set<nat>
  {
    set k | 0 <= k < |es| && Excess(es, quiet, limit, k)
  }

  /** What is left when every other terminal gave up its oldest frames while it
      held more than `quiet` and more than one frame. */
  function Cut(es: seq<Entry>, lost: set<nat>, quiet: ChannelId): set<nat>
  {
    lost + Excesses(es, quiet, HeldBytes(es, lost, {quiet}))
  }

  /** `quiet` holds several frames, and after the cut the hub is still over its bound. */
  predicate Exposed(a: History, e: Entry, quiet: ChannelId)
  {
    var es := a.entries + [e];
    |Held(a.entries, a.lost, quiet)| > 1 &&
    Total(es, Cut(es, TrimChannel(es, a.lost, e.channel), quiet)) > AWAY_BYTES_PER_HUB
  }

  /** Some outcome of the push takes a frame from `quiet`. */
  ghost predicate CanLose(a: History, e: Entry, quiet: ChannelId)
  {
    exists b :: Pushes(a, e, b) && Held(b.entries, b.lost, quiet) != Held(a.entries, a.lost, quiet)
  }

  // ----- Losing more leaves less -----

  /** With more of its frames lost, a terminal holds no more. */
  lemma {:induction false} LosingMore(es: seq<Entry>, s: set<nat>, t: set<nat>, c: ChannelId)
    requires forall k :: 0 <= k < |es| && es[k].channel == c && k in s ==> k in t
    ensures |Held(es, t, c)| <= |Held(es, s, c)| && HeldBytes(es, t, {c}) <= HeldBytes(es, s, {c})
  {
    if es != [] { LosingMore(es[..|es| - 1], s, t, c); }
  }

  lemma {:induction false} LosingSame(es: seq<Entry>, s: set<nat>, t: set<nat>, c: ChannelId)
    requires forall k :: 0 <= k < |es| && es[k].channel == c ==> (k in s <==> k in t)
    ensures Held(es, t, c) == Held(es, s, c) && HeldBytes(es, t, {c}) == HeldBytes(es, s, {c})
  {
    if es != [] { LosingSame(es[..|es| - 1], s, t, c); }
  }

  lemma {:induction false} LosingMoreInAll(es: seq<Entry>, s: set<nat>, t: set<nat>, cs: set<ChannelId>)
    requires s <= t
    ensures HeldBytes(es, t, cs) <= HeldBytes(es, s, cs)
  {
    if es != [] { LosingMoreInAll(es[..|es| - 1], s, t, cs); }
  }

  /** What a terminal holds is its tail from its oldest held frame on. */
  lemma HoldsATail(es: seq<Entry>, s: set<nat>, c: ChannelId)
    requires SuffixKept(History(es, s)) && Held(es, s, c) != []
    ensures var k := Held(es, s, c)[0]; Tail(es, k) == Held(es, s, c) && TailBytes(es, k) == HeldBytes(es, s, {c})
  {
    var k := Held(es, s, c)[0];
    HeldSpec(es, s, c);
    forall j | 0 <= j < |es| && es[j].channel == c ensures j in s <==> j in Below(k) {
      if j !in s {
        var i :| 0 <= i < |Held(es, s, c)| && Held(es, s, c)[i] == j;
      }
    }
    LosingSame(es, s, Below(k), c);
  }

  /** A frame still held bounds its terminal from below. */
  lemma HeldTail(es: seq<Entry>, s: set<nat>, k: nat)
    requires SuffixKept(History(es, s)) && k < |es| && k !in s
    ensures |Tail(es, k)| <= |Held(es, s, es[k].channel)| && TailBytes(es, k) <= HeldBytes(es, s, {es[k].channel})
  {
    LosingMore(es, s, Below(k), es[k].channel);
  }

  // ----- There is always a next drop, and an end -----

  /** A terminal of `cs` holding the most among those with several frames. */
  lemma {:induction false} LargestAmong(es: seq<Entry>, s: set<nat>, cs: set<ChannelId>) returns (r: Option<ChannelId>)
    ensures r.None? ==> forall c :: c in cs ==> |Held(es, s, c)| <= 1
    ensures r.Some? ==> |Held(es, s, r.value)| > 1 && forall c :: c in cs && |Held(es, s, c)| > 1 ==>
              HeldBytes(es, s, {c}) <= HeldBytes(es, s, {r.value})
    decreases |cs|
  {
    r := None;
    if cs != {} {
      var c :| c in cs;
      r := LargestAmong(es, s, cs - {c});
      if |Held(es, s, c)| > 1 && (r.None? || HeldBytes(es, s, {r.value}) < HeldBytes(es, s, {c})) { r := Some(c); }
    }
  }

  lemma SomeLargest(es: seq<Entry>, s: set<nat>) returns (c: ChannelId)
    requires !OneEach(es, s)
    ensures Largest(es, s, c)
  {
    var d :| |Held(es, s, d)| > 1;
    assert es[Held(es, s, d)[0]] in es;
    var r := LargestAmong(es, s, Channels(es));
    c := r.value;
    forall x | |Held(es, s, x)| > 1 ensures HeldBytes(es, s, {x}) <= HeldBytes(es, s, {c}) {
      assert es[Held(es, s, x)[0]] in es;
    }
  }

  lemma DropCons(es: seq<Entry>, s: set<nat>, c: ChannelId, drops: seq<ChannelId>, to: set<nat>)
    requires Total(es, s) > AWAY_BYTES_PER_HUB && Largest(es, s, c)
    requires HubDrops(es, s + {Held(es, s, c)[0]}, drops, to)
    ensures HubDrops(es, s, [c] + drops, to)
  {
    assert ([c] + drops)[1..] == drops;
  }

  /** From any point the drops can be carried to an end. */
  lemma {:induction false} DropsEnd(es: seq<Entry>, s: set<nat>) returns (drops: seq<ChannelId>, to: set<nat>)
    ensures HubDrops(es, s, drops, to) && Settled(es, to)
    decreases |Kept(|es|, s)|
  {
    drops, to := [], s;
    if !Settled(es, s) {
      var c := SomeLargest(es, s);
      var k := Held(es, s, c)[0];
      FewerKept(|es|, s, k);
      drops, to := DropsEnd(es, s + {k});
      DropCons(es, s, c, drops, to);
      drops := [c] + drops;
    }
  }

  // ----- The exact condition -----

  /** Where the drops stand: the terminal under watch is as it was. */
  ghost predicate Watching(es: seq<Entry>, s: set<nat>, quiet: ChannelId, limit: nat)
  {
    Shape(History(es, s)) && HeldBytes(es, s, {quiet}) == limit
  }

  /** A drop from another terminal leaves the one under watch as it was. */
  lemma DropsAnother(es: seq<Entry>, s: set<nat>, c: ChannelId, quiet: ChannelId, limit: nat)
    requires Watching(es, s, quiet, limit) && c != quiet && |Held(es, s, c)| > 1
    ensures var t := s + {Held(es, s, c)[0]}; Watching(es, t, quiet, limit) && Held(es, t, quiet) == Held(es, s, quiet)
  {
    LoseKeepsShape(History(es, s), c);
    LoseRank(es, s, Held(es, s, c)[0], quiet, {quiet});
  }

  /** Once it is a terminal's turn, everyone else's excess is gone. */
  lemma TurnMeansNoExcess(es: seq<Entry>, s: set<nat>, quiet: ChannelId)
    requires Shape(History(es, s)) && Largest(es, s, quiet)
    ensures Excesses(es, quiet, HeldBytes(es, s, {quiet})) <= s
  {
    forall k | k in Excesses(es, quiet, HeldBytes(es, s, {quiet})) ensures k in s {
      if k !in s { HeldTail(es, s, k); }
    }
  }

  /** Once everyone else's excess is gone, it is the turn of a terminal with several frames. */
  lemma NoExcessMeansTurn(es: seq<Entry>, s: set<nat>, quiet: ChannelId)
    requires Shape(History(es, s)) && |Held(es, s, quiet)| > 1
    requires Excesses(es, quiet, HeldBytes(es, s, {quiet})) <= s
    ensures Largest(es, s, quiet)
  {
    forall c | |Held(es, s, c)| > 1 ensures HeldBytes(es, s, {c}) <= HeldBytes(es, s, {quiet}) {
      if c != quiet {
        HoldsATail(es, s, c);
        assert Held(es, s, c)[0] !in Excesses(es, quiet, HeldBytes(es, s, {quiet}));
      }
    }
  }

  /** If the drops reach `quiet`, the hub is over its bound even without the excess. */
  lemma {:induction false} ReachedMeansOver(
    es: seq<Entry>, s: set<nat>, drops: seq<ChannelId>, to: set<nat>, quiet: ChannelId, limit: nat)
    requires Watching(es, s, quiet, limit) && HubDrops(es, s, drops, to) && Held(es, to, quiet) != Held(es, s, quiet)
    ensures |Held(es, s, quiet)| > 1 && Total(es, s + Excesses(es, quiet, limit)) > AWAY_BYTES_PER_HUB
    decreases |drops|
  {
    var excess := Excesses(es, quiet, limit);
    var k := Held(es, s, drops[0])[0];
    if drops[0] == quiet {
      TurnMeansNoExcess(es, s, quiet);
      assert s + excess == s;
    } else {
      DropsAnother(es, s, drops[0], quiet, limit);
      ReachedMeansOver(es, s + {k}, drops[1..], to, quiet, limit);
      LosingMoreInAll(es, s + excess, s + {k} + excess, Channels(es));
    }
  }

  /** If the hub is over its bound even without the excess, the drops can reach `quiet`. */
  lemma {:induction false} OverMeansReached(es: seq<Entry>, s: set<nat>, quiet: ChannelId, limit: nat)
    returns (drops: seq<ChannelId>, to: set<nat>)
    requires Watching(es, s, quiet, limit) && |Held(es, s, quiet)| > 1
    requires Total(es, s + Excesses(es, quiet, limit)) > AWAY_BYTES_PER_HUB
    ensures HubDrops(es, s, drops, to) && Settled(es, to) && Held(es, s, quiet)[0] in to
    decreases |Kept(|es|, s)|
  {
    var excess := Excesses(es, quiet, limit);
    LosingMoreInAll(es, s, s + excess, Channels(es));
    var c := quiet;
    if excess <= s {
      NoExcessMeansTurn(es, s, quiet);
      drops, to := DropsEnd(es, s + {Held(es, s, quiet)[0]});
      DropsGrow(es, s + {Held(es, s, quiet)[0]}, drops, to);
    } else {
      c := NextInExcess(es, s, quiet, limit);
      var k := Held(es, s, c)[0];
      FewerKept(|es|, s, k);
      DropsAnother(es, s, c, quiet, limit);
      assert s + {k} + excess == s + excess;
      drops, to := OverMeansReached(es, s + {k}, quiet, limit);
    }
    DropCons(es, s, c, drops, to);
    drops := [c] + drops;
  }

  /** While someone else has an excess, the next drop can be part of it. */
  lemma NextInExcess(es: seq<Entry>, s: set<nat>, quiet: ChannelId, limit: nat) returns (c: ChannelId)
    requires Watching(es, s, quiet, limit) && !(Excesses(es, quiet, limit) <= s)
    ensures Largest(es, s, c) && c != quiet && Held(es, s, c)[0] in Excesses(es, quiet, limit)
  {
    var k :| k in Excesses(es, quiet, limit) && k !in s;
    HeldTail(es, s, k);
    c := SomeLargest(es, s);
    HoldsATail(es, s, c);
  }

  /** The state the hub's drops start from. */
  lemma AfterTrim(a: History, e: Entry, quiet: ChannelId)
    requires Invariant(a) && quiet != e.channel
    ensures var es := a.entries + [e];
            var trimmed := TrimChannel(es, a.lost, e.channel);
            Watching(es, trimmed, quiet, HeldBytes(a.entries, a.lost, {quiet})) &&
            Held(es, trimmed, quiet) == Held(a.entries, a.lost, quiet)
  {
    assert |a.entries| !in a.lost;
    HeldAppend(a.entries, e, a.lost, quiet, {quiet});
    GrownShape(a, e);
    TrimKeepsShape(History(a.entries + [e], a.lost), e.channel);
  }

  /** A push to another terminal can take a frame from `quiet` if and only if
      `quiet` holds several frames and the hub is over its bound even after
      every other terminal's excess over `quiet` is cut. */
  lemma PushedOutExactly(a: History, e: Entry, quiet: ChannelId)
    requires Invariant(a) && quiet != e.channel
    ensures CanLose(a, e, quiet) <==> Exposed(a, e, quiet)
  {
    var es := a.entries + [e];
    var trimmed := TrimChannel(es, a.lost, e.channel);
    var limit := HeldBytes(a.entries, a.lost, {quiet});
    AfterTrim(a, e, quiet);
    if CanLose(a, e, quiet) {
      var b :| Pushes(a, e, b) && Held(b.entries, b.lost, quiet) != Held(a.entries, a.lost, quiet);
      var drops :| HubDrops(es, trimmed, drops, b.lost);
      ReachedMeansOver(es, trimmed, drops, b.lost, quiet, limit);
    }
    if Exposed(a, e, quiet) {
      var drops, to := OverMeansReached(es, trimmed, quiet, limit);
      assert Pushes(a, e, History(es, to));
      assert Held(es, to, quiet) != Held(es, trimmed, quiet);
    }
  }

  /** A quieter terminal never loses output to a busy one: with n terminals and
      no frame over an n-th of the hub bound, a push to any other terminal
      leaves one that holds at most its n-th untouched. */
  lemma FairShare(a: History, e: Entry, b: History, n: nat, quiet: ChannelId)
    requires Invariant(a) && Pushes(a, e, b)
    requires |Channels(b.entries)| <= n
    requires forall i :: 0 <= i < |b.entries| ==> |b.entries[i].frame| * n <= AWAY_BYTES_PER_HUB
    requires quiet != e.channel && HeldBytes(a.entries, a.lost, {quiet}) * n <= AWAY_BYTES_PER_HUB
    ensures Held(b.entries, b.lost, quiet) == Held(a.entries, a.lost, quiet)
  {
    AfterTrim(a, e, quiet);
    PushedOutExactly(a, e, quiet);
    if Exposed(a, e, quiet) {
      CutIsSmall(b.entries, TrimChannel(b.entries, a.lost, e.channel), quiet, n);
    }
  }

  /** Nothing over an n-th of the hub's bound is left after the cut. */
  lemma CutIsSmall(es: seq<Entry>, s: set<nat>, quiet: ChannelId, n: nat)
    requires Shape(History(es, s)) && |Channels(es)| <= n && |Held(es, s, quiet)| > 1
    requires forall i :: 0 <= i < |es| ==> |es[i].frame| * n <= AWAY_BYTES_PER_HUB
    requires HeldBytes(es, s, {quiet}) * n <= AWAY_BYTES_PER_HUB
    ensures Total(es, Cut(es, s, quiet)) <= AWAY_BYTES_PER_HUB
  {
    var cut := Cut(es, s, quiet);
    forall c ensures HeldBytes(es, cut, {c}) * n <= AWAY_BYTES_PER_HUB { CutShare(es, s, quiet, n, c); }
    Pigeonhole(es, cut, Channels(es), n);
    assert es[Held(es, s, quiet)[0]].channel in Channels(es);
    Scale(|Channels(es)|, n, AWAY_BYTES_PER_HUB);
    Scale(AWAY_BYTES_PER_HUB, Total(es, cut), n);
  }

  lemma CutShare(es: seq<Entry>, s: set<nat>, quiet: ChannelId, n: nat, c: ChannelId)
    requires Shape(History(es, s))
    requires forall i :: 0 <= i < |es| ==> |es[i].frame| * n <= AWAY_BYTES_PER_HUB
    requires HeldBytes(es, s, {quiet}) * n <= AWAY_BYTES_PER_HUB
    ensures HeldBytes(es, Cut(es, s, quiet), {c}) * n <= AWAY_BYTES_PER_HUB
  {
    var cut, limit := Cut(es, s, quiet), HeldBytes(es, s, {quiet});
    if c == quiet {
      LosingMore(es, s, cut, c);
      Scale(HeldBytes(es, cut, {c}), limit, n);
    } else if |Held(es, cut, c)| <= 1 {
      OneFrameAtMost(es, cut, c, n);
    } else {
      CutIsSuffix(es, s, quiet);
      HoldsATail(es, cut, c);
      assert Held(es, cut, c)[0] !in cut;
      Scale(HeldBytes(es, cut, {c}), limit, n);
    }
  }

  lemma CutIsSuffix(es: seq<Entry>, s: set<nat>, quiet: ChannelId)
    requires SuffixKept(History(es, s))
    ensures SuffixKept(History(es, Cut(es, s, quiet)))
  {
    var cut := Cut(es, s, quiet);
    forall i, j | 0 <= i < j < |es| && es[i].channel == es[j].channel && j in cut ensures i in cut {
      if j !in s { LosingMore(es, Below(i), Below(j), es[j].channel); }
    }
  }

  // ----- A push drops no more than it must -----

  /** Rank `k` is not its terminal's newest, and from it on that terminal holds
      more than a terminal may. */
  predicate OverBound(es: seq<Entry>, c: ChannelId, k: nat)
  {
    k < |es| && es[k].channel == c && |Tail(es, k)| > 1 && TailBytes(es, k) > AWAY_BYTES_PER_CHANNEL
  }

  function AllOverBound(es: seq<Entry>, c: ChannelId): set<nat>
  {
    set k | 0 <= k < |es| && OverBound(es, c, k)
  }

  /** Rank `k` went while the hub, holding all but some of `to`, was over its bound. */
  ghost predicate ByHub(es: seq<Entry>, from: set<nat>, to: set<nat>, k: nat)
  {
    exists s :: from <= s <= to && k !in s && Total(es, s) > AWAY_BYTES_PER_HUB
  }

  /** The terminal's own bound takes only what is over it. */
  lemma {:induction false} TrimIsForced(es: seq<Entry>, lost: set<nat>, c: ChannelId)
    requires Shape(History(es, lost))
    ensures TrimChannel(es, lost, c) <= lost + AllOverBound(es, c)
    decreases |Held(es, lost, c)|
  {
    var held := Held(es, lost, c);
    if HeldBytes(es, lost, {c}) > AWAY_BYTES_PER_CHANNEL && |held| > 1 {
      HoldsATail(es, lost, c);
      assert held[0] in AllOverBound(es, c);
      LoseOldest(es, lost, c);
      LoseKeepsShape(History(es, lost), c);
      if es[held[0]].frame != [] { TrimIsForced(es, lost + {held[0]}, c); }
    }
  }

  /** And all of that, unless an empty frame stops it. */
  lemma TrimIsExact(es: seq<Entry>, lost: set<nat>, c: ChannelId)
    requires Shape(History(es, lost)) && AllNonEmpty(es) && Held(es, lost, c) != []
    ensures TrimChannel(es, lost, c) == lost + AllOverBound(es, c)
  {
    var trimmed := TrimChannel(es, lost, c);
    TrimIsForced(es, lost, c);
    TrimGrows(es, lost, c);
    TrimKeepsShape(History(es, lost), c);
    forall k | k in AllOverBound(es, c) ensures k in trimmed {
      if k !in trimmed { HeldTail(es, trimmed, k); }
    }
  }

  /** The hub's bound takes only while it is exceeded. */
  lemma {:induction false} DropsAreForced(es: seq<Entry>, s: set<nat>, drops: seq<ChannelId>, to: set<nat>, k: nat)
    requires HubDrops(es, s, drops, to) && k in to && k !in s
    ensures ByHub(es, s, to, k)
    decreases |drops|
  {
    var first := Held(es, s, drops[0])[0];
    DropsGrow(es, s, drops, to);
    if k != first {
      DropsAreForced(es, s + {first}, drops[1..], to, k);
      var t :| s + {first} <= t <= to && k !in t && Total(es, t) > AWAY_BYTES_PER_HUB;
      assert s <= t;
    }
  }

  /** Every frame a push drops had to go: its terminal held more than its bound
      from that frame on, or the hub was over its own bound when it went. */
  lemma PushDropsOnlyWhatItMust(a: History, e: Entry, b: History, k: nat)
    requires Invariant(a) && Pushes(a, e, b) && k in b.lost && k !in a.lost
    ensures OverBound(b.entries, e.channel, k) || ByHub(b.entries, a.lost, b.lost, k)
  {
    var es := a.entries + [e];
    var trimmed := TrimChannel(es, a.lost, e.channel);
    var drops :| HubDrops(es, trimmed, drops, b.lost);
    GrownShape(a, e);
    TrimIsForced(es, a.lost, e.channel);
    TrimGrows(es, a.lost, e.channel);
    DropsGrow(es, trimmed, drops, b.lost);
    if k !in trimmed {
      DropsAreForced(es, trimmed, drops, b.lost, k);
      var s :| trimmed <= s <= b.lost && k !in s && Total(es, s) > AWAY_BYTES_PER_HUB;
      assert a.lost <= s;
    }
  }

  /** As long as the hub stays within its bound, a push of non-empty frames drops
      exactly what takes its terminal over its own. */
  lemma PushDropsExactly(a: History, e: Entry, b: History)
    requires Invariant(a) && Pushes(a, e, b) && AllNonEmpty(b.entries)
    requires Total(b.entries, a.lost + AllOverBound(b.entries, e.channel)) <= AWAY_BYTES_PER_HUB
    ensures b.lost == a.lost + AllOverBound(b.entries, e.channel)
  {
    GrownShape(a, e);
    TrimIsExact(b.entries, a.lost, e.channel);
  }

  /** A push that stays within both bounds drops nothing, whatever was dropped before. */
  lemma WithinBoundsDropsNothing(a: History, e: Entry, b: History)
    requires Pushes(a, e, b)
    requires HeldBytes(b.entries, a.lost, {e.channel}) <= AWAY_BYTES_PER_CHANNEL
    requires Total(b.entries, a.lost) <= AWAY_BYTES_PER_HUB
    ensures b.lost == a.lost
  {
  }
}
