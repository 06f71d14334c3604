/** A run in which a terminal loses output to others though it holds the least:
    a terminal that holds one frame is never chosen, so large single frames push
    out a quiet terminal's output. */
module AwayLimits {
  import opened Types
  import opened Away

  /** Over the hub's bound, the only terminal holding several frames loses its
      oldest one, however little it holds. */
  lemma SeveralFramesLose(a: History, e: Entry, b: History, quiet: ChannelId)
    requires InRange(a) && Pushes(a, e, b)
    requires HeldBytes(b.entries, a.lost, {e.channel}) <= AWAY_BYTES_PER_CHANNEL
    requires Total(b.entries, a.lost) > AWAY_BYTES_PER_HUB
    requires |Held(b.entries, a.lost, quiet)| > 1
    requires forall c :: c != quiet ==> |Held(b.entries, a.lost, c)| <= 1
    ensures Held(b.entries, a.lost, quiet)[0] in b.lost
  {
    var drops :| HubDrops(b.entries, a.lost, drops, b.lost);
    if drops != [] {
      assert drops[0] == quiet;
      DropsGrow(b.entries, a.lost + {Held(b.entries, a.lost, quiet)[0]}, drops[1..], b.lost);
    }
  }

  /** And if it holds two, the push ends there, every terminal at one frame. */
  lemma OneOfTwoGoes(a: History, e: Entry, es: seq<Entry>, quiet: ChannelId)
    requires es == a.entries + [e] && HeldBytes(es, a.lost, {e.channel}) <= AWAY_BYTES_PER_CHANNEL
    requires Total(es, a.lost) > AWAY_BYTES_PER_HUB && |Held(es, a.lost, quiet)| == 2
    requires forall c :: c != quiet ==> |Held(es, a.lost, c)| <= 1
    ensures Pushes(a, e, History(es, a.lost + {Held(es, a.lost, quiet)[0]}))
  {
    var k := Held(es, a.lost, quiet)[0];
    var lost := a.lost + {k};
    LoseOldest(es, a.lost, quiet);
    forall c ensures |Held(es, lost, c)| <= 1 {
      if c != quiet { LoseRank(es, a.lost, k, c, {}); }
    }
    assert HubDrops(es, lost, [], lost);
    assert [quiet][1..] == [];
    assert HubDrops(es, a.lost, [quiet], lost);
    assert TrimChannel(es, a.lost, e.channel) == a.lost;
  }

  // ----- A run in which that happens -----

  const QUIET: ChannelId := ""
  const ONE := Entry(QUIET, [1, 0, 0, 0, 1])
  const TWO := Entry(QUIET, [1, 0, 0, 0, 2])

  function Name(k: nat): ChannelId { seq(k, _ => 'b') }

  /** One frame as large as a terminal may keep. */
  function Big(k: nat): Entry { Entry(Name(k), seq(AWAY_BYTES_PER_CHANNEL, _ => 0)) }

  /** Two small frames of the quiet terminal, then `k` large frames of as many
      other terminals. */
  function Scene(k: nat): seq<Entry>
  {
    if k == 0 then [ONE, TWO] else Scene(k - 1) + [Big(k)]
  }

  lemma HeldAtFirst(c: ChannelId)
    ensures c == QUIET ==> Held(Scene(0), {}, c) == [0, 1]
    ensures c != QUIET ==> Held(Scene(0), {}, c) == [] && HeldBytes(Scene(0), {}, {c}) == 0
  {
    HeldAppend([], ONE, {}, c, {c});
    HeldAppend([ONE], TWO, {}, c, {c});
    assert [] + [ONE] == [ONE];
    assert [ONE] + [TWO] == Scene(0);
  }

  lemma {:induction false} HeldInScene(k: nat, c: ChannelId)
    ensures c == QUIET ==> Held(Scene(k), {}, c) == [0, 1]
    ensures c != QUIET ==> |Held(Scene(k), {}, c)| <= 1
    ensures |c| > k ==> Held(Scene(k), {}, c) == [] && HeldBytes(Scene(k), {}, {c}) == 0
  {
    if k == 0 {
      HeldAtFirst(c);
    } else {
      HeldInScene(k - 1, c);
      HeldAppend(Scene(k - 1), Big(k), {}, c, {c});
      assert |Name(k)| == k;
    }
  }

  lemma {:induction false} TotalInScene(k: nat)
    ensures Total(Scene(k), {}) == k * AWAY_BYTES_PER_CHANNEL + 10
  {
    if k == 0 {
      TotalAppend([], ONE, {});
      TotalAppend([ONE], TWO, {});
      assert [] + [ONE] == [ONE];
      assert [ONE] + [TWO] == Scene(0);
    } else {
      TotalInScene(k - 1);
      TotalAppend(Scene(k - 1), Big(k), {});
    }
  }

  /** A push that stays within both bounds drops nothing. */
  lemma PushWithinBounds(es: seq<Entry>, e: Entry)
    requires HeldBytes(es + [e], {}, {e.channel}) <= AWAY_BYTES_PER_CHANNEL
    requires Total(es + [e], {}) <= AWAY_BYTES_PER_HUB
    ensures Pushes(History(es, {}), e, History(es + [e], {}))
  {
    var all := es + [e];
    assert TrimChannel(all, {}, e.channel) == {};
    assert HubDrops(all, {}, [], {});
  }

  lemma BigFits(k: nat)
    ensures HeldBytes(Scene(k) + [Big(k + 1)], {}, {Big(k + 1).channel}) <= AWAY_BYTES_PER_CHANNEL
  {
    HeldInScene(k, Name(k + 1));
    HeldAppend(Scene(k), Big(k + 1), {}, Name(k + 1), {Name(k + 1)});
  }

  lemma QuietPushes()
    ensures Pushes(EMPTY, ONE, History([ONE], {})) && Pushes(History([ONE], {}), TWO, History([ONE, TWO], {}))
  {
    assert [] + [ONE] == [ONE] && [ONE] + [TWO] == [ONE, TWO];
    HeldAppend([], ONE, {}, QUIET, {QUIET});
    HeldAppend([ONE], TWO, {}, QUIET, {QUIET});
    TotalAppend([], ONE, {});
    TotalAppend([ONE], TWO, {});
    PushWithinBounds([], ONE);
    PushWithinBounds([ONE], TWO);
  }

  lemma RunOneMore(states: seq<History>, pushed: seq<Entry>, e: Entry, b: History)
    requires Run(states, pushed) && Pushes(states[|pushed|], e, b)
    ensures Run(states + [b], pushed + [e]) && (states + [b])[|pushed + [e]|] == b
  {
  }

  lemma BigIsKept(k: nat)
    requires k < 15
    ensures Pushes(History(Scene(k), {}), Big(k + 1), History(Scene(k) + [Big(k + 1)], {}))
  {
    BigFits(k);
    TotalInScene(k);
    TotalAppend(Scene(k), Big(k + 1), {});
    PushWithinBounds(Scene(k), Big(k + 1));
  }

  /** With up to fifteen large frames nothing is dropped. */
  lemma {:induction false} SceneIsReached(k: nat) returns (states: seq<History>)
    requires k <= 15
    ensures Run(states, Scene(k)) && states[|Scene(k)|] == History(Scene(k), {})
  {
    if k == 0 {
      QuietPushes();
      RunOneMore([EMPTY], [], ONE, History([ONE], {}));
      assert [EMPTY] + [History([ONE], {})] == [EMPTY, History([ONE], {})] && [] + [ONE] == [ONE];
      RunOneMore([EMPTY, History([ONE], {})], [ONE], TWO, History([ONE, TWO], {}));
      states := [EMPTY, History([ONE], {})] + [History([ONE, TWO], {})];
      assert [ONE] + [TWO] == Scene(0);
    } else {
      var before := SceneIsReached(k - 1);
      BigIsKept(k - 1);
      RunOneMore(before, Scene(k - 1), Big(k), History(Scene(k - 1) + [Big(k)], {}));
      states := before + [History(Scene(k), {})];
    }
  }

  /** Each large frame's terminal holds that much. */
  lemma {:induction false} BigHolds(k: nat, j: nat)
    requires 0 < j <= k
    ensures HeldBytes(Scene(k), {}, {Name(j)}) == AWAY_BYTES_PER_CHANNEL
  {
    HeldAppend(Scene(k - 1), Big(k), {}, Name(k), {Name(j)});
    assert |Name(j)| == j && |Name(k)| == k;
    if j == k { HeldInScene(k - 1, Name(k)); } else { BigHolds(k - 1, j); }
  }

  /** The sixteenth large frame takes the quiet terminal's first. */
  lemma SixteenthPushesOut()
    ensures Pushes(History(Scene(15), {}), Big(16), History(Scene(16), {0}))
  {
    BigFits(15);
    TotalInScene(16);
    HeldInScene(16, QUIET);
    forall c | c != QUIET ensures |Held(Scene(16), {}, c)| <= 1 { HeldInScene(16, c); }
    OneOfTwoGoes(History(Scene(15), {}), Big(16), Scene(16), QUIET);
    assert {} + {0} == {0};
  }

  /** A quiet terminal's output is pushed out by others': from a new queue, two
      small frames of one terminal and a large frame each of sixteen others, and
      the quiet terminal has lost its first, though it held the least. */
  lemma QuietIsPushedOut() returns (states: seq<History>)
    ensures Run(states, Scene(16)) && states[|Scene(16)|] == History(Scene(16), {0})
    ensures Held(Scene(16), {}, QUIET) == [0, 1] && HeldBytes(Scene(16), {}, {QUIET}) == 10
    ensures forall j :: 0 < j <= 16 ==> HeldBytes(Scene(16), {}, {Name(j)}) == AWAY_BYTES_PER_CHANNEL
  {
    var before := SceneIsReached(15);
    SixteenthPushesOut();
    RunOneMore(before, Scene(15), Big(16), History(Scene(16), {0}));
    states := before + [History(Scene(16), {0})];
    HeldInScene(16, QUIET);
    QuietHolds(16);
    forall j | 0 < j <= 16 ensures HeldBytes(Scene(16), {}, {Name(j)}) == AWAY_BYTES_PER_CHANNEL { BigHolds(16, j); }
  }

  lemma {:induction false} QuietHolds(k: nat)
    ensures HeldBytes(Scene(k), {}, {QUIET}) == 10
  {
    if k == 0 {
      assert [] + [ONE] == [ONE] && [ONE] + [TWO] == Scene(0);
      HeldAppend([], ONE, {}, QUIET, {QUIET});
      HeldAppend([ONE], TWO, {}, QUIET, {QUIET});
    } else {
      QuietHolds(k - 1);
      HeldAppend(Scene(k - 1), Big(k), {}, QUIET, {QUIET});
      assert |Name(k)| == k;
    }
  }
}
