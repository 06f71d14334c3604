/** The registry of terminals, whose owner is fixed when they are spawned, the
    STOP a hub may send, and the sweep that ends every terminal at shutdown. */
module Pty {
  import opened Types

  datatype Channel = Channel(pid: nat, owner: Owner)

  datatype Registry = Registry(channels: map<ChannelId, Channel>, shuttingDown: bool)

  const START := Registry(map[], false)

  datatype SpawnError = ShuttingDown | AlreadyExists | SpawnFailed
  datatype Spawned = Started(id: ChannelId, pid: nat) | Refused(error: SpawnError)

  /** `requested` is the id the hub named, `generated` the one made up when it
      named none, and `process` what starting the program gave. */
  function Spawn(
    r: Registry, owner: Owner, requested: Option<ChannelId>, generated: ChannelId, process: Option<nat>): (Spawned, Registry)
  {
    var id := if requested.Some? then requested.value else generated;
    if r.shuttingDown then (Refused(ShuttingDown), r)
    else if requested.Some? && id in r.channels then (Refused(AlreadyExists), r)
    else if process.None? then (Refused(SpawnFailed), r)
    else (Started(id, process.value), r.(channels := r.channels[id := Channel(process.value, owner)]))
  }

  function Others(r: Registry, owner: Owner): set<ChannelId>
  {
    set id | id in r.channels && r.channels[id].owner != owner
  }

  const U32_MAX: nat := 0xFFFF_FFFF

  /** The count of other hubs' terminals, as 32 bits report it. */
  function HeldByOthers(r: Registry, owner: Owner): nat
  {
    var n := |Others(r, owner)|;
    if n > U32_MAX then U32_MAX else n
  }

  /** Whether a STOP is accepted. */
  predicate StopAccepted(r: Registry, owner: Owner, force: bool)
  {
    force || HeldByOthers(r, owner) == 0
  }

  /** The count and the refusal of new terminals share one hold of the lock. */
  function Stop(r: Registry, owner: Owner, force: bool): Registry
  {
    if StopAccepted(r, owner, force) then r.(shuttingDown := true) else r
  }

  /** A sweep leaves registered the terminals whose signalling failed. */
  function Swept(r: Registry, failed: set<ChannelId>): Registry
  {
    Registry(map id | id in r.channels && id in failed :: r.channels[id], true)
  }

  datatype Step =
    | Spawns(owner: Owner, requested: Option<ChannelId>, generated: ChannelId, process: Option<nat>)
    | Removes(id: ChannelId)
    | Stops(owner: Owner, force: bool)
    | Sweeps(failed: set<ChannelId>)

  function Apply(r: Registry, step: Step): Registry
  {
    match step
    case Spawns(o, requested, generated, process) => Spawn(r, o, requested, generated, process).1
    case Removes(id) => r.(channels := r.channels - {id})
    case Stops(o, force) => Stop(r, o, force)
    case Sweeps(failed) => Swept(r, failed)
  }

  ghost predicate Run(states: seq<Registry>, steps: seq<Step>)
  {
    |states| == |steps| + 1 && states[0] == START &&
    forall i :: 0 <= i < |steps| ==> states[i + 1] == Apply(states[i], steps[i])
  }

  /** `b` registers nothing that `a` did not, under the same owner and pid. */
  ghost predicate Within(b: map<ChannelId, Channel>, a: map<ChannelId, Channel>)
  {
    forall id :: id in b ==> id in a && b[id] == a[id]
  }

  /** Shutting down is irreversible, and from then on terminals only go. */
  lemma {:induction false} OnlyShrinks(states: seq<Registry>, steps: seq<Step>, i: nat, j: nat)
    requires Run(states, steps) && i <= j <= |steps| && states[i].shuttingDown
    ensures states[j].shuttingDown && Within(states[j].channels, states[i].channels)
    decreases j
  {
    if i < j {
      OnlyShrinks(states, steps, i, j - 1);
      assert states[j - 1 + 1] == Apply(states[j - 1], steps[j - 1]);
    }
  }

  /** STOP safety: once a STOP without force is accepted, every terminal
      registered at any later point of the run, the sweep included, belongs to
      the hub that sent it and was there when it was accepted. */
  lemma StopEndsNobodyElse(states: seq<Registry>, steps: seq<Step>, i: nat, j: nat, owner: Owner)
    requires Run(states, steps) && i < j <= |steps|
    requires steps[i] == Stops(owner, false) && StopAccepted(states[i], owner, false)
    ensures Within(states[j].channels, states[i].channels)
    ensures forall id :: id in states[j].channels ==> states[j].channels[id].owner == owner
  {
    assert states[i + 1] == Apply(states[i], steps[i]);
    OnlyShrinks(states, steps, i + 1, j);
    assert Others(states[i], owner) == {};
    forall id | id in states[j].channels ensures states[j].channels[id].owner == owner {
      assert id !in Others(states[i], owner);
    }
  }

  /** A refused STOP changes nothing, and is refused exactly when it is not
      forced and another hub holds a terminal. */
  lemma RefusedIffOthersHold(r: Registry, owner: Owner, force: bool)
    ensures !StopAccepted(r, owner, force) <==>
              !force && exists id :: id in r.channels && r.channels[id].owner != owner
    ensures !StopAccepted(r, owner, force) ==> Stop(r, owner, force) == r
  {
    if Others(r, owner) != {} {
      var id :| id in Others(r, owner);
    } else {
      forall id | id in r.channels ensures r.channels[id].owner == owner { assert id !in Others(r, owner); }
    }
  }

  /** Ids made up for a spawn that names none are not taken. */
  ghost predicate NewIds(states: seq<Registry>, steps: seq<Step>)
    requires |states| == |steps| + 1
  {
    forall k :: 0 <= k < |steps| && steps[k].Spawns? && steps[k].requested.None? ==> steps[k].generated !in states[k].channels
  }

  /** A registered terminal keeps its owner and its process until it is removed:
      no spawn takes its id, whoever asks. */
  lemma {:induction false} OwnerIsFixed(states: seq<Registry>, steps: seq<Step>, i: nat, j: nat, id: ChannelId)
    requires Run(states, steps) && i <= j <= |steps| && NewIds(states, steps)
    requires forall k :: i <= k <= j ==> id in states[k].channels
    ensures states[j].channels[id] == states[i].channels[id]
    decreases j
  {
    if i < j {
      OwnerIsFixed(states, steps, i, j - 1, id);
      assert states[j - 1 + 1] == Apply(states[j - 1], steps[j - 1]);
    }
  }

  /** A terminal goes only when it is removed or swept. */
  lemma OnlyRemovalsRemove(r: Registry, step: Step, id: ChannelId)
    requires id in r.channels && id !in Apply(r, step).channels
    ensures step == Removes(id) || (step.Sweeps? && id !in step.failed)
  {
  }

  /** A terminal is registered exactly by a spawn that nothing stood against, for
      the hub that asked, and the hub is told. */
  lemma RegisteredExactly(r: Registry, owner: Owner, requested: Option<ChannelId>, generated: ChannelId, process: Option<nat>)
    ensures var (answer, t) := Spawn(r, owner, requested, generated, process);
            var taken := requested.Some? && requested.value in r.channels;
            if r.shuttingDown || taken || process.None? then answer.Refused? && t == r
            else
              answer.Started? && (requested.Some? ==> answer.id == requested.value) && answer.pid == process.value &&
              t.channels.Keys == r.channels.Keys + {answer.id} && t.channels[answer.id] == Channel(answer.pid, owner) &&
              forall other :: other in r.channels && other != answer.id ==> t.channels[other] == r.channels[other]
  {
  }

  // ----- The sweep -----

  /** What signalling a terminal's processes gave. */
  datatype Signal = Signalled | AlreadyExited | SignalFailed

  /** What waiting for a signalled one gave. */
  datatype Wait = Exited | WaitFailed | TimedOut | TaskFailed

  datatype Reason = NotSignalled | WaitError | Timeout | ConfirmationTaskFailed

  datatype Unresolved = Unresolved(channel: ChannelId, pid: nat, reason: Reason)

  datatype Summary = Summary(confirmed: nat, unresolved: seq<Unresolved>)

  datatype Action = Signals(id: ChannelId) | Awaits(id: ChannelId)

  /** How the outcomes of one terminal are to be reported. */
  function Verdict(signal: Signal, wait: Wait): Option<Reason>
  {
    match signal
    case AlreadyExited => None
    case SignalFailed => Some(NotSignalled)
    case Signalled =>
      match wait
      case Exited => None
      case WaitFailed => Some(WaitError)
      case TimedOut => Some(Timeout)
      case TaskFailed => Some(ConfirmationTaskFailed)
  }

  /** The outcomes the operating system gives, one per terminal. */
  datatype Outcomes = Outcomes(signal: ChannelId -> Signal, wait: ChannelId -> Wait) {
    function VerdictOf(id: ChannelId): Option<Reason> { Verdict(signal(id), wait(id)) }
  }

  ghost predicate Distinct(ids: seq<ChannelId>)
  {
    forall i, j :: 0 <= i < j < |ids| ==> ids[i] != ids[j]
  }

  function Named(us: seq<Unresolved>): (r: seq<ChannelId>)
    ensures |r| == |us|
  {
    seq(|us|, i requires 0 <= i < |us| => us[i].channel)
  }

  /** `us` and `confirmed` account for the terminals `ids` of `chans`: each is
      reported once, under its own pid and the reason its outcomes call for, or
      is among the confirmed. */
  ghost predicate AccountsFor(
    ids: seq<ChannelId>, chans: map<ChannelId, Channel>, o: Outcomes, confirmed: nat, us: seq<Unresolved>)
  {
    confirmed + |us| == |ids| &&
    (forall i :: 0 <= i < |us| ==>
       us[i].channel in ids && us[i].channel in chans && us[i].pid == chans[us[i].channel].pid &&
       o.VerdictOf(us[i].channel) == Some(us[i].reason)) &&
    (forall i, j :: 0 <= i < j < |us| ==> us[i].channel != us[j].channel) &&
    (forall id :: id in ids && o.VerdictOf(id).Some? ==> id in Named(us))
  }

  /** One more terminal whose fate is known joins the account. */
  lemma AccountsForOneMore(
    ids: seq<ChannelId>, chans: map<ChannelId, Channel>, o: Outcomes, confirmed: nat, us: seq<Unresolved>, id: ChannelId)
    requires AccountsFor(ids, chans, o, confirmed, us) && id !in ids && id in chans
    ensures o.VerdictOf(id).None? ==> AccountsFor(ids + [id], chans, o, confirmed + 1, us)
    ensures o.VerdictOf(id).Some? ==>
              AccountsFor(ids + [id], chans, o, confirmed, us + [Unresolved(id, chans[id].pid, o.VerdictOf(id).value)])
  {
    if o.VerdictOf(id).Some? {
      var u := Unresolved(id, chans[id].pid, o.VerdictOf(id).value);
      assert Named(us + [u]) == Named(us) + [id];
    }
  }

  /** The confirmed are exactly those whose outcomes confirm them. */
  lemma {:induction false} ConfirmedExactly(ids: seq<ChannelId>, us: seq<Unresolved>, id: ChannelId,
    chans: map<ChannelId, Channel>, o: Outcomes, confirmed: nat)
    requires AccountsFor(ids, chans, o, confirmed, us) && id in ids
    ensures id !in Named(us) <==> Gone(o, id)
  {
    if id in Named(us) {
      var i :| 0 <= i < |us| && Named(us)[i] == id;
      assert us[i].channel == id;
    }
  }

  /** The terminal is known to be gone: it had exited, or its exit was waited for. */
  predicate Gone(o: Outcomes, id: ChannelId)
  {
    o.signal(id).AlreadyExited? || (o.signal(id).Signalled? && o.wait(id).Exited?)
  }

  /** One entry names the terminal, with its pid and this reason. */
  ghost predicate Reported(us: seq<Unresolved>, id: ChannelId, pid: nat, reason: Reason)
  {
    exists i :: 0 <= i < |us| && us[i] == Unresolved(id, pid, reason) &&
                forall j :: 0 <= j < |us| && j != i ==> us[j].channel != id
  }

  /** Each failure is reported once as what it is, and no terminal known to be
      gone is reported. */
  ghost predicate ReportsFailures(chans: map<ChannelId, Channel>, o: Outcomes, us: seq<Unresolved>)
  {
    forall id :: id in chans ==>
      (o.signal(id).SignalFailed? ==> Reported(us, id, chans[id].pid, NotSignalled)) &&
      (o.signal(id).Signalled? && o.wait(id).WaitFailed? ==> Reported(us, id, chans[id].pid, WaitError)) &&
      (o.signal(id).Signalled? && o.wait(id).TimedOut? ==> Reported(us, id, chans[id].pid, Timeout)) &&
      (o.signal(id).Signalled? && o.wait(id).TaskFailed? ==> Reported(us, id, chans[id].pid, ConfirmationTaskFailed)) &&
      (Gone(o, id) ==> id !in Named(us))
  }

  lemma AccountReports(
    ids: seq<ChannelId>, chans: map<ChannelId, Channel>, o: Outcomes, confirmed: nat, us: seq<Unresolved>)
    requires AccountsFor(ids, chans, o, confirmed, us) && forall id :: id in chans ==> id in ids
    ensures ReportsFailures(chans, o, us)
  {
    forall id, reason | id in chans && o.VerdictOf(id) == Some(reason) ensures Reported(us, id, chans[id].pid, reason) {
      assert id in Named(us);
      var i :| 0 <= i < |us| && Named(us)[i] == id;
      assert us[i] == Unresolved(id, chans[id].pid, reason);
    }
    forall id | id in chans && Gone(o, id) ensures id !in Named(us) {
      ConfirmedExactly(ids, us, id, chans, o, confirmed);
    }
  }

  class PtyManager {
    var channels: map<ChannelId, Channel>
    var shuttingDown: bool

    function State(): Registry
      reads this
    {
      Registry(channels, shuttingDown)
    }

    constructor ()
      ensures State() == START
    {
      channels, shuttingDown := map[], false;
    }

    method SpawnTerminal(owner: Owner, requested: Option<ChannelId>, generated: ChannelId, process: Option<nat>)
      returns (r: Spawned)
      modifies this
      ensures (r, State()) == Spawn(old(State()), owner, requested, generated, process)
    {
      if shuttingDown {
        return Refused(ShuttingDown);
      }
      if requested.Some? && requested.value in channels {
        return Refused(AlreadyExists);
      }
      var id := if requested.Some? then requested.value else generated;
      if process.None? {
        return Refused(SpawnFailed);
      }
      channels := channels[id := Channel(process.value, owner)];
      return Started(id, process.value);
    }

    method BeginShutdown()
      modifies this
      ensures State() == old(State()).(shuttingDown := true)
    {
      shuttingDown := true;
    }

    /** How many terminals hubs other than `owner` hold. */
    method CountOthers(owner: Owner) returns (n: nat)
      ensures n == HeldByOthers(State(), owner)
    {
      var rest, count := channels.Keys, 0;
      ghost var seen: set<ChannelId> := {};
      while rest != {}
        invariant rest <= channels.Keys
        invariant seen == set id | id in channels && id !in rest && channels[id].owner != owner
        invariant count == |seen|
      {
        var id :| id in rest;
        rest := rest - {id};
        if channels[id].owner != owner {
          count := count + 1;
          seen := seen + {id};
        }
      }
      assert seen == Others(State(), owner);
      n := if count > U32_MAX then U32_MAX else count;
    }

    method HandleStop(owner: Owner, force: bool) returns (accepted: bool, others: nat)
      modifies this
      ensures accepted == StopAccepted(old(State()), owner, force)
      ensures others == HeldByOthers(old(State()), owner)
      ensures State() == Stop(old(State()), owner, force)
    {
      others := CountOthers(owner);
      if !force && others > 0 {
        return false, others;
      }
      BeginShutdown();
      return true, others;
    }

    method ChannelIds() returns (ids: seq<ChannelId>)
      ensures Distinct(ids) && |ids| == |channels|
      ensures forall id :: id in ids <==> id in channels
    {
      ids := [];
      var rest := channels.Keys;
      while rest != {}
        invariant rest <= channels.Keys && Distinct(ids)
        invariant |ids| + |rest| == |channels.Keys|
        invariant forall id :: id in ids <==> id in channels && id !in rest
      {
        var id :| id in rest;
        ids := ids + [id];
        rest := rest - {id};
      }
    }

    /** Signal the terminals `ids`: those that took it leave the registry and
        are to be waited for, those gone already leave it and are confirmed, and
        those that could not be signalled stay. */
    method SignalAll(ids: seq<ChannelId>, o: Outcomes)
      returns (confirmed: nat, unresolved: seq<Unresolved>, waiting: seq<(ChannelId, nat)>,
               ghost settled: seq<ChannelId>, ghost actions: seq<Action>)
      requires Distinct(ids) && forall id :: id in ids ==> id in channels
      modifies this`channels
      ensures channels == Left(old(channels), ids, o)
      ensures AccountsFor(settled, old(channels), o, confirmed, unresolved)
      ensures Pending(waiting, settled, ids, old(channels), o)
      ensures |actions| == |ids| && forall k :: 0 <= k < |ids| ==> actions[k] == Signals(ids[k])
    {
      ghost var all := channels;
      confirmed, unresolved, waiting, settled, actions := 0, [], [], [], [];
      for i := 0 to |ids|
        invariant |actions| == i && forall k :: 0 <= k < i ==> actions[k] == Signals(ids[k])
        invariant channels == Left(all, ids[..i], o)
        invariant AccountsFor(settled, all, o, confirmed, unresolved)
        invariant Pending(waiting, settled, ids[..i], all, o)
      {
        assert ids[..i + 1] == ids[..i] + [ids[i]] && ids[i] !in ids[..i];
        actions := actions + [Signals(ids[i])];
        confirmed, unresolved, waiting, settled := SignalOne(ids[i], o, confirmed, unresolved, waiting, settled, ids[..i], all);
      }
      assert ids[..|ids|] == ids;
    }

    /** Signal one terminal, and settle it unless it is to be waited for. */
    method SignalOne(
      id: ChannelId, o: Outcomes, confirmed: nat, unresolved: seq<Unresolved>, waiting: seq<(ChannelId, nat)>,
      ghost settled: seq<ChannelId>, ghost done: seq<ChannelId>, ghost all: map<ChannelId, Channel>)
      returns (confirmed': nat, unresolved': seq<Unresolved>, waiting': seq<(ChannelId, nat)>, ghost settled': seq<ChannelId>)
      requires id in all && id !in done && channels == Left(all, done, o)
      requires AccountsFor(settled, all, o, confirmed, unresolved) && Pending(waiting, settled, done, all, o)
      modifies this`channels
      ensures channels == Left(all, done + [id], o)
      ensures AccountsFor(settled', all, o, confirmed', unresolved')
      ensures Pending(waiting', settled', done + [id], all, o)
    {
      assert id in channels && channels[id] == all[id];
      confirmed', unresolved', waiting', settled' := confirmed, unresolved, waiting, settled;
      var pid := channels[id].pid;
      LeftNext(all, done, o, id);
      match o.signal(id) {
        case Signalled =>
          PendingWaits(waiting, settled, done, all, o, id);
          channels := channels - {id};
          waiting' := waiting + [(id, pid)];
        case AlreadyExited =>
          AccountsForOneMore(settled, all, o, confirmed, unresolved, id);
          PendingSettles(waiting, settled, done, all, o, id);
          channels := channels - {id};
          confirmed', settled' := confirmed + 1, settled + [id];
        case SignalFailed =>
          AccountsForOneMore(settled, all, o, confirmed, unresolved, id);
          PendingSettles(waiting, settled, done, all, o, id);
          unresolved', settled' := unresolved + [Unresolved(id, pid, NotSignalled)], settled + [id];
      }
    }

    /** Signal every terminal, then wait for those that were signalled.  Every
        terminal present at the start is confirmed or unresolved, exactly once;
        all are signalled before the first wait; and those left registered are
        exactly those whose signalling failed. */
    method DestroyAll(o: Outcomes) returns (summary: Summary, ids: seq<ChannelId>, ghost actions: seq<Action>)
      modifies this
      ensures ReportsFailures(old(channels), o, summary.unresolved)
      ensures Distinct(ids) && forall id :: id in ids <==> id in old(channels)
      ensures AccountsFor(ids, old(channels), o, summary.confirmed, summary.unresolved)
      ensures summary.confirmed + |summary.unresolved| == |old(channels)|
      ensures channels == map id | id in old(channels) && o.signal(id).SignalFailed? :: old(channels)[id]
      ensures shuttingDown == old(shuttingDown)
      ensures |actions| >= |ids| && forall i :: 0 <= i < |ids| ==> actions[i] == Signals(ids[i])
      ensures forall i :: |ids| <= i < |actions| ==> actions[i].Awaits?
    {
      ghost var all := channels;
      summary, ids, actions := SignalAndWait(o);
      AccountReports(ids, all, o, summary.confirmed, summary.unresolved);
    }

    method SignalAndWait(o: Outcomes) returns (summary: Summary, ids: seq<ChannelId>, ghost actions: seq<Action>)
      modifies this
      ensures Distinct(ids) && forall id :: id in ids <==> id in old(channels)
      ensures AccountsFor(ids, old(channels), o, summary.confirmed, summary.unresolved)
      ensures |ids| == |old(channels)| && shuttingDown == old(shuttingDown)
      ensures channels == map id | id in old(channels) && o.signal(id).SignalFailed? :: old(channels)[id]
      ensures |actions| >= |ids| && forall i :: 0 <= i < |ids| ==> actions[i] == Signals(ids[i])
      ensures forall i :: |ids| <= i < |actions| ==> actions[i].Awaits?
    {
      ghost var all := channels;
      ids := ChannelIds();
      ghost var settled;
      var confirmed, unresolved, waiting;
      confirmed, unresolved, waiting, settled, actions := SignalAll(ids, o);
      ghost var waits;
      summary, waits := AwaitAll(confirmed, unresolved, waiting, o, settled, ids, all);
      actions := actions + waits;
    }

    /** The daemon's teardown: no terminal can start from here, and all are swept
        under the same hold of the lock. */
    method TearDown(o: Outcomes) returns (summary: Summary, status: int)
      modifies this
      ensures State() == Swept(old(State()), set id | id in old(channels) && o.signal(id).SignalFailed?)
      ensures status == 0 <==> forall id :: id in old(channels) ==> Gone(o, id)
      ensures ReportsFailures(old(channels), o, summary.unresolved)
      ensures summary.confirmed + |summary.unresolved| == |old(channels)|
    {
      ghost var all := channels;
      BeginShutdown();
      var ids;
      ghost var actions;
      summary, ids, actions := DestroyAll(o);
      status := if summary.unresolved == [] then 0 else 1;
      NoneUnresolved(ids, all, o, summary.confirmed, summary.unresolved);
    }
  }

  lemma NoneUnresolved(
    ids: seq<ChannelId>, chans: map<ChannelId, Channel>, o: Outcomes, confirmed: nat, us: seq<Unresolved>)
    requires AccountsFor(ids, chans, o, confirmed, us)
    ensures us == [] <==> forall id :: id in ids ==> Gone(o, id)
  {
    if us != [] {
      assert us[0].channel in ids && o.VerdictOf(us[0].channel).Some?;
    } else {
      forall id | id in ids ensures Gone(o, id) { assert id !in Named(us); }
    }
  }

  /** Wait for the signalled terminals, one after the other. */
  method AwaitAll(
    confirmed: nat, unresolved: seq<Unresolved>, waiting: seq<(ChannelId, nat)>, o: Outcomes,
    ghost settled: seq<ChannelId>, ghost ids: seq<ChannelId>, ghost all: map<ChannelId, Channel>)
    returns (summary: Summary, ghost actions: seq<Action>)
    requires AccountsFor(settled, all, o, confirmed, unresolved) && Pending(waiting, settled, ids, all, o)
    ensures AccountsFor(ids, all, o, summary.confirmed, summary.unresolved)
    ensures |actions| == |waiting| && forall i :: 0 <= i < |actions| ==> actions[i] == Awaits(waiting[i].0)
  {
    summary, actions := Summary(confirmed, unresolved), [];
    ghost var done := settled;
    assert waiting[0..] == waiting;
    for i := 0 to |waiting|
      invariant |actions| == i && forall k :: 0 <= k < i ==> actions[k] == Awaits(waiting[k].0)
      invariant AccountsFor(done, all, o, summary.confirmed, summary.unresolved)
      invariant Pending(waiting[i..], done, ids, all, o)
    {
      var (id, pid) := waiting[i];
      assert waiting[i..][0] == waiting[i] && waiting[i..][1..] == waiting[i + 1..];
      AccountsForOneMore(done, all, o, summary.confirmed, summary.unresolved, id);
      PendingNext(waiting[i..], done, ids, all, o);
      actions := actions + [Awaits(id)];
      match o.wait(id) {
        case Exited => summary := summary.(confirmed := summary.confirmed + 1);
        case WaitFailed => summary := summary.(unresolved := summary.unresolved + [Unresolved(id, pid, WaitError)]);
        case TimedOut => summary := summary.(unresolved := summary.unresolved + [Unresolved(id, pid, Timeout)]);
        case TaskFailed =>
          summary := summary.(unresolved := summary.unresolved + [Unresolved(id, pid, ConfirmationTaskFailed)]);
      }
      done := done + [id];
    }
    assert waiting[|waiting|..] == [];
    PendingDone(done, ids, all, o, summary.confirmed, summary.unresolved);
  }

  lemma LeftNext(all: map<ChannelId, Channel>, done: seq<ChannelId>, o: Outcomes, id: ChannelId)
    requires id in all && id !in done
    ensures Left(all, done + [id], o) == if o.signal(id).SignalFailed? then Left(all, done, o) else Left(all, done, o) - {id}
  {
  }

  /** The terminals still registered once those in `done` were signalled. */
  function Left(all: map<ChannelId, Channel>, done: seq<ChannelId>, o: Outcomes): map<ChannelId, Channel>
  {
    map id | id in all && (id !in done || o.signal(id).SignalFailed?) :: all[id]
  }

  /** Of `done`, the terminals in `settled` are accounted for and those in
      `waiting` are signalled and still to be waited for. */
  ghost predicate Pending(
    waiting: seq<(ChannelId, nat)>, settled: seq<ChannelId>, done: seq<ChannelId>, all: map<ChannelId, Channel>, o: Outcomes)
  {
    |waiting| + |settled| == |done| &&
    (forall i :: 0 <= i < |waiting| ==>
       waiting[i].0 in all && waiting[i].1 == all[waiting[i].0].pid && o.signal(waiting[i].0).Signalled? &&
       waiting[i].0 in done && waiting[i].0 !in settled) &&
    (forall i, j :: 0 <= i < j < |waiting| ==> waiting[i].0 != waiting[j].0) &&
    (forall id :: id in settled ==> id in done) &&
    (forall id :: id in done && id !in settled ==> exists i :: 0 <= i < |waiting| && waiting[i].0 == id)
  }

  lemma PendingWaits(
    waiting: seq<(ChannelId, nat)>, settled: seq<ChannelId>, done: seq<ChannelId>, all: map<ChannelId, Channel>, o: Outcomes, id: ChannelId)
    requires Pending(waiting, settled, done, all, o) && id !in done && id in all && o.signal(id).Signalled?
    ensures Pending(waiting + [(id, all[id].pid)], settled, done + [id], all, o)
  {
    var w := waiting + [(id, all[id].pid)];
    forall x | x in done + [id] && x !in settled ensures exists i :: 0 <= i < |w| && w[i].0 == x {
      if x == id {
        assert w[|waiting|].0 == x;
      } else {
        var i :| 0 <= i < |waiting| && waiting[i].0 == x;
        assert w[i].0 == x;
      }
    }
  }

  lemma PendingSettles(
    waiting: seq<(ChannelId, nat)>, settled: seq<ChannelId>, done: seq<ChannelId>, all: map<ChannelId, Channel>, o: Outcomes, id: ChannelId)
    requires Pending(waiting, settled, done, all, o) && id !in done
    ensures Pending(waiting, settled + [id], done + [id], all, o)
  {
  }

  lemma PendingNext(
    waiting: seq<(ChannelId, nat)>, settled: seq<ChannelId>, done: seq<ChannelId>, all: map<ChannelId, Channel>, o: Outcomes)
    requires Pending(waiting, settled, done, all, o) && waiting != []
    ensures Pending(waiting[1..], settled + [waiting[0].0], done, all, o)
  {
    var s := settled + [waiting[0].0];
    forall x | x in done && x !in s ensures exists i :: 0 <= i < |waiting[1..]| && waiting[1..][i].0 == x {
      var i :| 0 <= i < |waiting| && waiting[i].0 == x;
      assert waiting[1..][i - 1].0 == x;
    }
  }

  lemma PendingDone(
    settled: seq<ChannelId>, done: seq<ChannelId>, all: map<ChannelId, Channel>, o: Outcomes, confirmed: nat, us: seq<Unresolved>)
    requires Pending([], settled, done, all, o) && AccountsFor(settled, all, o, confirmed, us)
    ensures AccountsFor(done, all, o, confirmed, us)
  {
  }
}
