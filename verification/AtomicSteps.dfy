/** The operations as one step are those call by call, with a network that acts at few points
    (windows-server/src/application/volume_control.rs:431-616). */
module AtomicSteps {
  import opened Numbers
  import opened ControlMessages
  import opened VolumeProfiles
  import opened RegistryModel
  import opened VolumeModel
  import opened InterleavedModel

  // ------------------------------------------------- a network that keeps to two points

  ghost predicate Quiet(net: Net, call: Call) { net(call) == [] }

  /** The requests to the receivers in `done` have been judged at once. */
  function Settled(g: Registry, s: State, ids: set<nat>, done: set<nat>, now: nat): (Registry, State) {
    (SettledRegistry(g, s, done),
     s.(pending := SettledState(g, s, done, now).pending,
        blocked := (set id | id in s.blocked && id in ids) + SettledState(g, s.(blocked := {}), done, now).blocked))
  }

  lemma NoneSettled(g: Registry, s: State, ids: set<nat>, now: nat)
    ensures Settled(g, s, ids, {}, now) == (g, s.(pending := map[], blocked := set id | id in s.blocked && id in ids))
  {
    assert SettledRegistry(g, s, {}).receivers == g.receivers;
    assert SettledState(g, s, {}, now).pending == map[];
    var known := set id | id in s.blocked && id in ids;
    assert known + SettledState(g, s.(blocked := {}), {}, now).blocked == known;
  }

  lemma OneMoreSettled(g: Registry, s: State, ids: set<nat>, done: set<nat>, id: nat, now: nat)
    requires id in s.pending && id !in done
    ensures var (h, t) := Settled(g, s, ids, done, now);
            JudgedOne(h, t, id, s.pending[id], now) == Settled(g, s, ids, done + {id}, now)
  {
    hide SettledRegistry, SettledState;
    SettledRegistryMore(g, s, done, id);
    SettledStateMore(g, s, done, id, now);
    SettledStateMore(g, s.(blocked := {}), done, id, now);
    var known := set i | i in s.blocked && i in ids;
    var failed := SettledState(g, s.(blocked := {}), done, now).blocked;
    assert known + failed + {id} == known + (failed + {id}) && failed + {} == failed;
  }

  lemma NothingToSettle(g: Registry, s: State, ids: set<nat>, done: set<nat>, id: nat, now: nat)
    requires id !in s.pending
    ensures Settled(g, s, ids, done + {id}, now) == Settled(g, s, ids, done, now)
  {
    assert SettledRegistry(g, s, done + {id}).receivers == SettledRegistry(g, s, done).receivers;
    assert SettledState(g, s, done + {id}, now).pending == SettledState(g, s, done, now).pending;
    assert SettledState(g, s.(blocked := {}), done + {id}, now).blocked
        == SettledState(g, s.(blocked := {}), done, now).blocked;
  }

  lemma AllSettledAtOnce(g: Registry, s: State, ids: set<nat>, now: nat)
    ensures Settled(g, s, ids, ids, now) == (SettledRegistry(g, s, ids), SettledState(g, s, ids, now))
  {
    var known := set id | id in s.blocked && id in ids;
    assert known + SettledState(g, s.(blocked := {}), ids, now).blocked == SettledState(g, s, ids, now).blocked;
  }

  lemma {:induction false} JudgedIsSettled(g: Registry, s: State, ids: set<nat>, n: nat, now: nat, net: Net)
    requires forall id: nat :: Quiet(net, Taking(id))
    ensures Judged(g, s, ids, n, now, net) == Settled(g, s, ids, (set id | id in ids && id < n), now)
  {
    hide Settled, JudgedOne;
    var done := set id | id in ids && id < n;
    if n == 0 {
      NoneSettled(g, s, ids, now);
      assert done == {};
    } else {
      JudgedIsSettled(g, s, ids, n - 1, now, net);
      var before := set id | id in ids && id < n - 1;
      assert done == if n - 1 in ids then before + {n - 1} else before;
      if n - 1 in ids && n - 1 in s.pending {
        assert Quiet(net, Taking(n - 1));
        OneMoreSettled(g, s, ids, before, n - 1, now);
      } else if n - 1 in ids {
        NothingToSettle(g, s, ids, before, n - 1, now);
      }
    }
  }

  lemma {:induction false} ServeOneLater(v: Served, devices: map<nat, DeviceStatus>, targets: seq<(nat, u16)>,
                                         t: (nat, u16), now: nat)
    ensures ServeAll(v, devices, targets + [t], now) == ServeOne(ServeAll(v, devices, targets, now), devices, t, now)
    decreases |targets|
  {
    hide ServeOne;
    if targets == [] {
      assert ([] + [t])[1..] == [];
    } else {
      assert (targets + [t])[1..] == targets[1..] + [t];
      ServeOneLater(ServeOne(v, devices, targets[0], now), devices, targets[1..], t, now);
    }
  }

  lemma {:induction false} ServedIsServeAll(v: Served, devices: map<nat, DeviceStatus>, targets: seq<(nat, u16)>,
                                            n: nat, now: nat, net: Net)
    requires n <= |targets| && forall i: nat :: Quiet(net, Restoring(i))
    ensures ServedAmid(v, devices, targets, n, now, net) == ServeAll(v, devices, targets[..n], now)
  {
    hide ServeOne;
    if n > 0 {
      ServedIsServeAll(v, devices, targets, n - 1, now, net);
      assert Quiet(net, Restoring(n - 1)) && targets[..n] == targets[..n - 1] + [targets[n - 1]];
      ServeOneLater(v, devices, targets[..n - 1], targets[n - 1], now);
    }
  }

  // ------------------------------------------------------- shutting and the network

  function Denied(w: World): World {
    w.(registry := DenyAll(w.registry))
  }

  /** A change of one receiver that opens no gate. */
  lemma OneToShut(g: Registry, id: nat, r: Receiver)
    requires id in g.receivers
    ensures DenyAll(g).(receivers := DenyAll(g).receivers[id := r.(playback := false)])
         == DenyAll(g.(receivers := g.receivers[id := r]))
  {
    assert DenyAll(g).receivers[id := r.(playback := false)]
        == DenyAll(g.(receivers := g.receivers[id := r])).receivers;
  }

  lemma ClassifyToShut(r: Receiver, status: DeviceStatus)
    ensures Classify(r.(playback := false), status) == Classify(r, status).(playback := false)
  {
  }

  lemma ReportToShut(r: Receiver, status: DeviceStatus)
    ensures UpdateReceiver(r.(playback := false), status) == UpdateReceiver(r, status).(playback := false)
  {
    ClassifyToShut(r, status);
    hide Classify, StoreReply, Unchanged;
  }

  lemma RemoveToShut(g: Registry, id: nat)
    ensures Remove(DenyAll(g), id) == DenyAll(Remove(g, id))
  {
    assert Remove(DenyAll(g), id).receivers == DenyAll(Remove(g, id)).receivers;
  }

  lemma RegisterToShut(g: Registry, capacity: nat)
    ensures Register(DenyAll(g), capacity) == DenyAll(Register(g, capacity))
  {
    assert Register(DenyAll(g), capacity).receivers == DenyAll(Register(g, capacity)).receivers;
  }

  lemma VolumeRequestToShut(g: Registry, id: nat, index: u16, purpose: VolumePurpose, barrier: bool)
    ensures var (r, s) := (VolumeRequest(g, id, index, purpose, barrier),
                           VolumeRequest(DenyAll(g), id, index, purpose, barrier));
            s.request == r.request && s.registry == DenyAll(r.registry)
  {
    if id in g.receivers {
      OneToShut(g, id, SendVolume(g.receivers[id], g.nextRequest, index, purpose, barrier));
    }
  }

  lemma QueryToShut(g: Registry, id: nat)
    ensures Query(DenyAll(g), id).registry == DenyAll(Query(g, id).registry)
  {
    if id in g.receivers {
      var r := g.receivers[id];
      OneToShut(g, id, r.(controls := r.controls + [QueryDevice(g.nextRequest)]));
    }
  }

  lemma ApplyToShut(g: Registry, event: NetEvent)
    ensures Apply(DenyAll(g), event) == DenyAll(Apply(g, event))
  {
    match event
    case Join(capacity) => RegisterToShut(g, capacity);
    case Leave(id) => RemoveToShut(g, id);
    case Report(id, status) =>
      if InRange(status) && id in g.receivers {
        ReportToShut(g.receivers[id], Sanitize(status));
        OneToShut(g, id, UpdateReceiver(g.receivers[id], Sanitize(status)));
      }
    case Transmitted(id) =>
      if id in g.receivers && g.receivers[id].controls != [] {
        OneToShut(g, id, g.receivers[id].(controls := g.receivers[id].controls[1..]));
      }
    case HungUp(id) =>
      if id in g.receivers {
        OneToShut(g, id, g.receivers[id].(connected := false));
      }
    case Polled(id) => QueryToShut(g, id);
    case Commanded(id, index, purpose) => VolumeRequestToShut(g, id, index, purpose, false);
  }

  lemma {:induction false} ApplyAllToShut(g: Registry, events: seq<NetEvent>)
    ensures ApplyAll(DenyAll(g), events) == DenyAll(ApplyAll(g, events))
    decreases |events|
  {
    hide Apply, DenyAll;
    if events != [] {
      ApplyToShut(g, events[0]);
      ApplyAllToShut(Apply(g, events[0]), events[1..]);
    }
  }

  lemma FenceToShut(w: World, p: Profile, master: nat, devices: map<nat, DeviceStatus>, now: nat)
    ensures Fence(Denied(w), p, master, devices, now) == Denied(Fence(w, p, master, devices, now))
  {
    match Nearest(p, p.volume, Participating(p, devices))
    case None =>
    case Some(index) => VolumeRequestToShut(w.registry, master, index, RestoreSpeaker, true);
  }

  // ------------------------------------------------- operations with a quiet network

  ghost predicate AllQuiet(net: Net) {
    forall call :: Quiet(net, call)
  }

  lemma OpenIsAmid(w: World, net: Net)
    requires AllQuiet(net)
    ensures OpenAmid(w, net) == Open(w)
  {
    assert Quiet(net, Snapshot) && Quiet(net, Gates);
  }

  lemma {:induction false} RestoredIsRestoring(g: Registry, originals: seq<(nat, DeviceStatus)>, n: nat, now: nat,
                                               net: Net)
    requires n <= |originals| && AllQuiet(net)
    ensures var (h, pending) := RestoredAmid(g, originals, n, now, net);
            RestoreOriginals(h, pending, originals[n..], now) == RestoreOriginals(g, map[], originals, now)
  {
    if n == 0 {
      assert originals[0..] == originals;
    } else {
      RestoredIsRestoring(g, originals, n - 1, now, net);
      assert Quiet(net, Restoring(n - 1)) && originals[n - 1..][1..] == originals[n..];
      hide RestoreRequest;
    }
  }

  lemma CloseIsAmid(w: World, now: nat, net: Net)
    requires AllQuiet(net)
    ensures CloseAmid(w, now, net) == Close(w, now)
  {
    assert Quiet(net, Silencing) && Quiet(net, Cancelling);
    var g := Broadcast(Broadcast(w.registry, CalibrationTone(0, false)), CalibrationSession(0, Cancel));
    RestoredIsRestoring(g, w.state.originals, |w.state.originals|, now, net);
    hide RestoredAmid, Broadcast;
  }

  lemma RequestVolumeIsAmid(w: World, requested: u16, now: nat, net: Net)
    requires AllQuiet(net)
    ensures RequestVolumeAmid(w, requested, now, net) == RequestVolume(w, requested, now)
  {
    assert Quiet(net, Snapshot) && Quiet(net, PanelCall) && Quiet(net, Gates);
    hide Nearest, PanelRequest, DenyAll, Participating;
  }

  lemma ShutDownIsAmid(w: World, net: Net)
    requires AllQuiet(net)
    ensures ShutDownAmid(w, net) == ShutDown(w)
  {
    assert Quiet(net, Gates) && Quiet(net, Cancelling) && Quiet(net, Silencing);
  }

  // ------------------------------------------------------------ the tick as one step

  /** The network at work after the snapshot and before the gates are set, or, when the
      barrier is renewed, after it was. */
  ghost function TwoPoints(input: TickInput, fencing: bool): Net {
    (call: Call) => match call
            case Judging => input.early
            case Gates => if fencing then [] else input.late
            case Ended => if fencing then input.late else []
            case _ => []
  }

  lemma QuietIsSame(w: World, net: Net, call: Call)
    requires Quiet(net, call)
    ensures Amid(w, net, call) == w
  {
  }

  lemma ShutIsDeny(w: World, input: TickInput)
    ensures Shut(w, TwoPoints(input, false)) == Deny(w, input.late)
  {
  }

  lemma ServeIsAmid(w: World, p: Profile, master: nat, devices: map<nat, DeviceStatus>, index: u16, input: TickInput)
    ensures ServeAmid(w, p, master, devices, index, input.now, input.ioOk, TwoPoints(input, false))
         == Serve(w, p, master, devices, index, input)
  {
    var s, net := Follow(w.state, p, index, input.now), TwoPoints(input, false);
    var targets := GroupTargets(p, master, devices, index);
    ServedIsServeAll(Served(w.registry, s.pending, s.blocked, true), devices, targets, |targets|, input.now, net);
    assert targets[..|targets|] == targets;
    hide ServeAll, ServedAmid, GroupTargets, Approve, DenyAll, ApplyAll, Persisted, Follow;
  }

  lemma DriveIsAmid(w: World, p: Profile, master: nat, devices: map<nat, DeviceStatus>, input: TickInput)
    ensures DriveAmid(w, p, master, devices, input.now, input.ioOk, TwoPoints(input, false))
         == Drive(w, p, master, devices, input)
  {
    QuietIsSame(w, TwoPoints(input, false), TakingVolume);
    hide ServeAmid, Serve, Shut, Deny, Amid, Observe, Nearest, Wanted;
    match Nearest(p, Wanted(w.registry, w.state, p, master), Participating(p, devices))
    case None => ShutIsDeny(Observe(w, master, devices), input);
    case Some(index) => ServeIsAmid(Observe(w, master, devices), p, master, devices, index, input);
  }

  lemma FenceIsAmid(w: World, p: Profile, master: nat, devices: map<nat, DeviceStatus>, input: TickInput)
    ensures var net := TwoPoints(input, true);
            Amid(Fence(Amid(Shut(w, net), net, PanelCall), p, master, devices, input.now), net, Ended)
            == Deny(Fence(w, p, master, devices, input.now), input.late)
  {
    var net := TwoPoints(input, true);
    QuietIsSame(w, net, Gates);
    QuietIsSame(Denied(w), net, PanelCall);
    FenceToShut(w, p, master, devices, input.now);
    ApplyAllToShut(Fence(w, p, master, devices, input.now).registry, input.late);
    hide Fence, ApplyAll, DenyAll;
  }

  ghost predicate Fences(w: World, devices: map<nat, DeviceStatus>) {
    && Current(w.state.library).Some?
    && var masters := MatchingIds(Current(w.state.library).value.master, devices);
       |masters| == 1 && IsFencing(w, Least(masters))
  }

  lemma SteerIsAmid(w: World, devices: map<nat, DeviceStatus>, input: TickInput)
    ensures var net := TwoPoints(input, Fences(w, devices));
            Amid(SteerAmid(w, devices, input.now, input.ioOk, net), net, Ended) == Steer(w, devices, input)
  {
    var net := TwoPoints(input, Fences(w, devices));
    QuietIsSame(w, net, Barrier);
    hide Drive, DriveAmid, Fence, Shut, Deny, Amid, TwoPoints;
    match Current(w.state.library)
    case None =>
      ShutIsDeny(w, input);
      NothingEnds(Deny(w, input.late), input);
    case Some(p) =>
      var masters := MatchingIds(p.master, devices);
      if |masters| != 1 {
        ShutIsDeny(w.(state := w.state.(masterSeen := None)), input);
        NothingEnds(Deny(w.(state := w.state.(masterSeen := None)), input.late), input);
      } else if IsFencing(w, Least(masters)) {
        FenceIsAmid(w, p, Least(masters), devices, input);
      } else {
        DriveIsAmid(w, p, Least(masters), devices, input);
        NothingEnds(Drive(w, p, Least(masters), devices, input), input);
      }
  }

  lemma NothingEnds(w: World, input: TickInput)
    ensures Amid(w, TwoPoints(input, false), Ended) == w
  {
  }

  ghost function AllSettled(w: World, input: TickInput): World {
    var ids, g := w.registry.receivers.Keys, ApplyAll(w.registry, input.early);
    w.(registry := SettledRegistry(g, w.state, ids), state := SettledState(g, w.state, ids, input.now))
  }

  lemma AllAreJudged(w: World, input: TickInput, fencing: bool)
    requires Numbered(w.registry)
    ensures var net, settled := TwoPoints(input, fencing), AllSettled(w, input);
            Judged(ApplyAll(w.registry, net(Judging)), w.state, w.registry.receivers.Keys, w.registry.nextId,
                   input.now, net)
            == (settled.registry, settled.state)
  {
    var net, ids := TwoPoints(input, fencing), w.registry.receivers.Keys;
    JudgedIsSettled(ApplyAll(w.registry, input.early), w.state, ids, w.registry.nextId, input.now, net);
    assert (set id | id in ids && id < w.registry.nextId) == ids;
    AllSettledAtOnce(ApplyAll(w.registry, input.early), w.state, ids, input.now);
  }

  /** The tick as one step is the tick with a network that keeps to two points. */
  lemma TickIsAmid(w: World, input: TickInput)
    requires Numbered(w.registry)
    ensures exists fencing ::
      Tick(w, input) == TickAmid(w, input.now, input.ioOk, TwoPoints(input, fencing))
  {
    hide SteerAmid, Steer, Judged, SettledState, SettledRegistry, TwoPoints, Fences, ApplyAll, Shut, Deny, Numbered;
    if w.state.editing {
      ShutIsDeny(w, input);
      assert Tick(w, input) == TickAmid(w, input.now, input.ioOk, TwoPoints(input, false));
    } else {
      var settled := AllSettled(w, input);
      var fencing := Fences(settled, Snapshots(w.registry));
      AllAreJudged(w, input, fencing);
      NothingFirst(w, input, fencing);
      SteerIsAmid(settled, Snapshots(w.registry), input);
      assert Tick(w, input) == TickAmid(w, input.now, input.ioOk, TwoPoints(input, fencing));
    }
  }

  lemma NothingFirst(w: World, input: TickInput, fencing: bool)
    ensures Amid(w, TwoPoints(input, fencing), Snapshot) == w
  {
  }
}
