/** The volume controller (windows-server/src/application/volume_control.rs). Its state
    is one record behind a lock, and every public operation holds the lock; each is
    proved to do to the state, the registry and the file what VolumeModel says, and the tick
    what InterleavedModel says. */
module VolumeControl {
  import opened Numbers
  import opened ControlMessages
  import opened VolumeProfiles
  import opened RegistryModel
  import opened Registry
  import Model = VolumeModel
  import opened VolumeModel
  import opened InterleavedModel

  class VolumeController {
    var state: State
    ghost var saves: seq<Library>  // every library handed to `save`

    ghost function View(registry: ReceiverRegistry): World
      reads this, registry
    {
      World(registry.View(), state, saves)
    }

    constructor (loaded: Option<Library>)
      ensures state == match loaded
                       case Some(l) => NewState(l, false)
                       case None => NewState(Library(None, []), true)
      ensures saves == []
    {
      state := match loaded
               case Some(l) => NewState(l, false)
               case None => NewState(Library(None, []), true);
      saves := [];
    }

    static function Devices(registry: ReceiverRegistry): (d: map<nat, DeviceStatus>)
      reads registry
      ensures d == Snapshots(registry.View())
    {
      Snapshots(RegistryModel.Registry(registry.receivers, registry.nextId, registry.nextRequest))
    }

    // ----------------------------------------------------------------- editing

    method Open(registry: ReceiverRegistry, net: Net) returns (ok: bool)
      modifies this, registry
      ensures Outcome(View(registry), ok) == OpenAmid(old(View(registry)), net)
    {
      if state.editing || state.pending != map[] {
        return false;
      }
      registry.HandleAll(net(Snapshot));
      var devices := Devices(registry);
      var originals := [];
      for id := 0 to registry.nextId
        invariant originals == Originals(devices, id)
      {
        if id in devices {
          originals := originals + [(id, devices[id])];
        } else {
          assert originals + [] == originals;
        }
      }
      state := state.(editing := true, draft := Current(state.library), originals := originals, blocked := {});
      ShutAll(registry, net);
      return true;
    }

    method Close(registry: ReceiverRegistry, now: nat, net: Net)
      modifies this, registry
      ensures View(registry) == CloseAmid(old(View(registry)), now, net)
    {
      registry.HandleAll(net(Silencing));
      registry.Broadcast(CalibrationTone(0, false));
      registry.HandleAll(net(Cancelling));
      registry.Broadcast(CalibrationSession(0, Cancel));
      var pending: map<nat, Pending> := map[];
      var originals := state.originals;
      ghost var g := registry.View();
      for i := 0 to |originals|
        invariant state == old(state) && saves == old(saves)
        invariant (registry.View(), pending) == RestoredAmid(g, originals, i, now, net)
      {
        var (id, original) := originals[i];
        registry.HandleAll(net(Restoring(i)));
        var request := registry.VolumeRequestWithBarrier(id, original.volume, RestoreSpeaker, false);
        if request.Some? {
          pending := pending[id := Pending(request.value, original.volume, now)];
        }
      }
      state := state.(pending := pending, originals := [], editing := false, draft := None,
                      masterSeen := None, blocked := {});
    }

    method RememberDevice(registry: ReceiverRegistry, id: nat, device: DeviceStatus)
      modifies this
      ensures View(registry) == Model.RememberDevice(old(View(registry)), id, device)
    {
      if state.editing && forall o <- state.originals :: o.0 != id {
        state := state.(originals := state.originals + [(id, device)]);
      }
    }

    // ----------------------------------------------------------------- library

    method SaveDraft(registry: ReceiverRegistry, name: string, copy: bool, ioOk: bool) returns (ok: bool)
      modifies this
      ensures Outcome(View(registry), ok) == Model.SaveDraft(old(View(registry)), name, copy, ioOk)
    {
      if !state.editing || state.loadError || state.draft.None? {
        return false;
      }
      var draft := SavedDraft(state.draft.value, name, copy);
      if draft.None? {
        return false;
      }
      var put := Put(Persisted(state), draft.value);
      if put.Failure? {
        return false;
      }
      saves := saves + [put.value];
      if !ioOk {
        return false;
      }
      var saved := draft.value.(id := put.value.active.value);
      state := state.(library := put.value, confirmed := Some((saved.id, saved.volume)), draft := Some(saved),
                      dirty := false, masterSeen := None);
      return true;
    }

    method Select(registry: ReceiverRegistry, id: u64, ioOk: bool) returns (ok: bool)
      modifies this, registry
      ensures Outcome(View(registry), ok) == Model.Select(old(View(registry)), id, ioOk)
    {
      if state.pending != map[] || !HasProfile(state.library, id) {
        return false;
      }
      if state.editing {
        state := state.(draft := Find(state.library, id));
        return true;
      }
      if state.loadError {
        return false;
      }
      var library := Persisted(state).(active := Some(id));
      saves := saves + [library];
      if !ioOk {
        return false;
      }
      registry.DenyAll();
      state := state.(confirmed := ConfirmedOf(library), library := library, pending := map[], blocked := {},
                      masterSeen := None, needsFence := true, dirty := false);
      return true;
    }

    method Delete(registry: ReceiverRegistry, id: u64, ioOk: bool) returns (ok: bool)
      modifies this
      ensures Outcome(View(registry), ok) == Model.Delete(old(View(registry)), id, ioOk)
    {
      if !state.editing || state.loadError {
        return false;
      }
      var l := Persisted(state);
      var library := Library(if l.active == Some(id) then None else l.active, Without(l.profiles, id));
      saves := saves + [library];
      if !ioOk {
        return false;
      }
      state := state.(confirmed := ConfirmedOf(library), library := library, draft := Current(library),
                      dirty := false);
      return true;
    }

    method Finish(registry: ReceiverRegistry, ioOk: bool) returns (ok: bool)
      modifies this
      ensures Outcome(View(registry), ok) == Model.Finish(old(View(registry)), ioOk)
    {
      if state.dirty {
        if state.loadError {
          return false;
        }
        saves := saves + [Persisted(state)];
        if !ioOk {
          return false;
        }
        state := state.(dirty := false);
      }
      return true;
    }

    // ---------------------------------------------------------------- the volume

    method SetVolume(registry: ReceiverRegistry, requested: u16, now: nat, net: Net) returns (ok: bool)
      modifies this, registry
      ensures Outcome(View(registry), ok) == RequestVolumeAmid(old(View(registry)), requested, now, net)
    {
      if state.editing {
        return false;
      }
      registry.HandleAll(net(Snapshot));
      var devices := Devices(registry);
      var active := Current(state.library);
      if active.None? {
        return false;
      }
      var profile := active.value;
      var masters := MatchingIds(profile.master, devices);
      if |masters| != 1 {
        return false;
      }
      var index := Nearest(profile, requested, Participating(profile, devices));
      if index.None? {
        return false;
      }
      var master := FindLeast(masters);
      registry.HandleAll(net(PanelCall));
      var request := registry.VolumeRequestWithBarrier(master, index.value, RestoreSpeaker, true);
      if request.None? {
        return false;
      }
      state := state.(library := WithVolume(state.library, profile.id, index.value), needsFence := false,
                      pending := state.pending[master := Pending(request.value, index.value, now)],
                      blocked := {}, dirty := true, changed := now);
      ShutAll(registry, net);
      return true;
    }

    // ---------------------------------------------------------------------- tick

    /** One pass of the worker. The network may act before any call to the registry. */
    method Tick(registry: ReceiverRegistry, now: nat, ioOk: bool, net: Net)
      modifies this, registry
      ensures View(registry) == TickAmid(old(View(registry)), now, ioOk, net)
    {
      if state.editing {
        ShutAll(registry, net);
        return;
      }
      registry.HandleAll(net(Snapshot));
      var devices := Devices(registry);
      var ids, bound := registry.receivers.Keys, registry.nextId;
      registry.HandleAll(net(Judging));
      JudgePending(registry, ids, bound, now, net);
      Steer(registry, devices, now, ioOk, net);
      registry.HandleAll(net(Ended));
    }

    method ShutAll(registry: ReceiverRegistry, net: Net)
      modifies registry
      ensures View(registry) == Shut(old(View(registry)), net)
    {
      registry.HandleAll(net(Gates));
      registry.DenyAll();
    }

    /** Takes the answers to outstanding requests, in ascending order of the receivers, and
        blocks receivers that failed. */
    method JudgePending(registry: ReceiverRegistry, ids: set<nat>, n: nat, now: nat, net: Net)
      modifies this`state, registry
      ensures (registry.View(), state) == Judged(old(registry.View()), old(state), ids, n, now, net)
    {
      var s := state;
      state := s.(pending := map[], blocked := set id | id in s.blocked && id in ids);
      for id := 0 to n
        invariant (registry.View(), state) == Judged(old(registry.View()), s, ids, id, now, net)
      {
        if id in s.pending && id in ids {
          registry.HandleAll(net(Taking(id)));
          JudgeOne(registry, id, s.pending[id], now);
        }
      }
    }

    method JudgeOne(registry: ReceiverRegistry, id: nat, p: Pending, now: nat)
      modifies this`state, registry`receivers
      ensures (registry.View(), state) == JudgedOne(old(registry.View()), old(state), id, p, now)
    {
      var reply := registry.TakeReply(id, p.request);
      if reply.Some? {
        if !Applied(reply.value, p.index) {
          state := state.(blocked := state.blocked + {id});
        }
      } else if Elapsed(now, p.at) >= CONFIRM_TIMEOUT {
        state := state.(blocked := state.blocked + {id});
      } else {
        state := state.(pending := state.pending[id := p]);
      }
    }

    method Steer(registry: ReceiverRegistry, devices: map<nat, DeviceStatus>, now: nat, ioOk: bool, net: Net)
      modifies this, registry
      ensures View(registry) == SteerAmid(old(View(registry)), devices, now, ioOk, net)
    {
      var active := Current(state.library);
      if active.None? {
        ShutAll(registry, net);
        return;
      }
      var profile := active.value;
      var masters := MatchingIds(profile.master, devices);
      if |masters| != 1 {
        ShutAll(registry, net);
        state := state.(masterSeen := None);
        return;
      }
      var master := FindLeast(masters);
      registry.HandleAll(net(Barrier));
      var barrier := registry.HasPanelBarrier(master);
      if (state.needsFence || barrier) && master !in state.pending {
        ShutAll(registry, net);
        registry.HandleAll(net(PanelCall));
        Fence(registry, profile, master, devices, now);
      } else {
        Drive(registry, profile, master, devices, now, ioOk, net);
      }
    }

    method Fence(registry: ReceiverRegistry, p: Profile, master: nat, devices: map<nat, DeviceStatus>, now: nat)
      requires master in devices
      modifies this`state, registry`receivers, registry`nextRequest
      ensures View(registry) == Model.Fence(old(View(registry)), p, master, devices, now)
    {
      if master in state.blocked {
        return;
      }
      var index := Nearest(p, p.volume, Participating(p, devices));
      if index.None? {
        return;
      }
      var request := registry.VolumeRequestWithBarrier(master, index.value, RestoreSpeaker, true);
      if request.Some? {
        state := state.(masterSeen := Some((master, devices[master].volume)), needsFence := false,
                        pending := state.pending[master := Pending(request.value, index.value, now)]);
      } else {
        state := state.(blocked := state.blocked + {master});
      }
    }

    method Drive(registry: ReceiverRegistry, p: Profile, master: nat, devices: map<nat, DeviceStatus>,
                 now: nat, ioOk: bool, net: Net)
      requires master in devices
      modifies this, registry
      ensures View(registry) == DriveAmid(old(View(registry)), p, master, devices, now, ioOk, net)
    {
      registry.HandleAll(net(TakingVolume));
      ghost var before := View(registry);
      var requested := p.volume;
      var unsolicited := registry.TakeUnsolicitedVolume(master);
      if state.masterSeen.Some? && state.masterSeen.value.0 == master && unsolicited.Some? {
        requested := unsolicited.value;
      }
      state := state.(masterSeen := Some((master, devices[master].volume)));
      assert View(registry) == Observe(before, master, devices);
      var index := Nearest(p, requested, Participating(p, devices));
      if index.None? {
        ShutAll(registry, net);
        return;
      }
      Serve(registry, p, master, devices, index.value, now, ioOk, net);
    }

    method Serve(registry: ReceiverRegistry, p: Profile, master: nat, devices: map<nat, DeviceStatus>, index: u16,
                 now: nat, ioOk: bool, net: Net)
      modifies this, registry
      ensures View(registry) == ServeAmid(old(View(registry)), p, master, devices, index, now, ioOk, net)
    {
      if p.volume != index {
        state := state.(library := WithVolume(state.library, p.id, index), dirty := true, changed := now);
      }
      assert state == Follow(old(state), p, index, now);
      var targets := BuildTargets(p, master, devices, index);
      var ready := ServeTargets(registry, targets, devices, now, net);
      Conclude(registry, ready, p, index, Expected(devices, targets), TickInput(now, ioOk, [], net(Gates)));
    }

    static method BuildTargets(p: Profile, master: nat, devices: map<nat, DeviceStatus>, index: u16)
      returns (targets: seq<(nat, u16)>)
      ensures targets == GroupTargets(p, master, devices, index)
    {
      targets := [(master, index)];
      var participating := Participating(p, devices);
      for i := 0 to |p.followers|
        invariant targets + Targets(p, p.followers[i..], devices, index) == GroupTargets(p, master, devices, index)
      {
        var f := p.followers[i];
        var ids := MatchingIds(f.device, devices);
        ghost var before := targets;
        assert p.followers[i..][0] == f && p.followers[i..][1..] == p.followers[i + 1..];
        if f.device.id in participating && ids != {} && index in f.mapping {
          var id := FindLeast(ids);
          targets := targets + [(id, f.mapping[index])];
          assert before + ([(id, f.mapping[index])] + Targets(p, p.followers[i + 1..], devices, index))
              == targets + Targets(p, p.followers[i + 1..], devices, index);
        }
      }
      assert targets + [] == targets;
    }

    /** Checks every target, asking those not at their volume; true if none was amiss. */
    method ServeTargets(registry: ReceiverRegistry, targets: seq<(nat, u16)>, devices: map<nat, DeviceStatus>,
                        now: nat, net: Net)
      returns (ready: bool)
      modifies this`state, registry
      ensures var v := ServedAmid(Served(old(registry.View()), old(state.pending), old(state.blocked), true),
                                  devices, targets, |targets|, now, net);
              && registry.View() == v.registry && ready == v.ready
              && state == old(state).(pending := v.pending, blocked := v.blocked)
    {
      ready := true;
      ghost var v := Served(registry.View(), state.pending, state.blocked, true);
      for i := 0 to |targets|
        invariant state == old(state).(pending := state.pending, blocked := state.blocked)
        invariant Served(registry.View(), state.pending, state.blocked, ready)
               == ServedAmid(v, devices, targets, i, now, net)
      {
        registry.HandleAll(net(Restoring(i)));
        ready := ServeTarget(registry, targets[i], devices, now, ready);
      }
    }

    method ServeTarget(registry: ReceiverRegistry, t: (nat, u16), devices: map<nat, DeviceStatus>, now: nat,
                       soFar: bool)
      returns (ready: bool)
      modifies this`state, registry`receivers, registry`nextRequest
      ensures Served(registry.View(), state.pending, state.blocked, ready)
           == ServeOne(Served(old(registry.View()), old(state.pending), old(state.blocked), soFar), devices, t, now)
      ensures state == old(state).(pending := state.pending, blocked := state.blocked)
    {
      ready := soFar;
      if AtTarget(devices, state.pending, state.blocked, t) {
        return;
      }
      ready := false;
      if t.0 !in state.pending && t.0 !in state.blocked {
        var request := registry.VolumeRequestWithBarrier(t.0, t.1, RestoreSpeaker, false);
        if request.Some? {
          state := state.(pending := state.pending[t.0 := Pending(request.value, t.1, now)]);
        } else {
          state := state.(blocked := state.blocked + {t.0});
        }
      }
    }

    /** Sets the gates; a ready group's volume is confirmed and, once settled, saved. */
    method Conclude(registry: ReceiverRegistry, ready: bool, p: Profile, index: u16,
                    expected: map<nat, DeviceStatus>, input: TickInput)
      modifies this, registry
      ensures View(registry) == Model.Conclude(old(View(registry)), ready, p, index, expected, input)
    {
      registry.HandleAll(input.late);
      if !ready {
        registry.DenyAll();
        return;
      }
      registry.Approve(expected);
      state := state.(confirmed := Some((p.id, index)));
      if state.dirty && Elapsed(input.now, state.changed) >= SAVE_DELAY {
        if state.loadError {
          state := state.(changed := input.now + RETRY_DELAY);
        } else {
          saves := saves + [Persisted(state)];
          if input.ioOk {
            state := state.(dirty := false);
          } else {
            state := state.(changed := input.now + RETRY_DELAY);
          }
        }
      }
    }
  }
}
