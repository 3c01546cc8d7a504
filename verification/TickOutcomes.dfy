/** What one pass of the volume controller decides
    (windows-server/src/application/volume_control.rs:431-616). */
module TickOutcomes {
  import opened Numbers
  import opened ControlMessages
  import opened VolumeProfiles
  import opened RegistryModel
  import opened VolumeModel
  import opened InterleavedModel
  import opened ReceiverTraffic

  // ----- outstanding requests -----

  /** The phone answered that the volume was set, on its speaker. */
  predicate Obeyed(answer: DeviceStatus, index: u16) {
    answer.volume == index && answer.speaker && !answer.fixed && !answer.failed
  }

  /** The request has waited for four seconds. */
  predicate IsOverdue(p: Pending, now: nat) { now >= p.at + 4000 }

  /** It was answered otherwise, or not in time. */
  predicate IsLost(g: Registry, id: nat, p: Pending, now: nat) {
    match Reply(g, id, p.request)
    case Some(answer) => !Obeyed(answer, p.index)
    case None => IsOverdue(p, now)
  }

  /** An outstanding request stays so exactly if its phone is connected, has not answered and has
      time left. Its phone is blocked exactly if it answered otherwise than asked, or ran out of
      time; and who is blocked stays so while connected. */
  lemma JudgementIsExact(g: Registry, s: State, ids: set<nat>, now: nat)
    ensures var t := SettledState(g, s, ids, now);
            && t == s.(pending := t.pending, blocked := t.blocked)
            && (forall id: nat :: id in t.pending <==>
                  && id in s.pending && id in ids && Reply(g, id, s.pending[id].request).None?
                  && !IsOverdue(s.pending[id], now))
            && (forall id <- t.pending :: t.pending[id] == s.pending[id])
            && (forall id: nat :: id in t.blocked <==>
                  id in ids && (id in s.blocked || (id in s.pending && IsLost(g, id, s.pending[id], now))))
  {
  }

  /** Its answer is taken, and nobody else's. */
  lemma AnswersAreTaken(g: Registry, s: State, ids: set<nat>)
    ensures var h := SettledRegistry(g, s, ids);
            && h == g.(receivers := h.receivers) && h.receivers.Keys == g.receivers.Keys
            && forall id <- g.receivers ::
                 h.receivers[id]
                 == if id in s.pending && id in ids then
                      g.receivers[id].(replies := g.receivers[id].replies - {s.pending[id].request})
                    else g.receivers[id]
  {
  }

  // ----- asking for volumes -----

  /** A target at its volume, with nothing outstanding or blocked, is left alone. One that is asked
      or blocked already keeps the group from being ready. Any other is asked now, or blocked if it
      cannot be, and the group is not ready either. */
  lemma TargetIsServedExactly(v: Served, devices: map<nat, DeviceStatus>, t: (nat, u16), now: nat)
    requires t.0 in devices
    ensures var u := ServeOne(v, devices, t, now);
            var free := t.0 !in v.pending && t.0 !in v.blocked;
            if free && devices[t.0].volume == t.1 then u == v
            else if !free then u == v.(ready := false)
            else
              && !u.ready && u.registry == VolumeRequest(v.registry, t.0, t.1, RestoreSpeaker, false).registry
              && (if CanTake(v.registry, t.0) then
                    u.pending == v.pending[t.0 := Pending(v.registry.nextRequest, t.1, now)] && u.blocked == v.blocked
                  else u.pending == v.pending && u.blocked == v.blocked + {t.0})
  {
    RequestIsQueued(v.registry, t.0, t.1, RestoreSpeaker, false);
  }

  /** Renewing the barrier asks the master, unless it is blocked, for the available volume nearest to
      the profile's, under a new barrier; a master that cannot be asked is blocked. */
  lemma FenceIsExact(w: World, p: Profile, master: nat, devices: map<nat, DeviceStatus>, now: nat)
    requires master in devices
    ensures var f, s := Fence(w, p, master, devices, now), w.state;
            var index := Nearest(p, p.volume, Participating(p, devices));
            if master in s.blocked || index.None? then f == w
            else
              && f.registry == VolumeRequest(w.registry, master, index.value, RestoreSpeaker, true).registry
              && f.saves == w.saves
              && f.state == (if CanTake(w.registry, master) then
                               s.(masterSeen := Some((master, devices[master].volume)), needsFence := false,
                                  pending := s.pending[master := Pending(w.registry.nextRequest, index.value, now)])
                             else s.(blocked := s.blocked + {master}))
  {
    match Nearest(p, p.volume, Participating(p, devices))
    case None =>
    case Some(index) => RequestIsQueued(w.registry, master, index, RestoreSpeaker, true);
  }

  // ----- ending the pass -----

  /** The group's volume is unsaved for half a second or more. */
  predicate IsSettled(s: State, now: nat) {
    s.dirty && now >= s.changed + 500
  }

  /** A group that is not ready has its gates shut, and nothing is confirmed or saved. One that is
      ready has them set, its volume confirmed and, if it is unsaved and settled, saved; while the
      file must not be written, or when writing fails, another four seconds pass. */
  lemma PassEndsExactly(w: World, ready: bool, p: Profile, index: u16, expected: map<nat, DeviceStatus>,
                        input: TickInput)
    ensures var d, s, g := Conclude(w, ready, p, index, expected, input), w.state, ApplyAll(w.registry, input.late);
            if !ready then d == w.(registry := DenyAll(g))
            else
              var persisted := WithVolume(s.library, p.id, index);
              && d.registry == Approve(g, expected)
              && d.saves == w.saves + (if IsSettled(s, input.now) && !s.loadError then [persisted] else [])
              && d.state == s.(
                   confirmed := Some((p.id, index)),
                   dirty := s.dirty && !(IsSettled(s, input.now) && !s.loadError && input.ioOk),
                   changed := if IsSettled(s, input.now) && (s.loadError || !input.ioOk) then input.now + 4000
                              else s.changed)
  {
  }

  /** Every other way out shuts the gates and saves nothing: the window is open, no profile is active,
      or not exactly one phone is its master, which is forgotten. */
  lemma IdlePassShuts(w: World, now: nat, ioOk: bool, net: Net)
    ensures w.state.editing ==>
      TickAmid(w, now, ioOk, net) == w.(registry := DenyAll(ApplyAll(w.registry, net(Gates))))
  {
  }

  lemma MasterlessPassShuts(w: World, devices: map<nat, DeviceStatus>, now: nat, ioOk: bool, net: Net)
    requires match Current(w.state.library)
             case None => true
             case Some(p) => forall id :: !IsSole(p.master, devices, id)
    ensures var d := SteerAmid(w, devices, now, ioOk, net);
            && d.registry == DenyAll(ApplyAll(w.registry, net(Gates))) && d.saves == w.saves
            && d.state == if Current(w.state.library).None? then w.state else w.state.(masterSeen := None)
  {
    match Current(w.state.library)
    case None =>
    case Some(p) => SoleByCount(p.master, devices);
  }

  /** With one master and a barrier due, to it and to nobody else one request is sent behind shut
      gates, unless one to it is outstanding; then, and with no barrier due, the group is driven. */
  lemma BarrierComesFirst(w: World, p: Profile, master: nat, devices: map<nat, DeviceStatus>,
                          now: nat, ioOk: bool, net: Net)
    requires Current(w.state.library) == Some(p) && IsSole(p.master, devices, master)
    ensures var g := ApplyAll(w.registry, net(InterleavedModel.Barrier));
            var due := w.state.needsFence || (master in g.receivers && g.receivers[master].panelBarrier.Some?);
            var shut := DenyAll(ApplyAll(g, net(Gates)));
            SteerAmid(w, devices, now, ioOk, net)
            == if due && master !in w.state.pending then
                 Fence(w.(registry := ApplyAll(shut, net(PanelCall))), p, master, devices, now)
               else DriveAmid(w.(registry := g), p, master, devices, now, ioOk, net)
  {
    assert master in MatchingIds(p.master, devices) && |MatchingIds(p.master, devices)| == 1;
    hide DriveAmid, Fence, ApplyAll;
  }

  // ----- the panel and the end -----

  /** The panel may choose: no window is open, a profile is active, one phone is its master and can
      be asked, and some volume is available. */
  ghost predicate MayChoose(w: World, p: Profile, master: nat) {
    && !w.state.editing && Current(w.state.library) == Some(p) && IsSole(p.master, Snapshots(w.registry), master)
    && (exists v: u16 :: IsAvailable(p, Participating(p, Snapshots(w.registry)), v)) && CanTake(w.registry, master)
  }

  /** Then the master is asked under a barrier for the available volume nearest to the choice, behind
      shut gates; the profile is there at once and unsaved, and nobody is blocked any more. */
  lemma ChoiceIsMade(w: World, p: Profile, master: nat, requested: u16, now: nat)
    requires MayChoose(w, p, master)
    ensures var o, s, g := RequestVolume(w, requested, now), w.state, w.registry;
            var index := Nearest(p, requested, Participating(p, Snapshots(g)));
            && o.ok && o.world.saves == w.saves && index.Some?
            && o.world.registry == DenyAll(VolumeRequest(g, master, index.value, RestoreSpeaker, true).registry)
            && o.world.state == s.(library := WithVolume(s.library, p.id, index.value), needsFence := false,
                                   blocked := {}, dirty := true, changed := now,
                                   pending := s.pending[master := Pending(g.nextRequest, index.value, now)])
  {
    assert master in MatchingIds(p.master, Snapshots(w.registry))
        && |MatchingIds(p.master, Snapshots(w.registry))| == 1;
    var index := Nearest(p, requested, Participating(p, Snapshots(w.registry)));
    RequestIsQueued(w.registry, master, index.value, RestoreSpeaker, true);
  }

  /** Otherwise nothing changes, but that a number may be used up. */
  lemma ChoiceIsRefused(w: World, requested: u16, now: nat)
    requires forall p, master :: !MayChoose(w, p, master)
    ensures var o := RequestVolume(w, requested, now);
            !o.ok && o.world == w.(registry := w.registry.(nextRequest := o.world.registry.nextRequest))
  {
    if !w.state.editing && Current(w.state.library).Some? {
      var p := Current(w.state.library).value;
      SoleByCount(p.master, Snapshots(w.registry));
      var masters := MatchingIds(p.master, Snapshots(w.registry));
      var index := Nearest(p, requested, Participating(p, Snapshots(w.registry)));
      if |masters| == 1 && index.Some? {
        var master := Least(masters);
        assert IsSole(p.master, Snapshots(w.registry), master) && !MayChoose(w, p, master);
        RequestIsQueued(w.registry, master, index.value, RestoreSpeaker, true);
      }
    }
  }

  /** At the end every gate is shut, and every phone with room is told to end its session and tone. */
  lemma ShutDownTells(w: World)
    ensures var d := ShutDown(w);
            && d == w.(registry := d.registry) && d.registry == w.registry.(receivers := d.registry.receivers)
            && d.registry.receivers.Keys == w.registry.receivers.Keys
            && forall id <- w.registry.receivers ::
                 var r := w.registry.receivers[id];
                 d.registry.receivers[id] == r.(playback := false, controls := r.controls + Farewell(r))
  {
  }

  function Farewell(r: Receiver): seq<ControlMessage> {
    if !r.connected || |r.controls| >= r.capacity then []
    else if |r.controls| + 1 == r.capacity then [CalibrationSession(0, Cancel)]
    else [CalibrationSession(0, Cancel), CalibrationTone(0, false)]
  }
}
