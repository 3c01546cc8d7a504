/** The volume chosen at the panel wins over stale reports: the barrier
    (windows-server/src/application/registry.rs:224-254 and 348-367,
    windows-server/src/application/volume_control.rs:380-429 and 487-538). */
module PanelIntent {
  import opened Numbers
  import opened ControlMessages
  import opened VolumeProfiles
  import opened RegistryModel
  import opened VolumeModel
  import opened VolumeRuns
  import opened GateSafety
  import opened Persistence

  function Barrier(g: Registry, id: nat): Option<nat> {
    if id in g.receivers then g.receivers[id].panelBarrier else None
  }

  /** A receiver behind a barrier has no unsolicited volume stored. */
  ghost predicate BarriersHide(g: Registry) {
    forall id <- g.receivers :: g.receivers[id].panelBarrier.Some? ==> g.receivers[id].unsolicited.None?
  }

  // ------------------------------------------------------------- what lifts a barrier

  predicate IsReceipt(event: NetEvent, id: nat, request: nat) {
    event.Report? && event.id == id && InRange(event.status) && event.status.requestId == request
  }

  /** A barrier is lifted by the receipt of its own request and by nothing else the
      network can do, short of the phone leaving; no other report gets past it. */
  lemma OnlyItsReceiptLifts(g: Registry, event: NetEvent, id: nat)
    requires BarriersHide(g) && Barrier(g, id).Some? && id < g.nextId
    ensures BarriersHide(Apply(g, event))
    ensures IsReceipt(event, id, Barrier(g, id).value) ==> Barrier(Apply(g, event), id).None?
    ensures !IsReceipt(event, id, Barrier(g, id).value) && event != Leave(id) ==>
      Barrier(Apply(g, event), id) == Barrier(g, id)
  {
  }

  lemma ApplyHides(g: Registry, event: NetEvent)
    requires BarriersHide(g)
    ensures BarriersHide(Apply(g, event)) && Apply(g, event).nextRequest >= g.nextRequest
  {
  }

  lemma {:induction false} ApplyAllHides(g: Registry, events: seq<NetEvent>)
    requires BarriersHide(g)
    ensures BarriersHide(ApplyAll(g, events)) && ApplyAll(g, events).nextRequest >= g.nextRequest
    decreases |events|
  {
    if events != [] {
      ApplyHides(g, events[0]);
      ApplyAllHides(Apply(g, events[0]), events[1..]);
    }
  }

  /** No event answers request `barrier`, or one at or after `bound`, or takes the phone away. */
  predicate Quiet(events: seq<NetEvent>, id: nat, barrier: nat, bound: nat) {
    forall e <- events ::
      e != Leave(id) && (e.Report? && e.id == id ==> e.status.requestId != barrier && e.status.requestId < bound)
  }

  lemma {:induction false} QuietKeepsBarrier(g: Registry, events: seq<NetEvent>, id: nat, bound: nat)
    requires BarriersHide(g) && Barrier(g, id).Some? && Quiet(events, id, Barrier(g, id).value, bound)
    requires forall k <- g.receivers :: k < g.nextId
    ensures Barrier(ApplyAll(g, events), id) == Barrier(g, id)
    ensures BarriersHide(ApplyAll(g, events))
    decreases |events|
  {
    if events != [] {
      assert events[0] in events;
      OnlyItsReceiptLifts(g, events[0], id);
      ApplyOnlyShuts(g, events[0]);
      QuietKeepsBarrier(Apply(g, events[0]), events[1..], id, bound);
    }
  }

  // ----------------------------------------------------------- what the server does

  ghost predicate SameBarriers(g: Registry, h: Registry) {
    && g.receivers.Keys == h.receivers.Keys && g.nextId == h.nextId && g.nextRequest <= h.nextRequest
    && forall id <- g.receivers ::
         && g.receivers[id].panelBarrier == h.receivers[id].panelBarrier
         && (g.receivers[id].unsolicited.None? ==> h.receivers[id].unsolicited.None?)
  }

  lemma {:induction false} ServeAllSameBarriers(
    v: Served, devices: map<nat, DeviceStatus>, targets: seq<(nat, u16)>, now: nat)
    ensures SameBarriers(v.registry, ServeAll(v, devices, targets, now).registry)
    decreases |targets|
  {
    if targets != [] {
      var next := ServeOne(v, devices, targets[0], now);
      assert SameBarriers(v.registry, next.registry);
      ServeAllSameBarriers(next, devices, targets[1..], now);
    }
  }

  lemma {:induction false} RestoreSameBarriers(
    g: Registry, pending: map<nat, Pending>, originals: seq<(nat, DeviceStatus)>, now: nat)
    ensures SameBarriers(g, RestoreOriginals(g, pending, originals, now).0)
    decreases |originals|
  {
    if originals != [] {
      var (id, original) := originals[0];
      var r := RestoreRequest(g, id, original.volume);
      assert SameBarriers(g, r.registry);
      RestoreSameBarriers(
        r.registry,
        if r.request.Some? then pending[id := Pending(r.request.value, original.volume, now)] else pending,
        originals[1..], now);
    }
  }

  lemma SetGatesSameBarriers(g: Registry, expected: map<nat, DeviceStatus>)
    ensures SameBarriers(g, DenyAll(g)) && SameBarriers(g, Approve(g, expected))
  {
  }

  lemma SameBarriersHide(g: Registry, h: Registry)
    requires BarriersHide(g) && SameBarriers(g, h)
    ensures BarriersHide(h) && forall id :: Barrier(h, id) == Barrier(g, id)
  {
  }

  // ------------------------------------------------------- the volume that was chosen

  /** Volume `v` is set and the barrier on `master` is up. */
  ghost predicate Held(w: World, master: nat, v: u16) {
    && !w.state.editing
    && Current(w.state.library).Some? && Current(w.state.library).value.volume == v
    && Barrier(w.registry, master).Some? && BarriersHide(w.registry)
    && (forall id <- w.registry.receivers :: id < w.registry.nextId)
  }

  lemma DenyHolds(w: World, master: nat, v: u16, late: seq<NetEvent>, bound: nat)
    requires Held(w, master, v) && Quiet(late, master, Barrier(w.registry, master).value, bound)
    ensures Held(Deny(w, late), master, v)
    ensures Barrier(Deny(w, late).registry, master) == Barrier(w.registry, master)
  {
    QuietKeepsBarrier(w.registry, late, master, bound);
    ApplyAllOnlyShuts(w.registry, late);
    SetGatesSameBarriers(ApplyAll(w.registry, late), map[]);
    SameBarriersHide(ApplyAll(w.registry, late), DenyAll(ApplyAll(w.registry, late)));
  }

  lemma ConcludeHolds(
    w: World, ready: bool, p: Profile, master: nat, expected: map<nat, DeviceStatus>, input: TickInput, bound: nat)
    requires Held(w, master, p.volume) && Quiet(input.late, master, Barrier(w.registry, master).value, bound)
    ensures Held(Conclude(w, ready, p, p.volume, expected, input), master, p.volume)
    ensures Barrier(Conclude(w, ready, p, p.volume, expected, input).registry, master) == Barrier(w.registry, master)
  {
    if ready {
      QuietKeepsBarrier(w.registry, input.late, master, bound);
      ApplyAllOnlyShuts(w.registry, input.late);
      SetGatesSameBarriers(ApplyAll(w.registry, input.late), expected);
      SameBarriersHide(ApplyAll(w.registry, input.late), Approve(ApplyAll(w.registry, input.late), expected));
    } else {
      DenyHolds(w, master, p.volume, input.late, bound);
    }
  }

  lemma ServeHolds(w: World, p: Profile, master: nat, devices: map<nat, DeviceStatus>, input: TickInput, bound: nat)
    requires Held(w, master, p.volume) && Current(w.state.library) == Some(p)
    requires Quiet(input.late, master, Barrier(w.registry, master).value, bound)
    ensures Held(Serve(w, p, master, devices, p.volume, input), master, p.volume)
    ensures Barrier(Serve(w, p, master, devices, p.volume, input).registry, master) == Barrier(w.registry, master)
  {
    var targets := GroupTargets(p, master, devices, p.volume);
    var v0 := Served(w.registry, w.state.pending, w.state.blocked, true);
    var v := ServeAll(v0, devices, targets, input.now);
    ServeAllSameBarriers(v0, devices, targets, input.now);
    SameBarriersHide(w.registry, v.registry);
    ConcludeHolds(w.(registry := v.registry, state := w.state.(pending := v.pending, blocked := v.blocked)),
                  v.ready, p, master, Expected(devices, targets), input, bound);
  }

  lemma ObserveHolds(w: World, master: nat, devices: map<nat, DeviceStatus>, v: u16)
    requires Held(w, master, v)
    ensures Held(Observe(w, master, devices), master, v)
    ensures Observe(w, master, devices).state.library == w.state.library
    ensures Barrier(Observe(w, master, devices).registry, master) == Barrier(w.registry, master)
  {
    assert SameBarriers(w.registry, TakeUnsolicited(w.registry, master));
    SameBarriersHide(w.registry, TakeUnsolicited(w.registry, master));
  }

  /** Behind the barrier the master's volume is not followed. */
  lemma DriveHolds(w: World, p: Profile, master: nat, devices: map<nat, DeviceStatus>, input: TickInput, bound: nat)
    requires Held(w, master, p.volume) && Current(w.state.library) == Some(p)
    requires IsAvailable(p, Participating(p, devices), p.volume)
    requires Quiet(input.late, master, Barrier(w.registry, master).value, bound)
    ensures Held(Drive(w, p, master, devices, input), master, p.volume)
    ensures Barrier(Drive(w, p, master, devices, input).registry, master) == Barrier(w.registry, master)
  {
    assert Wanted(w.registry, w.state, p, master) == p.volume;
    NearestOfAvailable(p, p.volume, Participating(p, devices));
    ObserveHolds(w, master, devices, p.volume);
    ServeHolds(Observe(w, master, devices), p, master, devices, input, bound);
  }

  /** The request for `index` has been queued for the master under the next number. */
  ghost predicate Queued(g: Registry, h: Registry, master: nat, index: u16) {
    && master in g.receivers && master in h.receivers
    && h.receivers[master].controls
       == g.receivers[master].controls + [SetVolume(g.nextRequest, index, RestoreSpeaker)]
  }

  lemma PanelRaises(g: Registry, master: nat, index: u16)
    requires BarriersHide(g)
    ensures var r := PanelRequest(g, master, index);
            && BarriersHide(r.registry) && r.registry.nextId == g.nextId
            && r.registry.receivers.Keys == g.receivers.Keys && r.registry.nextRequest == g.nextRequest + 1
            && (forall id | id != master || r.request.None? :: Barrier(r.registry, id) == Barrier(g, id))
            && (r.request.Some? ==>
                  Barrier(r.registry, master) == Some(g.nextRequest) && Queued(g, r.registry, master, index))
  {
  }

  /** The barrier stands as it was, or a new request for volume `v` has taken its place. */
  ghost predicate KeptOrRenewed(w: World, later: World, master: nat, v: u16, now: nat) {
    || Barrier(later.registry, master) == Barrier(w.registry, master)
    || (&& Barrier(later.registry, master).Some? && master in later.state.pending
        && Barrier(later.registry, master).value >= w.registry.nextRequest
        && later.state.pending[master] == Pending(Barrier(later.registry, master).value, v, now))
  }

  /** A renewed barrier asks for the same volume. */
  lemma FenceHolds(w: World, p: Profile, master: nat, devices: map<nat, DeviceStatus>, now: nat)
    requires Held(w, master, p.volume) && Current(w.state.library) == Some(p)
    requires IsAvailable(p, Participating(p, devices), p.volume)
    ensures var f := Fence(w, p, master, devices, now);
            && Held(f, master, p.volume)
            && KeptOrRenewed(w, f, master, p.volume, now)
            && (|| Barrier(f.registry, master) == Barrier(w.registry, master)
                || (&& Barrier(f.registry, master) == Some(w.registry.nextRequest)
                    && Queued(w.registry, f.registry, master, p.volume)))
  {
    NearestOfAvailable(p, p.volume, Participating(p, devices));
    FenceLeavesLibrary(w, p, master, devices, now);
    PanelRaises(w.registry, master, p.volume);
  }

  lemma SteerHolds(w: World, p: Profile, master: nat, devices: map<nat, DeviceStatus>, input: TickInput, bound: nat)
    requires Held(w, master, p.volume) && Current(w.state.library) == Some(p)
    requires IsSole(p.master, devices, master) && IsAvailable(p, Participating(p, devices), p.volume)
    requires Quiet(input.late, master, Barrier(w.registry, master).value, bound) && bound <= w.registry.nextRequest
    ensures Held(Steer(w, devices, input), master, p.volume)
    ensures KeptOrRenewed(w, Steer(w, devices, input), master, p.volume, input.now)
  {
    assert Least(MatchingIds(p.master, devices)) == master;
    if master in w.state.pending {
      DriveHolds(w, p, master, devices, input, bound);
    } else {
      FenceHolds(w, p, master, devices, input.now);
      DenyHolds(Fence(w, p, master, devices, input.now), master, p.volume, input.late, bound);
    }
  }

  /** The master is still the only match for the active profile and `v` still available. */
  ghost predicate StillOffered(w: World, master: nat, v: u16) {
    Current(w.state.library).Some? ==>
      var p, devices := Current(w.state.library).value, Snapshots(w.registry);
      IsSole(p.master, devices, master) && IsAvailable(p, Participating(p, devices), v)
  }

  /** An event of the network or the clock that does not deliver the newest receipt. */
  ghost predicate Steady(w: World, e: Event, master: nat, v: u16) {
    match e
    case Net(event) =>
      Barrier(w.registry, master).Some? ==>
        event != Leave(master) && !IsReceipt(event, master, Barrier(w.registry, master).value)
    case TickEvent(input) =>
      && StillOffered(w, master, v)
      && (Barrier(w.registry, master).Some? ==>
            var b := Barrier(w.registry, master).value;
            && Quiet(input.early, master, b, w.registry.nextRequest)
            && Quiet(input.late, master, b, w.registry.nextRequest))
    case _ => false
  }

  lemma TickHolds(w: World, input: TickInput, master: nat, v: u16)
    requires Held(w, master, v) && Steady(w, TickEvent(input), master, v)
    ensures Held(Tick(w, input), master, v)
    ensures KeptOrRenewed(w, Tick(w, input), master, v, input.now)
  {
    var p := Current(w.state.library).value;
    var devices, ids := Snapshots(w.registry), w.registry.receivers.Keys;
    var g := ApplyAll(w.registry, input.early);
    QuietKeepsBarrier(w.registry, input.early, master, w.registry.nextRequest);
    ApplyAllHides(w.registry, input.early);
    ApplyAllOnlyShuts(w.registry, input.early);
    var h := SettledRegistry(g, w.state, ids);
    assert SameBarriers(g, h);
    SameBarriersHide(g, h);
    SteerHolds(w.(registry := h, state := SettledState(g, w.state, ids, input.now)), p, master, devices, input,
               w.registry.nextRequest);
  }

  lemma StepHolds(w: World, e: Event, master: nat, v: u16)
    requires Held(w, master, v) && Steady(w, e, master, v)
    ensures Held(Next(w, e), master, v)
  {
    match e
    case Net(event) =>
      OnlyItsReceiptLifts(w.registry, event, master);
      ApplyOnlyShuts(w.registry, event);
    case TickEvent(input) => TickHolds(w, input, master, v);
  }

  ghost function RunFrom(w: World, events: seq<Event>): World
    decreases |events|
  {
    if events == [] then w else RunFrom(Next(w, events[0]), events[1..])
  }

  ghost predicate AlwaysSteady(w: World, events: seq<Event>, master: nat, v: u16)
    decreases |events|
  {
    events == [] || (Steady(w, events[0], master, v) && AlwaysSteady(Next(w, events[0]), events[1..], master, v))
  }

  lemma {:induction false} RunHolds(w: World, events: seq<Event>, master: nat, v: u16)
    requires Held(w, master, v) && AlwaysSteady(w, events, master, v)
    ensures Held(RunFrom(w, events), master, v)
    decreases |events|
  {
    if events != [] {
      StepHolds(w, events[0], master, v);
      RunHolds(Next(w, events[0]), events[1..], master, v);
    }
  }

  /** The receiver and volume a successful panel choice settles on. */
  lemma RequestHolds(w: World, requested: u16, now: nat) returns (master: nat, v: u16)
    requires RequestVolume(w, requested, now).ok && Inv(w) && BarriersHide(w.registry)
    ensures IsSole(Current(w.state.library).value.master, Snapshots(w.registry), master)
    ensures Nearest(Current(w.state.library).value, requested,
                    Participating(Current(w.state.library).value, Snapshots(w.registry))) == Some(v)
    ensures Held(RequestVolume(w, requested, now).world, master, v)
    ensures Barrier(RequestVolume(w, requested, now).world.registry, master) == Some(w.registry.nextRequest)
  {
    var p, devices := Current(w.state.library).value, Snapshots(w.registry);
    SoleMaster(p.master, devices);
    master := Least(MatchingIds(p.master, devices));
    v := Nearest(p, requested, Participating(p, devices)).value;
    WithVolumeCurrent(w.state.library, p, v);
    var r := PanelRequest(w.registry, master, v);
    SetGatesSameBarriers(r.registry, map[]);
    SameBarriersHide(r.registry, DenyAll(r.registry));
  }

  /** Panel intent wins: the panel's choice of a volume raises a barrier on the only phone that
      matches the master, and any mix of reports, other network events and ticks that does not
      yet contain the newest barrier's receipt leaves the profile at the chosen volume, the one
      nearest to what was requested. */
  lemma PanelIntentWins(w: World, requested: u16, now: nat, events: seq<Event>) returns (master: nat, v: u16)
    requires RequestVolume(w, requested, now).ok && Inv(w) && BarriersHide(w.registry)
    ensures IsSole(Current(w.state.library).value.master, Snapshots(w.registry), master)
    ensures Nearest(Current(w.state.library).value, requested,
                    Participating(Current(w.state.library).value, Snapshots(w.registry))) == Some(v)
    ensures Barrier(RequestVolume(w, requested, now).world.registry, master) == Some(w.registry.nextRequest)
    ensures var start := RequestVolume(w, requested, now).world;
            AlwaysSteady(start, events, master, v) ==>
              && Current(RunFrom(start, events).state.library).Some?
              && Current(RunFrom(start, events).state.library).value.volume == v
              && Barrier(RunFrom(start, events).registry, master).Some?
  {
    master, v := RequestHolds(w, requested, now);
    var start := RequestVolume(w, requested, now).world;
    if AlwaysSteady(start, events, master, v) {
      RunHolds(start, events, master, v);
    }
  }

  // ---------------------------------------------------------------------- all runs

  lemma TickHides(w: World, input: TickInput)
    requires BarriersHide(w.registry)
    ensures BarriersHide(Tick(w, input).registry)
  {
    if w.state.editing {
      DenyHides(w, input.late);
      return;
    }
    var devices, ids := Snapshots(w.registry), w.registry.receivers.Keys;
    var g := ApplyAll(w.registry, input.early);
    ApplyAllHides(w.registry, input.early);
    var h := SettledRegistry(g, w.state, ids);
    assert SameBarriers(g, h);
    SameBarriersHide(g, h);
    SteerHides(w.(registry := h, state := SettledState(g, w.state, ids, input.now)), devices, input);
  }

  lemma DenyHides(w: World, late: seq<NetEvent>)
    requires BarriersHide(w.registry)
    ensures BarriersHide(Deny(w, late).registry)
  {
    ApplyAllHides(w.registry, late);
  }

  lemma SteerHides(w: World, devices: map<nat, DeviceStatus>, input: TickInput)
    requires BarriersHide(w.registry)
    ensures BarriersHide(Steer(w, devices, input).registry)
  {
    match Current(w.state.library)
    case None => DenyHides(w, input.late);
    case Some(p) =>
      var masters := MatchingIds(p.master, devices);
      if |masters| != 1 {
        DenyHides(w.(state := w.state.(masterSeen := None)), input.late);
      } else {
        var master := Least(masters);
        if (w.state.needsFence || HasPanelBarrier(w.registry, master)) && master !in w.state.pending {
          var wanted := Nearest(p, p.volume, Participating(p, devices));
          if wanted.Some? {
            PanelRaises(w.registry, master, wanted.value);
          }
          DenyHides(Fence(w, p, master, devices, input.now), input.late);
        } else {
          DriveHides(w, p, master, devices, input);
        }
      }
  }

  lemma DriveHides(w: World, p: Profile, master: nat, devices: map<nat, DeviceStatus>, input: TickInput)
    requires BarriersHide(w.registry)
    ensures BarriersHide(Drive(w, p, master, devices, input).registry)
  {
    var o := Observe(w, master, devices);
    assert SameBarriers(w.registry, o.registry);
    SameBarriersHide(w.registry, o.registry);
    match Nearest(p, Wanted(w.registry, w.state, p, master), Participating(p, devices))
    case None => DenyHides(o, input.late);
    case Some(index) =>
      var s := Follow(o.state, p, index, input.now);
      var targets := GroupTargets(p, master, devices, index);
      var v0 := Served(o.registry, s.pending, s.blocked, true);
      var v := ServeAll(v0, devices, targets, input.now);
      ServeAllSameBarriers(v0, devices, targets, input.now);
      SameBarriersHide(o.registry, v.registry);
      ApplyAllHides(v.registry, input.late);
  }

  lemma CloseHides(w: World, now: nat)
    requires BarriersHide(w.registry)
    ensures BarriersHide(Close(w, now).registry)
  {
    var g := Broadcast(Broadcast(w.registry, CalibrationTone(0, false)), CalibrationSession(0, Cancel));
    assert SameBarriers(w.registry, g);
    RestoreSameBarriers(g, map[], w.state.originals, now);
  }

  lemma RequestHides(w: World, requested: u16, now: nat)
    requires BarriersHide(w.registry)
    ensures BarriersHide(RequestVolume(w, requested, now).world.registry)
  {
  }

  lemma NextHides(w: World, e: Event)
    requires BarriersHide(w.registry)
    ensures BarriersHide(Next(w, e).registry)
  {
    match e
    case Net(event) => ApplyHides(w.registry, event);
    case TickEvent(input) => TickHides(w, input);
    case CloseEvent(now) => CloseHides(w, now);
    case SetVolumeEvent(requested, now) => RequestHides(w, requested, now);
    case _ =>
  }

  /** Over all runs a set barrier implies that no unsolicited volume is stored. */
  lemma {:induction false} BarriersAlwaysHide(loaded: Option<Library>, events: seq<Event>)
    ensures BarriersHide(Run(Initial(loaded), events).registry)
  {
    if events != [] {
      BarriersAlwaysHide(loaded, events[..|events| - 1]);
      NextHides(Run(Initial(loaded), events[..|events| - 1]), events[|events| - 1]);
    }
  }
}
