/** Convergence without rounds: phones take and answer requests whenever they like before these
    are 4 s old, they are polled and answer that too, and the controller ticks meanwhile
    (windows-server/src/application/volume_control.rs:431-616).

    A receiver flies if it idles, waits for the answer to a request for its target, or has
    answered. Ticks, polls and answers keep all receivers flying, and a tick leaves nobody
    unasked who is not at its volume; so once all have answered the group is at its volumes
    and the next tick opens its gates. */
module Settling {
  import opened Numbers
  import opened ControlMessages
  import opened VolumeProfiles
  import opened RegistryModel
  import opened VolumeModel
  import opened VolumeRuns
  import opened GateSafety
  import opened Persistence
  import opened PanelIntent
  import opened Convergence

  // ----- one receiver -----

  predicate OnlyQueries(controls: seq<ControlMessage>) {
    forall m <- controls :: m.QueryDevice?
  }

  /** Queries, and perhaps the request. */
  predicate OnlyAsks(controls: seq<ControlMessage>, q: Pending) {
    forall m <- controls :: m.QueryDevice? || m == SetVolume(q.request, q.index, RestoreSpeaker)
  }

  /** The request has been queued or sent and not been answered, and asks for a target. */
  ghost predicate Waits(g: Registry, pending: map<nat, Pending>, targets: seq<(nat, u16)>, id: nat) {
    && id in g.receivers && id in pending
    && var r, q := g.receivers[id], pending[id];
    && OnlyAsks(r.controls, q)
    && 0 < q.request < g.nextRequest && q.request !in r.replies
    && (id, q.index) in targets
  }

  /** The request has been answered as asked, and no tick has noticed yet. */
  ghost predicate HasReplied(g: Registry, pending: map<nat, Pending>, id: nat) {
    && id in g.receivers && id in pending
    && var r, q := g.receivers[id], pending[id];
    && OnlyQueries(r.controls) && q.request in r.replies && Applied(r.replies[q.request], q.index)
  }

  /** The receiver takes messages, and no reply is from the future. */
  ghost predicate IsSound(g: Registry, id: nat)
    requires id in g.receivers
  {
    && g.receivers[id].connected && g.receivers[id].capacity >= 1
    && forall request <- g.receivers[id].replies :: request < g.nextRequest
  }

  ghost predicate ReceiverFlies(g: Registry, pending: map<nat, Pending>, targets: seq<(nat, u16)>, id: nat)
    requires id in g.receivers
  {
    && IsSound(g, id)
    && if id in pending then Waits(g, pending, targets, id) || HasReplied(g, pending, id)
       else OnlyQueries(g.receivers[id].controls)
  }

  /** Whoever has no request outstanding can take one. */
  ghost predicate CanAsk(g: Registry, pending: map<nat, Pending>) {
    forall id <- g.receivers :: id !in pending ==> |g.receivers[id].controls| < g.receivers[id].capacity
  }

  ghost predicate AllHaveRoom(g: Registry) {
    forall id <- g.receivers :: |g.receivers[id].controls| < g.receivers[id].capacity
  }

  /** Every receiver idles, waits or has answered. */
  ghost predicate Flies(g: Registry, pending: map<nat, Pending>, targets: seq<(nat, u16)>) {
    && g.nextRequest >= 1 && pending.Keys <= g.receivers.Keys
    && forall id <- g.receivers :: ReceiverFlies(g, pending, targets, id)
  }

  /** No answer is left to notice. */
  ghost predicate AllWait(g: Registry, pending: map<nat, Pending>, targets: seq<(nat, u16)>) {
    forall id <- pending :: Waits(g, pending, targets, id)
  }

  /** The target is at its volume or has been asked for it. */
  ghost predicate IsAsked(g: Registry, pending: map<nat, Pending>, targets: seq<(nat, u16)>, t: (nat, u16)) {
    || (t.0 in g.receivers && g.receivers[t.0].device.Some? && g.receivers[t.0].device.value.volume == t.1)
    || (Waits(g, pending, targets, t.0) && pending[t.0].index == t.1)
  }

  ghost predicate AllAsked(g: Registry, pending: map<nat, Pending>, targets: seq<(nat, u16)>) {
    forall t <- targets :: IsAsked(g, pending, targets, t)
  }

  /** A barrier on the master stands for a request it has yet to answer. */
  ghost predicate BarrierWaits(g: Registry, pending: map<nat, Pending>, targets: seq<(nat, u16)>, master: nat) {
    HasPanelBarrier(g, master) ==>
      Waits(g, pending, targets, master) && g.receivers[master].panelBarrier == Some(pending[master].request)
  }

  // ----- the world between ticks -----

  /** The index the group is on its way to. */
  ghost predicate IsAim(p: Profile, devices: map<nat, DeviceStatus>, aim: u16) {
    Nearest(p, p.volume, Participating(p, devices)) == Some(aim)
  }

  ghost predicate InFlight(w: World, p: Profile, master: nat, aim: u16) {
    && !w.state.editing && Loadable(w.state.library) && Current(w.state.library) == Some(p)
    && w.state.blocked == {} && !w.state.needsFence && Unsolicited(w.registry, master).None?
    && var devices := Snapshots(w.registry);
    && IsSole(p.master, devices, master) && IsAim(p, devices, aim)
    && var targets := GroupTargets(p, master, devices, aim);
    && Flies(w.registry, w.state.pending, targets)
    && BarrierWaits(w.registry, w.state.pending, targets, master)
  }

  ghost predicate Unanswered(w: World, id: nat) {
    id in w.state.pending && id in w.registry.receivers
    && w.state.pending[id].request !in w.registry.receivers[id].replies
  }

  ghost predicate AllAnswered(w: World) {
    forall id <- w.state.pending :: !Unanswered(w, id)
  }

  /** No unanswered request is 4 s old. */
  ghost predicate Punctual(w: World, now: nat) {
    forall id <- w.state.pending :: Unanswered(w, id) ==> Elapsed(now, w.state.pending[id].at) < CONFIRM_TIMEOUT
  }

  /** A report of phone `id` that repeats its state under the number of a query. */
  ghost predicate AnswersQuery(w: World, id: nat, status: DeviceStatus) {
    && id in w.registry.receivers && w.registry.receivers[id].device.Some?
    && var r := w.registry.receivers[id];
    && status == r.device.value.(requestId := status.requestId) && Sanitize(status).deviceId == status.deviceId
    && 0 < status.requestId < w.registry.nextRequest
    // it is not taken for another answer and does not push one out of the history
    && (id in w.state.pending ==>
          && w.state.pending[id].request != status.requestId
          && (|r.replies| < HISTORY || Least(r.replies.Keys) != w.state.pending[id].request))
  }

  /** A report of phone `id` that it has done what the request that was sent asks for. */
  ghost predicate AnswersRequest(w: World, id: nat, status: DeviceStatus) {
    && Unanswered(w, id) && OnlyQueries(w.registry.receivers[id].controls)
    && w.registry.receivers[id].device.Some?
    && status == Receipt(w.registry.receivers[id].device.value, w.state.pending[id].request,
                         w.state.pending[id].index)
  }

  /** A tick in time while every queue has room, a poll, a message that leaves its queue, or
      a phone's answer to a request or a query. */
  ghost predicate Obedient(w: World, e: Event) {
    match e
    case TickEvent(input) => QuietInput(input) && Punctual(w, input.now) && AllHaveRoom(w.registry)
    case Net(Transmitted(_)) => true
    case Net(Polled(_)) => true
    case Net(Report(id, status)) => AnswersRequest(w, id, status) || AnswersQuery(w, id, status)
    case _ => false
  }

  ghost predicate AlwaysObedient(w: World, events: seq<Event>)
    decreases |events|
  {
    events == [] || (Obedient(w, events[0]) && AlwaysObedient(Next(w, events[0]), events[1..]))
  }

  // ----- asking -----

  ghost predicate SameDevices(g: Registry, h: Registry) {
    g.receivers.Keys == h.receivers.Keys
    && forall id <- g.receivers :: g.receivers[id].device == h.receivers[id].device
  }

  lemma SameSnapshots(g: Registry, h: Registry)
    requires SameDevices(g, h)
    ensures Snapshots(g) == Snapshots(h)
  {
  }

  lemma WaitsOn(g: Registry, pending: map<nat, Pending>, h: Registry, more: map<nat, Pending>,
                targets: seq<(nat, u16)>, id: nat)
    requires Waits(g, pending, targets, id) && id in h.receivers && id in more
    requires more[id] == pending[id] && g.nextRequest <= h.nextRequest
    requires h.receivers[id].controls == g.receivers[id].controls && h.receivers[id].replies == g.receivers[id].replies
    ensures Waits(h, more, targets, id)
  {
  }

  /** Asking one target more. */
  ghost predicate AsksMore(v: Served, n: Served, targets: seq<(nat, u16)>, t: (nat, u16)) {
    && n.blocked == {} && n.registry.receivers.Keys == v.registry.receivers.Keys
    && v.registry.nextRequest <= n.registry.nextRequest
    && (forall id <- v.registry.receivers :: id != t.0 ==> n.registry.receivers[id] == v.registry.receivers[id])
    && (forall id :: id != t.0 ==> (id in n.pending <==> id in v.pending))
    && (forall id <- v.pending :: id in n.pending && n.pending[id] == v.pending[id])
    && (forall id <- v.registry.receivers ::
          && n.registry.receivers[id].device == v.registry.receivers[id].device
          && n.registry.receivers[id].replies == v.registry.receivers[id].replies
          && n.registry.receivers[id].capacity == v.registry.receivers[id].capacity
          && n.registry.receivers[id].connected == v.registry.receivers[id].connected
          && n.registry.receivers[id].panelBarrier == v.registry.receivers[id].panelBarrier
          && n.registry.receivers[id].unsolicited == v.registry.receivers[id].unsolicited)
  }

  lemma ServeOneAsks(v: Served, devices: map<nat, DeviceStatus>, targets: seq<(nat, u16)>, t: (nat, u16), now: nat)
    requires Flies(v.registry, v.pending, targets) && AllWait(v.registry, v.pending, targets)
    requires DistinctTargets(targets) && t in targets && v.blocked == {} && CanAsk(v.registry, v.pending)
    requires Snapshots(v.registry) == devices && t.0 in devices
    ensures var n := ServeOne(v, devices, t, now);
            && AsksMore(v, n, targets, t)
            && (t.0 in v.pending ==> n.registry == v.registry && n.pending == v.pending)
            && (t.0 !in n.pending ==> n.registry == v.registry && devices[t.0].volume == t.1)
            && (t.0 in n.pending && t.0 !in v.pending ==>
                  && n.pending[t.0].request == v.registry.nextRequest < n.registry.nextRequest
                  && n.pending[t.0].index == t.1
                  && n.registry.receivers[t.0].controls
                     == v.registry.receivers[t.0].controls + [SetVolume(v.registry.nextRequest, t.1, RestoreSpeaker)])
  {
    assert t.0 in v.registry.receivers && ReceiverFlies(v.registry, v.pending, targets, t.0);
  }

  /** What asking one target more keeps. */
  ghost predicate KeepsFlying(v: Served, n: Served, targets: seq<(nat, u16)>, master: nat) {
    && n.blocked == {} && Flies(n.registry, n.pending, targets) && AllWait(n.registry, n.pending, targets)
    && CanAsk(n.registry, n.pending)
    && Snapshots(n.registry) == Snapshots(v.registry)
    && (BarrierWaits(v.registry, v.pending, targets, master) ==> BarrierWaits(n.registry, n.pending, targets, master))
    && Unsolicited(n.registry, master) == Unsolicited(v.registry, master)
    && forall t <- targets ::
         IsAsked(v.registry, v.pending, targets, t) ==> IsAsked(n.registry, n.pending, targets, t)
  }

  lemma OldWaits(v: Served, n: Served, targets: seq<(nat, u16)>, t: (nat, u16), id: nat)
    requires AsksMore(v, n, targets, t) && Waits(v.registry, v.pending, targets, id)
    requires t.0 in v.pending ==> n.registry == v.registry && n.pending == v.pending
    ensures Waits(n.registry, n.pending, targets, id)
  {
    if id != t.0 {
      WaitsOn(v.registry, v.pending, n.registry, n.pending, targets, id);
    }
  }

  lemma AskedFlies(v: Served, devices: map<nat, DeviceStatus>, targets: seq<(nat, u16)>, t: (nat, u16), now: nat,
                   master: nat)
    requires Flies(v.registry, v.pending, targets) && AllWait(v.registry, v.pending, targets)
    requires DistinctTargets(targets) && t in targets && v.blocked == {} && CanAsk(v.registry, v.pending)
    requires Snapshots(v.registry) == devices && t.0 in devices
    ensures var n := ServeOne(v, devices, t, now);
            KeepsFlying(v, n, targets, master) && IsAsked(n.registry, n.pending, targets, t)
  {
    var n := ServeOne(v, devices, t, now);
    ServeOneAsks(v, devices, targets, t, now);
    forall id | id in v.pending
      ensures Waits(n.registry, n.pending, targets, id)
    {
      OldWaits(v, n, targets, t, id);
    }
    if t.0 in n.pending && t.0 !in v.pending {
      NewWaits(v, n, targets, t);
    }
    forall id | id in n.registry.receivers
      ensures ReceiverFlies(n.registry, n.pending, targets, id)
    {
      assert ReceiverFlies(v.registry, v.pending, targets, id);
    }
    SameSnapshots(v.registry, n.registry);
    TargetIsAsked(n, devices, targets, t);
    StillAsked(v, n, targets);
  }

  lemma StillAsked(v: Served, n: Served, targets: seq<(nat, u16)>)
    requires SameDevices(v.registry, n.registry)
    requires forall id <- v.pending :: id in n.pending && n.pending[id] == v.pending[id]
    requires forall id <- v.pending :: Waits(n.registry, n.pending, targets, id)
    ensures forall t <- targets ::
      IsAsked(v.registry, v.pending, targets, t) ==> IsAsked(n.registry, n.pending, targets, t)
  {
  }

  lemma NewWaits(v: Served, n: Served, targets: seq<(nat, u16)>, t: (nat, u16))
    requires Flies(v.registry, v.pending, targets) && t.0 in v.registry.receivers && t in targets
    requires AsksMore(v, n, targets, t) && t.0 in n.pending && t.0 !in v.pending
    requires n.pending[t.0].request == v.registry.nextRequest < n.registry.nextRequest && n.pending[t.0].index == t.1
    requires n.registry.receivers[t.0].controls
          == v.registry.receivers[t.0].controls + [SetVolume(v.registry.nextRequest, t.1, RestoreSpeaker)]
    ensures Waits(n.registry, n.pending, targets, t.0)
  {
    assert ReceiverFlies(v.registry, v.pending, targets, t.0);
  }

  lemma TargetIsAsked(n: Served, devices: map<nat, DeviceStatus>, targets: seq<(nat, u16)>, t: (nat, u16))
    requires DistinctTargets(targets) && t in targets && Snapshots(n.registry) == devices && t.0 in devices
    requires t.0 in n.pending ==> Waits(n.registry, n.pending, targets, t.0)
    requires t.0 !in n.pending ==> devices[t.0].volume == t.1
    ensures IsAsked(n.registry, n.pending, targets, t)
  {
    if t.0 in n.pending {
      SameTarget(targets, t, (t.0, n.pending[t.0].index));
    }
  }

  lemma KeepsOn(v: Served, n: Served, r: Served, targets: seq<(nat, u16)>, master: nat)
    requires KeepsFlying(v, n, targets, master) && KeepsFlying(n, r, targets, master)
    ensures KeepsFlying(v, r, targets, master)
  {
    forall t | t in targets && IsAsked(v.registry, v.pending, targets, t)
      ensures IsAsked(r.registry, r.pending, targets, t)
    {
      assert IsAsked(n.registry, n.pending, targets, t);
    }
  }

  ghost predicate TheseAsked(v: Served, targets: seq<(nat, u16)>, done: seq<(nat, u16)>) {
    forall t <- done :: IsAsked(v.registry, v.pending, targets, t)
  }

  lemma OneMoreAsked(n: Served, r: Served, targets: seq<(nat, u16)>, todo: seq<(nat, u16)>, master: nat)
    requires todo != [] && todo[0] in targets && IsAsked(n.registry, n.pending, targets, todo[0])
    requires KeepsFlying(n, r, targets, master) && TheseAsked(r, targets, todo[1..])
    ensures TheseAsked(r, targets, todo)
  {
    assert todo == [todo[0]] + todo[1..];
  }

  lemma {:induction false} ServeAllFlies(v: Served, devices: map<nat, DeviceStatus>, targets: seq<(nat, u16)>,
                                         todo: seq<(nat, u16)>, now: nat, master: nat)
    requires Flies(v.registry, v.pending, targets) && AllWait(v.registry, v.pending, targets)
    requires DistinctTargets(targets) && v.blocked == {} && Snapshots(v.registry) == devices
    requires CanAsk(v.registry, v.pending)
    requires forall t <- todo :: t in targets && t.0 in devices
    ensures var r := ServeAll(v, devices, todo, now);
            KeepsFlying(v, r, targets, master) && TheseAsked(r, targets, todo)
    decreases |todo|
  {
    if todo != [] {
      var n := ServeOne(v, devices, todo[0], now);
      AskedFlies(v, devices, targets, todo[0], now, master);
      var r := ServeAll(n, devices, todo[1..], now);
      ServeAllFlies(n, devices, targets, todo[1..], now, master);
      KeepsOn(v, n, r, targets, master);
      OneMoreAsked(n, r, targets, todo, master);
    }
  }

  // ----- gates and judgements -----

  lemma GatesAside(g: Registry, h: Registry, pending: map<nat, Pending>, targets: seq<(nat, u16)>, master: nat)
    requires SameButGates(g, h) && Flies(g, pending, targets)
    ensures Flies(h, pending, targets) && Snapshots(h) == Snapshots(g)
    ensures BarrierWaits(g, pending, targets, master) ==> BarrierWaits(h, pending, targets, master)
    ensures AllAsked(g, pending, targets) ==> AllAsked(h, pending, targets)
    ensures Unsolicited(h, master) == Unsolicited(g, master)
  {
    forall id | Waits(g, pending, targets, id)
      ensures Waits(h, pending, targets, id)
    {
      WaitsOn(g, pending, h, pending, targets, id);
    }
    forall id | id in h.receivers
      ensures ReceiverFlies(h, pending, targets, id)
    {
      assert ReceiverFlies(g, pending, targets, id);
    }
    forall t | t in targets && IsAsked(g, pending, targets, t)
      ensures IsAsked(h, pending, targets, t)
    {
    }
  }

  lemma WaitingIsKept(w: World, targets: seq<(nat, u16)>, now: nat, id: nat)
    requires Punctual(w, now) && Waits(w.registry, w.state.pending, targets, id)
    ensures var j := Judged(w, now);
            && Waits(j.registry, j.state.pending, targets, id) && j.state.pending[id] == w.state.pending[id]
            && id !in (set k | k in w.state.pending && k in w.registry.receivers
                                && Judge(w.registry, k, w.state.pending[k], now).Failed?)
  {
    assert Unanswered(w, id);
    var j := Judged(w, now);
    WaitsOn(w.registry, w.state.pending, w.registry, w.state.pending, targets, id);
  }

  lemma AnswerIsTaken(w: World, targets: seq<(nat, u16)>, now: nat, id: nat)
    requires HasReplied(w.registry, w.state.pending, id)
    ensures id !in Judged(w, now).state.pending
    ensures Judge(w.registry, id, w.state.pending[id], now).Done?
  {
  }

  lemma JudgedReceiver(w: World, targets: seq<(nat, u16)>, now: nat, id: nat)
    requires Flies(w.registry, w.state.pending, targets) && Punctual(w, now) && id in w.registry.receivers
    ensures var j := Judged(w, now);
            && id in j.registry.receivers && ReceiverFlies(j.registry, j.state.pending, targets, id)
            && (id in j.state.pending ==> Waits(j.registry, j.state.pending, targets, id))
    ensures id in w.state.pending ==> !Judge(w.registry, id, w.state.pending[id], now).Failed?
  {
    assert ReceiverFlies(w.registry, w.state.pending, targets, id);
    if id in w.state.pending {
      if Waits(w.registry, w.state.pending, targets, id) {
        WaitingIsKept(w, targets, now, id);
      } else {
        AnswerIsTaken(w, targets, now, id);
      }
    }
  }

  lemma JudgedBarrier(w: World, targets: seq<(nat, u16)>, now: nat, master: nat)
    requires Punctual(w, now) && BarrierWaits(w.registry, w.state.pending, targets, master)
    ensures BarrierWaits(Judged(w, now).registry, Judged(w, now).state.pending, targets, master)
  {
    if HasPanelBarrier(w.registry, master) {
      WaitingIsKept(w, targets, now, master);
    }
  }

  lemma JudgedFlies(w: World, targets: seq<(nat, u16)>, now: nat, master: nat)
    requires Flies(w.registry, w.state.pending, targets) && Punctual(w, now) && w.state.blocked == {}
    ensures var j := Judged(w, now);
            && Flies(j.registry, j.state.pending, targets) && AllWait(j.registry, j.state.pending, targets)
            && j.state.blocked == {} && Snapshots(j.registry) == Snapshots(w.registry)
            && Unsolicited(j.registry, master) == Unsolicited(w.registry, master)
  {
    var j := Judged(w, now);
    forall id | id in w.registry.receivers
      ensures ReceiverFlies(j.registry, j.state.pending, targets, id)
      ensures id in j.state.pending ==> Waits(j.registry, j.state.pending, targets, id)
      ensures id in w.state.pending ==> !Judge(w.registry, id, w.state.pending[id], now).Failed?
    {
      JudgedReceiver(w, targets, now, id);
    }
    assert j.state.blocked == {};
    SameSnapshots(w.registry, j.registry);
  }

  // ----- the ticks -----

  /** Between judging and serving. */
  ghost predicate ReadyToServe(w: World, p: Profile, master: nat, devices: map<nat, DeviceStatus>, aim: u16) {
    && !w.state.editing && Loadable(w.state.library) && Current(w.state.library) == Some(p)
    && w.state.blocked == {} && !w.state.needsFence && Unsolicited(w.registry, master).None?
    && Snapshots(w.registry) == devices && CanAsk(w.registry, w.state.pending)
    && IsSole(p.master, devices, master) && IsAvailable(p, Participating(p, devices), aim)
    && var targets := GroupTargets(p, master, devices, aim);
    && Flies(w.registry, w.state.pending, targets) && AllWait(w.registry, w.state.pending, targets)
    && BarrierWaits(w.registry, w.state.pending, targets, master)
  }

  /** Everyone is at the volume of the profile's index or has been asked for it. */
  ghost predicate Asking(w: World, p: Profile, master: nat) {
    && InFlight(w, p, master, p.volume)
    && AllAsked(w.registry, w.state.pending, GroupTargets(p, master, Snapshots(w.registry), p.volume))
  }

  lemma ServeState(w: World, p: Profile, master: nat, devices: map<nat, DeviceStatus>, index: u16, input: TickInput)
    returns (v: Served)
    requires QuietInput(input) && !w.state.editing && w.state.blocked == {}
    ensures v == ServeAll(Served(w.registry, w.state.pending, {}, true), devices,
                          GroupTargets(p, master, devices, index), input.now)
    ensures var r := Serve(w, p, master, devices, index, input);
            && SameButGates(v.registry, r.registry)
            && r.state.pending == v.pending && r.state.blocked == v.blocked
            && r.state.library == Follow(w.state, p, index, input.now).library
            && !r.state.editing && r.state.needsFence == w.state.needsFence
  {
    var targets := GroupTargets(p, master, devices, index);
    v := ServeAll(Served(w.registry, w.state.pending, {}, true), devices, targets, input.now);
    var s := Follow(w.state, p, index, input.now);
    ConcludeFields(w.(registry := v.registry, state := s.(pending := v.pending, blocked := v.blocked)),
                   v.ready, p, index, Expected(devices, targets), input);
  }

  /** The profile moved to the index it was served at. */
  lemma FollowsTo(s: State, p: Profile, devices: map<nat, DeviceStatus>, master: nat, aim: u16, now: nat)
    requires Loadable(s.library) && Current(s.library) == Some(p) && IsAvailable(p, Participating(p, devices), aim)
    ensures var q := p.(volume := aim);
            && Loadable(Follow(s, p, aim, now).library) && Current(Follow(s, p, aim, now).library) == Some(q)
            && IsAim(q, devices, aim) && IsAvailable(q, Participating(q, devices), aim)
            && GroupTargets(q, master, devices, aim) == GroupTargets(p, master, devices, aim)
  {
    var q := p.(volume := aim);
    FollowMovesCurrent(s, p, aim, now);
    WithVolumeLoadable(s.library, p.id, aim);
    TargetsIgnoreVolume(p, p.followers, devices, aim, aim);
    assert Participating(q, devices) == Participating(p, devices);
    assert IsAvailable(q, Participating(q, devices), aim);
    NearestOfAvailable(q, aim, Participating(q, devices));
  }

  lemma ServeFlies(w: World, p: Profile, master: nat, devices: map<nat, DeviceStatus>, aim: u16, input: TickInput)
    requires ReadyToServe(w, p, master, devices, aim) && QuietInput(input)
    ensures Asking(Serve(w, p, master, devices, aim, input), p.(volume := aim), master)
  {
    var targets := GroupTargets(p, master, devices, aim);
    var v0 := Served(w.registry, w.state.pending, {}, true);
    var v := ServeState(w, p, master, devices, aim, input);
    assert ValidProfile(p);
    GroupIsDistinct(p, master, devices, aim);
    TargetsAreAskable(p, master, devices, aim);
    ServeAllFlies(v0, devices, targets, targets, input.now, master);
    GatesAside(v.registry, Serve(w, p, master, devices, aim, input).registry, v.pending, targets, master);
    FollowsTo(w.state, p, devices, master, aim, input.now);
  }

  lemma ObserveReady(w: World, p: Profile, master: nat, devices: map<nat, DeviceStatus>, aim: u16)
    requires ReadyToServe(w, p, master, devices, aim)
    ensures ReadyToServe(Observe(w, master, devices), p, master, devices, aim)
  {
    var targets := GroupTargets(p, master, devices, aim);
    var g, h := w.registry, Observe(w, master, devices).registry;
    forall id | id in w.state.pending
      ensures Waits(h, w.state.pending, targets, id)
    {
      WaitsOn(g, w.state.pending, h, w.state.pending, targets, id);
    }
    forall id | id in h.receivers
      ensures ReceiverFlies(h, w.state.pending, targets, id)
    {
      assert ReceiverFlies(g, w.state.pending, targets, id);
    }
    SameSnapshots(g, h);
  }

  lemma SteersToServe(w: World, p: Profile, master: nat, devices: map<nat, DeviceStatus>, aim: u16, input: TickInput)
    requires ReadyToServe(w, p, master, devices, aim) && IsAim(p, devices, aim)
    ensures Steer(w, devices, input) == Serve(Observe(w, master, devices), p, master, devices, aim, input)
  {
    assert Least(MatchingIds(p.master, devices)) == master;
    assert Steer(w, devices, input) == Drive(w, p, master, devices, input);
  }

  lemma JudgedIsReady(w: World, p: Profile, master: nat, aim: u16, now: nat)
    requires InFlight(w, p, master, aim) && Punctual(w, now) && AllHaveRoom(w.registry)
    ensures ReadyToServe(Judged(w, now), p, master, Snapshots(w.registry), aim)
  {
    var targets := GroupTargets(p, master, Snapshots(w.registry), aim);
    JudgedFlies(w, targets, now, master);
    JudgedBarrier(w, targets, now, master);
  }

  /** A tick in flight: answers are taken, and whoever is not at the group's volume and has
      not been asked yet is asked. */
  lemma TickFlies(w: World, p: Profile, master: nat, aim: u16, input: TickInput)
    requires InFlight(w, p, master, aim) && QuietInput(input) && Punctual(w, input.now) && AllHaveRoom(w.registry)
    ensures Asking(Tick(w, input), p.(volume := aim), master)
  {
    var devices := Snapshots(w.registry);
    var j := Judged(w, input.now);
    JudgedIsReady(w, p, master, aim, input.now);
    TickSteers(w, input);
    SteersToServe(j, p, master, devices, aim, input);
    ObserveReady(j, p, master, devices, aim);
    ServeFlies(Observe(j, master, devices), p, master, devices, aim, input);
  }

  // ----- what the phones do -----

  /** Every receiver but `id` is as it was, and `id` waits or has answered as before or better. */
  lemma OthersFly(g: Registry, h: Registry, pending: map<nat, Pending>, targets: seq<(nat, u16)>, id: nat)
    requires Flies(g, pending, targets) && id in g.receivers
    requires id in h.receivers && h == g.(receivers := g.receivers[id := h.receivers[id]])
    requires ReceiverFlies(h, pending, targets, id)
    ensures Flies(h, pending, targets)
    ensures forall k | k != id && Waits(g, pending, targets, k) :: Waits(h, pending, targets, k)
  {
    forall k | k in h.receivers
      ensures ReceiverFlies(h, pending, targets, k)
    {
      assert ReceiverFlies(g, pending, targets, k);
    }
  }

  ghost function Sent(g: Registry, id: nat): Registry { Apply(g, Transmitted(id)) }

  lemma SentWaits(g: Registry, pending: map<nat, Pending>, targets: seq<(nat, u16)>, id: nat)
    requires Flies(g, pending, targets) && id in g.receivers
    ensures ReceiverFlies(Sent(g, id), pending, targets, id)
    ensures Waits(g, pending, targets, id) ==> Waits(Sent(g, id), pending, targets, id)
  {
    assert ReceiverFlies(g, pending, targets, id);
  }

  lemma SentFlies(g: Registry, pending: map<nat, Pending>, targets: seq<(nat, u16)>, id: nat, master: nat)
    requires Flies(g, pending, targets)
    ensures Flies(Sent(g, id), pending, targets) && SameDevices(g, Sent(g, id))
    ensures BarrierWaits(g, pending, targets, master) ==> BarrierWaits(Sent(g, id), pending, targets, master)
    ensures AllAsked(g, pending, targets) ==> AllAsked(Sent(g, id), pending, targets)
    ensures Unsolicited(Sent(g, id), master) == Unsolicited(g, master)
  {
    if id in g.receivers {
      SentWaits(g, pending, targets, id);
      OthersFly(g, Sent(g, id), pending, targets, id);
      forall t | t in targets && IsAsked(g, pending, targets, t)
        ensures IsAsked(Sent(g, id), pending, targets, t)
      {
      }
    }
  }

  lemma SentKeeps(w: World, p: Profile, master: nat, aim: u16, id: nat)
    requires InFlight(w, p, master, aim)
    ensures InFlight(Next(w, Net(Transmitted(id))), p, master, aim)
    ensures Asking(w, p, master) ==> Asking(Next(w, Net(Transmitted(id))), p, master)
  {
    var devices := Snapshots(w.registry);
    var h := Sent(w.registry, id);
    SentFlies(w.registry, w.state.pending, GroupTargets(p, master, devices, aim), id, master);
    SameSnapshots(w.registry, h);
    if Asking(w, p, master) {
      SentFlies(w.registry, w.state.pending, GroupTargets(p, master, devices, p.volume), id, master);
    }
  }

  /** What a receipt leaves of a receiver whose request has been sent. */
  lemma ReceiptTaken(r: Receiver, request: nat, index: u16)
    requires request != 0 && r.device.Some? && Askable(r.device.value, index)
    ensures InRange(Receipt(r.device.value, request, index))
    ensures var a := UpdateReceiver(r, Sanitize(Receipt(r.device.value, request, index)));
            && a.controls == r.controls && a.capacity == r.capacity && a.connected == r.connected
            && a.device.Some? && SameHandset(a.device.value, r.device.value) && a.device.value.volume == index
            && request in a.replies && Applied(a.replies[request], index)
            && a.replies.Keys <= r.replies.Keys + {request}
            && a.panelBarrier == (if r.panelBarrier == Some(request) then None else r.panelBarrier)
            && a.unsolicited == r.unsolicited
  {
    CleanIdIsKept(Receipt(r.device.value, request, index));
  }

  /** The registry after phone `id` has reported what it was asked for. */
  ghost function Reported(g: Registry, pending: map<nat, Pending>, id: nat): Registry
    requires id in g.receivers && id in pending && g.receivers[id].device.Some?
  {
    Apply(g, Report(id, Receipt(g.receivers[id].device.value, pending[id].request, pending[id].index)))
  }

  /** A sent request of a usable phone is outstanding. */
  ghost predicate IsDue(g: Registry, pending: map<nat, Pending>, targets: seq<(nat, u16)>, id: nat) {
    && Waits(g, pending, targets, id) && OnlyQueries(g.receivers[id].controls)
    && g.receivers[id].device.Some? && Askable(g.receivers[id].device.value, pending[id].index)
  }

  lemma ReportedAlone(g: Registry, pending: map<nat, Pending>, targets: seq<(nat, u16)>, id: nat)
    requires IsDue(g, pending, targets, id)
    ensures var h := Reported(g, pending, id);
            id in h.receivers && h == g.(receivers := g.receivers[id := h.receivers[id]])
            && h.receivers[id] == UpdateReceiver(g.receivers[id], Sanitize(
                 Receipt(g.receivers[id].device.value, pending[id].request, pending[id].index)))
  {
    ReceiptTaken(g.receivers[id], pending[id].request, pending[id].index);
  }

  lemma ReportedFlies(g: Registry, pending: map<nat, Pending>, targets: seq<(nat, u16)>, id: nat, master: nat)
    requires Flies(g, pending, targets) && IsDue(g, pending, targets, id)
    ensures var h := Reported(g, pending, id);
            && Flies(h, pending, targets)
            && (BarrierWaits(g, pending, targets, master) ==> BarrierWaits(h, pending, targets, master))
            && Unsolicited(h, master) == Unsolicited(g, master)
  {
    var h := Reported(g, pending, id);
    ReportedAlone(g, pending, targets, id);
    ReceiptTaken(g.receivers[id], pending[id].request, pending[id].index);
    assert ReceiverFlies(g, pending, targets, id);
    assert HasReplied(h, pending, id);
    assert ReceiverFlies(h, pending, targets, id);
    OthersFly(g, h, pending, targets, id);
  }

  lemma ReportedHandsets(g: Registry, pending: map<nat, Pending>, targets: seq<(nat, u16)>, id: nat)
    requires IsDue(g, pending, targets, id)
    ensures SameHandsets(Snapshots(g), Snapshots(Reported(g, pending, id)))
  {
    ReportedAlone(g, pending, targets, id);
    ReceiptTaken(g.receivers[id], pending[id].request, pending[id].index);
  }

  lemma ReportedAsked(g: Registry, pending: map<nat, Pending>, targets: seq<(nat, u16)>, id: nat)
    requires Flies(g, pending, targets) && IsDue(g, pending, targets, id)
    requires DistinctTargets(targets) && AllAsked(g, pending, targets)
    ensures AllAsked(Reported(g, pending, id), pending, targets)
  {
    var h := Reported(g, pending, id);
    ReportedAlone(g, pending, targets, id);
    ReceiptTaken(g.receivers[id], pending[id].request, pending[id].index);
    forall t | t in targets
      ensures IsAsked(h, pending, targets, t)
    {
      assert IsAsked(g, pending, targets, t);
      if t.0 == id {
        SameTarget(targets, t, (id, pending[id].index));
      } else if Waits(g, pending, targets, t.0) {
        WaitsOn(g, pending, h, pending, targets, t.0);
      }
    }
  }

  lemma SameTarget(targets: seq<(nat, u16)>, s: (nat, u16), t: (nat, u16))
    requires DistinctTargets(targets) && s in targets && t in targets && s.0 == t.0
    ensures s == t
  {
    var k :| 0 <= k < |targets| && targets[k] == s;
    var l :| 0 <= l < |targets| && targets[l] == t;
    assert k == l;
  }

  /** Same handsets, same targets. */
  lemma HandsetsAimAlike(p: Profile, master: nat, a: map<nat, DeviceStatus>, b: map<nat, DeviceStatus>, aim: u16)
    requires SameHandsets(a, b) && IsSole(p.master, a, master) && IsAim(p, a, aim)
    ensures IsSole(p.master, b, master) && IsAim(p, b, aim)
    ensures forall index: u16 :: GroupTargets(p, master, b, index) == GroupTargets(p, master, a, index)
  {
    HandsetsMatchAlike(p, a, b);
    forall index: u16
      ensures GroupTargets(p, master, b, index) == GroupTargets(p, master, a, index)
    {
      HandsetsTargetAlike(p, p.followers, a, b, index);
    }
  }

  lemma UnansweredIsDue(w: World, p: Profile, master: nat, aim: u16, id: nat)
    requires InFlight(w, p, master, aim) && Unanswered(w, id) && OnlyQueries(w.registry.receivers[id].controls)
    ensures IsDue(w.registry, w.state.pending, GroupTargets(p, master, Snapshots(w.registry), aim), id)
    ensures DistinctTargets(GroupTargets(p, master, Snapshots(w.registry), aim))
  {
    var devices := Snapshots(w.registry);
    assert ReceiverFlies(w.registry, w.state.pending, GroupTargets(p, master, devices, aim), id);
    assert ValidProfile(p);
    TargetsAreAskable(p, master, devices, aim);
    GroupIsDistinct(p, master, devices, aim);
  }

  lemma ReportKeeps(w: World, p: Profile, master: nat, aim: u16, id: nat, status: DeviceStatus)
    requires InFlight(w, p, master, aim) && AnswersRequest(w, id, status)
    ensures InFlight(Next(w, Net(Report(id, status))), p, master, aim)
    ensures Asking(w, p, master) ==> Asking(Next(w, Net(Report(id, status))), p, master)
  {
    var devices := Snapshots(w.registry);
    var targets := GroupTargets(p, master, devices, aim);
    var h := Reported(w.registry, w.state.pending, id);
    assert Next(w, Net(Report(id, status))) == w.(registry := h);
    UnansweredIsDue(w, p, master, aim, id);
    ReportedFlies(w.registry, w.state.pending, targets, id, master);
    ReportedHandsets(w.registry, w.state.pending, targets, id);
    HandsetsAimAlike(p, master, devices, Snapshots(h), aim);
    if Asking(w, p, master) {
      UnansweredIsDue(w, p, master, p.volume, id);
      ReportedAsked(w.registry, w.state.pending, targets, id);
    }
  }

  // ----- polls and their answers -----

  lemma PolledFlies(g: Registry, pending: map<nat, Pending>, targets: seq<(nat, u16)>, id: nat, master: nat)
    requires Flies(g, pending, targets)
    ensures var h := Apply(g, Polled(id));
            && Flies(h, pending, targets) && SameDevices(g, h)
            && (BarrierWaits(g, pending, targets, master) ==> BarrierWaits(h, pending, targets, master))
            && (AllAsked(g, pending, targets) ==> AllAsked(h, pending, targets))
            && Unsolicited(h, master) == Unsolicited(g, master)
  {
    var h := Apply(g, Polled(id));
    forall k | Waits(g, pending, targets, k)
      ensures Waits(h, pending, targets, k)
    {
    }
    forall k | k in h.receivers
      ensures ReceiverFlies(h, pending, targets, k)
    {
      assert ReceiverFlies(g, pending, targets, k);
    }
    forall t | t in targets && IsAsked(g, pending, targets, t)
      ensures IsAsked(h, pending, targets, t)
    {
    }
  }

  lemma PollKeeps(w: World, p: Profile, master: nat, aim: u16, id: nat)
    requires InFlight(w, p, master, aim)
    ensures InFlight(Next(w, Net(Polled(id))), p, master, aim)
    ensures Asking(w, p, master) ==> Asking(Next(w, Net(Polled(id))), p, master)
  {
    var devices := Snapshots(w.registry);
    PolledFlies(w.registry, w.state.pending, GroupTargets(p, master, devices, aim), id, master);
    SameSnapshots(w.registry, Apply(w.registry, Polled(id)));
    if Asking(w, p, master) {
      PolledFlies(w.registry, w.state.pending, GroupTargets(p, master, devices, p.volume), id, master);
    }
  }

  /** What the answer to a query leaves of its receiver. */
  lemma QueryTaken(r: Receiver, status: DeviceStatus)
    requires r.device.Some? && status == r.device.value.(requestId := status.requestId) && status.requestId != 0
    requires Sanitize(status).deviceId == status.deviceId
    ensures var a := UpdateReceiver(r, Sanitize(status));
            && a.controls == r.controls && a.capacity == r.capacity && a.connected == r.connected
            && a.device.Some? && SameHandset(a.device.value, r.device.value)
            && a.device.value.volume == r.device.value.volume
            && a.replies.Keys <= r.replies.Keys + {status.requestId}
            && a.unsolicited == r.unsolicited
            && (a.panelBarrier == r.panelBarrier || (a.panelBarrier.None? && r.panelBarrier == Some(status.requestId)))
  {
  }

  lemma ReplyIsKept(r: Receiver, status: DeviceStatus, request: nat)
    requires status.requestId != 0 && status.requestId != request
    requires |r.replies| < HISTORY || Least(r.replies.Keys) != request
    ensures var a := UpdateReceiver(r, Sanitize(status));
            && (request in a.replies <==> request in r.replies)
            && (request in r.replies ==> a.replies[request] == r.replies[request])
  {
  }

  ghost function Heard(w: World, id: nat, status: DeviceStatus): Registry { Apply(w.registry, Report(id, status)) }

  lemma HeardAlone(w: World, id: nat, status: DeviceStatus)
    requires AnswersQuery(w, id, status)
    ensures var g, h := w.registry, Heard(w, id, status);
            && id in h.receivers && h == g.(receivers := g.receivers[id := h.receivers[id]])
            && (|| h.receivers[id] == g.receivers[id]
                || h.receivers[id] == UpdateReceiver(g.receivers[id], Sanitize(status)))
  {
    assert w.registry.receivers == w.registry.receivers[id := w.registry.receivers[id]];
  }

  lemma QueryWaits(w: World, targets: seq<(nat, u16)>, id: nat, status: DeviceStatus)
    requires Flies(w.registry, w.state.pending, targets) && AnswersQuery(w, id, status)
    ensures var g, h, pending := w.registry, Heard(w, id, status), w.state.pending;
            && id in h.receivers && ReceiverFlies(h, pending, targets, id)
            && (Waits(g, pending, targets, id) ==> Waits(h, pending, targets, id))
  {
    var r := w.registry.receivers[id];
    HeardAlone(w, id, status);
    assert ReceiverFlies(w.registry, w.state.pending, targets, id);
    QueryTaken(r, status);
    if id in w.state.pending {
      ReplyIsKept(r, status, w.state.pending[id].request);
    }
  }

  lemma QueryHandsets(w: World, id: nat, status: DeviceStatus)
    requires AnswersQuery(w, id, status)
    ensures SameHandsets(Snapshots(w.registry), Snapshots(Heard(w, id, status)))
    ensures var a, b := Snapshots(w.registry), Snapshots(Heard(w, id, status));
            forall k <- a :: k in b && b[k].volume == a[k].volume
  {
    HeardAlone(w, id, status);
    QueryTaken(w.registry.receivers[id], status);
  }

  lemma QueryBarrier(w: World, targets: seq<(nat, u16)>, id: nat, status: DeviceStatus, master: nat)
    requires Flies(w.registry, w.state.pending, targets) && AnswersQuery(w, id, status)
    requires BarrierWaits(w.registry, w.state.pending, targets, master)
    ensures BarrierWaits(Heard(w, id, status), w.state.pending, targets, master)
    ensures Unsolicited(Heard(w, id, status), master) == Unsolicited(w.registry, master)
  {
    HeardAlone(w, id, status);
    QueryWaits(w, targets, id, status);
    QueryTaken(w.registry.receivers[id], status);
  }

  lemma QueryFlies(w: World, targets: seq<(nat, u16)>, id: nat, status: DeviceStatus)
    requires Flies(w.registry, w.state.pending, targets) && AnswersQuery(w, id, status)
    ensures var g, h, pending := w.registry, Heard(w, id, status), w.state.pending;
            && Flies(h, pending, targets) && (AllAsked(g, pending, targets) ==> AllAsked(h, pending, targets))
  {
    var g, h, pending := w.registry, Heard(w, id, status), w.state.pending;
    HeardAlone(w, id, status);
    QueryWaits(w, targets, id, status);
    OthersFly(g, h, pending, targets, id);
    QueryHandsets(w, id, status);
    forall t | t in targets && IsAsked(g, pending, targets, t)
      ensures IsAsked(h, pending, targets, t)
    {
      if !Waits(g, pending, targets, t.0) {
        assert t.0 in Snapshots(g) && t.0 in Snapshots(h);
      }
    }
  }

  lemma QueryKeeps(w: World, p: Profile, master: nat, aim: u16, id: nat, status: DeviceStatus)
    requires InFlight(w, p, master, aim) && AnswersQuery(w, id, status)
    ensures InFlight(Next(w, Net(Report(id, status))), p, master, aim)
    ensures Asking(w, p, master) ==> Asking(Next(w, Net(Report(id, status))), p, master)
  {
    var devices := Snapshots(w.registry);
    var targets := GroupTargets(p, master, devices, aim);
    var h := Heard(w, id, status);
    assert Next(w, Net(Report(id, status))) == w.(registry := h);
    QueryFlies(w, targets, id, status);
    QueryBarrier(w, targets, id, status, master);
    QueryHandsets(w, id, status);
    HandsetsAimAlike(p, master, devices, Snapshots(h), aim);
    if Asking(w, p, master) {
      assert aim == p.volume;
    }
  }

  // ----- all runs -----

  ghost function Ticks(events: seq<Event>): nat {
    if events == [] then 0 else (if events[0].TickEvent? then 1 else 0) + Ticks(events[1..])
  }

  lemma EventFlies(w: World, p: Profile, master: nat, aim: u16, e: Event)
    requires InFlight(w, p, master, aim) && Obedient(w, e)
    ensures if e.TickEvent? then Asking(Next(w, e), p.(volume := aim), master)
            else InFlight(Next(w, e), p, master, aim)
    ensures Asking(w, p, master) ==> Asking(Next(w, e), p, master)
  {
    match e
    case TickEvent(input) =>
      TickFlies(w, p, master, aim, input);
      if Asking(w, p, master) {
        assert p.(volume := aim) == p;
      }
    case Net(Transmitted(id)) => SentKeeps(w, p, master, aim, id);
    case Net(Polled(id)) => PollKeeps(w, p, master, aim, id);
    case Net(Report(id, status)) =>
      if AnswersRequest(w, id, status) {
        ReportKeeps(w, p, master, aim, id, status);
      } else {
        QueryKeeps(w, p, master, aim, id, status);
      }
  }

  lemma {:induction false} RunAsks(w: World, p: Profile, master: nat, events: seq<Event>)
    requires Asking(w, p, master) && AlwaysObedient(w, events)
    ensures Asking(RunFrom(w, events), p, master)
    decreases |events|
  {
    if events != [] {
      EventFlies(w, p, master, p.volume, events[0]);
      RunAsks(Next(w, events[0]), p, master, events[1..]);
    }
  }

  lemma {:induction false} RunFlies(w: World, p: Profile, master: nat, aim: u16, events: seq<Event>)
    requires InFlight(w, p, master, aim) && AlwaysObedient(w, events) && Ticks(events) >= 1
    ensures Asking(RunFrom(w, events), p.(volume := aim), master)
    decreases |events|
  {
    EventFlies(w, p, master, aim, events[0]);
    if events[0].TickEvent? {
      RunAsks(Next(w, events[0]), p.(volume := aim), master, events[1..]);
    } else {
      RunFlies(Next(w, events[0]), p, master, aim, events[1..]);
    }
  }

  lemma AllHaveReplied(w: World, targets: seq<(nat, u16)>)
    requires Flies(w.registry, w.state.pending, targets) && AllAnswered(w) && w.state.blocked == {}
    ensures Answered(w.registry, w.state.pending)
    ensures forall id :: !Waits(w.registry, w.state.pending, targets, id)
  {
    forall id | id in w.registry.receivers
      ensures id in w.state.pending ==> HasReplied(w.registry, w.state.pending, id)
    {
      assert ReceiverFlies(w.registry, w.state.pending, targets, id);
    }
  }

  lemma AllAreAtVolumes(g: Registry, pending: map<nat, Pending>, targets: seq<(nat, u16)>)
    requires AllAsked(g, pending, targets) && forall id :: !Waits(g, pending, targets, id)
    ensures AtVolumes(Snapshots(g), targets)
  {
    forall t | t in targets
      ensures t.0 in Snapshots(g) && Snapshots(g)[t.0].volume == t.1
    {
      assert IsAsked(g, pending, targets, t);
    }
  }

  /** Once everyone has been asked and has answered, the world has converged. */
  lemma AnsweredIsConverged(w: World, p: Profile, master: nat)
    requires Asking(w, p, master) && AllAnswered(w) && QueuesFree(w.registry)
    ensures Converged(w, p, master)
  {
    var targets := GroupTargets(p, master, Snapshots(w.registry), p.volume);
    AllHaveReplied(w, targets);
    AllAreAtVolumes(w.registry, w.state.pending, targets);
  }

  // ----- the first tick -----

  ghost predicate NoReplyIsAhead(g: Registry) {
    forall id <- g.receivers :: IsSound(g, id)
  }

  lemma RestedFlies(w: World, p: Profile, master: nat, devices: map<nat, DeviceStatus>, targets: seq<(nat, u16)>)
    requires Rested(w, p, master, devices) && NoReplyIsAhead(w.registry)
    ensures Flies(w.registry, w.state.pending, targets) && AllWait(w.registry, w.state.pending, targets)
  {
    forall id | id in w.registry.receivers
      ensures ReceiverFlies(w.registry, w.state.pending, targets, id)
    {
      assert IsSound(w.registry, id);
    }
  }

  lemma JudgingLooksBack(w: World, now: nat)
    requires NoReplyIsAhead(w.registry)
    ensures NoReplyIsAhead(Judged(w, now).registry)
  {
    forall id | id in w.registry.receivers
      ensures IsSound(Judged(w, now).registry, id)
    {
      assert IsSound(w.registry, id);
    }
  }

  /** From a calm world without a barrier the first tick asks everyone. */
  lemma FirstTickAsks(w: World, p: Profile, master: nat, input: TickInput) returns (q: Profile)
    requires Calm(w, p, master) && !Fenced(w, master) && NoReplyIsAhead(w.registry) && QuietInput(input)
    ensures Asking(Tick(w, input), q, master) && q == p.(volume := q.volume)
  {
    var devices := Snapshots(w.registry);
    var j := Judged(w, input.now);
    CalmRests(w, p, master, input.now);
    JudgingLooksBack(w, input.now);
    TickSteers(w, input);
    assert Least(MatchingIds(p.master, devices)) == master;
    var o := Observe(j, master, devices);
    RestedObserved(j, p, master, devices);
    var index := Nearest(p, Wanted(j.registry, j.state, p, master), Participating(p, devices)).value;
    assert Tick(w, input) == Serve(o, p, master, devices, index, input);
    ObservingLooksBack(j, master, devices);
    RestedFlies(o, p, master, devices, GroupTargets(p, master, devices, index));
    ServeFlies(o, p, master, devices, index, input);
    q := p.(volume := index);
  }

  lemma ObservingLooksBack(w: World, master: nat, devices: map<nat, DeviceStatus>)
    requires NoReplyIsAhead(w.registry)
    ensures NoReplyIsAhead(Observe(w, master, devices).registry)
  {
    forall id | id in w.registry.receivers
      ensures IsSound(Observe(w, master, devices).registry, id)
    {
      assert IsSound(w.registry, id);
    }
  }

  /** Behind a barrier the first tick asks the master alone. */
  lemma FirstTickFences(w: World, p: Profile, master: nat, input: TickInput) returns (aim: u16)
    requires Calm(w, p, master) && Fenced(w, master) && NoReplyIsAhead(w.registry) && QuietInput(input)
    ensures InFlight(Tick(w, input), p, master, aim)
  {
    var devices := Snapshots(w.registry);
    var j := Judged(w, input.now);
    CalmRests(w, p, master, input.now);
    JudgingLooksBack(w, input.now);
    TickSteers(w, input);
    assert Least(MatchingIds(p.master, devices)) == master;
    assert Tick(w, input) == Deny(Fence(j, p, master, devices, input.now), input.late);
    aim := FenceFlies(j, p, master, devices, input.now);
  }

  lemma FencedRegistry(g: Registry, master: nat, aim: u16, pending: map<nat, Pending>, targets: seq<(nat, u16)>)
    requires QueuesFree(g) && NoReplyIsAhead(g) && g.nextRequest >= 1 && master in g.receivers
    requires (master, aim) in targets && pending.Keys == {master}
    requires pending[master].request == g.nextRequest && pending[master].index == aim
    ensures var h := DenyAll(PanelRequest(g, master, aim).registry);
            && Flies(h, pending, targets) && BarrierWaits(h, pending, targets, master)
            && Unsolicited(h, master).None? && Snapshots(h) == Snapshots(g)
  {
    var h := DenyAll(PanelRequest(g, master, aim).registry);
    PanelAsked(g, master, aim);
    SameSnapshots(g, h);
    FenceWaits(g, h, pending, targets, master, aim);
  }

  lemma FenceFlies(w: World, p: Profile, master: nat, devices: map<nat, DeviceStatus>, now: nat) returns (aim: u16)
    requires Rested(w, p, master, devices) && NoReplyIsAhead(w.registry)
    ensures InFlight(Deny(Fence(w, p, master, devices, now), []), p, master, aim)
  {
    var request;
    request, aim := FenceAsks(w, p, master, devices, now);
    assert master in MatchingIds(p.master, devices);
    FencedRegistry(w.registry, master, aim, map[master := Pending(request, aim, now)],
                   GroupTargets(p, master, devices, aim));
  }

  lemma FenceWaits(g: Registry, h: Registry, pending: map<nat, Pending>, targets: seq<(nat, u16)>, master: nat,
                   aim: u16)
    requires NoReplyIsAhead(g) && QueuesFree(g) && g.nextRequest >= 1 && h.nextRequest == g.nextRequest + 1
    requires h.receivers.Keys == g.receivers.Keys && master in g.receivers && (master, aim) in targets
    requires Asked(g.receivers[master], h.receivers[master], g.nextRequest, aim)
    requires h.receivers[master].replies == g.receivers[master].replies
    requires h.receivers[master].panelBarrier == Some(g.nextRequest)
    requires forall k <- g.receivers :: k != master ==> h.receivers[k] == g.receivers[k].(playback := false)
    requires pending.Keys == {master} && pending[master].request == g.nextRequest && pending[master].index == aim
    ensures Flies(h, pending, targets) && BarrierWaits(h, pending, targets, master)
  {
    forall id | id in h.receivers
      ensures ReceiverFlies(h, pending, targets, id)
    {
      assert IsSound(g, id);
    }
    assert Waits(h, pending, targets, master);
  }

  /** After a second tick everyone has been asked, at whatever times the phones answer. */
  lemma RunFromCalm(w: World, p: Profile, master: nat, input: TickInput, events: seq<Event>) returns (q: Profile)
    requires Calm(w, p, master) && NoReplyIsAhead(w.registry) && QuietInput(input)
    requires AlwaysObedient(Tick(w, input), events) && Ticks(events) >= 1
    ensures Asking(RunFrom(Tick(w, input), events), q, master) && q == p.(volume := q.volume)
  {
    if Fenced(w, master) {
      var aim := FirstTickFences(w, p, master, input);
      q := p.(volume := aim);
      RunFlies(Tick(w, input), p, master, aim, events);
    } else {
      q := FirstTickAsks(w, p, master, input);
      RunAsks(Tick(w, input), q, master, events);
    }
  }

  /** Convergence at any pace: a calm world ticks and then goes through any obedient run with at
      least one more tick, while phones are polled and answer whenever they like. The next tick
      that finds every request answered and every queue empty opens exactly the gates of the
      group, each device at its calibrated volume, and leaves a converged world. */
  lemma GroupSettles(w: World, p: Profile, master: nat, first: TickInput, events: seq<Event>, last: TickInput)
    returns (q: Profile)
    requires Calm(w, p, master) && NoReplyIsAhead(w.registry) && QuietInput(first) && QuietInput(last)
    requires AlwaysObedient(Tick(w, first), events) && Ticks(events) >= 1
    requires var s := RunFrom(Tick(w, first), events); AllAnswered(s) && QueuesFree(s.registry)
    ensures q == p.(volume := q.volume)
    ensures var r := Tick(RunFrom(Tick(w, first), events), last);
            && Converged(r, q, master)
            && WholeGroupOpen(r.registry, GroupTargets(q, master, Snapshots(r.registry), q.volume))
  {
    q := RunFromCalm(w, p, master, first, events);
    var s := RunFrom(Tick(w, first), events);
    AnsweredIsConverged(s, q, master);
    ConvergedTick(s, q, master, last);
  }
}
