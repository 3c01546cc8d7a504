/** What opening, using and closing the calibration window does
    (windows-server/src/application/volume_control.rs:137-378). */
module EditingSessions {
  import opened Numbers
  import opened ControlMessages
  import opened Text
  import opened VolumeProfiles
  import opened RegistryModel
  import opened VolumeModel
  import opened VolumeRuns
  import opened Persistence

  // ----- opening -----

  /** Each reported device once, in ascending order of the receivers. */
  ghost predicate RemembersAll(originals: seq<(nat, DeviceStatus)>, g: Registry) {
    && (forall j, k | 0 <= j < k < |originals| :: originals[j].0 < originals[k].0)
    && (forall o <- originals :: o.0 in g.receivers && g.receivers[o.0].device == Some(o.1))
    && (forall id <- g.receivers :: g.receivers[id].device.Some? ==> (id, g.receivers[id].device.value) in originals)
  }

  lemma {:induction false} OriginalsBelow(devices: map<nat, DeviceStatus>, bound: nat)
    ensures var r := Originals(devices, bound);
            && (forall j, k | 0 <= j < k < |r| :: r[j].0 < r[k].0)
            && (forall o <- r :: o.0 < bound && o.0 in devices && devices[o.0] == o.1)
            && (forall id <- devices :: id < bound ==> (id, devices[id]) in r)
  {
    if bound > 0 {
      OriginalsBelow(devices, bound - 1);
      var front := Originals(devices, bound - 1);
      assert forall j | 0 <= j < |front| :: front[j] in front;
    }
  }

  /** The window opens unless it is open or a request is outstanding. Then the volume of every
      phone that reported one is remembered, every gate is shut, the active profile is the draft
      and nothing is blocked any more. */
  lemma OpeningRemembersAll(w: World)
    requires forall id <- w.registry.receivers :: id < w.registry.nextId
    ensures Open(w).ok <==> !w.state.editing && w.state.pending == map[]
    ensures !Open(w).ok ==> Open(w).world == w
    ensures Open(w).ok ==>
      var later := Open(w).world;
      && RemembersAll(later.state.originals, w.registry) && later.state.draft == Current(w.state.library)
      && later.state == w.state.(editing := true, blocked := {}, draft := later.state.draft,
                                 originals := later.state.originals)
      && later.saves == w.saves && later.registry == w.registry.(receivers := later.registry.receivers)
      && later.registry.receivers.Keys == w.registry.receivers.Keys
      && forall id <- w.registry.receivers ::
           later.registry.receivers[id] == w.registry.receivers[id].(playback := false)
  {
    var devices := Snapshots(w.registry);
    OriginalsBelow(devices, w.registry.nextId);
    forall id | id in w.registry.receivers && w.registry.receivers[id].device.Some?
      ensures (id, w.registry.receivers[id].device.value) in Originals(devices, w.registry.nextId)
    {
      assert id in devices && devices[id] == w.registry.receivers[id].device.value;
    }
  }

  // ----- while it is open -----

  /** A phone that is remembered keeps the volume it is remembered with, whatever happens until
      the window closes. */
  lemma OriginalsAreKept(w: World, e: Event)
    requires w.state.editing && !e.CloseEvent?
    ensures Next(w, e).state.editing && w.state.originals <= Next(w, e).state.originals
    ensures e.RememberEvent? ==>
      var more, known := Next(w, e).state.originals, exists o <- w.state.originals :: o.0 == e.id;
      more == if known then w.state.originals else w.state.originals + [(e.id, e.device)]
    ensures !e.RememberEvent? ==> Next(w, e).state.originals == w.state.originals
    ensures DistinctOriginals(w.state.originals) ==> DistinctOriginals(Next(w, e).state.originals)
  {
  }

  predicate DistinctOriginals(originals: seq<(nat, DeviceStatus)>) {
    forall j, k | 0 <= j < k < |originals| :: originals[j].0 != originals[k].0
  }

  lemma {:induction false} OriginalsSurvive(w: World, events: seq<Event>)
    requires w.state.editing && DistinctOriginals(w.state.originals) && forall e <- events :: !e.CloseEvent?
    ensures var later := Run(w, events).state;
            later.editing && w.state.originals <= later.originals && DistinctOriginals(later.originals)
  {
    if events != [] {
      var n := |events| - 1;
      assert events[n] in events;
      OriginalsSurvive(w, events[..n]);
      OriginalsAreKept(Run(w, events[..n]), events[n]);
    }
  }

  // ----- closing -----

  /** What a phone is told when the window closes, as far as its queue has room. */
  function Told(r: Receiver): seq<ControlMessage> {
    var both := [CalibrationTone(0, false), CalibrationSession(0, Cancel)];
    if !r.connected || |r.controls| >= r.capacity then r.controls
    else if |r.controls| + 1 == r.capacity then r.controls + both[..1]
    else r.controls + both
  }

  /** Receiver `id` was asked back to the volume of `d`. */
  ghost predicate AskedBack(g: Registry, h: Registry, pending: map<nat, Pending>, id: nat, d: DeviceStatus, now: nat) {
    && id in g.receivers && id in h.receivers && id in pending
    && pending[id] == Pending(pending[id].request, d.volume, now) && pending[id].request >= g.nextRequest
    && h.receivers[id].controls
       == Told(g.receivers[id]) + [SetVolume(pending[id].request, d.volume, RestoreSpeaker)]
  }

  /** Receiver `id` was not asked for anything. */
  ghost predicate LeftAlone(g: Registry, h: Registry, pending: map<nat, Pending>, id: nat) {
    && id !in pending && (id in h.receivers <==> id in g.receivers)
    && (id in g.receivers ==>
          && h.receivers[id].controls == Told(g.receivers[id])
          && h.receivers[id] == g.receivers[id].(controls := h.receivers[id].controls))
  }

  predicate HasRoom(g: Registry, id: nat) {
    id in g.receivers && g.receivers[id].connected && |Told(g.receivers[id])| < g.receivers[id].capacity
  }

  /** After the first `n` of the remembered phones were asked. */
  ghost predicate AskedSoFar(g: Registry, originals: seq<(nat, DeviceStatus)>, n: nat, h: Registry,
                             pending: map<nat, Pending>, now: nat)
    requires n <= |originals|
  {
    && h.nextRequest >= g.nextRequest && h.receivers.Keys == g.receivers.Keys && h.nextId == g.nextId
    && (forall k | 0 <= k < n ::
          if HasRoom(g, originals[k].0) then AskedBack(g, h, pending, originals[k].0, originals[k].1, now)
          else LeftAlone(g, h, pending, originals[k].0))
    && (forall id: nat | (forall k | 0 <= k < n :: originals[k].0 != id) :: LeftAlone(g, h, pending, id))
  }

  lemma BroadcastTells(g: Registry)
    ensures var h := Broadcast(Broadcast(g, CalibrationTone(0, false)), CalibrationSession(0, Cancel));
            && h.receivers.Keys == g.receivers.Keys && h.nextRequest == g.nextRequest && h.nextId == g.nextId
            && forall id <- g.receivers :: h.receivers[id] == g.receivers[id].(controls := Told(g.receivers[id]))
  {
  }

  lemma AskOneBack(g: Registry, originals: seq<(nat, DeviceStatus)>, n: nat, h: Registry,
                   pending: map<nat, Pending>, now: nat)
    requires n < |originals| && DistinctOriginals(originals) && AskedSoFar(g, originals, n, h, pending, now)
    ensures var (id, d) := originals[n];
            var r := RestoreRequest(h, id, d.volume);
            var more := if r.request.Some? then pending[id := Pending(r.request.value, d.volume, now)] else pending;
            AskedSoFar(g, originals, n + 1, r.registry, more, now)
  {
    var (id, d) := originals[n];
    assert LeftAlone(g, h, pending, id);
    var r := RestoreRequest(h, id, d.volume);
    var more := if r.request.Some? then pending[id := Pending(r.request.value, d.volume, now)] else pending;
    assert r.request.Some? <==> HasRoom(g, id);
    forall k | 0 <= k < n + 1
      ensures if HasRoom(g, originals[k].0) then AskedBack(g, r.registry, more, originals[k].0, originals[k].1, now)
              else LeftAlone(g, r.registry, more, originals[k].0)
    {
      if k < n {
        assert originals[k].0 != id;
      }
    }
    forall other: nat | forall k | 0 <= k < n + 1 :: originals[k].0 != other
      ensures LeftAlone(g, r.registry, more, other)
    {
      assert originals[n].0 != other;
      assert LeftAlone(g, h, pending, other);
    }
  }

  lemma {:induction false} RestoringAsksBack(g: Registry, originals: seq<(nat, DeviceStatus)>, n: nat, h: Registry,
                                             pending: map<nat, Pending>, now: nat)
    requires n <= |originals| && DistinctOriginals(originals) && AskedSoFar(g, originals, n, h, pending, now)
    ensures var (registry, more) := RestoreOriginals(h, pending, originals[n..], now);
            AskedSoFar(g, originals, |originals|, registry, more, now)
    decreases |originals| - n
  {
    if n < |originals| {
      var (id, d) := originals[n];
      AskOneBack(g, originals, n, h, pending, now);
      hide AskedSoFar, RestoreRequest;
      var r := RestoreRequest(h, id, d.volume);
      var more := if r.request.Some? then pending[id := Pending(r.request.value, d.volume, now)] else pending;
      RestoringAsksBack(g, originals, n + 1, r.registry, more, now);
      assert originals[n..][0] == originals[n] && originals[n..][1..] == originals[n + 1..];
    }
  }

  /** When the window closes every phone is told to stop its tone and end its session, and every
      remembered one that can be told so is asked back to its volume, and no other. */
  lemma ClosingAsksBack(w: World, now: nat)
    requires DistinctOriginals(w.state.originals)
    ensures var later := Close(w, now);
            && AskedSoFar(w.registry, w.state.originals, |w.state.originals|, later.registry, later.state.pending, now)
            && later.saves == w.saves
            && later.state == w.state.(pending := later.state.pending, originals := [], editing := false,
                                       draft := None, masterSeen := None, blocked := {})
  {
    var g := Broadcast(Broadcast(w.registry, CalibrationTone(0, false)), CalibrationSession(0, Cancel));
    BroadcastTells(w.registry);
    assert AskedSoFar(w.registry, w.state.originals, 0, g, map[], now);
    RestoringAsksBack(w.registry, w.state.originals, 0, g, map[], now);
    assert w.state.originals[0..] == w.state.originals;
    hide AskedSoFar, Broadcast;
  }

  /** From the opening of the window to its closing: every phone that had reported when it opened,
      and can still be told, is asked back to the volume it had then, whatever was edited, saved,
      selected, measured or lost in between. */
  lemma SessionAsksEveryPhoneBack(w: World, events: seq<Event>, now: nat, id: nat)
    requires forall other <- w.registry.receivers :: other < w.registry.nextId
    requires Open(w).ok && forall e <- events :: !e.CloseEvent?
    requires id in w.registry.receivers && w.registry.receivers[id].device.Some?
    ensures var before := Run(Open(w).world, events);
            var later := Close(before, now);
            HasRoom(before.registry, id) ==>
              AskedBack(before.registry, later.registry, later.state.pending, id,
                        w.registry.receivers[id].device.value, now)
  {
    hide Open, Run, Close, AskedBack, HasRoom;
    OpeningRemembersAll(w);
    var begun := Open(w).world;
    OriginalsSurvive(begun, events);
    var before := Run(begun, events);
    ClosingAsksBack(before, now);
    var o := (id, w.registry.receivers[id].device.value);
    var k :| 0 <= k < |begun.state.originals| && begun.state.originals[k] == o;
    assert before.state.originals[k] == o;
  }

  // ----- the library -----

  /** Handing a library over changes nothing but the list of those handed over. */
  predicate OnlyHandedOver(w: World, later: World) {
    later == w.(saves := later.saves) && w.saves <= later.saves && |later.saves| <= |w.saves| + 1
  }

  /** Another profile is chosen unless a request is outstanding or it does not exist. While the
      window is open it only becomes the draft. Otherwise it becomes active: saved first, the
      others and itself at their persisted volumes, all gates shut, nothing outstanding, blocked
      or unsaved, and a barrier due. */
  lemma SelectingActivates(w: World, id: u64, ioOk: bool)
    ensures var o, s := Select(w, id, ioOk), w.state;
            && (o.ok <==> s.pending == map[] && HasProfile(s.library, id) && (s.editing || (!s.loadError && ioOk)))
            && (!o.ok ==> OnlyHandedOver(w, o.world))
            && (o.ok && s.editing ==> o.world == w.(state := s.(draft := Find(s.library, id))))
            && (o.ok && !s.editing ==>
                  && o.world.saves == w.saves + [o.world.state.library]
                  && o.world.state.library == Persisted(s).(active := Some(id))
                  && o.world.state == s.(library := o.world.state.library, confirmed := o.world.state.confirmed,
                                         pending := map[], blocked := {}, masterSeen := None, needsFence := true,
                                         dirty := false)
                  && o.world.state.confirmed == ConfirmedOf(o.world.state.library)
                  && AreShut(w.registry, o.world.registry))
  {
  }

  /** The same receivers, their gates shut. */
  ghost predicate AreShut(g: Registry, h: Registry) {
    && h == g.(receivers := h.receivers) && h.receivers.Keys == g.receivers.Keys
    && forall id <- g.receivers :: h.receivers[id] == g.receivers[id].(playback := false)
  }

  /** A profile is deleted only while the window is open and the file may be written: saved first,
      the others left in order at their persisted volumes, and nothing active if it was. */
  lemma DeletingRemoves(w: World, id: u64, ioOk: bool)
    ensures var o, s := Delete(w, id, ioOk), w.state;
            && (o.ok <==> s.editing && !s.loadError && ioOk)
            && (!o.ok ==> OnlyHandedOver(w, o.world))
            && (o.ok ==>
                  && o.world.saves == w.saves + [o.world.state.library] && o.world.registry == w.registry
                  && IsWithout(Persisted(s).profiles, id, o.world.state.library.profiles)
                  && o.world.state.library.active
                     == (if Persisted(s).active == Some(id) then None else Persisted(s).active)
                  && o.world.state == s.(library := o.world.state.library, confirmed := o.world.state.confirmed,
                                         draft := Current(o.world.state.library), dirty := false)
                  && o.world.state.confirmed == ConfirmedOf(o.world.state.library))
  {
    WithoutIs(Persisted(w.state).profiles, id);
  }

  /** `rest` is `all` without the profiles of the id, in order. */
  predicate IsWithout(all: seq<Profile>, id: u64, rest: seq<Profile>) {
    if all == [] then rest == []
    else if all[0].id == id then IsWithout(all[1..], id, rest)
    else rest != [] && rest[0] == all[0] && IsWithout(all[1..], id, rest[1..])
  }

  lemma {:induction false} WithoutIs(all: seq<Profile>, id: u64)
    ensures IsWithout(all, id, Without(all, id))
  {
    if all != [] {
      WithoutIs(all[1..], id);
      assert [] + Without(all[1..], id) == Without(all[1..], id);
      assert ([all[0]] + Without(all[1..], id))[1..] == Without(all[1..], id);
    }
  }

  /** On exit a library with an unsaved confirmed volume is saved, and only then. */
  lemma FinishingSaves(w: World, ioOk: bool)
    ensures var o, s := Finish(w, ioOk), w.state;
            && (o.ok <==> !s.dirty || (!s.loadError && ioOk))
            && o.world.saves == w.saves + (if s.dirty && !s.loadError then [Persisted(s)] else [])
            && o.world == w.(saves := o.world.saves, state := s.(dirty := s.dirty && !o.ok))
  {
  }

  /** A draft is saved only while the window is open and the file may be written, with at least one
      calibrated follower and a volume that all of them are calibrated for. It becomes the active
      profile and the draft, under a trimmed name and, as a copy or a new one, a new id; nothing
      stays unsaved. */
  lemma SavingActivates(w: World, name: string, copy: bool, ioOk: bool)
    ensures var o, s := SaveDraft(w, name, copy, ioOk), w.state;
            && (o.ok ==> s.editing && !s.loadError && ioOk && s.draft.Some? && IsCalibrated(s.draft.value))
            && (!o.ok ==> OnlyHandedOver(w, o.world))
            && (o.ok ==>
                  var draft, saved := s.draft.value, o.world.state.draft;
                  && saved.Some? && saved.value == draft.(id := saved.value.id, name := Trim(name),
                                                          volume := saved.value.volume)
                  && o.world.saves == w.saves + [o.world.state.library] && o.world.registry == w.registry
                  && o.world.state == s.(library := o.world.state.library, draft := saved, dirty := false,
                                         masterSeen := None,
                                         confirmed := Some((saved.value.id, saved.value.volume)))
                  && o.world.state.library.active == Some(saved.value.id)
                  && (!copy && draft.id != 0 ==> saved.value.id == draft.id)
                  && (copy || draft.id == 0 ==>
                        forall p <- Persisted(s).profiles :: p.id < saved.value.id)
                  && IsNearestCommon(draft, saved.value.volume))
  {
    if SaveDraft(w, name, copy, ioOk).ok {
      var saved := SavedDraft(w.state.draft.value, name, copy).value;
      NearestIsCommon(w.state.draft.value, Trim(name), if copy then 0 else w.state.draft.value.id, saved.volume);
    }
  }

  predicate IsCalibrated(p: Profile) {
    exists f <- p.followers :: f.mapping != map[]
  }

  /** Every calibrated follower is calibrated for `v`, which is in the master's range; of such volumes
      it is the nearest to the draft's. */
  predicate IsCommon(p: Profile, v: u16) {
    && p.master.minimum <= v <= p.master.maximum
    && forall f <- p.followers :: f.device.id in Calibrated(p) ==> v in f.mapping
  }

  ghost predicate IsNearestCommon(p: Profile, v: u16) {
    IsCommon(p, v) && forall u: u16 | IsCommon(p, u) :: AbsDiff(v, p.volume) <= AbsDiff(u, p.volume)
  }

  lemma NearestIsCommon(p: Profile, name: string, id: u64, v: u16)
    requires Nearest(p.(name := name, id := id), p.volume, Calibrated(p.(name := name, id := id))) == Some(v)
    ensures IsNearestCommon(p, v)
  {
    var q := p.(name := name, id := id);
    assert Calibrated(q) == Calibrated(p);
    forall u: u16
      ensures IsAvailable(q, Calibrated(q), u) <==> IsCommon(p, u)
    {
    }
  }

  /** It can be saved as `name` with a volume that all its calibrated followers are calibrated for. */
  ghost predicate IsSavable(p: Profile, name: string) {
    IsCalibrated(p) && exists v: u16 :: IsCommon(p, v) && ValidProfile(p.(name := name, volume := v))
  }

  /** There is room for one more profile, and an id above all others. */
  predicate HasSlot(l: Library) {
    |l.profiles| < MAX_PROFILES && forall p <- l.profiles :: p.id + 1 < U64_MODULUS
  }

  lemma {:induction false} MaxIdIsTaken(profiles: seq<Profile>)
    ensures MaxId(profiles) == 0 || exists p <- profiles :: p.id == MaxId(profiles)
  {
    if profiles != [] {
      MaxIdIsTaken(profiles[1..]);
      assert profiles[0] in profiles && forall p <- profiles[1..] :: p in profiles;
    }
  }

  lemma {:induction false} TrimStartOfTrimmed(s: string)
    ensures var r := TrimStart(s);
            r == "" || !IsWhitespace(r[0])
  {
    if s != "" && IsWhitespace(s[0]) {
      TrimStartOfTrimmed(s[1..]);
    }
  }

  lemma {:induction false} TrimEndOfTrimmed(s: string)
    ensures var r := TrimEnd(s);
            r <= s && (r == "" || !IsWhitespace(r[|r| - 1]))
  {
    if s != "" && IsWhitespace(s[|s| - 1]) {
      TrimEndOfTrimmed(s[..|s| - 1]);
    }
  }

  lemma TrimTwice(s: string)
    ensures Trim(Trim(s)) == Trim(s)
  {
    TrimStartOfTrimmed(s);
    TrimEndOfTrimmed(TrimStart(s));
    var r := Trim(s);
    assert r != "" ==> r[0] == TrimStart(s)[0];
  }

  lemma SavedDraftExactly(draft: Profile, name: string, copy: bool)
    ensures var saved := SavedDraft(draft, name, copy);
            && (saved.Some? <==> IsCalibrated(draft) && exists v: u16 :: IsCommon(draft, v))
            && (saved.Some? ==>
                  && IsCommon(draft, saved.value.volume)
                  && saved.value.(volume := 0) == draft.(id := if copy then 0 else draft.id, name := Trim(name),
                                                         volume := 0))
  {
    var q := draft.(name := Trim(name), id := if copy then 0 else draft.id);
    assert Calibrated(q) == Calibrated(draft);
    assert Calibrated(draft) == {} <==> !IsCalibrated(draft) by {
      if f :| f in draft.followers && f.mapping != map[] {
        assert f.device.id in Calibrated(draft);
      }
    }
    forall u: u16
      ensures IsAvailable(q, Calibrated(q), u) <==> IsCommon(draft, u)
    {
    }
  }

  lemma VolumeOnlyBounded(p: Profile, v: u16, u: u16, id: u64)
    requires p.master.minimum <= v <= p.master.maximum && p.master.minimum <= u <= p.master.maximum
    ensures ValidProfile(p.(volume := v)) <==> ValidProfile(p.(id := id, volume := u))
  {
    var a, b := p.(volume := v), p.(id := id, volume := u);
    assert Devices(a) == Devices(b);
    assert forall f :: ValidMapping(a, f) <==> ValidMapping(b, f);
  }

  lemma PutExactly(l: Library, draft: Profile)
    ensures Put(l, draft).Success? <==>
            ValidProfile(draft.(name := Trim(draft.name))) && (draft.id == 0 ==> HasSlot(l))
  {
    hide ValidProfile, Trim;
    MaxIdIsTaken(l.profiles);
  }

  lemma ValidAtAny(draft: Profile, name: string, v: u16, u: u16, id: u64)
    requires IsCommon(draft, v) && IsCommon(draft, u)
    ensures ValidProfile(draft.(name := name, volume := v)) <==>
            ValidProfile(draft.(id := id, name := name, volume := u))
  {
    hide ValidProfile;
    VolumeOnlyBounded(draft.(name := name), v, u, id);
  }

  /** Exactly when a draft is saved: the window is open, the file may be written and is, the draft is
      calibrated, valid under the name, with a volume common to its calibrated followers, and a copy or
      a new one finds room. */
  lemma SavingSucceedsExactly(w: World, name: string, copy: bool, ioOk: bool)
    ensures var s := w.state;
            SaveDraft(w, name, copy, ioOk).ok <==>
              && s.editing && !s.loadError && ioOk && s.draft.Some? && IsSavable(s.draft.value, Trim(name))
              && (copy || s.draft.value.id == 0 ==> HasSlot(Persisted(s)))
  {
    if w.state.draft.Some? {
      var draft, l := w.state.draft.value, Persisted(w.state);
      hide SavedDraft, ValidProfile, Trim, IsCommon, IsCalibrated, Persisted, Put, HasSlot;
      SavedDraftExactly(draft, name, copy);
      TrimTwice(name);
      var saved := SavedDraft(draft, name, copy);
      if saved.Some? {
        PutExactly(l, saved.value);
        forall v: u16 | IsCommon(draft, v)
          ensures ValidProfile(draft.(name := Trim(name), volume := v)) <==> ValidProfile(saved.value)
        {
          ValidAtAny(draft, Trim(name), v, saved.value.volume, saved.value.id);
        }
      }
    }
  }

  /** The saved draft is what the library then holds under its id, and the others stay. */
  lemma SavedIsStored(w: World, name: string, copy: bool, ioOk: bool)
    requires Loadable(w.state.library) && ConfirmedFits(w.state) && SaveDraft(w, name, copy, ioOk).ok
    ensures var later, saved := SaveDraft(w, name, copy, ioOk).world.state.library,
                                SaveDraft(w, name, copy, ioOk).world.state.draft;
            && Current(later) == saved
            && forall id | saved.Some? && id != saved.value.id :: Find(later, id) == Find(Persisted(w.state), id)
  {
    PersistedLoadable(w.state);
    TrimTwice(name);
    var l, draft := Persisted(w.state), SavedDraft(w.state.draft.value, name, copy).value;
    PutStores(l, draft);
    StoreLoadable(l, Stored(l, draft));
  }

  /** Anything may become the draft, but only while the window is open. */
  lemma EditingReplacesDraft(w: World, draft: Option<Profile>)
    ensures EditDraft(w, draft).ok <==> w.state.editing
    ensures EditDraft(w, draft).world
         == if w.state.editing then w.(state := w.state.(draft := draft)) else w
  {
  }
}
