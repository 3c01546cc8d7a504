/** Drafts keep id 0 or the id of a profile in the library, as long as edits do, which is what
    saving asks for (windows-server/src/application/volume_control.rs). */
module DraftIds {
  import opened Numbers
  import opened ControlMessages
  import opened VolumeProfiles
  import opened RegistryModel
  import opened VolumeModel
  import opened VolumeRuns
  import opened Persistence
  import D = DraftMaster

  predicate IsKnown(l: Library, draft: Option<Profile>) {
    draft.Some? ==> draft.value.id == 0 || HasProfile(l, draft.value.id)
  }

  /** The libraries hold profiles of the same ids. */
  ghost predicate SameProfileIds(a: Library, b: Library) {
    forall id :: HasProfile(a, id) <==> HasProfile(b, id)
  }

  lemma WithVolumeKeepsIds(l: Library, id: u64, v: u16)
    ensures SameProfileIds(WithVolume(l, id, v), l)
  {
    WithVolumeAt(l, id, v);
    SameIds(WithVolume(l, id, v), l);
  }

  /** The library and the draft stay, or the library differs in one volume. */
  ghost predicate Keeps(s: State, t: State) {
    t.draft == s.draft && SameProfileIds(t.library, s.library)
  }

  lemma ConcludeKeepsIds(w: World, ready: bool, p: Profile, index: u16, expected: map<nat, DeviceStatus>,
                         input: TickInput)
    ensures Keeps(w.state, Conclude(w, ready, p, index, expected, input).state)
  {
  }

  lemma ServeKeepsIds(w: World, p: Profile, master: nat, devices: map<nat, DeviceStatus>, index: u16, input: TickInput)
    ensures Keeps(w.state, Serve(w, p, master, devices, index, input).state)
  {
    var s := Follow(w.state, p, index, input.now);
    var targets := GroupTargets(p, master, devices, index);
    var v := ServeAll(Served(w.registry, s.pending, s.blocked, true), devices, targets, input.now);
    WithVolumeKeepsIds(w.state.library, p.id, index);
    ConcludeKeepsIds(w.(registry := v.registry, state := s.(pending := v.pending, blocked := v.blocked)),
                     v.ready, p, index, Expected(devices, targets), input);
  }

  lemma SteerKeepsIds(w: World, devices: map<nat, DeviceStatus>, input: TickInput)
    ensures Keeps(w.state, Steer(w, devices, input).state)
  {
    match Current(w.state.library)
    case None =>
    case Some(p) =>
      var masters := MatchingIds(p.master, devices);
      if |masters| == 1 {
        var master := Least(masters);
        if (w.state.needsFence || HasPanelBarrier(w.registry, master)) && master !in w.state.pending {
          FenceLeavesLibrary(w, p, master, devices, input.now);
          FenceLeavesDraft(w, p, master, devices, input.now);
        } else {
          DriveKeepsIds(w, p, master, devices, input);
        }
      }
  }

  lemma FenceLeavesDraft(w: World, p: Profile, master: nat, devices: map<nat, DeviceStatus>, now: nat)
    ensures Fence(w, p, master, devices, now).state.draft == w.state.draft
  {
  }

  lemma DriveKeepsIds(w: World, p: Profile, master: nat, devices: map<nat, DeviceStatus>, input: TickInput)
    ensures Keeps(w.state, Drive(w, p, master, devices, input).state)
  {
    match Nearest(p, Wanted(w.registry, w.state, p, master), Participating(p, devices))
    case None =>
    case Some(index) => ServeKeepsIds(Observe(w, master, devices), p, master, devices, index, input);
  }

  lemma TickKeepsIds(w: World, input: TickInput)
    ensures Keeps(w.state, Tick(w, input).state)
  {
    if !w.state.editing {
      var devices, ids := Snapshots(w.registry), w.registry.receivers.Keys;
      var g := ApplyAll(w.registry, input.early);
      SteerKeepsIds(w.(registry := SettledRegistry(g, w.state, ids),
                       state := SettledState(g, w.state, ids, input.now)), devices, input);
    }
  }

  /** A saved draft is in the library under its id. */
  lemma SaveKeepsKnown(w: World, name: string, copy: bool, ioOk: bool)
    requires IsKnown(w.state.library, w.state.draft)
    ensures var s := SaveDraft(w, name, copy, ioOk).world.state; IsKnown(s.library, s.draft)
  {
    var s := w.state;
    if SaveDraft(w, name, copy, ioOk).ok {
      var draft := SavedDraft(s.draft.value, name, copy).value;
      PutStores(Persisted(s), draft);
      var l, p := Persisted(s), Stored(Persisted(s), draft);
      var k := IndexOf(l.profiles, p.id);
      assert Store(l, p).profiles[k] == p;
    }
  }

  lemma SelectKeepsKnown(w: World, id: u64, ioOk: bool)
    requires IsKnown(w.state.library, w.state.draft)
    ensures var s := Select(w, id, ioOk).world.state; IsKnown(s.library, s.draft)
  {
    if w.state.confirmed.Some? {
      WithVolumeKeepsIds(w.state.library, w.state.confirmed.value.0, w.state.confirmed.value.1);
    }
  }

  lemma NextKeepsKnown(w: World, e: Event)
    requires IsKnown(w.state.library, w.state.draft)
    requires e.EditEvent? ==> IsKnown(w.state.library, e.draft)
    ensures IsKnown(Next(w, e).state.library, Next(w, e).state.draft)
  {
    match e
    case TickEvent(input) => TickKeepsIds(w, input);
    case SaveEvent(name, copy, ioOk) => SaveKeepsKnown(w, name, copy, ioOk);
    case SelectEvent(profile, ioOk) => SelectKeepsKnown(w, profile, ioOk);
    case SetVolumeEvent(requested, now) =>
      if Current(w.state.library).Some? {
        forall index: u16
          ensures SameProfileIds(WithVolume(w.state.library, Current(w.state.library).value.id, index), w.state.library)
        {
          WithVolumeKeepsIds(w.state.library, Current(w.state.library).value.id, index);
        }
      }
    case _ =>
  }

  /** Every edit gives the draft id 0 or an id of the library at that moment. */
  ghost predicate EditsKnown(loaded: Option<Library>, events: seq<Event>) {
    forall k | 0 <= k < |events| && events[k].EditEvent? ::
      IsKnown(Run(Initial(loaded), events[..k]).state.library, events[k].draft)
  }

  lemma {:induction false} DraftsStayKnown(loaded: Option<Library>, events: seq<Event>)
    requires EditsKnown(loaded, events)
    ensures var s := Run(Initial(loaded), events).state; IsKnown(s.library, s.draft)
  {
    if events != [] {
      var before, e := events[..|events| - 1], events[|events| - 1];
      assert forall k | 0 <= k < |before| :: before[..k] == events[..k];
      DraftsStayKnown(loaded, before);
      NextKeepsKnown(Run(Initial(loaded), before), e);
    }
  }

  /** Persistence for the program as it is used: if edits keep the draft's id known, every
      library handed to `save` is one that `load` accepts, and holds only volumes that were
      loaded, saved with a draft, or reached by the whole group. */
  lemma KnownEditsSaveSoundly(loaded: Option<Library>, events: seq<Event>)
    requires loaded.Some? ==> Loadable(loaded.value)
    requires EditsKnown(loaded, events)
    ensures forall l <- Run(Initial(loaded), events).saves ::
      Loadable(l) && AllFrom(l, SanctionedBy(loaded, events))
  {
    forall k | 0 <= k < |events| && events[k].SaveEvent?
      ensures DraftFits(Run(Initial(loaded), events[..k]).state, events[k].copy)
    {
      var before := events[..k];
      assert forall j | 0 <= j < |before| :: before[..j] == events[..j];
      DraftsStayKnown(loaded, before);
    }
    SavesAreSound(loaded, events);
  }

  /** Setting the master is such an edit. */
  lemma SetMasterIsKnown(w: World, master: DeviceStatus)
    requires IsKnown(w.state.library, w.state.draft)
    ensures D.SetMasterOf(w, master).ok ==>
      IsKnown(w.state.library, D.SetMasterOf(w, master).world.state.draft)
  {
  }
}
