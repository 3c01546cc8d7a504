/** What the controller hands to the library file: always something that loads again, and never a volume that was
    only asked for (windows-server/src/application/volume_control.rs, windows-server/src/volume_profiles.rs). */
module Persistence {
  import opened Numbers
  import opened ControlMessages
  import opened Text
  import opened VolumeProfiles
  import opened RegistryModel
  import opened VolumeModel
  import opened VolumeRuns
  import opened GateSafety

  type Volumes = set<(u64, u16)>

  /** Every profile's volume is one of the given ones. */
  ghost predicate AllFrom(l: Library, volumes: Volumes) {
    forall p <- l.profiles :: (p.id, p.volume) in volumes
  }

  /** The last confirmed volume belongs to the active profile and fits its master. */
  predicate ConfirmedFits(s: State) {
    match s.confirmed
    case None => s.library.active.None?
    case Some((id, v)) =>
      && s.library.active == Some(id)
      && HasProfile(s.library, id)
      && Find(s.library, id).value.master.minimum <= v <= Find(s.library, id).value.master.maximum
  }

  ghost predicate StateKept(s: State, volumes: Volumes) {
    Loadable(s.library) && ConfirmedFits(s) && AllFrom(Persisted(s), volumes)
  }

  ghost predicate SavesKept(saves: seq<Library>, volumes: Volumes) {
    forall l <- saves :: Loadable(l) && AllFrom(l, volumes)
  }

  ghost predicate Kept(w: World, volumes: Volumes) {
    StateKept(w.state, volumes) && SavesKept(w.saves, volumes)
  }

  // ---------------------------------------------------- changing one profile's volume

  lemma WithVolumeAt(l: Library, id: u64, v: u16)
    ensures var r, k := WithVolume(l, id, v), IndexOf(l.profiles, id);
            && r.active == l.active && |r.profiles| == |l.profiles|
            && IndexOf(r.profiles, id) == k
            && (forall j | 0 <= j < |l.profiles| ::
                  r.profiles[j] == if j == k then l.profiles[j].(volume := v) else l.profiles[j])
  {
    var r, k := WithVolume(l, id, v), IndexOf(l.profiles, id);
    IndexOfIs(r.profiles, id, k);
  }

  /** Only the last volume set counts, and setting the present one changes nothing. */
  lemma WithVolumeTwice(l: Library, id: u64, a: u16, b: u16)
    ensures WithVolume(WithVolume(l, id, a), id, b) == WithVolume(l, id, b)
    ensures HasProfile(l, id) && Find(l, id).value.volume == b ==> WithVolume(l, id, b) == l
  {
    WithVolumeAt(l, id, a);
    WithVolumeAt(l, id, b);
    assert WithVolume(WithVolume(l, id, a), id, b).profiles == WithVolume(l, id, b).profiles;
    if HasProfile(l, id) && Find(l, id).value.volume == b {
      assert WithVolume(l, id, b).profiles == l.profiles;
    }
  }

  lemma ValidAtVolume(p: Profile, v: u16)
    requires ValidProfile(p) && p.master.minimum <= v <= p.master.maximum
    ensures ValidProfile(p.(volume := v))
  {
    assert Devices(p.(volume := v)) == Devices(p);
    assert forall f <- p.followers :: ValidMapping(p.(volume := v), f) == ValidMapping(p, f);
  }

  lemma WithVolumeLoadable(l: Library, id: u64, v: u16)
    requires Loadable(l) && HasProfile(l, id)
    requires Find(l, id).value.master.minimum <= v <= Find(l, id).value.master.maximum
    ensures Loadable(WithVolume(l, id, v))
    ensures HasProfile(WithVolume(l, id, v), id)
    ensures Find(WithVolume(l, id, v), id) == Some(Find(l, id).value.(volume := v))
  {
    WithVolumeAt(l, id, v);
    var r, k := WithVolume(l, id, v), IndexOf(l.profiles, id);
    ValidAtVolume(l.profiles[k], v);
    forall p | p in r.profiles
      ensures ValidProfile(p)
    {
      var j :| 0 <= j < |r.profiles| && r.profiles[j] == p;
    }
    SameIds(l, r);
  }

  /** The persisted library is loadable. */
  lemma PersistedLoadable(s: State)
    requires Loadable(s.library) && ConfirmedFits(s)
    ensures Loadable(Persisted(s)) && Persisted(s).active == s.library.active
    ensures |Persisted(s).profiles| == |s.library.profiles|
    ensures forall id :: HasProfile(Persisted(s), id) <==> HasProfile(s.library, id)
  {
    if s.confirmed.Some? {
      var (id, v) := s.confirmed.value;
      WithVolumeLoadable(s.library, id, v);
      WithVolumeAt(s.library, id, v);
      SameIds(s.library, Persisted(s));
    }
  }

  lemma SameIds(l: Library, r: Library)
    requires |l.profiles| == |r.profiles|
    requires forall j | 0 <= j < |l.profiles| :: l.profiles[j].id == r.profiles[j].id
    ensures forall id :: HasProfile(l, id) <==> HasProfile(r, id)
  {
    forall id
      ensures HasProfile(l, id) <==> HasProfile(r, id)
    {
      if HasProfile(l, id) {
        var j :| 0 <= j < |l.profiles| && l.profiles[j].id == id;
        assert r.profiles[j] in r.profiles;
      }
      if HasProfile(r, id) {
        var j :| 0 <= j < |r.profiles| && r.profiles[j].id == id;
        assert l.profiles[j] in l.profiles;
      }
    }
  }

  /** A library that becomes the state's confirmed one is persisted as it is. */
  lemma FreshIsKept(s: State, library: Library, volumes: Volumes)
    requires s.library == library && s.confirmed == ConfirmedOf(library)
    requires Loadable(library) && AllFrom(library, volumes)
    ensures ConfirmedFits(s) && Persisted(s) == library && AllFrom(Persisted(s), volumes)
  {
    if library.active.Some? {
      var id := library.active.value;
      var p := Find(library, id).value;
      assert ValidProfile(p);
      WithVolumeTwice(library, id, p.volume, p.volume);
    }
  }

  // ------------------------------------------------------------------- operations

  /** A merely requested volume does not change what is persisted. */
  lemma RequestedIsNotPersisted(s: State, index: u16)
    requires Loadable(s.library) && ConfirmedFits(s) && Current(s.library).Some?
    requires var p := Current(s.library).value; p.master.minimum <= index <= p.master.maximum
    ensures var t := s.(library := WithVolume(s.library, Current(s.library).value.id, index));
            Loadable(t.library) && ConfirmedFits(t) && Persisted(t) == Persisted(s)
  {
    var p := Current(s.library).value;
    WithVolumeLoadable(s.library, p.id, index);
    WithVolumeTwice(s.library, p.id, index, s.confirmed.value.1);
  }

  /** The draft keeps its profile's id or none, or there is room for one more profile:
      what a caller can check before it saves. */
  predicate DraftFits(s: State, copy: bool) {
    s.draft.Some? ==>
      || copy || s.draft.value.id == 0 || HasProfile(s.library, s.draft.value.id)
      || |s.library.profiles| < MAX_PROFILES
  }

  /** A library a save would write. */
  function LibraryToSave(s: State, name: string, copy: bool): Option<Library> {
    if !s.editing || s.loadError || s.draft.None? then None else
    match SavedDraft(s.draft.value, name, copy)
    case None => None
    case Some(draft) => match Put(Persisted(s), draft) case Failure => None case Success(l) => Some(l)
  }

  lemma NewIdIsFree(l: Library)
    requires MaxId(l.profiles) + 1 < U64_MODULUS
    ensures !HasProfile(l, MaxId(l.profiles) + 1)
  {
  }

  lemma ValidUnderId(p: Profile, id: u64)
    requires ValidProfile(p)
    ensures ValidProfile(p.(id := id))
  {
    assert Devices(p.(id := id)) == Devices(p);
    assert forall f <- p.followers :: ValidMapping(p.(id := id), f) == ValidMapping(p, f);
  }

  /** The profile that `put` stores for a draft. */
  function Stored(l: Library, draft: Profile): Profile
    requires Put(l, draft).Success?
  {
    var named := draft.(name := Trim(draft.name));
    if draft.id == 0 then named.(id := MaxId(l.profiles) + 1) else named
  }

  lemma PutStores(l: Library, draft: Profile)
    requires Put(l, draft).Success?
    ensures ValidProfile(Stored(l, draft)) && Put(l, draft).value == Store(l, Stored(l, draft))
  {
    ValidUnderId(draft.(name := Trim(draft.name)), Stored(l, draft).id);
  }

  /** Exactly when what `put` makes of a loadable library is loadable again: it replaces
      a profile, adds one under a new id, or there is room. */
  lemma PutIsLoadableExactly(l: Library, draft: Profile)
    requires Loadable(l) && Put(l, draft).Success?
    ensures Loadable(Put(l, draft).value) <==>
      draft.id == 0 || HasProfile(l, draft.id) || |l.profiles| < MAX_PROFILES
  {
    PutStores(l, draft);
    StoreLoadable(l, Stored(l, draft));
    if draft.id == 0 {
      NewIdIsFree(l);
    }
  }

  /** Exactly when a saved draft can be loaded again. */
  lemma SavedIsLoadableExactly(s: State, name: string, copy: bool)
    requires Loadable(s.library) && ConfirmedFits(s) && LibraryToSave(s, name, copy).Some?
    ensures Loadable(LibraryToSave(s, name, copy).value) <==> DraftFits(s, copy)
  {
    PersistedLoadable(s);
    PutIsLoadableExactly(Persisted(s), SavedDraft(s.draft.value, name, copy).value);
  }

  /** What a saved library holds: the draft, active, at its calibrated volume, and the
      other profiles at their persisted volumes. */
  lemma SavedContents(s: State, name: string, copy: bool, volumes: Volumes)
    requires Loadable(s.library) && ConfirmedFits(s) && AllFrom(Persisted(s), volumes)
    requires LibraryToSave(s, name, copy).Some?
    ensures var l := LibraryToSave(s, name, copy).value;
            var volume := SavedDraft(s.draft.value, name, copy).value.volume;
            && l.active.Some? && AllFrom(l, volumes + {(l.active.value, volume)})
            && Current(l).Some? && Current(l).value.volume == volume
  {
    PersistedLoadable(s);
    var l, draft := Persisted(s), SavedDraft(s.draft.value, name, copy).value;
    PutStores(l, draft);
    StoreLoadable(l, Stored(l, draft));
  }

  /** The volume a successful save of a draft stores. */
  function SaveSanctions(s: State, name: string, copy: bool): Volumes {
    match LibraryToSave(s, name, copy)
    case None => {}
    case Some(l) => {(l.active.value, SavedDraft(s.draft.value, name, copy).value.volume)}
  }

  /** Handing over a library and then, if that worked, adopting it. */
  ghost predicate Adopts(w: World, later: World, library: Library) {
    && later.saves == w.saves + [library]
    && (|| (later.state.library == w.state.library && later.state.confirmed == w.state.confirmed)
        || (later.state.library == library && later.state.confirmed == ConfirmedOf(library)))
  }

  lemma AdoptKeeps(w: World, later: World, library: Library, volumes: Volumes, more: Volumes)
    requires Kept(w, volumes) && volumes <= more && Loadable(library) && AllFrom(library, more)
    requires Adopts(w, later, library)
    ensures Kept(later, more)
  {
    if later.state.confirmed == ConfirmedOf(library) && later.state.library == library {
      FreshIsKept(later.state, library, more);
    }
  }

  lemma SaveKeeps(w: World, name: string, copy: bool, ioOk: bool, volumes: Volumes)
    requires Kept(w, volumes) && DraftFits(w.state, copy)
    ensures Kept(SaveDraft(w, name, copy, ioOk).world, volumes + SaveSanctions(w.state, name, copy))
  {
    var s := w.state;
    if LibraryToSave(s, name, copy).Some? {
      SavedIsLoadableExactly(s, name, copy);
      SavedContents(s, name, copy, volumes);
      AdoptKeeps(w, SaveDraft(w, name, copy, ioOk).world, LibraryToSave(s, name, copy).value,
                 volumes, volumes + SaveSanctions(s, name, copy));
    }
  }

  lemma ActivatedLoadable(l: Library, id: u64)
    requires Loadable(l) && HasProfile(l, id)
    ensures Loadable(l.(active := Some(id)))
  {
    assert HasProfile(l.(active := Some(id)), id);
  }

  lemma SelectKeeps(w: World, id: u64, ioOk: bool, volumes: Volumes)
    requires Kept(w, volumes)
    ensures Kept(Select(w, id, ioOk).world, volumes)
  {
    var later := Select(w, id, ioOk).world;
    if later.saves != w.saves {
      PersistedLoadable(w.state);
      ActivatedLoadable(Persisted(w.state), id);
      AdoptKeeps(w, later, Persisted(w.state).(active := Some(id)), volumes, volumes);
    }
  }

  lemma {:induction false} WithoutKeeps(profiles: seq<Profile>, id: u64)
    ensures |Without(profiles, id)| <= |profiles|
    ensures forall p :: p in Without(profiles, id) <==> p in profiles && p.id != id
  {
    if profiles != [] {
      WithoutKeeps(profiles[1..], id);
      assert profiles == [profiles[0]] + profiles[1..];
    }
  }

  predicate DistinctIds(profiles: seq<Profile>) {
    forall i, j | 0 <= i < j < |profiles| :: profiles[i].id != profiles[j].id
  }

  lemma {:induction false} WithoutKeepsDistinct(profiles: seq<Profile>, id: u64)
    requires DistinctIds(profiles)
    ensures DistinctIds(Without(profiles, id))
  {
    if profiles != [] {
      var rest := Without(profiles[1..], id);
      WithoutKeepsDistinct(profiles[1..], id);
      WithoutKeeps(profiles[1..], id);
      forall j | 0 <= j < |rest|
        ensures rest[j].id != profiles[0].id
      {
        assert rest[j] in profiles[1..];
      }
    }
  }

  function Removed(l: Library, id: u64): Library {
    Library(if l.active == Some(id) then None else l.active, Without(l.profiles, id))
  }

  lemma RemovedLoadable(l: Library, id: u64)
    requires Loadable(l)
    ensures Loadable(Removed(l, id)) && forall p <- Removed(l, id).profiles :: p in l.profiles
  {
    WithoutKeeps(l.profiles, id);
    WithoutKeepsDistinct(l.profiles, id);
    if Removed(l, id).active.Some? {
      var p :| p in l.profiles && p.id == l.active.value;
      assert p in Removed(l, id).profiles;
    }
  }

  lemma DeleteKeeps(w: World, id: u64, ioOk: bool, volumes: Volumes)
    requires Kept(w, volumes)
    ensures Kept(Delete(w, id, ioOk).world, volumes)
  {
    var later := Delete(w, id, ioOk).world;
    if later.saves != w.saves {
      PersistedLoadable(w.state);
      RemovedLoadable(Persisted(w.state), id);
      AdoptKeeps(w, later, Removed(Persisted(w.state), id), volumes, volumes);
    }
  }

  lemma FinishKeeps(w: World, ioOk: bool, volumes: Volumes)
    requires Kept(w, volumes)
    ensures Kept(Finish(w, ioOk).world, volumes)
  {
    PersistedLoadable(w.state);
  }

  lemma RequestKeeps(w: World, requested: u16, now: nat, volumes: Volumes)
    requires Kept(w, volumes)
    ensures Kept(RequestVolume(w, requested, now).world, volumes)
  {
    var r := RequestVolume(w, requested, now);
    if r.ok {
      var p := Current(w.state.library).value;
      var index := Nearest(p, requested, Participating(p, Snapshots(w.registry))).value;
      RequestedIsNotPersisted(w.state, index);
      var t := w.state.(library := WithVolume(w.state.library, p.id, index));
      assert r.world.state.library == t.library && r.world.state.confirmed == t.confirmed;
    }
  }

  // ------------------------------------------------------------------------ ticks

  /** The snapshot shows the whole group at the volumes profile `p` gives it at `v`. */
  ghost predicate GroupReached(p: Profile, devices: map<nat, DeviceStatus>, v: u16) {
    && (exists m :: IsSole(p.master, devices, m) && m in devices && devices[m].volume == v)
    && IsAvailable(p, Participating(p, devices), v)
    && forall f <- p.followers :: FollowerReached(f, devices, v)
  }

  /** A calibrated follower that is connected once is at its volume for `v`. */
  ghost predicate FollowerReached(f: Follower, devices: map<nat, DeviceStatus>, v: u16) {
    f.mapping != map[] ==> forall id | IsSole(f.device, devices, id) ::
      v in f.mapping && id in devices && devices[id].volume == f.mapping[v]
  }

  /** The volume a tick's snapshot shows the active group to have reached, if it has. */
  ghost function TickSanctions(w: World): Volumes {
    if w.state.editing || Current(w.state.library).None? then {} else
    var p, devices := Current(w.state.library).value, Snapshots(w.registry);
    set m | m in MatchingIds(p.master, devices) && GroupReached(p, devices, devices[m].volume)
          :: (p.id, devices[m].volume)
  }

  lemma {:induction false} TargetsCover(
    p: Profile, followers: seq<Follower>, devices: map<nat, DeviceStatus>, index: u16, f: Follower, id: nat)
    requires (forall g <- followers :: g in p.followers) && f in followers
    requires f.mapping != map[] && IsSole(f.device, devices, id) && index in f.mapping
    ensures (id, f.mapping[index]) in Targets(p, followers, devices, index)
  {
    if followers[0] == f {
      assert |MatchingIds(f.device, devices)| == 1;
      assert f.device.id in Participating(p, devices);
      assert Targets(p, followers, devices, index)[0] == (id, f.mapping[index]);
    } else {
      TargetsCover(p, followers[1..], devices, index, f, id);
    }
  }

  lemma SoleParticipates(p: Profile, f: Follower, devices: map<nat, DeviceStatus>, id: nat, index: u16)
    requires f in p.followers && f.mapping != map[] && IsSole(f.device, devices, id)
    requires IsAvailable(p, Participating(p, devices), index)
    ensures index in f.mapping && id in devices
  {
    assert |MatchingIds(f.device, devices)| == 1;
    assert f.device.id in Participating(p, devices);
    assert id in MatchingIds(f.device, devices);
  }

  ghost predicate AllAtTarget(
    devices: map<nat, DeviceStatus>, pending: map<nat, Pending>, blocked: set<nat>, targets: seq<(nat, u16)>)
  {
    forall t <- targets :: AtTarget(devices, pending, blocked, t)
  }

  lemma FollowersReached(
    p: Profile, devices: map<nat, DeviceStatus>, index: u16, pending: map<nat, Pending>, blocked: set<nat>,
    f: Follower)
    requires IsAvailable(p, Participating(p, devices), index)
    requires AllAtTarget(devices, pending, blocked, Targets(p, p.followers, devices, index))
    requires f in p.followers
    ensures FollowerReached(f, devices, index)
  {
    forall id | f.mapping != map[] && IsSole(f.device, devices, id)
      ensures index in f.mapping && id in devices && devices[id].volume == f.mapping[index]
    {
      SoleParticipates(p, f, devices, id, index);
      TargetsCover(p, p.followers, devices, index, f, id);
      assert AtTarget(devices, pending, blocked, (id, f.mapping[index]));
    }
  }

  lemma ReadyMeansReached(
    p: Profile, master: nat, devices: map<nat, DeviceStatus>, index: u16, pending: map<nat, Pending>, blocked: set<nat>)
    requires IsSole(p.master, devices, master) && IsAvailable(p, Participating(p, devices), index)
    requires AllAtTarget(devices, pending, blocked, GroupTargets(p, master, devices, index))
    ensures GroupReached(p, devices, index)
  {
    var targets := GroupTargets(p, master, devices, index);
    assert targets[0] == (master, index) && AtTarget(devices, pending, blocked, targets[0]);
    assert forall t <- Targets(p, p.followers, devices, index) :: t in targets;
    forall f | f in p.followers
      ensures FollowerReached(f, devices, index)
    {
      FollowersReached(p, devices, index, pending, blocked, f);
    }
  }

  lemma ServedReached(
    v: Served, p: Profile, master: nat, devices: map<nat, DeviceStatus>, index: u16, now: nat)
    requires IsSole(p.master, devices, master) && IsAvailable(p, Participating(p, devices), index)
    requires ServeAll(v, devices, GroupTargets(p, master, devices, index), now).ready
    ensures GroupReached(p, devices, index)
  {
    var targets := GroupTargets(p, master, devices, index);
    ServeAllSends(v, devices, targets, now);
    ReadyMeansReached(p, master, devices, index, v.pending, v.blocked);
  }

  /** Confirming the volume the library already has. */
  lemma ConfirmKeeps(s: State, p: Profile, volumes: Volumes)
    requires Loadable(s.library) && ConfirmedFits(s) && AllFrom(Persisted(s), volumes)
    requires Current(s.library) == Some(p) && (p.id, p.volume) in volumes
    ensures var t := s.(confirmed := Some((p.id, p.volume)));
            ConfirmedFits(t) && Persisted(t) == s.library && AllFrom(s.library, volumes)
  {
    assert ValidProfile(p);
    var (id, v) := s.confirmed.value;
    WithVolumeTwice(s.library, p.id, p.volume, p.volume);
    WithVolumeAt(s.library, p.id, v);
    forall q | q in s.library.profiles
      ensures (q.id, q.volume) in volumes
    {
      var j :| 0 <= j < |s.library.profiles| && s.library.profiles[j] == q;
      assert Persisted(s).profiles[j] in Persisted(s).profiles;
    }
  }

  lemma ConcludeKeeps(
    w: World, ready: bool, p: Profile, index: u16, expected: map<nat, DeviceStatus>, input: TickInput, volumes: Volumes)
    requires Kept(w, volumes) && Current(w.state.library) == Some(p.(volume := index))
    requires ready ==> (p.id, index) in volumes
    ensures Kept(Conclude(w, ready, p, index, expected, input), volumes)
  {
    if ready {
      ConfirmKeeps(w.state, p.(volume := index), volumes);
    }
  }

  lemma FollowKeeps(s: State, p: Profile, index: u16, now: nat, volumes: Volumes)
    requires StateKept(s, volumes) && Current(s.library) == Some(p)
    requires p.master.minimum <= index <= p.master.maximum
    ensures StateKept(Follow(s, p, index, now), volumes)
  {
    RequestedIsNotPersisted(s, index);
  }

  lemma ServeKeeps(
    w: World, p: Profile, master: nat, devices: map<nat, DeviceStatus>, index: u16, input: TickInput, volumes: Volumes)
    requires Kept(w, volumes) && Current(w.state.library) == Some(p)
    requires IsSole(p.master, devices, master) && IsAvailable(p, Participating(p, devices), index)
    requires GroupReached(p, devices, index) ==> (p.id, index) in volumes
    ensures Kept(Serve(w, p, master, devices, index, input), volumes)
  {
    var s := Follow(w.state, p, index, input.now);
    FollowKeeps(w.state, p, index, input.now, volumes);
    FollowMovesCurrent(w.state, p, index, input.now);
    var targets := GroupTargets(p, master, devices, index);
    var v0 := Served(w.registry, s.pending, s.blocked, true);
    var v := ServeAll(v0, devices, targets, input.now);
    if v.ready {
      ServedReached(v0, p, master, devices, index, input.now);
    }
    SameLibraryKeeps(w.(state := s),
                     w.(registry := v.registry, state := s.(pending := v.pending, blocked := v.blocked)),
                     volumes);
    ConcludeKeeps(w.(registry := v.registry, state := s.(pending := v.pending, blocked := v.blocked)),
                  v.ready, p, index, Expected(devices, targets), input, volumes);
  }

  ghost predicate ReachedIn(p: Profile, devices: map<nat, DeviceStatus>, volumes: Volumes) {
    forall v: u16 | GroupReached(p, devices, v) :: (p.id, v) in volumes
  }

  lemma DriveKeeps(
    w: World, p: Profile, master: nat, devices: map<nat, DeviceStatus>, input: TickInput, volumes: Volumes)
    requires Kept(w, volumes) && Current(w.state.library) == Some(p) && IsSole(p.master, devices, master)
    requires ReachedIn(p, devices, volumes)
    ensures Kept(Drive(w, p, master, devices, input), volumes)
  {
    match Nearest(p, Wanted(w.registry, w.state, p, master), Participating(p, devices))
    case None =>
    case Some(index) => ServeKeeps(Observe(w, master, devices), p, master, devices, index, input, volumes);
  }

  lemma SoleMaster(r: DeviceRange, devices: map<nat, DeviceStatus>)
    requires |MatchingIds(r, devices)| == 1
    ensures IsSole(r, devices, Least(MatchingIds(r, devices)))
  {
    var ids := MatchingIds(r, devices);
    assert |ids - {Least(ids)}| == 0;
  }

  lemma DenyKeeps(w: World, late: seq<NetEvent>, volumes: Volumes)
    requires Kept(w, volumes)
    ensures Kept(Deny(w, late), volumes)
  {
  }

  lemma FenceLeavesLibrary(w: World, p: Profile, master: nat, devices: map<nat, DeviceStatus>, now: nat)
    ensures var f := Fence(w, p, master, devices, now);
            f.state.library == w.state.library && f.state.confirmed == w.state.confirmed && f.saves == w.saves
  {
  }

  lemma SameLibraryKeeps(w: World, later: World, volumes: Volumes)
    requires Kept(w, volumes) && later.saves == w.saves
    requires later.state.library == w.state.library && later.state.confirmed == w.state.confirmed
    ensures Kept(later, volumes)
  {
  }

  lemma SteerKeeps(w: World, devices: map<nat, DeviceStatus>, input: TickInput, volumes: Volumes)
    requires Kept(w, volumes)
    requires Current(w.state.library).Some? ==> ReachedIn(Current(w.state.library).value, devices, volumes)
    ensures Kept(Steer(w, devices, input), volumes)
  {
    match Current(w.state.library)
    case None => DenyKeeps(w, input.late, volumes);
    case Some(p) =>
      var masters := MatchingIds(p.master, devices);
      if |masters| != 1 {
        DenyKeeps(w.(state := w.state.(masterSeen := None)), input.late, volumes);
      } else {
        var master := Least(masters);
        SoleMaster(p.master, devices);
        if (w.state.needsFence || HasPanelBarrier(w.registry, master)) && master !in w.state.pending {
          FenceLeavesLibrary(w, p, master, devices, input.now);
          SameLibraryKeeps(w, Deny(Fence(w, p, master, devices, input.now), input.late), volumes);
        } else {
          DriveKeeps(w, p, master, devices, input, volumes);
        }
      }
  }

  lemma TickSanctionsReached(w: World, volumes: Volumes)
    requires !w.state.editing && Current(w.state.library).Some?
    ensures ReachedIn(Current(w.state.library).value, Snapshots(w.registry), volumes + TickSanctions(w))
  {
    var p, devices := Current(w.state.library).value, Snapshots(w.registry);
    forall v: u16 | GroupReached(p, devices, v)
      ensures (p.id, v) in TickSanctions(w)
    {
      var m :| IsSole(p.master, devices, m) && m in devices && devices[m].volume == v;
      assert m in MatchingIds(p.master, devices);
    }
  }

  lemma TickKeeps(w: World, input: TickInput, volumes: Volumes)
    requires Kept(w, volumes)
    ensures Kept(Tick(w, input), volumes + TickSanctions(w))
  {
    if !w.state.editing {
      var devices, ids := Snapshots(w.registry), w.registry.receivers.Keys;
      var g := ApplyAll(w.registry, input.early);
      if Current(w.state.library).Some? {
        TickSanctionsReached(w, volumes);
      }
      SteerKeeps(w.(registry := SettledRegistry(g, w.state, ids), state := SettledState(g, w.state, ids, input.now)),
                 devices, input, volumes + TickSanctions(w));
    }
  }

  // -------------------------------------------------------------------------- runs

  /** The volumes an event makes fit to be saved. */
  ghost function Sanctions(w: World, e: Event): Volumes {
    match e
    case SaveEvent(name, copy, _) => SaveSanctions(w.state, name, copy)
    case TickEvent(_) => TickSanctions(w)
    case _ => {}
  }

  function LoadedVolumes(loaded: Option<Library>): Volumes {
    if loaded.Some? then set p | p in loaded.value.profiles :: (p.id, p.volume) else {}
  }

  /** Every volume that was loaded, saved with a draft, or reached by the whole group. */
  ghost function SanctionedBy(loaded: Option<Library>, events: seq<Event>): Volumes {
    if events == [] then LoadedVolumes(loaded) else
    var before := events[..|events| - 1];
    SanctionedBy(loaded, before) + Sanctions(Run(Initial(loaded), before), events[|events| - 1])
  }

  /** Whenever a draft is saved it keeps a profile's id, is new, or there is room. */
  ghost predicate DraftsFit(loaded: Option<Library>, events: seq<Event>) {
    forall k | 0 <= k < |events| && events[k].SaveEvent? ::
      DraftFits(Run(Initial(loaded), events[..k]).state, events[k].copy)
  }

  lemma NextKeeps(w: World, e: Event, volumes: Volumes)
    requires Kept(w, volumes)
    requires e.SaveEvent? ==> DraftFits(w.state, e.copy)
    ensures Kept(Next(w, e), volumes + Sanctions(w, e))
  {
    if e.TickEvent? {
      TickKeeps(w, e.input, volumes);
    } else if e.SaveEvent? {
      SaveKeeps(w, e.name, e.copy, e.ioOk, volumes);
    } else {
      assert volumes + {} == volumes;
      OtherKeeps(w, e, volumes);
    }
  }

  lemma OtherKeeps(w: World, e: Event, volumes: Volumes)
    requires Kept(w, volumes) && !e.TickEvent? && !e.SaveEvent?
    ensures Kept(Next(w, e), volumes)
  {
    hide Kept, Select, Delete, Finish, RequestVolume;
    match e
    case SelectEvent(profile, ioOk) => SelectKeeps(w, profile, ioOk, volumes);
    case DeleteEvent(profile, ioOk) => DeleteKeeps(w, profile, ioOk, volumes);
    case SetVolumeEvent(requested, now) => RequestKeeps(w, requested, now, volumes);
    case FinishEvent(ioOk) => FinishKeeps(w, ioOk, volumes);
    case _ => SameLibraryKeeps(w, Next(w, e), volumes);
  }

  /** Persistence over all runs: every library handed to `save` passes what `load` checks,
      and each volume in it was loaded, saved with a draft, or shown by some tick's
      snapshot to be reached by the whole group; never one that was only asked for. */
  lemma {:induction false} SavesAreSound(loaded: Option<Library>, events: seq<Event>)
    requires loaded.Some? ==> Loadable(loaded.value)
    requires DraftsFit(loaded, events)
    ensures Kept(Run(Initial(loaded), events), SanctionedBy(loaded, events))
    ensures forall l <- Run(Initial(loaded), events).saves ::
      Loadable(l) && AllFrom(l, SanctionedBy(loaded, events))
  {
    if events == [] {
      var s := Initial(loaded).state;
      assert AllFrom(s.library, LoadedVolumes(loaded));
      FreshIsKept(s, s.library, LoadedVolumes(loaded));
    } else {
      var before, e := events[..|events| - 1], events[|events| - 1];
      assert forall k | 0 <= k < |before| :: before[..k] == events[..k];
      SavesAreSound(loaded, before);
      NextKeeps(Run(Initial(loaded), before), e, SanctionedBy(loaded, before));
    }
  }
}
