/** Calibrated volume profiles and the library that is persisted
    (windows-server/src/volume_profiles.rs). */
module VolumeProfiles {
  import opened Numbers
  import opened ControlMessages
  import opened Text

  const MAX_PROFILES := 128
  const MAX_INDEX := 512
  const MAX_NAME := 80

  datatype DeviceRange = DeviceRange(id: string, name: string, minimum: u16, maximum: u16)

  datatype Follower = Follower(device: DeviceRange, mapping: map<u16, u16>)

  datatype Profile = Profile(id: u64, name: string, master: DeviceRange, followers: seq<Follower>, volume: u16)

  datatype Library = Library(active: Option<u64>, profiles: seq<Profile>)

  function FromStatus(d: DeviceStatus): DeviceRange {
    DeviceRange(d.deviceId, d.name, d.minimum, d.maximum)
  }

  /** Fit to be calibrated: adjustable, on its speaker and with an id. */
  predicate Usable(d: DeviceStatus) {
    !d.fixed && !d.failed && d.speaker && d.deviceId != "" && d.minimum < d.maximum
  }

  /** The profile's device: adjustable, on its speaker, in the calibrated range. */
  predicate Matches(r: DeviceRange, d: DeviceStatus) {
    && r.id == d.deviceId && r.minimum == d.minimum && r.maximum == d.maximum
    && d.speaker && !d.fixed && !d.failed
  }

  // ------------------------------------------------------------------ validity

  function Devices(p: Profile): seq<DeviceRange> {
    [p.master] + seq(|p.followers|, i requires 0 <= i < |p.followers| => p.followers[i].device)
  }

  predicate ValidDevice(d: DeviceRange) {
    && 1 <= |d.id| <= MAX_NAME && (forall c <- d.id :: IsAlphanumeric(c) || c == '-')
    && d.minimum < d.maximum <= MAX_INDEX
  }

  predicate ValidMapping(p: Profile, f: Follower) {
    forall m <- f.mapping ::
      && p.master.minimum <= m <= p.master.maximum
      && f.device.minimum <= f.mapping[m] <= f.device.maximum
  }

  predicate ValidProfile(p: Profile) {
    && Trim(p.name) != "" && |p.name| <= MAX_NAME
    && (forall d <- Devices(p) :: ValidDevice(d))
    && (forall i, j | 0 <= i < j <= |p.followers| :: Devices(p)[i].id != Devices(p)[j].id)
    && p.master.minimum <= p.volume <= p.master.maximum
    && (forall f <- p.followers :: ValidMapping(p, f))
  }

  method Validate(p: Profile) returns (ok: bool)
    ensures ok <==> ValidProfile(p)
  {
    if Trim(p.name) == "" || |p.name| > MAX_NAME {
      return false;
    }
    var ids: set<string> := {};
    var devices := Devices(p);
    for i := 0 to |devices|
      invariant forall j | 0 <= j < i :: ValidDevice(devices[j])
      invariant ids == set j | 0 <= j < i :: devices[j].id
      invariant forall j, k | 0 <= j < k < i :: devices[j].id != devices[k].id
    {
      if !ValidDevice(devices[i]) || devices[i].id in ids {
        assert !ValidProfile(p);
        return false;
      }
      ids := ids + {devices[i].id};
    }
    if !(p.master.minimum <= p.volume <= p.master.maximum) {
      return false;
    }
    ok := forall f <- p.followers :: ValidMapping(p, f);
  }

  // ------------------------------------------------------- the group of a profile

  /** The receivers whose reported device is a usable `r`. */
  function MatchingIds(r: DeviceRange, devices: map<nat, DeviceStatus>): set<nat> {
    set id | id in devices && Matches(r, devices[id])
  }

  ghost predicate IsSole(r: DeviceRange, devices: map<nat, DeviceStatus>, id: nat) {
    MatchingIds(r, devices) == {id}
  }

  lemma SoleByCount(r: DeviceRange, devices: map<nat, DeviceStatus>)
    ensures |MatchingIds(r, devices)| == 1 <==> exists id :: IsSole(r, devices, id)
  {
    var ids := MatchingIds(r, devices);
    if |ids| == 1 {
      var id :| id in ids;
      assert |ids - {id}| == 0;
      assert IsSole(r, devices, id);
    }
    forall id | IsSole(r, devices, id)
      ensures |ids| == 1
    {
    }
  }

  /** Ids of the calibrated followers that are connected exactly once. */
  function Participating(p: Profile, devices: map<nat, DeviceStatus>): set<string> {
    set f | f in p.followers && f.mapping != map[] && |MatchingIds(f.device, devices)| == 1 :: f.device.id
  }

  predicate IsAvailable(p: Profile, participating: set<string>, index: u16) {
    && p.master.minimum <= index <= p.master.maximum
    && forall f <- p.followers :: f.device.id in participating ==> index in f.mapping
  }

  function AvailableFrom(p: Profile, participating: set<string>, lo: nat): (r: seq<u16>)
    ensures forall j | 0 <= j < |r| :: lo <= r[j] && IsAvailable(p, participating, r[j])
    ensures forall i: u16 | lo <= i && IsAvailable(p, participating, i) :: i in r
    ensures forall j, k | 0 <= j < k < |r| :: r[j] < r[k]
    decreases p.master.maximum + 1 - lo
  {
    if lo > p.master.maximum then [] else
    var rest := AvailableFrom(p, participating, lo + 1);
    assert forall i: u16 | lo <= i && IsAvailable(p, participating, i) :: i == lo || i in rest;
    if IsAvailable(p, participating, lo) then [lo] + rest else rest
  }

  /** The indices every participating follower is calibrated for, ascending. */
  function Available(p: Profile, participating: set<string>): seq<u16> {
    AvailableFrom(p, participating, p.master.minimum)
  }

  ghost predicate Closest(i: u16, candidates: seq<u16>, requested: u16) {
    && i in candidates
    && forall j <- candidates ::
         AbsDiff(i, requested) < AbsDiff(j, requested)
         || (AbsDiff(i, requested) == AbsDiff(j, requested) && i <= j)
  }

  /** `min_by_key` over ascending candidates: the first of the closest. */
  function FirstClosest(candidates: seq<u16>, requested: u16): (r: Option<u16>)
    requires forall j, k | 0 <= j < k < |candidates| :: candidates[j] < candidates[k]
    ensures r.None? <==> candidates == []
    ensures r.Some? ==> Closest(r.value, candidates, requested)
  {
    if candidates == [] then None else
    match FirstClosest(candidates[1..], requested)
    case None => Some(candidates[0])
    case Some(i) =>
      if AbsDiff(candidates[0], requested) <= AbsDiff(i, requested) then Some(candidates[0]) else Some(i)
  }

  /** The calibrated index nearest to the requested one; the lower one on a tie. */
  function Nearest(p: Profile, requested: u16, participating: set<string>): (r: Option<u16>)
    ensures r.None? <==> forall i: u16 :: !IsAvailable(p, participating, i)
    ensures r.Some? ==>
      && IsAvailable(p, participating, r.value)
      && forall j: u16 | IsAvailable(p, participating, j) ::
           AbsDiff(r.value, requested) < AbsDiff(j, requested)
           || (AbsDiff(r.value, requested) == AbsDiff(j, requested) && r.value <= j)
  {
    FirstClosest(Available(p, participating), requested)
  }

  /** An available index is its own nearest one. */
  lemma NearestOfAvailable(p: Profile, index: u16, participating: set<string>)
    requires IsAvailable(p, participating, index)
    ensures Nearest(p, index, participating) == Some(index)
  {
  }

  // ---------------------------------------------------------------- the library

  predicate HasProfile(l: Library, id: u64) {
    exists p <- l.profiles :: p.id == id
  }

  /** What `Library::load` checks. */
  predicate Loadable(l: Library) {
    && |l.profiles| <= MAX_PROFILES
    && (forall p <- l.profiles :: ValidProfile(p))
    && (forall i, j | 0 <= i < j < |l.profiles| :: l.profiles[i].id != l.profiles[j].id)
    && (l.active.None? || HasProfile(l, l.active.value))
  }

  method CheckLoaded(l: Library) returns (ok: bool)
    ensures ok <==> Loadable(l)
  {
    if |l.profiles| > MAX_PROFILES {
      return false;
    }
    var ids: set<u64> := {};
    for i := 0 to |l.profiles|
      invariant forall j | 0 <= j < i :: ValidProfile(l.profiles[j])
      invariant ids == set j | 0 <= j < i :: l.profiles[j].id
      invariant forall j, k | 0 <= j < k < i :: l.profiles[j].id != l.profiles[k].id
    {
      var valid := Validate(l.profiles[i]);
      if !valid || l.profiles[i].id in ids {
        return false;
      }
      ids := ids + {l.profiles[i].id};
    }
    ok := l.active.None? || l.active.value in ids;
  }

  /** Position of the first profile with the id, or the length. */
  function IndexOf(profiles: seq<Profile>, id: u64): (k: nat)
    ensures k <= |profiles|
    ensures k < |profiles| ==> profiles[k].id == id
    ensures forall j | 0 <= j < k :: profiles[j].id != id
  {
    if profiles == [] || profiles[0].id == id then 0 else 1 + IndexOf(profiles[1..], id)
  }

  lemma {:induction false} IndexOfIs(profiles: seq<Profile>, id: u64, k: nat)
    requires k <= |profiles| && (k < |profiles| ==> profiles[k].id == id)
    requires forall j | 0 <= j < k :: profiles[j].id != id
    ensures IndexOf(profiles, id) == k
  {
  }

  function Find(l: Library, id: u64): (r: Option<Profile>)
    ensures r.Some? <==> HasProfile(l, id)
    ensures r.Some? ==> r.value in l.profiles && r.value.id == id
  {
    var k := IndexOf(l.profiles, id);
    if k < |l.profiles| then Some(l.profiles[k]) else None
  }

  function Current(l: Library): Option<Profile> {
    match l.active
    case None => None
    case Some(id) => Find(l, id)
  }

  /** The library with the volume of profile `id` changed. */
  function WithVolume(l: Library, id: u64, volume: u16): Library {
    var k := IndexOf(l.profiles, id);
    if k < |l.profiles| then l.(profiles := l.profiles[k := l.profiles[k].(volume := volume)]) else l
  }

  function MaxId(profiles: seq<Profile>): (m: u64)
    ensures forall p <- profiles :: p.id <= m
  {
    if profiles == [] then 0 else Max(profiles[0].id, MaxId(profiles[1..]))
  }

  /** `Library::put`: stores a profile under its id, a new one under the next free id. */
  function Put(l: Library, profile: Profile): Result<Library> {
    var profile := profile.(name := Trim(profile.name));
    if !ValidProfile(profile) then Failure
    else if profile.id == 0 then
      if |l.profiles| >= MAX_PROFILES || MaxId(l.profiles) + 1 >= U64_MODULUS then Failure
      else Success(Store(l, profile.(id := MaxId(l.profiles) + 1)))
    else Success(Store(l, profile))
  }

  function Store(l: Library, profile: Profile): Library {
    var k := IndexOf(l.profiles, profile.id);
    Library(Some(profile.id),
            if k < |l.profiles| then l.profiles[k := profile] else l.profiles + [profile])
  }

  /** Storing a valid profile keeps the library loadable exactly when it replaces one
      or there is room. */
  lemma StoreLoadable(l: Library, profile: Profile)
    requires Loadable(l) && ValidProfile(profile)
    ensures Loadable(Store(l, profile)) <==> HasProfile(l, profile.id) || |l.profiles| < MAX_PROFILES
    ensures Current(Store(l, profile)) == Some(profile)
    ensures forall id | id != profile.id :: Find(Store(l, profile), id) == Find(l, id)
  {
    var r := Store(l, profile);
    var k := IndexOf(l.profiles, profile.id);
    assert k < |r.profiles| && r.profiles[k] == profile;
    assert HasProfile(r, profile.id);
    forall id: u64 | id != profile.id
      ensures Find(r, id) == Find(l, id)
    {
      var j := IndexOf(l.profiles, id);
      IndexOfIs(r.profiles, id, if j < |l.profiles| then j else |r.profiles|);
    }
  }
}
