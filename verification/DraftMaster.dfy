/** Which devices a draft profile covers once its master is set
    (windows-server/src/application/volume_control.rs:216-271). */
module DraftMaster {
  import opened Numbers
  import opened ControlMessages
  import opened VolumeProfiles
  import opened VolumeModel
  import RegistryModel

  /** Position of the follower with the id, or the length. */
  function FollowerIndex(followers: seq<Follower>, id: string): (k: nat)
    ensures k <= |followers|
    ensures k < |followers| ==> followers[k].device.id == id
    ensures forall j | 0 <= j < k :: followers[j].device.id != id
  {
    if followers == [] || followers[0].device.id == id then 0 else 1 + FollowerIndex(followers[1..], id)
  }

  /** A known follower keeps its mapping only in the range it was measured in. */
  function Place(followers: seq<Follower>, d: DeviceStatus): seq<Follower> {
    var k := FollowerIndex(followers, d.deviceId);
    if k == |followers| then followers + [Follower(FromStatus(d), map[])]
    else if Matches(followers[k].device, d) then followers
    else followers[k := Follower(FromStatus(d), map[])]
  }

  function PlaceAll(followers: seq<Follower>, masterId: string, devices: seq<DeviceStatus>): seq<Follower> {
    if devices == [] then followers else
    var placed := PlaceAll(followers, masterId, devices[..|devices| - 1]);
    var d := devices[|devices| - 1];
    if d.deviceId == masterId || !Usable(d) then placed else Place(placed, d)
  }

  /** The draft that goes on if the master is the same, or a new one. */
  function Base(draft: Option<Profile>, master: DeviceStatus): Profile {
    if draft.Some? && Matches(draft.value.master, master) then draft.value
    else Profile(0, "新配置", FromStatus(master), [], master.volume)
  }

  function WithMaster(draft: Option<Profile>, master: DeviceStatus, devices: seq<DeviceStatus>): Profile {
    var base := Base(draft, master);
    base.(followers := PlaceAll(base.followers, base.master.id, devices))
  }

  /** Sets the master of the draft; every other usable device becomes a follower. */
  method SetMaster(editing: bool, draft: Option<Profile>, master: DeviceStatus, devices: seq<DeviceStatus>)
    returns (result: Result<Profile>)
    ensures result.Success? <==> editing && Usable(master)
    ensures result.Success? ==> result.value == WithMaster(draft, master, devices)
  {
    if !Usable(master) || !editing {
      return Failure;
    }
    var profile := Base(draft, master);
    assert devices[..|devices|] == devices;
    for j := 0 to |devices|
      invariant profile == Base(draft, master).(
        followers := PlaceAll(Base(draft, master).followers, Base(draft, master).master.id, devices[..j]))
    {
      var d := devices[j];
      assert devices[..j + 1][..j] == devices[..j];
      if d.deviceId != profile.master.id && Usable(d) {
        var k := FollowerIndex(profile.followers, d.deviceId);
        if k == |profile.followers| {
          profile := profile.(followers := profile.followers + [Follower(FromStatus(d), map[])]);
        } else if !Matches(profile.followers[k].device, d) {
          profile := profile.(followers := profile.followers[k := Follower(FromStatus(d), map[])]);
        }
      }
    }
    return Success(profile);
  }

  // ----- what the draft covers -----

  ghost predicate Distinct(followers: seq<Follower>, masterId: string) {
    && (forall f <- followers :: f.device.id != masterId)
    && forall j, k | 0 <= j < k < |followers| :: followers[j].device.id != followers[k].device.id
  }

  /** Every mapping is one of `before`, with the very device it was measured for. */
  ghost predicate MappingsFrom(followers: seq<Follower>, before: seq<Follower>) {
    forall f <- followers :: f.mapping == map[] || f in before
  }

  ghost predicate Covers(followers: seq<Follower>, masterId: string, d: DeviceStatus) {
    d.deviceId != masterId && Usable(d) ==> exists f <- followers :: f.device.id == d.deviceId
  }

  lemma PlaceKeeps(followers: seq<Follower>, before: seq<Follower>, masterId: string, d: DeviceStatus)
    requires Distinct(followers, masterId) && MappingsFrom(followers, before) && d.deviceId != masterId
    ensures Distinct(Place(followers, d), masterId) && MappingsFrom(Place(followers, d), before)
    ensures forall f <- followers :: exists g <- Place(followers, d) :: g.device.id == f.device.id
    ensures exists f <- Place(followers, d) :: f.device.id == d.deviceId && (Usable(d) ==> Matches(f.device, d))
  {
    var k, placed := FollowerIndex(followers, d.deviceId), Place(followers, d);
    assert placed[k] in placed;
    forall f | f in followers
      ensures exists g <- placed :: g.device.id == f.device.id
    {
      var j :| 0 <= j < |followers| && followers[j] == f;
      assert placed[j] in placed;
    }
  }

  /** Ids stay distinct, mappings stay with the device they were measured for, and every
      usable device but the master is covered. */
  lemma {:induction false} PlaceAllCovers(followers: seq<Follower>, masterId: string, devices: seq<DeviceStatus>)
    requires Distinct(followers, masterId)
    ensures var placed := PlaceAll(followers, masterId, devices);
            && Distinct(placed, masterId) && MappingsFrom(placed, followers)
            && (forall d <- devices :: Covers(placed, masterId, d))
            && forall f <- followers :: exists g <- placed :: g.device.id == f.device.id
  {
    if devices != [] {
      var front, d := devices[..|devices| - 1], devices[|devices| - 1];
      PlaceAllCovers(followers, masterId, front);
      assert devices == front + [d];
      if d.deviceId != masterId && Usable(d) {
        PlaceKeeps(PlaceAll(followers, masterId, front), followers, masterId, d);
      }
    }
  }

  /** A draft with a new master starts without an id and without mappings; one that goes on
      keeps its id, and its mappings only for the devices they were measured on. */
  lemma MasterKeepsMeasurements(draft: Option<Profile>, master: DeviceStatus, devices: seq<DeviceStatus>)
    requires draft.Some? ==> Distinct(draft.value.followers, draft.value.master.id)
    ensures var result, same := WithMaster(draft, master, devices),
                                draft.Some? && Matches(draft.value.master, master);
            && result.master.id == master.deviceId && Distinct(result.followers, master.deviceId)
            && result.id == (if same then draft.value.id else 0)
            && (forall d <- devices :: Covers(result.followers, master.deviceId, d))
            && forall f <- result.followers | f.mapping != map[] :: same && f in draft.value.followers
  {
    var base := Base(draft, master);
    PlaceAllCovers(base.followers, base.master.id, devices);
  }

  /** To the rest of the controller it is an edit of the draft. */
  function SetMasterOf(w: World, master: DeviceStatus): Outcome {
    if !Usable(master) then Outcome(w, false)
    else
      var listed := Originals(RegistryModel.Snapshots(w.registry), w.registry.nextId);
      var devices := seq(|listed|, k requires 0 <= k < |listed| => listed[k].1);
      EditDraft(w, Some(WithMaster(w.state.draft, master, devices)))
  }

  /** The master is set exactly while the window is open and it is an adjustable speaker with an id
      and a range; then the draft is the one placed over every reported device, and nothing else
      changes. */
  lemma SettingMasterIsExact(w: World, master: DeviceStatus)
    ensures var o := SetMasterOf(w, master);
            && (o.ok <==> w.state.editing && master.speaker && !master.fixed && !master.failed
                          && master.deviceId != "" && master.minimum < master.maximum)
            && o.world == w.(state := w.state.(draft := o.world.state.draft))
            && (!o.ok ==> o.world == w)
            && (o.ok ==> o.world.state.draft.Some? && exists devices: seq<DeviceStatus> ::
                  (forall d :: d in devices <==> exists id | id in w.registry.receivers && id < w.registry.nextId
                                                            :: w.registry.receivers[id].device == Some(d))
                  && o.world.state.draft.value == WithMaster(w.state.draft, master, devices))
  {
    if SetMasterOf(w, master).ok {
      var snapshots := RegistryModel.Snapshots(w.registry);
      var listed := Originals(snapshots, w.registry.nextId);
      var devices := seq(|listed|, k requires 0 <= k < |listed| => listed[k].1);
      OriginalsListed(snapshots, w.registry.nextId);
      forall d
        ensures d in devices <==> exists id | id in w.registry.receivers && id < w.registry.nextId
                                              :: w.registry.receivers[id].device == Some(d)
      {
        if d in devices {
          var k :| 0 <= k < |devices| && devices[k] == d;
          assert listed[k] in listed;
        }
        if id :| id in w.registry.receivers && id < w.registry.nextId && w.registry.receivers[id].device == Some(d) {
          assert id in snapshots && (id, d) in listed;
          var k :| 0 <= k < |listed| && listed[k] == (id, d);
          assert devices[k] == d;
        }
      }
    }
  }

  lemma {:induction false} OriginalsListed(devices: map<nat, DeviceStatus>, bound: nat)
    ensures forall o <- Originals(devices, bound) :: o.0 < bound && o.0 in devices && devices[o.0] == o.1
    ensures forall id <- devices :: id < bound ==> (id, devices[id]) in Originals(devices, bound)
  {
    if bound > 0 {
      OriginalsListed(devices, bound - 1);
    }
  }
}
