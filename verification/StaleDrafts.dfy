/** A draft that names a profile no longer in a full library is stored as a 129th one: a run in which that happens
    (windows-server/src/application/volume_control.rs, windows-server/src/volume_profiles.rs). */
module StaleDrafts {
  import opened Numbers
  import opened Text
  import opened VolumeProfiles
  import opened RegistryModel
  import opened VolumeModel
  import opened VolumeRuns
  import opened Persistence

  lemma RunLonger(w: World, events: seq<Event>, e: Event)
    ensures Run(w, events + [e]) == Next(Run(w, events), e)
  {
    assert (events + [e])[..|events|] == events;
  }

  lemma RunTwo(w: World, a: Event, b: Event)
    ensures Run(w, [a, b]) == Next(Next(w, a), b)
  {
    RunLonger(w, [], a);
    RunLonger(w, [a], b);
    assert [] + [a] == [a] && [a] + [b] == [a, b];
  }

  lemma Opened(l: Library)
    ensures Next(Initial(Some(l)), OpenEvent).state == NewState(l, false).(
              editing := true, draft := Current(l), originals := Originals(map[], 0))
    ensures Next(Initial(Some(l)), OpenEvent).saves == []
  {
    assert Snapshots(EmptyRegistry) == map[];
  }

  lemma Edited(w: World, draft: Profile)
    requires w.state.editing
    ensures Next(w, EditEvent(Some(draft))) == w.(state := w.state.(draft := Some(draft)))
  {
  }

  /** A draft ready to be saved beside the profiles of `l`. */
  ghost predicate Ready(w: World, l: Library, draft: Profile) {
    && w.state.editing && !w.state.loadError && w.saves == []
    && w.state.library == l && Persisted(w.state) == l && w.state.draft == Some(draft)
  }

  /** The draft is one that a save takes, of a profile that the full library no longer has. */
  ghost predicate IsStale(l: Library, draft: Profile, name: string) {
    && Loadable(l) && |l.profiles| == MAX_PROFILES
    && draft.id != 0 && !HasProfile(l, draft.id)
    && SavedDraft(draft, name, false).Some? && Put(l, SavedDraft(draft, name, false).value).Success?
  }

  lemma SaveWrites(w: World, l: Library, draft: Profile, name: string)
    requires Ready(w, l, draft) && IsStale(l, draft, name)
    ensures SaveDraft(w, name, false, true).world.saves == [Put(l, SavedDraft(draft, name, false).value).value]
  {
  }

  lemma SavedNext(w: World, name: string)
    ensures Next(w, SaveEvent(name, false, true)).saves == SaveDraft(w, name, false, true).world.saves
  {
    hide SaveDraft;
  }

  lemma SaveOverfills(w: World, l: Library, draft: Profile, name: string)
    requires Ready(w, l, draft) && IsStale(l, draft, name)
    ensures LibraryToSave(w.state, name, false) == Some(Put(l, SavedDraft(draft, name, false).value).value)
    ensures !DraftFits(w.state, false) && !Loadable(Put(l, SavedDraft(draft, name, false).value).value)
  {
    PutIsLoadableExactly(l, SavedDraft(draft, name, false).value);
  }

  lemma BecomesReady(l: Library, draft: Profile)
    requires Loadable(l)
    ensures Ready(Run(Initial(Some(l)), [OpenEvent, EditEvent(Some(draft))]), l, draft)
  {
    RunTwo(Initial(Some(l)), OpenEvent, EditEvent(Some(draft)));
    Opened(l);
    Edited(Next(Initial(Some(l)), OpenEvent), draft);
    FreshIsKept(NewState(l, false), l, LoadedVolumes(Some(l)));
  }

  /** From any full library that loads: once the editor is opened and a calibrated draft of a
      profile that the library does not have is set and saved, what is written does not load. */
  lemma StaleDraftOverfills(l: Library, draft: Profile, name: string) returns (overfull: Library)
    requires IsStale(l, draft, name)
    ensures var edits := [OpenEvent, EditEvent(Some(draft))];
            && LibraryToSave(Run(Initial(Some(l)), edits).state, name, false) == Some(overfull)
            && !DraftFits(Run(Initial(Some(l)), edits).state, false)
            && Run(Initial(Some(l)), edits + [SaveEvent(name, false, true)]).saves == [overfull]
    ensures !Loadable(overfull)
  {
    var edits := [OpenEvent, EditEvent(Some(draft))];
    var w := Run(Initial(Some(l)), edits);
    overfull := Put(l, SavedDraft(draft, name, false).value).value;
    hide Run, Next, SaveDraft, LibraryToSave, DraftFits, Ready, Put, SavedDraft, Loadable;
    SavedNext(w, name);
    BecomesReady(l, draft);
    RunLonger(Initial(Some(l)), edits, SaveEvent(name, false, true));
    SaveWrites(w, l, draft, name);
    SaveOverfills(w, l, draft, name);
  }

  // ----- there is such a library and such a draft -----

  /** A calibrated profile of two phones. */
  function Room(id: u64): Profile {
    Profile(id, "Room", DeviceRange("m", "", 0, 15), [Follower(DeviceRange("f", "", 0, 15), map[3 := 3])], 3)
  }

  function Rooms(n: nat): (r: seq<Profile>)
    requires n < 1000
    ensures |r| == n
    ensures forall k | 0 <= k < n :: r[k] == Room(k + 1)
  {
    if n == 0 then [] else Rooms(n - 1) + [Room(n)]
  }

  function FullHouse(): Library {
    Library(None, Rooms(MAX_PROFILES))
  }

  lemma RoomIsValid(id: u64)
    ensures ValidProfile(Room(id)) && Trim("Room") == "Room"
  {
    assert TrimStart("Room") == "Room" && TrimEnd("Room") == "Room";
    assert Devices(Room(id)) == [Room(id).master, Room(id).followers[0].device];
  }

  lemma FullHouseIsLoadable()
    ensures Loadable(FullHouse()) && !HasProfile(FullHouse(), 1000)
  {
    forall p | p in FullHouse().profiles
      ensures ValidProfile(p) && p.id <= MAX_PROFILES
    {
      RoomIsValid(p.id);
    }
  }

  lemma RoomIsSaved(id: u64)
    ensures SavedDraft(Room(id), "Room", false) == Some(Room(id))
  {
    RoomIsValid(id);
    var room := Room(id);
    assert room.followers[0] in room.followers && 3 in room.followers[0].mapping;
    assert "f" in Calibrated(room);
    NearestOfAvailable(room, 3, Calibrated(room));
  }

  lemma FullHouseIsStale(l: Library)
    requires l == FullHouse()
    ensures IsStale(l, Room(1000), "Room")
  {
    FullHouseIsLoadable();
    RoomIsValid(1000);
    RoomIsSaved(1000);
  }

  /** A run of three events that starts from a loaded library and writes one that does not load. */
  lemma UnloadableIsWritten() returns (l: Library, events: seq<Event>)
    ensures Loadable(l) && |events| == 3
    ensures exists overfull <- Run(Initial(Some(l)), events).saves :: !Loadable(overfull)
  {
    l := FullHouse();
    FullHouseIsStale(l);
    var draft := Room(1000);
    var overfull := StaleDraftOverfills(l, draft, "Room");
    events := [OpenEvent, EditEvent(Some(draft))] + [SaveEvent("Room", false, true)];
    assert overfull in Run(Initial(Some(l)), events).saves;
  }
}
