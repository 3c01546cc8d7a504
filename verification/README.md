# Soundwave in Dafny

Soundwave streams what a Windows PC plays to several Android phones and keeps their speakers
at matching loudness. This project models the deterministic state machines of both programs
and proves what they promise. Five groups are covered:

1. **The group volume protocol** of the server. One master phone leads calibrated followers;
   each phone's playback gate may open only while the whole group is at its calibrated
   volumes. `VolumeControl` and `Registry` are the two classes, `VolumeModel` and
   `RegistryModel` what they compute, `VolumeRuns` all interleavings of user, network and
   ticks; `InterleavedModel` takes the operations apart into their calls, with the network at
   work between any two, and `AtomicSteps` relates the two; `DraftMaster` places the devices of
   a draft. The theorems are in `GateSafety`, `InterleavedSafety`, `Persistence`,
   `InterleavedSaves`, `Confirmation`, `DraftIds`, `StaleDrafts`, `PanelIntent`, `KeyPresses`,
   `Convergence`, `Settling` and `EditingSessions`; `TickOutcomes`, `ReportEffects` and
   `ReceiverTraffic` say in the protocol's own terms what each decision comes to.
2. **The receive pipeline** of the phone. `Jitter`, `Ring` and `Receiver` are the classes.
   `JitterIdeal`, `JitterRefinement` and `JitterOnWire` relate 32-bit sequence numbers,
   compared in the style of section 3.2 of RFC 1982, to unbounded positions; `JitterLaws` and
   `JitterReordering` say what the buffer loses and when; `ConcurrentRing` takes the
   lock-free ring apart into its atomic steps; `RingPlayback` says when a ring plays;
   `Adaptation`, `Stutter`, `StereoAlignment` and `RestartedStream` are about whole runs of the
   pipeline.
3. **The send pipeline** of the server: `Capture`, `Packetizer`, `AudioPackets`, `Silence` and
   `AudioSender`. `StreamConservation` follows samples from capture to the packets, and
   `AudibleStream` through loop, network and pipeline to the phone's ring.
   `IdleClient` and `IdleProtocol` join the sender's idle notices with the phone's boundary
   over a lossy, reordering channel and an ordered one.
4. **Tones and calibration**: `DeviceControl` with its `ToneGrammar` and `ToneAnswers`, the
   phone's `PhoneVolume` with `PhoneCommands` and `PhoneSessions`, and the server's
   `Calibration`. `CalibrationCourse` says what a calibration asks and what must be answered for
   it to succeed, `CalibrationLog` and `CalibrationCurves` what an exchange shows,
   `CalibrationEvidence` that a success shows what it should, `CalibrationFaults` that a run fails
   exactly if an answer was bad, and `CalibrationAcross` joins a run with the lives of its phones.
5. **Pairing**: `Pairing` and `Fingerprints`, the printer in Rust and the parser in Kotlin.

What the source changes step by step is a class whose methods are proved against functions of
its value (the modules ending in `Model`); laws about those functions are lemmas. What a
program cannot decide is a parameter: answers of the network, of other devices and of the
operating system are given for every call, so each statement holds for all of them. Clocks are
natural numbers of milliseconds. Machine integers are written out where they wrap or saturate
(`Numbers`). `dafny verify dfyconfig.toml` checks the project.

## Where the code falls short of its promise

The model follows the code. Each of these has a lemma with an input that breaks the promise, or
one that says exactly when it is kept, or both.

- A draft whose id is not in the library and not 0 is stored by `Library::put` without the
  check for 128 profiles, so a library of 129 can be saved that `load` refuses
  (`StaleDrafts.StaleDraftOverfills`, `StaleDrafts.UnloadableIsWritten`; exactly when,
  `Persistence.SavedIsLoadableExactly`). While edits keep the draft's id 0 or one of the
  library, as the user interface does, no such draft arises (`DraftIds.KnownEditsSaveSoundly`).
- On the phone, a Cancel command that finds its session expired reports success even if the
  restoration on expiry failed, because the failure is overwritten by the cancel of a session
  that no longer exists (`PhoneSessions.ExpiredCancelReportsSuccess`,
  `PhoneSessions.CancelIsHonestExactly`, and for all commands
  `PhoneSessions.FailedExpiryIsHiddenExactly`). The server's check of the reported volume
  catches it (`CalibrationAcross.ConfirmationIsRestoration`).
- Sequence numbers a distance of exactly 2^31 apart are decided as "before", so a phone that is
  idle while 2^31 packets are lost misses its boundary when the next one arrives
  (`IdleProtocol.LateArrivalIsMissed`). The idle protocol survives 32-bit numbers exactly up to
  2^31 packets (`IdleProtocol.SafeExactly`).
- A ring of odd capacity would swap left and right on its first overflow
  (`RingModel.WriteKeepsFrames`); the phone's has 9600 samples.

The repository's README speaks of protocol version 6 where the code says 8; no statement here
depends on the version.

## Model

| member | source | states |
|---|---|---|
| `GateSafety.GatesAreSafe` | windows-server/src/application/volume_control.rs:431-616 | over every run of user actions, network events and ticks, an open playback gate means: not editing, a profile active, nothing pending or blocked for that receiver, and its last report is a usable master at exactly the profile's volume or a follower at exactly the mapped one |
| `InterleavedSafety.GatesAreSafeAmid` | windows-server/src/application/volume_control.rs:121-616 | the same over every run in which the network acts between any two calls of an operation to the registry: in ticks, in opening and closing the editor, in panel choices and at shutdown |
| `InterleavedSafety.TickAmidIsSafe` | windows-server/src/application/volume_control.rs:431-616 | from any state with every receiver id below the next one and no originals kept outside editing, whatever the network does before any of the tick's calls and after the last, every exit leaves only safe gates open |
| `InterleavedSafety.TickAmidIsAllOrNone` | windows-server/src/application/volume_control.rs:584-598 | when the last call of a tick returns, whatever the network did before each, either no gate is open or exactly those of the one master and the participating followers in its snapshot, each reporting the volume the profile gives it |
| `InterleavedSafety.ServedOnlyShuts` | windows-server/src/application/volume_control.rs:552-583 | while a tick asks its targets one by one, whatever the network does in between, no gate opens and none stays open on a changed device |
| `InterleavedSafety.ServedReady` | windows-server/src/application/volume_control.rs:552-583 | it finds the group ready only with every target at its volume in the snapshot and nothing outstanding, blocked or newly asked |
| `InterleavedSaves.SavesAreSoundAmid` | windows-server/src/application/volume_control.rs:75-83 | the persistence law below over every run in which the network acts between any two calls: each library handed to save loads again, and its volumes were loaded, saved with a draft, or shown by a tick's snapshot to be reached by the whole group |
| `AtomicSteps.TickIsAmid` | windows-server/src/application/volume_control.rs:431-616 | the tick as one step, on which the laws of whole runs below rest, is the tick call by call with a network that acts after its snapshot and before its gates are set or after its barrier is renewed |
| `AtomicSteps.RequestVolumeIsAmid` | windows-server/src/application/volume_control.rs:380-429 | a panel choice as one step is the choice call by call with a network at rest |
| `AtomicSteps.CloseIsAmid` | windows-server/src/application/volume_control.rs:183-214 | closing the editor as one step is closing it call by call with a network at rest |
| `GateSafety.ApproveIsSafe` | windows-server/src/application/registry.rs:162-185 | the recheck inside approve makes gates safe even if reports arrived since the tick's snapshot |
| `GateSafety.ApplyOnlyShuts` | windows-server/src/application/registry.rs:321-408 | no report, registration or removal opens a gate; one that changes a device shuts its gate |
| `GateSafety.NextIsSafe` | windows-server/src/application/volume_control.rs:166-429 | every single operation keeps the gate invariant |
| `Persistence.SavesAreSound` | windows-server/src/application/volume_control.rs:75-83 | over every run in which a draft that is saved has id 0, an id of the library or room for one more profile, each library handed to save passes every check of load, and each volume in it was loaded, saved with a draft, or shown by one tick's snapshot to be reached by the whole group |
| `DraftIds.KnownEditsSaveSoundly` | windows-server/src/application/volume_control.rs:280-334 | the same for every run in which edits give the draft id 0 or an id of the library at that moment: saving, deleting, selecting, ticks and volume choices keep it so |
| `DraftIds.TickKeepsIds` | windows-server/src/application/volume_control.rs:527-538 | a tick changes no profile id and no draft |
| `DraftIds.SetMasterIsKnown` | windows-server/src/application/volume_control.rs:227-269 | setting the master is such an edit |
| `Persistence.PutIsLoadableExactly` | windows-server/src/volume_profiles.rs:192-214 | what put makes of a loadable library is loadable exactly when it replaces a profile, stores one under a new id, or there is room: a draft with a stale id is stored without the check for 128 profiles |
| `Persistence.SavedIsLoadableExactly` | windows-server/src/application/volume_control.rs:301-334 | exactly when the library of a saved draft can be loaded again, in terms of the draft's id and the number of profiles |
| `StaleDrafts.StaleDraftOverfills` | windows-server/src/application/volume_control.rs:305-341 | from any full library that loads: opening the editor, setting a draft that a save takes and whose id is not 0 nor in the library, and saving it writes a library of 129 profiles that load refuses |
| `StaleDrafts.UnloadableIsWritten` | windows-server/src/volume_profiles.rs:192-214 | such a library and draft exist: a run of three events from a loaded library whose save does not load again |
| `Persistence.RequestedIsNotPersisted` | windows-server/src/application/volume_control.rs:75-83 | changing the profile's volume on request leaves the library that would be saved as it was |
| `Confirmation.TickConfirmsReached` | windows-server/src/application/volume_control.rs:487-616 | whatever the world, a tick changes the confirmed volume only to one that its own snapshot shows the whole group to be at: the one master at it, every calibrated follower that is connected once at its volume for it |
| `Persistence.TickKeeps` | windows-server/src/application/volume_control.rs:599-615 | a tick saves only the confirmed volume of the active profile, and only volumes sanctioned so far or reached now |
| `Persistence.SavedContents` | windows-server/src/application/volume_control.rs:301-334 | a saved draft becomes the active profile at a calibrated volume; every other profile keeps its persisted volume |
| `PanelIntent.PanelIntentWins` | windows-server/src/application/volume_control.rs:380-429 | a successful set_volume raises a barrier under a fresh request on the only phone that matches the master and picks v, the calibrated index nearest to the request; then any mix of reports, other events and ticks before the newest barrier's receipt leaves the profile at v and a barrier standing, while that phone stays the only match and v stays available |
| `PanelIntent.OnlyItsReceiptLifts` | windows-server/src/application/registry.rs:348-367 | a panel barrier is lifted by the receipt of exactly its own request; any other event short of the phone leaving keeps it |
| `PanelIntent.BarriersAlwaysHide` | windows-server/src/application/registry.rs:224-254 | over every run, a receiver with a barrier holds no unsolicited volume |
| `PanelIntent.TickHolds` | windows-server/src/application/volume_control.rs:487-538 | behind the barrier a tick never follows the phone's own volume, and leaves the barrier as it was or renews it by a new request for the same volume |
| `Convergence.GroupConverges` | windows-server/src/application/volume_control.rs:431-600 | from a calm world with one matching master and a common calibrated index, with phones that acknowledge each SetVolume, the third tick and every later one has exactly the whole group's gates open, each device at its calibrated volume |
| `Settling.GroupSettles` | windows-server/src/application/volume_control.rs:431-616 | without rounds: from a calm world whose replies are no newer than its requests, a tick and then any run of at least one more tick, polls, sent messages and answers in any order and at any time under 4 s, while queues have room and no answer waiting for a tick is pushed out of the reply history; the next tick that finds every request answered and every queue empty opens exactly the group's gates at calibrated volumes and leaves a converged world |
| `Settling.TickFlies` | windows-server/src/application/volume_control.rs:431-600 | a tick in the middle of this takes the answers that have come, blocks nobody, and leaves every phone of the group at its volume or with a request for it outstanding |
| `Settling.EventFlies` | windows-server/src/application/registry.rs:321-389 | each tick, poll, sent message or answer keeps this state; a target once asked for stays reached or outstanding |
| `Convergence.ConvergedTick` | windows-server/src/application/volume_control.rs:584-601 | once there, a tick opens exactly the group's gates and changes nothing that matters to the next |
| `Convergence.FencedTick` | windows-server/src/application/volume_control.rs:487-514 | with a fence or barrier due, one tick queues exactly one message in the whole registry, the request to the master for the nearest available volume, and its receipt leaves a calm world |
| `Convergence.UnfencedTick` | windows-server/src/application/volume_control.rs:552-598 | without one, a single tick and the phones' answers bring every device to its volume |
| `Convergence.AckIsNetwork` | windows-server/src/application/registry.rs:321-389 | the phones' acknowledgements in these statements are ordinary network events of the registry |
| `VolumeControl.VolumeController.constructor` | windows-server/src/application/volume_control.rs:95-136 | the state after a load, with saving forbidden if the load failed |
| `VolumeControl.VolumeController.Open` | windows-server/src/application/volume_control.rs:166-181 | opening the editor: refused while editing or pending, otherwise all gates shut and every device's volume remembered, with network events before both calls |
| `VolumeControl.VolumeController.Close` | windows-server/src/application/volume_control.rs:183-214 | closing it: sessions cancelled, every remembered volume asked back, nothing else pending or blocked, with network events before each call |
| `VolumeControl.VolumeController.RememberDevice` | windows-server/src/application/volume_control.rs:273-278 | a device is remembered once, and only while editing |
| `VolumeControl.VolumeController.SaveDraft` | windows-server/src/application/volume_control.rs:301-334 | the new library, confirmed volume and draft of a save, and what stays when it fails |
| `VolumeControl.VolumeController.Select` | windows-server/src/application/volume_control.rs:336-361 | activating a profile saves it, shuts all gates and demands a fence; while editing it only loads the draft |
| `VolumeControl.VolumeController.Delete` | windows-server/src/application/volume_control.rs:363-378 | the library without the profile, saved before it takes effect |
| `VolumeControl.VolumeController.Finish` | windows-server/src/application/volume_control.rs:138-154 | the exit saves the persisted library if and only if something is unsaved |
| `VolumeControl.VolumeController.SetVolume` | windows-server/src/application/volume_control.rs:380-429 | the whole new state and registry of a panel volume choice, and its four refusals, with network events before each call |
| `VolumeControl.VolumeController.Tick` | windows-server/src/application/volume_control.rs:431-616 | the whole new state, registry and saves of a tick, with network events before each of its calls to the registry and after the last |
| `VolumeControl.VolumeController.JudgePending` | windows-server/src/application/volume_control.rs:438-466 | settled requests are dropped in ascending order; failed or overdue ones block their receiver |
| `VolumeControl.VolumeController.Steer` | windows-server/src/application/volume_control.rs:467-514 | which phone leads, and whether a barrier must be raised first |
| `VolumeControl.VolumeController.Drive` | windows-server/src/application/volume_control.rs:515-538 | which volume the group follows |
| `VolumeControl.VolumeController.ServeTargets` | windows-server/src/application/volume_control.rs:552-583 | who is asked for its volume, and whether the group is ready |
| `VolumeControl.VolumeController.Conclude` | windows-server/src/application/volume_control.rs:584-615 | approval, confirmation and the delayed save |
| `DraftMaster.SetMaster` | windows-server/src/application/volume_control.rs:216-271 | succeeds exactly while editing with an adjustable speaker, and gives the draft with its followers placed |
| `DraftMaster.SettingMasterIsExact` | windows-server/src/application/volume_control.rs:216-271 | the master is set exactly while the window is open and it is an adjustable speaker with an id and a range, over every reported device, and nothing else changes |
| `DraftMaster.MasterKeepsMeasurements` | windows-server/src/application/volume_control.rs:227-269 | a draft keeps its id and mappings only if the master is the same, a follower keeps its mapping only on the very device it was measured on, ids stay distinct, and every usable device is covered |
| `KeyPresses.PressLeads` | windows-server/src/application/volume_control.rs:515-537 | a volume key pressed at a master that a tick has seen decides the next tick, whatever the network does meanwhile short of another report of the master or its leaving: the profile moves to the pressed volume, or the available one nearest to it, unsaved; without a press, or at a master newly seen, it stays at its own as far as that is available |
| `KeyPresses.PressLeadsAtOnce` | windows-server/src/application/volume_control.rs:515-537 | the same for the tick as one step |
| `KeyPresses.ReportedPressLeads` | windows-server/src/application/registry.rs:321-389 | from the key to the group: an unasked report of another volume by the leading master moves the profile to it, or the available one nearest to it, with the next tick |
| `KeyPresses.PressAsksFollowers` | windows-server/src/application/volume_control.rs:539-583 | by the same tick every calibrated follower that is connected once and not at its mapped volume is asked for it, unless a request to it is under way or it is blocked |
| `TickOutcomes.JudgementIsExact` | windows-server/src/application/volume_control.rs:438-466 | an outstanding request stays exactly if its phone is connected, silent and within four seconds; the phone is blocked exactly if it answered otherwise than asked or too late |
| `TickOutcomes.AnswersAreTaken` | windows-server/src/application/volume_control.rs:445-456 | the answer to it is taken, and nobody else's |
| `TickOutcomes.TargetIsServedExactly` | windows-server/src/application/volume_control.rs:553-583 | a target at its volume is left alone; one asked or blocked before keeps the group from being ready; any other is asked now, or blocked if it cannot be |
| `TickOutcomes.FenceIsExact` | windows-server/src/application/volume_control.rs:487-514 | renewing the barrier asks the master, unless it is blocked, for the available volume nearest to the profile's; a master that cannot be asked is blocked |
| `TickOutcomes.BarrierComesFirst` | windows-server/src/application/volume_control.rs:487-514 | with one master and a barrier due nothing else happens behind shut gates, unless a request to the master is outstanding; otherwise the group is driven |
| `TickOutcomes.PassEndsExactly` | windows-server/src/application/volume_control.rs:584-615 | a group not ready has its gates shut; a ready one has its volume confirmed and, once unsaved for half a second, saved, with four more seconds after a failure |
| `TickOutcomes.MasterlessPassShuts` | windows-server/src/application/volume_control.rs:467-479 | without an active profile or exactly one master the gates are shut and the master is forgotten |
| `TickOutcomes.IdlePassShuts` | windows-server/src/application/volume_control.rs:433-436 | with the window open a tick only shuts the gates |
| `TickOutcomes.ChoiceIsMade` | windows-server/src/application/volume_control.rs:380-429 | where the panel may choose, the master is asked under a barrier for the available volume nearest to the choice, the profile is there at once and unsaved, and nobody is blocked any more |
| `TickOutcomes.ChoiceIsRefused` | windows-server/src/application/volume_control.rs:380-415 | where it may not, nothing changes but a number that may be used up |
| `TickOutcomes.ShutDownTells` | windows-server/src/application/volume_control.rs:121-133 | at the end every gate is shut and every phone with room is told to end its session and tone |
| `EditingSessions.OpeningRemembersAll` | windows-server/src/application/volume_control.rs:166-181 | the window opens unless it is open or a request is outstanding, and then remembers every reported device once with its volume |
| `EditingSessions.OriginalsAreKept` | windows-server/src/application/volume_control.rs:273-278 | while it is open no remembered volume changes, and each phone is remembered at most once |
| `EditingSessions.ClosingAsksBack` | windows-server/src/application/volume_control.rs:183-214 | when it closes every phone is told to end tone and session, and every remembered one that can be told is asked back to its volume, and no other |
| `EditingSessions.SessionAsksEveryPhoneBack` | windows-server/src/application/volume_control.rs:166-214 | from opening to closing: every phone that had reported when the window opened, and can still be told, is asked back to the volume it had then, whatever happened in between |
| `EditingSessions.SelectingActivates` | windows-server/src/application/volume_control.rs:336-361 | when and how another profile becomes active or the draft, and what a refusal or a failed save leaves |
| `EditingSessions.DeletingRemoves` | windows-server/src/application/volume_control.rs:363-378 | when and how a profile is deleted: the others stay in order at their persisted volumes, and nothing is active if it was |
| `EditingSessions.FinishingSaves` | windows-server/src/application/volume_control.rs:138-154 | the exit saves exactly what is unsaved |
| `EditingSessions.SavingSucceedsExactly` | windows-server/src/application/volume_control.rs:301-334 | a draft is saved exactly if the window is open, the file may be written and is, the draft is calibrated, has a volume common to its calibrated followers and is valid under the name, and a copy or a new one finds a slot and an id |
| `EditingSessions.SavedIsStored` | windows-server/src/application/volume_control.rs:315-327 | the saved draft is what the library holds as the active profile, and the other profiles stay |
| `EditingSessions.SavingActivates` | windows-server/src/application/volume_control.rs:301-334 | a saved draft is active under its trimmed name and an old or new id, at the volume nearest to its own that all calibrated followers have |
| `EditingSessions.EditingReplacesDraft` | windows-server/src/application/volume_control.rs:280-299 | anything may become the draft, but only while the window is open |
| `Registry.ReceiverRegistry.Register` | windows-server/src/application/registry.rs:65-116 | a new receiver under a fresh id, its gate shut |
| `Registry.ReceiverRegistry.Approve` | windows-server/src/application/registry.rs:162-185 | the loop opens exactly the expected gates if every expected device is still as it was, and otherwise none |
| `Registry.ReceiverRegistry.DenyAll` | windows-server/src/application/registry.rs:156-160 | every gate shut, nothing else changed |
| `Registry.ReceiverRegistry.VolumeRequestWithBarrier` | windows-server/src/application/registry.rs:224-254 | the request, the expectation, and the newest barrier, which drops a stored unsolicited volume |
| `Registry.ReceiverRegistry.UpdateDevice` | windows-server/src/application/registry.rs:321-389 | how a report is cleaned, sorted into device change, key press or receipt, and stored |
| `Registry.ReceiverRegistry.Remove` | windows-server/src/application/registry.rs:391-408 | a receiver that leaves takes its gate with it |
| `ReportEffects.ReportReachesOne` | windows-server/src/application/registry.rs:321-341 | a report out of range or of nobody changes nothing, any other only the receiver it is from |
| `ReportEffects.ReportIsStored` | windows-server/src/application/registry.rs:329-341 | the stored status is the reported one with id and name of at most 80 allowed characters, and the first 80 of a text that has no others |
| `ReportEffects.OtherCharactersAreIgnored` | windows-server/src/application/registry.rs:329-341 | a character that is not allowed is as good as not there |
| `ReportEffects.AnswerIsKept` | windows-server/src/application/registry.rs:381-388 | an answer waits under its request id until taken; of 32 the oldest makes room |
| `ReportEffects.GateStaysExactly` | windows-server/src/application/registry.rs:370-380 | the gate stays open exactly if the report shows the setting already known |
| `ReportEffects.PressIsRemembered` | windows-server/src/application/registry.rs:343-360 | a press is remembered exactly if a known phone reports, unasked, another volume than was observed while no barrier stands |
| `ReportEffects.VolumeIsObserved` | windows-server/src/application/registry.rs:343-369 | which reports move the observed volume, consume a receipt and lift the barrier |
| `ReportEffects.DeviceIsValidExactly` | windows-server/src/volume_profiles.rs:56-80 | a device of a profile is valid exactly if a phone can report itself as that device, fit to be calibrated, after the registry cleaned the report |
| `ReportEffects.MappingIsValidExactly` | windows-server/src/volume_profiles.rs:81-95 | and a mapping exactly if each entry leads from a volume that the master can report to one that the follower can |
| `ReceiverTraffic.JoiningIsFresh` | windows-server/src/application/registry.rs:65-116 | a receiver that joins has an id of its own, nothing queued or known, and its gate shut |
| `ReceiverTraffic.LeavingShutsAll` | windows-server/src/application/registry.rs:391-408 | one that leaves takes every open gate with it |
| `ReceiverTraffic.RequestIsQueued` | windows-server/src/application/registry.rs:224-254 | a volume request takes a fresh number, is queued last exactly if the receiver can take it, and is then awaited; of 32 awaited the oldest makes room |
| `ReceiverTraffic.QueryIsQueued` | windows-server/src/application/registry.rs:199-206 | so is a query |
| `ReceiverTraffic.BroadcastReachesAll` | windows-server/src/application/registry.rs:118-133 | a message reaches exactly those that can take it |
| `ReceiverTraffic.AnswersAreTakenOnce` | windows-server/src/application/registry.rs:298-304 | an answer is handed out once and nothing else is touched |
| `ReceiverTraffic.PressesAreTakenOnce` | windows-server/src/application/registry.rs:313-319 | so is a press |
| `ReceiverTraffic.ApprovalIsExact` | windows-server/src/application/registry.rs:162-185 | gates open all or none, exactly if every expected phone is still the same device at the same volume, adjustable and on its speaker |
| `Registry.ReceiverRegistry.TakeUnsolicitedVolume` | windows-server/src/application/registry.rs:313-319 | a volume moved at the phone is handed out once |
| `Registry.ReceiverRegistry.TakeReply` | windows-server/src/application/registry.rs:298-304 | a reply is handed out once, by request id |
| `Registry.ReceiverRegistry.Broadcast` | windows-server/src/application/registry.rs:118-133 | the message reaches every receiver that has room |
| `VolumeProfiles.Validate` | windows-server/src/volume_profiles.rs:56-97 | the loop over a set of ids accepts exactly the valid profiles |
| `VolumeProfiles.CheckLoaded` | windows-server/src/volume_profiles.rs:145-172 | load's checks accept exactly the libraries with at most 128 valid profiles, unique ids and an existing active one |
| `VolumeProfiles.Nearest` | windows-server/src/volume_profiles.rs:99-131 | the available index closest to the requested one, the lower on a tie; none exactly if no index is available to every participating follower |
| `VolumeProfiles.StoreLoadable` | windows-server/src/volume_profiles.rs:192-214 | storing a valid profile keeps a library loadable exactly when it replaces one or there is room |
| `VolumeProfiles.SoleByCount` | windows-server/src/application/volume_control.rs:471-479 | counting one match is having one |
| `Jitter.JitterBuffer.Push` | android/app/src/main/rust/src/jitter.rs:43-58 | the buffer and output after a packet, for new, duplicate, late and early ones |
| `Jitter.JitterBuffer.DrainReady` | android/app/src/main/rust/src/jitter.rs:90-127 | the drain loop terminates and has the specified output |
| `Jitter.JitterBuffer.DrainOne` | android/app/src/main/rust/src/jitter.rs:98-125 | one turn of it, with its four outcomes |
| `Jitter.JitterBuffer.NextBufferedSequence` | android/app/src/main/rust/src/jitter.rs:129-135 | the search over the keys finds the nearest later one in wrapping order |
| `Jitter.JitterBuffer.IncreaseTarget` | android/app/src/main/rust/src/jitter.rs:76-88 | raised exactly below the maximum, then strictly and with a new prefill |
| `Jitter.JitterBuffer.Restart` | android/app/src/main/rust/src/jitter.rs:37-41 | the buffer after a restart |
| `JitterModel.PushKeepsValid` | android/app/src/main/rust/src/jitter.rs:43-58 | between operations fewer than target packets are buffered, each under its own number and less than 2^31 ahead |
| `JitterModel.NextIsStable` | android/app/src/main/rust/src/jitter.rs:129-135 | while packets wait there is a next one, and stepping on or skipping to it keeps all of them ahead and brings it nearer: the loop's progress |
| `JitterRefinement.PushSimulates` | android/app/src/main/rust/src/jitter.rs:43-58 | with arriving numbers within [-2^31, 2^31) of the expected one, a push on 32-bit numbers does what the buffer over unbounded positions does |
| `JitterRefinement.RestartSimulates` | android/app/src/main/rust/src/jitter.rs:37-41 | so does a restart |
| `JitterRefinement.UnwrapIsInverse` | android/app/src/main/rust/src/jitter.rs:138-146 | in that window a number determines its position |
| `JitterOnWire.RunRefines` | android/app/src/main/rust/src/jitter.rs:43-146 | every run on 32-bit numbers is step for step a run of the unbounded buffer: the same raises and packets, each at the position with its number nearest to the one expected at that moment |
| `JitterOnWire.PushIsBoundedOnWire` | android/app/src/main/rust/src/jitter.rs:76-127 | one push puts out at most max_packets fillers and then at most target packets, and leaves fewer than target waiting, however far ahead the number is |
| `JitterOnWire.RunIsAccounted` | android/app/src/main/rust/src/jitter.rs:37-58 | between restarts, for any arriving numbers: with each arriving packet at the position nearest to the expected one, packets are played in increasing position and each accepted packet is played once or still buffered |
| `JitterOnWire.RunBalances` | android/app/src/main/rust/src/jitter.rs:90-127 | the expected number advances, modulo 2^32, by the packets played plus the losses, which the saturating counter adds up |
| `JitterLaws.PushIsBounded` | android/app/src/main/rust/src/jitter.rs:90-127 | the same bounds over unbounded positions |
| `JitterLaws.RunAccount` | android/app/src/main/rust/src/jitter.rs:90-127 | advance equals played plus lost, order, and the fate of every packet, over any arrivals and raises |
| `JitterReordering.ToleranceIsExact` | android/app/src/main/rust/src/jitter.rs:90-127 | distinct packets after a restart, in any order: nothing is lost exactly if at every moment fewer than target packets wait behind the oldest missing one and none lies beyond the window; then nothing is late either and the output is the packets in order |
| `JitterReordering.MildReorderingIsLossless` | android/app/src/main/rust/src/jitter.rs:37-58 | packets none of which is overtaken by more than target-1 later ones or comes more than the window ahead are played completely and in order |
| `JitterReordering.ToleranceOnWire` | android/app/src/main/rust/src/jitter.rs:37-127 | the exact tolerance for the 32-bit buffer, from a restart at any number and whatever was counted before, with every arrival within 2^31 of the expected position: the loss counter stays as it was exactly if every moment was tolerable or it was saturated, and when tolerable the late counter stays too and the packets come out in order |
| `JitterReordering.MildReorderingOnWire` | android/app/src/main/rust/src/jitter.rs:37-58 | mild reordering costs the 32-bit buffer nothing, from a restart at any number and whatever was counted before, while target and window together stay within 2^31 packets |
| `Ring.PcmRingBuffer.constructor` | android/app/src/main/rust/src/ring_buffer.rs:22-29 | an empty ring of positive capacity |
| `Ring.PcmRingBuffer.PushLatest` | android/app/src/main/rust/src/ring_buffer.rs:96-103 | the newest samples are kept, whatever the ring held |
| `Ring.PcmRingBuffer.WritePcmLe` | android/app/src/main/rust/src/ring_buffer.rs:31-35 | the ring holds the newest samples of what it held and the whole little-endian samples of the bytes |
| `Ring.PcmRingBuffer.WriteSilence` | android/app/src/main/rust/src/ring_buffer.rs:37-41 | the same with zeros |
| `Ring.PcmRingBuffer.SetPlaybackTarget` | android/app/src/main/rust/src/ring_buffer.rs:43-46 | the target capped at the capacity |
| `Ring.PcmRingBuffer.ReadInto` | android/app/src/main/rust/src/ring_buffer.rs:54-82 | output, ring, underrun count and buffering after a read: silence while the prefill is incomplete, else the oldest samples and then zeros |
| `Ring.PcmRingBuffer.Clear` | android/app/src/main/rust/src/ring_buffer.rs:84-86 | an empty queue and nothing else changed |
| `RingModel.WriteInParts` | android/app/src/main/rust/src/ring_buffer.rs:31-41 | writing in parts is writing at once, with drop-oldest |
| `RingModel.WriteKeepsFrames` | android/app/src/main/rust/src/ring_buffer.rs:96-103 | a write of whole frames leaves whole frames exactly if the capacity is even or the write does not overflow |
| `RingPlayback.ReadPlaysExactly` | android/app/src/main/rust/src/ring_buffer.rs:54-82 | a ring that is not refilling, or holds its target and the whole read, plays its oldest samples in order and then zeros, takes exactly them, and refills exactly after running dry; any other read plays zeros and leaves it alone |
| `RingPlayback.RefilledRingPlays` | android/app/src/main/rust/src/ring_buffer.rs:54-65 | a refilling ring stays silent until target and read are there and then plays at once the oldest of what was queued or written |
| `RingPlayback.PlayedIsWritten` | android/app/src/main/rust/src/ring_buffer.rs:31-82 | over any run without overflow what was played and what waits is what was written, every sample once and in order |
| `ConcurrentRing.EveryInterleavingIsSafe` | android/app/src/main/rust/src/ring_buffer.rs:66-104 | with pushes taken apart into attempt, eviction and retry, interleaved in any way with pops of playback and of clear: the retry never fails, the bound holds, the queue ends at the newest sample, playback hears written order, and every sample is queued, played, evicted or cleared |
| `ConcurrentRing.PushAlone` | android/app/src/main/rust/src/ring_buffer.rs:96-103 | an undisturbed push is the single step of the sequential ring |
| `ConcurrentRing.EvictionsAreCounted` | android/app/src/main/rust/src/ring_buffer.rs:96-103 | at most one sample is evicted for each push that met a full queue |
| `ConcurrentRing.UndisturbedPlayIsContiguous` | android/app/src/main/rust/src/ring_buffer.rs:66-74 | while nobody else takes samples playback hears a gapless run from the oldest sample on |
| `Receiver.ReceiverPipeline.Create` | android/app/src/main/rust/src/receiver.rs:31-84 | a pipeline exactly for 48 kHz stereo with frames of at least 1 ms, and its whole initial state |
| `Receiver.ReceiverPipeline.HandlePacket` | android/app/src/main/rust/src/receiver.rs:94-118 | jitter buffer, ring and adaptation after a packet; one of the wrong size changes nothing |
| `Receiver.ReceiverPipeline.Resume` | android/app/src/main/rust/src/receiver.rs:86-92 | the pipeline after a restart: RestartedStream says what it then plays |
| `Receiver.ReceiverPipeline.AdjustJitterAfterStutter` | android/app/src/main/rust/src/receiver.rs:120-137 | when the target rises, and what follows it; Stutter says so without it |
| `ReceiverModel.HandleKeepsValid` | android/app/src/main/rust/src/receiver.rs:94-137 | only packets of the exact size are ever buffered, and the ring's playback target stays that of the jitter buffer, capped at its capacity |
| `ReceiverModel.PacketsGrow` | android/app/src/main/rust/src/receiver.rs:140-148 | a longer duration takes no fewer packets, never none, and no more than one for each millisecond |
| `Adaptation.TargetsAreBounded` | android/app/src/main/rust/src/receiver.rs:120-137 | for every frame duration and run of packets, restarts, reads and clears: the target never shrinks nor passes 100 ms in whole packets, and the playback target is min(target x samples per packet, capacity) |
| `Adaptation.RaisesAreSpaced` | android/app/src/main/rust/src/receiver.rs:120-137 | between two raises lies a full cooldown of packets of the right size |
| `Adaptation.UnderrunsAreSeparated` | android/app/src/main/rust/src/ring_buffer.rs:54-82 | between two counted underruns playback was refilled to the larger of the playback target and the read |
| `Adaptation.UnderrunsAreCounted` | android/app/src/main/rust/src/ring_buffer.rs:75-80 | those underruns are the ones the ring counts |
| `Adaptation.RefilledReadsPlay` | android/app/src/main/rust/src/ring_buffer.rs:54-74 | over every run, once the ring holds the playback target and the read, the next read takes all of it and ends the buffering |
| `Adaptation.PlaybackIsPrefilled` | android/app/src/main/rust/src/receiver.rs:31-92 | a new session and one that restarts play nothing before that |
| `Adaptation.RestartDelaysRaise` | android/app/src/main/rust/src/receiver.rs:86-92 | after a restart a full cooldown passes before the target rises |
| `Stutter.PacketRaisesExactly` | android/app/src/main/rust/src/receiver.rs:94-137 | a packet of the right size raises the target exactly if the cooldown ran out, the ring ran dry since the last packet or this one is late, the buffer is started and the target below its maximum: by one step as far as the maximum allows |
| `Stutter.PushCountsExactly` | android/app/src/main/rust/src/jitter.rs:43-58 | a push starts the buffer exactly when the target is there, and counts exactly packets behind the expected one as late |
| `Stutter.WrongSizeIsIgnored` | android/app/src/main/rust/src/receiver.rs:94-98 | a packet of another size changes nothing |
| `Stutter.SmoothPlayKeepsTarget` | android/app/src/main/rust/src/receiver.rs:94-137 | over every run without a dry read or a late packet the target stays |
| `Stutter.RunningDryRaises` | android/app/src/main/rust/src/receiver.rs:94-137 | a ring that runs dry raises the target with the next packet, whatever is read until then |
| `RestartedStream.RestartedStreamIsWritten` | android/app/src/main/rust/src/receiver.rs:86-118 | after a restart at any number, mildly reordered packets are heard completely and in order from the boundary on: the ring holds their samples, or the newest that fit, however many there are |
| `StereoAlignment.PlaybackIsAligned` | android/app/src/main/rust/src/receiver.rs:94-118 | in a ring of even capacity and with reads of whole frames, every read plays a run of the written stream that starts at a left sample and ends after a right one, whatever was dropped, cleared or restarted |
| `StereoAlignment.PhonePlaybackIsAligned` | android/app/src/main/rust/src/ring_buffer.rs:7-10 | the phone's own ring of 9600 samples with any frame duration is such a pipeline |
| `StereoAlignment.AppendedIsWhole` | android/app/src/main/rust/src/receiver.rs:105-110 | whatever a packet makes the jitter buffer put out is a whole number of frames |
| `AudioPackets.Encode` | crates/protocol/src/audio.rs:35-41 | the wire format: both integers big endian, then the payload |
| `AudioPackets.DecodeInvertsEncode` | crates/protocol/src/audio.rs:35-65 | every packet survives the wire |
| `AudioPackets.WireIsExact` | crates/protocol/src/audio.rs:35-41 | the bytes of a datagram one by one: number and position with the most significant byte first, then the payload |
| `AudioPackets.PayloadIsExact` | windows-server/src/network/server.rs:253-256 | each sample travels as two bytes, the less significant one first |
| `AudioPackets.EncodeInvertsDecode` | crates/protocol/src/audio.rs:44-65 | a datagram decodes unless it is shorter than 12 bytes, and is the encoding of what it decodes to |
| `AudioPackets.SamplesOfPayload` | android/app/src/main/rust/src/ring_buffer.rs:31-35 | the phone reads back the 16-bit samples the server wrote |
| `Capture.EnqueueLatest` | windows-server/src/audio/capture.rs:279-313 | a full queue gives up its oldest block, never the new one |
| `Capture.BlockAssembler.PushOne` | windows-server/src/audio/capture.rs:254-276 | one sample more, and the block it may complete |
| `Capture.BlockAssembler.PushSamples` | windows-server/src/audio/capture.rs:242-252 | however the samples are handed over, the blocks are those of one stream and the rest waits |
| `Capture.BlockAssembler.PushSilence` | windows-server/src/audio/capture.rs:230-240 | the same with zeros |
| `Capture.BlocksAreContiguous` | windows-server/src/audio/capture.rs:267-274 | the blocks of one capture follow each other without a gap in the source position |
| `Packetizer.ChoosePacketDurationMs` | windows-server/src/network/server.rs:198-211 | the largest duration whose payload fits, and none only if not even 1 ms does |
| `Packetizer.Packetizer.SendBlock` | windows-server/src/network/server.rs:238-286 | packets tried, number, tail and failure for every pattern of gates and send results |
| `Packetizer.Packetizer.Offer` | windows-server/src/network/server.rs:251-279 | a packet that is tried takes the next number, sent or not |
| `Packetizer.Packetizer.ForEachPacket` | windows-server/src/network/server.rs:297-304 | the chunk loop, stopped at any packet |
| `Packetizer.Packetizer.ForEachFourMsPacket` | windows-server/src/network/server.rs:306-350 | the 4 ms loop with the carried tail, stopped at any packet |
| `PacketizerModel.CutInParts` | windows-server/src/network/server.rs:306-350 | cutting a stream part by part, each time with what was left over, is cutting it at once |
| `PacketizerModel.BlocksLeaveTails` | windows-server/src/network/server.rs:306-350 | a block leaves nothing over, or 192 samples in 4 ms packets, exactly if it does not continue a tail |
| `StreamConservation.ContiguousRun` | windows-server/src/network/server.rs:288-350 | contiguous blocks sent one by one give the packets and state of cutting their stream at once, for every duration |
| `StreamConservation.StreamIsConserved` | windows-server/src/network/server.rs:288-350 | what the packets carry and then the pending tail is the stream of the blocks |
| `StreamConservation.StoppedBlockIsCutShort` | windows-server/src/network/server.rs:251-286 | the first answer that stops a block cuts it short: what was tried before it, and it too if it failed, took its number; the rest and the tail are lost, and the loop fails exactly if it failed |
| `StreamConservation.DisabledSendsNothing` | windows-server/src/network/server.rs:245-247 | while sending is switched off a block leaves no trace |
| `StreamConservation.PacketsAreExact` | windows-server/src/network/server.rs:251-279 | packet k, off the wire, is numbered k after the first, has its first sample's source position and carries exactly its samples |
| `StreamConservation.NumbersWrap` | windows-server/src/network/server.rs:260-260 | numbers wrap at 2^32 and nowhere else |
| `StreamConservation.GapsLoseOnlyTails` | windows-server/src/network/server.rs:311-326 | over any run with gaps and resets every stretch comes out as if it were alone, so a gap costs only its pending tail |
| `StreamConservation.CapturedIsCarried` | windows-server/src/audio/capture.rs:254-276 | from capture to the phone's ring: the samples carried, the packetizer's tail and the assembler's rest are the captured samples in order |
| `Silence.SilenceDetector.Update` | windows-server/src/network/silence.rs:16-30 | the detector after a block, and its two answers |
| `Silence.IdleExactly` | windows-server/src/network/silence.rs:16-30 | the detector sleeps exactly if since the last audible block it was switched off or has heard 300 ms of silence |
| `AudioSender.DatagramSender.OnBlock` | windows-server/src/network/server.rs:138-163 | what a captured block makes the sender emit |
| `AudioSender.DatagramSender.OnSwitchedOff` | windows-server/src/network/server.rs:125-136 | an idle notice exactly when it falls asleep |
| `AudioSender.DatagramSender.OnLagged` | windows-server/src/network/server.rs:164-169 | missed blocks drop the tail |
| `AudioSender.RunIsNumbered` | windows-server/src/network/server.rs:121-192 | over every run the nth packet tried is numbered n from the first, and an idle notice carries the number of the next |
| `AudioSender.SleepingSendsNothing` | windows-server/src/network/server.rs:141-154 | a sleeping sender tries no packet and reports idleness exactly when it falls asleep |
| `AudioSender.PacketsBeforeGrows` | windows-server/src/network/server.rs:182-192 | a notice's number lies above all packets tried before it and not above any after it |
| `AudibleStream.AwakeSenderSends` | windows-server/src/network/server.rs:138-163 | a sender awake after a block has sent it; one asleep has not, and what earlier blocks left is gone when it falls asleep |
| `AudibleStream.GapsDropTails` | windows-server/src/network/server.rs:125-169 | switching off puts it to sleep, missed blocks do not, and both drop what earlier blocks left |
| `AudibleStream.SoundIsSent` | windows-server/src/network/server.rs:138-163 | while there is sound the loop sends every block, and its emissions are the packets of the whole run |
| `AudibleStream.HeardIsCaptured` | windows-server/src/network/server.rs:138-286 | from capture to playback through sender, mild reordering and restarted phone: the ring holds what the packets carry, or the newest that fits, and that is the captured stream up to what does not fill a packet |
| `IdleClient.ConnectedLoop.OnPacket` | android/app/src/main/rust/src/client.rs:131-153 | what a packet does to boundary, newest number, deadline and pipeline |
| `IdleClient.RefusedPacketsAreNotHeard` | android/app/src/main/rust/src/client.rs:140-153 | a packet that the pipeline refuses may end the pause but changes neither the newest number nor the activity |
| `IdleClient.ConnectedLoop.OnAudioIdle` | android/app/src/main/rust/src/client.rs:157-162 | what a notice does |
| `IdleClient.ConnectedLoop.OnDeadline` | android/app/src/main/rust/src/client.rs:127-130 | after the deadline the audio is inactive |
| `IdleProtocol.EveryRunIsValid` | android/app/src/main/rust/src/client.rs:131-162 | with datagrams lost, repeated and reordered and notices in order: no handled packet lies at or past a standing boundary, restarts strictly increase, and an idle phone is reported inactive once its deadline has passed |
| `IdleProtocol.AcceptedExactly` | android/app/src/main/rust/src/client.rs:157-162 | a notice is accepted exactly if no packet at or past it was handled |
| `IdleProtocol.ReachedBoundaryRestarts` | android/app/src/main/rust/src/client.rs:133-139 | the first packet at or past a standing boundary restarts playback there, past all earlier restarts and all packets handled before |
| `IdleProtocol.RunFollows` | android/app/src/main/rust/src/client.rs:201-204 | while compared numbers are less than 2^31 apart the phone on 32-bit numbers restarts exactly where the unbounded protocol does |
| `IdleProtocol.FewPacketsAreSafe` | android/app/src/main/rust/src/client.rs:131-162 | over at most 2^31 packets this needs no further condition, and each restart is past the one before |
| `IdleProtocol.SafeExactly` | android/app/src/main/rust/src/client.rs:131-162 | every run of at most n packets restarts the phone exactly where the unbounded protocol does if and only if n is at most 2^31 |
| `IdleProtocol.LateArrivalIsMissed` | android/app/src/main/rust/src/client.rs:133-139 | a run of 2^31 + 1 packets in which the protocol restarts at 0 and the phone does not restart |
| `IdleProtocol.HalfwayIsBefore` | android/app/src/main/rust/src/client.rs:201-204 | a packet exactly 2^31 past a boundary is decided as before it |
| `IdleProtocol.SenderIsNumbered` | windows-server/src/network/server.rs:182-192 | the sender's notices and packets are the positions of this protocol, modulo 2^32 |
| `IdleProtocol.EmissionsDrive` | windows-server/src/network/server.rs:121-180 | what the sender emits is a run of this protocol, and each emission, packet or notice, carries the number of the position the protocol gives it |
| `DeviceControl.Shared.EnqueueOperation` | android/app/src/main/rust/src/device_control.rs:45-58 | queued exactly while fewer than 32 wait, as one number with its deadline |
| `DeviceControl.Shared.TakeCommandAt` | android/app/src/main/rust/src/device_control.rs:60-76 | the oldest command, or 0 |
| `DeviceControl.CodeIsReadBack` | android/app/src/main/rust/src/device_control.rs:53-56 | the Kotlin side reads back id, operation and value |
| `DeviceControl.CommandsExpire` | android/app/src/main/rust/src/device_control.rs:64-76 | a command that waited two seconds comes out as an expiry under its own id; a cancellation never expires |
| `DeviceControl.Shared.PushReport` | android/app/src/main/rust/src/device_control.rs:78-89 | the waiting reports are the newest 32 in order |
| `DeviceControl.Shared.TakeReport` | android/app/src/main/rust/src/device_control.rs:100-105 | reports are taken in order |
| `DeviceControl.Shared.PlaybackRequest` | android/app/src/main/rust/src/device_control.rs:179-185 | the current token, after an expired tone was ended |
| `DeviceControl.Shared.ReportStatus` | android/app/src/main/rust/src/device_control.rs:91-98 | losing the speaker stops the tone before the status is reported |
| `DeviceControl.Shared.RequestTone` | android/app/src/main/rust/src/device_control.rs:107-126 | the tone and report of a request |
| `DeviceControl.Shared.SetTone` | android/app/src/main/rust/src/device_control.rs:128-152 | the tone and report of a local switch |
| `DeviceControl.Shared.ExpireTone` | android/app/src/main/rust/src/device_control.rs:154-177 | the tone and report at its deadline |
| `DeviceControl.Shared.ReportPlayback` | android/app/src/main/rust/src/device_control.rs:187-228 | both sections of a playback report, with the reports they make |
| `DeviceControl.Shared.ToneActive` | android/app/src/main/rust/src/device_control.rs:230-237 | an expired tone is ended before it is asked for |
| `ToneGrammar.AcknowledgementsFollowGrammar` | android/app/src/main/rust/src/device_control.rs:107-228 | over any run with fresh ids an enable is answered by nothing, playing, failed, or playing then failed, a disable by nothing or stopped, and no other id is ever named; this is the order in which answers are decided, which two threads may queue differently |
| `ToneGrammar.EndIsReported` | android/app/src/main/rust/src/device_control.rs:128-177 | a tone that ends without a request is reported failed at once, exactly once |
| `ToneGrammar.EndedToneStaysSilent` | android/app/src/main/rust/src/device_control.rs:187-228 | after that its token is stale for good: nothing more is said about it |
| `ToneGrammar.StaleTokenIsIgnored` | android/app/src/main/rust/src/device_control.rs:197-199 | a report for any other token changes nothing |
| `ToneAnswers.HeardIsAnswered` | android/app/src/main/rust/src/device_control.rs:202-205 | the first report that the current tone is heard is acknowledged and gives it five more seconds |
| `ToneAnswers.SilenceIsAnswered` | android/app/src/main/rust/src/device_control.rs:206-208 | the first report of silence after a stop is acknowledged |
| `ToneAnswers.LateSilenceIsFailure` | android/app/src/main/rust/src/device_control.rs:209-216 | silence past the tone's end is reported failed |
| `ToneAnswers.OtherReportsAreMute` | android/app/src/main/rust/src/device_control.rs:187-228 | every other report changes nothing and tells nothing |
| `ToneAnswers.RequestStarts` | android/app/src/main/rust/src/device_control.rs:107-126 | a request replaces the tone, which sounds for five seconds on the speaker and fails at once elsewhere |
| `ToneAnswers.StopSilences` | android/app/src/main/rust/src/device_control.rs:128-152 | a forced stop silences it; one that sounded has failed |
| `ToneAnswers.DeadlineSilences` | android/app/src/main/rust/src/device_control.rs:154-177 | a deadline that passed silences it, and nothing happens before |
| `ToneAnswers.AskedToneIsAcknowledged` | android/app/src/main/rust/src/device_control.rs:107-228 | over runs: a tone asked for on the speaker and heard within five seconds is acknowledged as playing, whatever stale reports and ticks lie between |
| `ToneAnswers.AskedStopIsAcknowledged` | android/app/src/main/rust/src/device_control.rs:107-228 | over runs: a stop asked for is acknowledged with the first report of silence, however late |
| `ToneAnswers.UnheardToneFails` | android/app/src/main/rust/src/device_control.rs:107-228 | over runs: a tone never heard is reported failed by the first tick past its five seconds |
| `ToneAnswers.HeardToneEnds` | android/app/src/main/rust/src/device_control.rs:187-228 | a tone once heard is never prolonged again |
| `PhoneVolume.DeviceVolumeControl.ApplyPending` | android/app/src/main/java/com/example/audiostream/DeviceVolumeControl.kt:71-122 | the command loop up to the first 0 |
| `PhoneVolume.DeviceVolumeControl.ApplyOne` | android/app/src/main/java/com/example/audiostream/DeviceVolumeControl.kt:73-120 | one command: expiry check, action and replies, exceptions included |
| `PhoneVolume.DeviceVolumeControl.CancelCalibration` | android/app/src/main/java/com/example/audiostream/DeviceVolumeControl.kt:50-59 | the session ends whatever happens |
| `PhoneVolume.DeviceVolumeControl.Report` | android/app/src/main/java/com/example/audiostream/DeviceVolumeControl.kt:130-147 | the reply, and news of a volume moved at the phone before it |
| `PhoneVolume.DecodesCode` | android/app/src/main/java/com/example/audiostream/DeviceVolumeControl.kt:73-76 | a command decodes to what was queued |
| `PhoneVolume.CommandsActInTurn` | android/app/src/main/java/com/example/audiostream/DeviceVolumeControl.kt:71-76 | commands act one after the other, each on the phone the ones before left, up to the first 0 |
| `PhoneCommands.VolumeCommandSets` | android/app/src/main/java/com/example/audiostream/DeviceVolumeControl.kt:87-97 | a volume command succeeds exactly if it was permitted and the stream was read back where it was set, and then stream and answer are at its value or the nearer end of the range; refused, it leaves the stream alone |
| `PhoneCommands.BeginOpens` | android/app/src/main/java/com/example/audiostream/DeviceVolumeControl.kt:98-105 | a Begin opens a session at the stream's volume, or extends an open one for six seconds, exactly if only the speaker plays and the volume can be changed |
| `PhoneCommands.CommitCloses` | android/app/src/main/java/com/example/audiostream/DeviceVolumeControl.kt:108-116 | a Commit closes a session without restoring it exactly if the stream is at its value |
| `PhoneCommands.CancelEnds` | android/app/src/main/java/com/example/audiostream/DeviceVolumeControl.kt:106-106 | a Cancel ends the session in any case, and succeeds exactly if the stream was set back |
| `PhoneCommands.QueryExtends` | android/app/src/main/java/com/example/audiostream/DeviceVolumeControl.kt:86-86 | a query keeps a session open for six more seconds |
| `PhoneCommands.OthersDoNothing` | android/app/src/main/java/com/example/audiostream/DeviceVolumeControl.kt:85-117 | a command that expired on its way fails and does nothing |
| `PhoneCommands.OverdueIsRestoredFirst` | android/app/src/main/java/com/example/audiostream/DeviceVolumeControl.kt:81-84 | an overdue session is restored before any command, which then finds none; which commands pass on that it failed |
| `PhoneCommands.QueryTellsNews` | android/app/src/main/java/com/example/audiostream/DeviceVolumeControl.kt:120-147 | exactly before the answer to a query a volume not reported before is told as news |
| `PhoneCommands.WatchdogEnds` | android/app/src/main/java/com/example/audiostream/DeviceVolumeControl.kt:21-25 | the watchdog ends a session that is overdue or has lost its connection, and no other |
| `PhoneCommands.WatchdogIsSilent` | android/app/src/main/java/com/example/audiostream/DeviceVolumeControl.kt:21-31 | with no session to end and no news it does nothing |
| `PhoneCommands.WatchdogTellsNews` | android/app/src/main/java/com/example/audiostream/DeviceVolumeControl.kt:26-30 | while connected it reports a volume not reported before |
| `PhoneCommands.WatchdogTellsRestoration` | android/app/src/main/java/com/example/audiostream/DeviceVolumeControl.kt:22-24 | a session it restored is reported, failed or not |
| `PhoneCommands.RouteEnds` | android/app/src/main/java/com/example/audiostream/DeviceVolumeControl.kt:61-69 | a change of outputs ends the session unless only the speaker plays, and reports what failed |
| `PhoneSessions.CancelRestoresExactly` | android/app/src/main/java/com/example/audiostream/DeviceVolumeControl.kt:50-59 | a cancel of an open session succeeds exactly if only the speaker plays and the stream was set and read back at the original volume |
| `PhoneSessions.CancelIsHonestExactly` | android/app/src/main/java/com/example/audiostream/DeviceVolumeControl.kt:81-106 | a successful Cancel command means a restored stream exactly while the session has not expired |
| `PhoneSessions.ExpiredCancelReportsSuccess` | android/app/src/main/java/com/example/audiostream/DeviceVolumeControl.kt:81-106 | a concrete run where it has expired: success is reported at volume 9 instead of 3 |
| `PhoneSessions.FailedExpiryIsHiddenExactly` | android/app/src/main/java/com/example/audiostream/DeviceVolumeControl.kt:81-116 | which commands hide a failed restoration: Cancel, and volume commands 2 and 7 that are themselves reached |
| `PhoneSessions.RepliesShowTheStream` | android/app/src/main/java/com/example/audiostream/DeviceVolumeControl.kt:130-147 | a successful reply to anything but a volume command shows the stream's own volume |
| `PhoneSessions.OriginalIsFromFirstBegin` | android/app/src/main/java/com/example/audiostream/DeviceVolumeControl.kt:98-105 | over any run of commands, watchdog turns, route changes and outside changes, the volume to restore is the one at the Begin that opened the session |
| `Calibration.Calibrator.Run` | windows-server/src/application/calibration.rs:106-274 | on every path each queued Begin went to a phone in begun and is followed by a Cancel to it; a profile is returned exactly if the answers allow one, and then the requests are exactly those of such a run, the room was heard with every session open and no tone played, the mappings are exactly the ones that curves measured since then and their comparisons determine, and each phone, found in one snapshot only, confirmed the volume it had before any Begin to a Cancel that came after all measuring and is followed by nothing that moves it |
| `CalibrationEvidence.SuccessIsSound` | windows-server/src/application/calibration.rs:106-274 | what the answers to such a run show: the room heard in silence with all sessions open, the profile that the curves determine, and every phone back at its volume |
| `Calibration.Calibrator.Restore` | windows-server/src/application/calibration.rs:453-479 | tone off and Cancel for every phone, and the list of exactly those that did not confirm |
| `Calibration.Calibrator.RestoreOne` | windows-server/src/application/calibration.rs:461-470 | the Cancel is sent even when the tone would not stop |
| `Calibration.Calibrator.BeginAll` | windows-server/src/application/calibration.rs:141-153 | success exactly if every phone's Begin was queued and confirmed at its original volume; a phone counts as begun as soon as its request is queued |
| `Calibration.Calibrator.Prepare` | windows-server/src/application/calibration.rs:112-140 | success exactly if every phone of the profile is in one snapshot only and answers as the profile's device, before any session is begun |
| `Calibration.Calibrator.MeasureRaw` | windows-server/src/application/calibration.rs:342-382 | a measurement exactly if the tone played through at an unchanged volume and the room fell quiet |
| `Calibration.Calibrator.Measure` | windows-server/src/application/calibration.rs:384-402 | the level exactly if the measurement was undisturbed, clear and far enough from the background, and failure otherwise |
| `Calibration.Calibrator.SampleStep` | windows-server/src/application/calibration.rs:168-186 | success exactly for a confirmed step and an undisturbed measurement, with a point exactly if its level can be told |
| `Calibration.Calibrator.SampleDevice` | windows-server/src/application/calibration.rs:162-187 | success exactly if every step from the lowest audible one to the highest was confirmed and measured undisturbed, and then the points of the steps whose level could be told |
| `CalibrationCourse.StepsTakenExactly` | windows-server/src/application/calibration.rs:164-187 | a curve can be taken exactly if each of its steps can, at its place in the course of requests |
| `CalibrationEvidence.CurveIsSeen` | windows-server/src/application/calibration.rs:162-187 | the requests and answers of such a course show the curve: ascending, every step set and measured since the room was heard, and a point exactly with the level it showed |
| `Calibration.FindBest` | windows-server/src/application/calibration.rs:215-221 | the first of the points closest to the target |
| `Calibration.Calibrator.Compare` | windows-server/src/application/calibration.rs:229-251 | success exactly if both replays can be measured and the master has not drifted by more than 2 dB, and agreement exactly if the two are within 2 dB |
| `Calibration.Calibrator.MapFollower` | windows-server/src/application/calibration.rs:199-252 | success exactly if every pair within 2 dB could be replayed without drift, and then the mapping that the replays decide |
| `CalibrationEvidence.MappingIsSeen` | windows-server/src/application/calibration.rs:199-252 | that mapping has a level of the master exactly if the follower's closest point is within 2 dB and the comparison agreed, and maps it to that point; beside these only 0 to 0 where both ranges begin at 0 |
| `Calibration.Calibrator.Chart` | windows-server/src/application/calibration.rs:160-261 | success exactly if every curve can be taken and the master's has a point, every follower can be mapped, and the outcome is valid and maps more than the master's minimum |
| `CalibrationEvidence.CalibratedIsEarned` | windows-server/src/application/calibration.rs:199-252 | every entry of a calibrated profile is 0 to 0 where both ranges begin at 0, or has two sampled levels within 2 dB and a confirmed comparison |
| `CalibrationLog.RestoringCancelsAll` | windows-server/src/application/calibration.rs:453-479 | the restoration's requests cancel every session begun |
| `CalibrationLog.NoneUnrestored` | windows-server/src/application/calibration.rs:471-478 | an empty list of failures means that every phone confirmed |
| `CalibrationFaults.SuccessExactly` | windows-server/src/application/calibration.rs:106-274 | for the phones of a run, distinct receivers, it returns a profile exactly if every single answer was good, from the first status to the last Cancel (queued, in time, without failure, on the speaker, the tone switched as asked, each sampled step reached, each measurement undisturbed, each comparison heard and the master not drifted, each volume as found when its session was opened and ended), the phones are the profile's, the room was steady, the master audible, and the outcome of use: one bad answer fails it, and nothing else does |
| `CalibrationFaults.ChartingExactly` | windows-server/src/application/calibration.rs:160-252 | curves are taken and comparisons replayed exactly if every answer to them is good |
| `CalibrationFaults.UndisturbedExactly` | windows-server/src/application/calibration.rs:342-382 | a measurement is undisturbed exactly if its six answers are good |
| `CalibrationFaults.MeasuredExactly` | windows-server/src/application/calibration.rs:384-402 | what makes it give a level |
| `CalibrationFaults.ReplayableExactly` | windows-server/src/application/calibration.rs:229-247 | what makes a comparison possible: both tones heard, the master's within 2 dB of its curve |
| `CalibrationFaults.AgreedExactly` | windows-server/src/application/calibration.rs:248-251 | and agree: within 2 dB of each other |
| `CalibrationFaults.ChartIsValid` | windows-server/src/application/calibration.rs:199-253 | the profile that comes of calibrating a valid one is always valid: its last check never fails |
| `CalibrationFaults.UsefulExactly` | windows-server/src/application/calibration.rs:253-260 | what makes an outcome worth returning |
| `CalibrationAcross.ConfirmationIsRestoration` | windows-server/src/application/calibration.rs:463-469 | what the server accepts as a restoration is one on the phone, even when its Cancel wrongly reports success |
| `CalibrationAcross.CalibrationReturnsStreams` | android/app/src/main/java/com/example/audiostream/DeviceVolumeControl.kt:71-122 | joined with the life of a phone that handles requests in order or lets them expire: when a run returns a profile, the phone's stream was at the same volume when it was first asked, with a session open when its Begin was confirmed, and without one when its last Cancel was |
| `CalibrationAcross.ReturnedStays` | android/app/src/main/java/com/example/audiostream/DeviceVolumeControl.kt:50-122 | and there it stays, with no session open, through every event until something other than this run touches the phone |
| `CalibrationAcross.NoSessionIsLeft` | windows-server/src/application/calibration.rs:453-479 | on every path, successful or not: if the run's Cancels arrive, a session open on the phone in the end was opened by an event that was none of the run's requests |
| `Pairing.EncodePairingUri` | crates/transport/src/pairing.rs:4-11 | the hex loop and the payload |
| `Pairing.ParseInvertsEncode` | android/app/src/main/java/com/example/audiostream/PairingPayload.kt:20-57 | a printed payload parses exactly if the host is allowed and the port is not 0, to that host and port and a fingerprint text that reads back as the same 32 bytes |
| `Pairing.EncodeInvertsParse` | android/app/src/main/java/com/example/audiostream/PairingPayload.kt:20-57 | whatever the phone accepts is what the server prints for some allowed host, port and fingerprint, but for the case of the hex digits |
| `Pairing.AddressOfHost` | android/app/src/main/java/com/example/audiostream/PairingPayload.kt:64-85 | an accepted host is the dotted decimal text of its address |
| `Fingerprints.ParseFingerprint` | crates/transport/src/config.rs:127-155 | the byte loop computes the specified bytes, always 32 |
| `Fingerprints.ParseInvertsFormat` | crates/transport/src/config.rs:118-155 | every fingerprint reads back from its formatted text |
| `Fingerprints.ParsesExactly` | crates/transport/src/config.rs:127-155 | a text is a fingerprint exactly if it has 64 hex digits beside the separators, and then formats back to them in upper case |

## Left out

- QUIC, TLS, certificates, WASAPI, AudioTrack, camera and JNI glue: foreign calls without visible meaning here.
- The user interface and the Android activities and notifications.
- Floating-point signal work: level windows, medians, tone synthesis, sample conversion and the signal-level formula; measured levels are given reals and the formula is a parameter.
- The encoding of control messages and of the library file; saving is handing over a library, loading its checks.
- Mutexes, condition variables and task scheduling: each operation of a shared object is one step, except for the ring and the volume controller. In particular a tone report is queued in the step that decides it, while the code releases the tone's lock in between.
- Request and receiver ids do not wrap.
- Tone replies, playback-gate handles and addresses in the server's registry, message texts and log lines, and the flag that marks the transmission gate as calibrating.
- The bits in which the phone packs a device report; a report is a record.
- Reading the clock twice within one lock section gives one time; a controller's tick reads it once.
- Counters shown to the user: packets sent, received, dropped, lost and late, and the jitter time in milliseconds.
- `CaptureHub`, `retry_delay` and adapter selection: easy members.
- The cases of `enqueue_latest` in which an end of the queue is closed: the capture thread holds both.
- `PairingPayload.isValidFingerprint`: a filter before the same check of 64 hex digits.
- StreamConservation.PacketsAreExact: source positions wrap at 2^64 as in a release build; a debug build would stop there.
- Runs call by call for anything but gates and saves: draft ids, panel choices and convergence are about operations as one step, with the network before a tick's judging and its gates.
- The transport between a calibration and its phones: that a phone handles requests in their order, each at most once, and that answers are its replies is what `CalibrationAcross.Lives` says of it.
- DeviceControl.Shared.PushReport: reports of two threads may be queued in another order than they were decided.
