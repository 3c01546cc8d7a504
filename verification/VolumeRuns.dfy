/** Runs of the volume protocol: any interleaving of what the user does, what the
    network does and the controller's ticks. */
module VolumeRuns {
  import opened Numbers
  import opened ControlMessages
  import opened VolumeProfiles
  import opened RegistryModel
  import opened VolumeModel

  datatype Event =
    | Net(event: NetEvent)
    | TickEvent(input: TickInput)
    | OpenEvent
    | CloseEvent(now: nat)
    | RememberEvent(id: nat, device: DeviceStatus)
    | EditEvent(draft: Option<Profile>)
    | SaveEvent(name: string, copy: bool, ioOk: bool)
    | SelectEvent(profile: u64, ioOk: bool)
    | DeleteEvent(profile: u64, ioOk: bool)
    | SetVolumeEvent(requested: u16, now: nat)
    | ShutDownEvent
    | FinishEvent(ioOk: bool)

  ghost function Next(w: World, e: Event): World {
    match e
    case Net(event) => w.(registry := Apply(w.registry, event))
    case TickEvent(input) => Tick(w, input)
    case OpenEvent => Open(w).world
    case CloseEvent(now) => Close(w, now)
    case RememberEvent(id, device) => RememberDevice(w, id, device)
    case EditEvent(draft) => EditDraft(w, draft).world
    case SaveEvent(name, copy, ioOk) => SaveDraft(w, name, copy, ioOk).world
    case SelectEvent(profile, ioOk) => Select(w, profile, ioOk).world
    case DeleteEvent(profile, ioOk) => Delete(w, profile, ioOk).world
    case SetVolumeEvent(requested, now) => RequestVolume(w, requested, now).world
    case ShutDownEvent => ShutDown(w)
    case FinishEvent(ioOk) => Finish(w, ioOk).world
  }

  ghost function Run(w: World, events: seq<Event>): World {
    if events == [] then w
    else Next(Run(w, events[..|events| - 1]), events[|events| - 1])
  }

  /** The world at start-up, with the library that was loaded or, after a failed load,
      the empty one and saving forbidden. */
  function Initial(loaded: Option<Library>): World {
    World(EmptyRegistry,
          match loaded
          case Some(library) => NewState(library, false)
          case None => NewState(Library(None, []), true),
          [])
  }
}
