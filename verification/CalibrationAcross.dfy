/** A calibration run of the server and the life of a phone, taken together
    (windows-server/src/application/calibration.rs and
    android/app/src/main/java/com/example/audiostream/DeviceVolumeControl.kt). */
module CalibrationAcross {
  import opened Numbers
  import opened ControlMessages
  import opened CalibrationLog
  import opened CalibrationEvidence
  import opened PhoneModel
  import opened PhoneSessions

  const EXPIRED := 8

  predicate Fits(r: Reply) {
    0 <= r.volume < 0x1_0000 && 0 <= r.minimum < 0x1_0000 && 0 <= r.maximum < 0x1_0000
  }

  /** The status the server gets for a phone's reply. */
  function AsStatus(r: Reply, deviceId: string, name: string): DeviceStatus
    requires Fits(r)
  {
    DeviceStatus(r.requestId, deviceId, name, r.volume, r.minimum, r.maximum, r.fixed, r.speaker, r.failed)
  }

  /** What the server accepts as a restoration is one: its check of the volume catches even
      the Cancel that wrongly reports success on an expired session. */
  lemma ConfirmationIsRestoration(
    p: Phone, c: Command, e: Phases, original: DeviceStatus, deviceId: string, name: string)
    requires c.operation == CANCEL && Fits(ReplyTo(p, c, e))
    requires CommitConfirmed(AsStatus(ReplyTo(p, c, e), deviceId, name), original, original.volume)
    ensures Apply(p, c, e).phone.stream == original.volume
    ensures Apply(p, c, e).phone.original.None?
  {
  }

  // ----- whole runs -----

  /** A phone during a run: what it was, what happened to it, and the event, if any, that was
      its handling of request `k`. */
  datatype Life = Life(phone: Phone, events: seq<Event>, handled: nat -> Option<nat>, deviceId: string, name: string)

  function After(life: Life, n: nat): Phone
    requires n <= |life.events|
  {
    At(life.phone, life.events, n)
  }

  /** A request to the phone's volume control. */
  predicate IsFor(r: Request, id: nat) {
    (r.AskStatus? || r.AskBegin? || r.AskCancel? || r.AskVolume?) && r.id == id
  }

  /** The command that the phone takes for a request. Any but a Cancel may have expired. */
  predicate Carries(r: Request, c: Command) {
    match r
    case AskStatus(_) => c.operation == 1 || c.operation == EXPIRED
    case AskBegin(_) => c.operation == 3 || c.operation == EXPIRED
    case AskCancel(_) => c.operation == CANCEL
    case AskVolume(_, index) => (c.operation == 6 && c.value == index) || c.operation == EXPIRED
    case _ => false
  }

  /** Event `j` was the phone's handling of the request; an answer is its reply. */
  ghost predicate Handles(life: Life, r: Request, a: Answer, j: nat) {
    && j < |life.events| && life.events[j].Do? && Carries(r, life.events[j].command) && a.queued
    && var reply := ReplyTo(After(life, j), life.events[j].command, life.events[j].phases);
       a.status.Some? ==> Fits(reply) && a.status.value == AsStatus(reply, life.deviceId, life.name)
  }

  /** The phone handles requests in their order, each at most once, and answers come from it. */
  ghost predicate Lives(life: Life, log: seq<Request>, answers: Answers, start: nat, id: nat) {
    && (forall k | start <= k < |log| && IsFor(log[k], id) ::
         && (answers(k).status.Some? ==> life.handled(k).Some?)
         && (life.handled(k).Some? ==> Handles(life, log[k], answers(k), life.handled(k).value)))
    && forall j, k | start <= j < k < |log| && IsFor(log[j], id) && IsFor(log[k], id) ::
         life.handled(j).Some? && life.handled(k).Some? ==> life.handled(j).value < life.handled(k).value
  }

  /** The phone handled request `k`, and then its stream was at `volume` and a session open or not. */
  ghost predicate Left(life: Life, k: nat, volume: int, session: bool) {
    && life.handled(k).Some? && life.handled(k).value < |life.events|
    && var p := After(life, life.handled(k).value + 1); p.stream == volume && (session ==> p.original.Some?)
  }

  lemma ReplyIsOfTheStream(life: Life, log: seq<Request>, answers: Answers, start: nat, id: nat, k: nat)
    requires Lives(life, log, answers, start, id) && start <= k < |log| && Replied(answers(k))
    requires IsFor(log[k], id) && !log[k].AskVolume?
    ensures Left(life, k, answers(k).status.value.volume, log[k].AskBegin?)
  {
    hide Lives;
    LifeAt(life, log, answers, start, id, k);
    var j := life.handled(k).value;
    var event := life.events[j];
    SuccessIsOperation(After(life, j), event.command, event.phases, log[k]);
    RepliesShowTheStream(After(life, j), event.command, event.phases);
  }

  lemma LifeAt(life: Life, log: seq<Request>, answers: Answers, start: nat, id: nat, k: nat)
    requires Lives(life, log, answers, start, id) && start <= k < |log| && IsFor(log[k], id)
    ensures answers(k).status.Some? ==> life.handled(k).Some?
    ensures life.handled(k).Some? ==> Handles(life, log[k], answers(k), life.handled(k).value)
  {
  }

  lemma HandledInOrder(life: Life, log: seq<Request>, answers: Answers, start: nat, id: nat, j: nat, k: nat)
    requires Lives(life, log, answers, start, id) && start <= j < |log| && start <= k < |log|
    requires IsFor(log[j], id) && IsFor(log[k], id) && life.handled(j).Some? && life.handled(k).Some?
    requires life.handled(j).value < life.handled(k).value
    ensures j < k
  {
  }

  /** What did not fail had not expired; a Begin that did not fail left a session open. */
  lemma SuccessIsOperation(p: Phone, c: Command, e: Phases, r: Request)
    requires Carries(r, c) && !ReplyTo(p, c, e).failed
    ensures c.operation != EXPIRED && (r.AskBegin? ==> Apply(p, c, e).phone.original.Some?)
  {
  }

  /** The phone's stream was at its volume when it was asked, when its session was opened, and
      when it was ended with request `cancel`, after which nothing was asked that moves it. */
  ghost predicate Returned(life: Life, log: seq<Request>, start: nat, o: Original,
                           query: nat, begin: nat, cancel: nat)
  {
    && start <= query < begin < cancel < |log|
    && log[query] == AskStatus(o.id) && log[begin] == AskBegin(o.id) && log[cancel] == AskCancel(o.id)
    && Left(life, query, o.status.volume, false) && Left(life, begin, o.status.volume, true)
    && Left(life, cancel, o.status.volume, false) && After(life, life.handled(cancel).value + 1).original.None?
    && LeavesAlone(log[cancel..], o.id)
  }

  /** When a calibration returns a profile, each phone's stream was back where it had been. */
  lemma CalibrationReturnsStreams(
    life: Life, log: seq<Request>, t: Trial, start: nat, begun: seq<Original>, o: Original)
    requires o in begun && RoomHeard(log, start, begun, t) && AllBack(log, t.answers, start, t.since, begun)
    requires Lives(life, log, t.answers, start, o.id)
    ensures exists query, begin, cancel :: Returned(life, log, start, o, query, begin, cancel)
  {
    hide Lives;
    var query: nat :| KnownAt(log, t.answers, start, o, query);
    var begin: nat :| OpenedAt(log, t.answers, start, t.since, o, begin);
    var cancel: nat :| ConfirmedAt(log, t.answers, t.since, o, cancel);
    ReplyIsOfTheStream(life, log, t.answers, start, o.id, query);
    ReplyIsOfTheStream(life, log, t.answers, start, o.id, begin);
    ReplyIsOfTheStream(life, log, t.answers, start, o.id, cancel);
    CancelLeavesNoSession(life, log, t.answers, start, o.id, cancel);
    assert Returned(life, log, start, o, query, begin, cancel);
  }

  /** No session survives a Cancel, whatever its success. */
  lemma CancelLeavesNoSession(life: Life, log: seq<Request>, answers: Answers, start: nat, id: nat, k: nat)
    requires Lives(life, log, answers, start, id) && start <= k < |log| && log[k] == AskCancel(id)
    requires life.handled(k).Some?
    ensures life.handled(k).value < |life.events| && After(life, life.handled(k).value + 1).original.None?
  {
    hide Lives;
    LifeAt(life, log, answers, start, id, k);
  }

  // ----- afterwards -----

  /** Sets the volume or opens a session. */
  predicate Touches(e: Event) {
    e.Outside? || (e.Do? && e.command.operation in {2, 3, 6, 7})
  }

  lemma UntouchedRests(p: Phone, e: Event)
    requires p.original.None? && !Touches(e)
    ensures Next(p, e).stream == p.stream && Next(p, e).original.None?
  {
  }

  /** From event `j` up to `n` only the run touched the phone. */
  ghost predicate OnlyTheRun(life: Life, log: seq<Request>, start: nat, id: nat, j: nat, n: nat)
    requires n <= |life.events|
  {
    forall i | j <= i < n && Touches(life.events[i]) ::
      exists k | start <= k < |log| && IsFor(log[k], id) :: life.handled(k) == Some(i as nat)
  }

  /** There it stays, without a session, until somebody else touches the phone. */
  lemma ReturnedStays(life: Life, log: seq<Request>, answers: Answers, start: nat, o: Original,
                      query: nat, begin: nat, cancel: nat, n: nat)
    requires Lives(life, log, answers, start, o.id) && Returned(life, log, start, o, query, begin, cancel)
    requires life.handled(cancel).value < n <= |life.events|
    requires OnlyTheRun(life, log, start, o.id, life.handled(cancel).value + 1, n)
    ensures After(life, n).stream == o.status.volume && After(life, n).original.None?
  {
    var first := life.handled(cancel).value + 1;
    assert After(life, first).stream == o.status.volume && After(life, first).original.None?;
    hide Lives, Returned, Touches, At;
    forall i | first <= i < n
      ensures !Touches(life.events[i])
    {
      LaterIsUntouched(life, log, answers, start, o, query, begin, cancel, n, i);
    }
    UntouchedStays(life, first, n);
  }

  lemma {:induction false} UntouchedStays(life: Life, first: nat, n: nat)
    requires first <= n <= |life.events| && After(life, first).original.None?
    requires forall i | first <= i < n :: !Touches(life.events[i])
    ensures After(life, n).stream == After(life, first).stream && After(life, n).original.None?
  {
    hide Touches, Next;
    if first < n {
      UntouchedStays(life, first, n - 1);
      UntouchedRests(After(life, n - 1), life.events[n - 1]);
    }
  }

  lemma LaterIsUntouched(life: Life, log: seq<Request>, answers: Answers, start: nat, o: Original,
                         query: nat, begin: nat, cancel: nat, n: nat, i: nat)
    requires Lives(life, log, answers, start, o.id) && Returned(life, log, start, o, query, begin, cancel)
    requires life.handled(cancel).value < i < n <= |life.events|
    requires OnlyTheRun(life, log, start, o.id, life.handled(cancel).value + 1, n)
    ensures !Touches(life.events[i])
  {
    hide Lives, Returned, Touches;
    forall k | start <= k < |log| && IsFor(log[k], o.id) && life.handled(k) == Some(i)
      ensures !Touches(life.events[i])
    {
      LaterRequestIsHarmless(life, log, answers, start, o, query, begin, cancel, k);
    }
  }

  lemma LaterRequestIsHarmless(life: Life, log: seq<Request>, answers: Answers, start: nat, o: Original,
                               query: nat, begin: nat, cancel: nat, k: nat)
    requires Lives(life, log, answers, start, o.id) && Returned(life, log, start, o, query, begin, cancel)
    requires start <= k < |log| && IsFor(log[k], o.id)
    requires life.handled(k).Some? && life.handled(cancel).value < life.handled(k).value < |life.events|
    ensures !Touches(life.events[life.handled(k).value])
  {
    LifeAt(life, log, answers, start, o.id, k);
    HandledInOrder(life, log, answers, start, o.id, cancel, k);
    hide Lives, Left, At;
    assert log[k] in log[cancel..];
  }

  /** Whether or not a run succeeds, and whatever it was answered: if its Cancels arrive, a
      session that is open on the phone in the end was not opened by the run. */
  lemma NoSessionIsLeft(life: Life, log: seq<Request>, answers: Answers, start: nat, id: nat, volume: int)
    requires Lives(life, log, answers, start, id) && AllCancelled(log, answers, start)
    requires forall k | start <= k < |log| && log[k] == AskCancel(id) :: life.handled(k).Some?
    requires life.phone.original.None? && After(life, |life.events|).original == Some(volume)
    ensures exists j | 0 <= j < |life.events| :: OpensAt(life.phone, life.events, j, |life.events|, volume)
              && forall k | start <= k < |log| && IsFor(log[k], id) :: life.handled(k) != Some(j)
  {
    OriginalIsFromFirstBegin(life.phone, life.events, |life.events|, volume);
    hide OpensAt, Lives, AllCancelled;
    var j :| 0 <= j < |life.events| && OpensAt(life.phone, life.events, j, |life.events|, volume);
    StaysOpen(life, j, volume);
    forall k | start <= k < |log| && IsFor(log[k], id) && life.handled(k) == Some(j)
      ensures exists m: nat :: j < m <= |life.events| && After(life, m).original.None?
    {
      BegunIsClosed(life, log, answers, start, id, k);
    }
  }

  lemma StaysOpen(life: Life, j: nat, volume: int)
    requires j < |life.events| && OpensAt(life.phone, life.events, j, |life.events|, volume)
    ensures life.events[j].Do? && life.events[j].command.operation == 3
    ensures forall m: nat | j < m <= |life.events| :: After(life, m).original.Some?
  {
  }

  lemma BegunIsClosed(life: Life, log: seq<Request>, answers: Answers, start: nat, id: nat, k: nat)
    requires Lives(life, log, answers, start, id) && AllCancelled(log, answers, start)
    requires forall c | start <= c < |log| && log[c] == AskCancel(id) :: life.handled(c).Some?
    requires start <= k < |log| && IsFor(log[k], id) && life.handled(k).Some?
    requires var j := life.handled(k).value;
             j < |life.events| && life.events[j].Do? && life.events[j].command.operation == 3
    ensures exists m: nat :: life.handled(k).value < m <= |life.events| && After(life, m).original.None?
  {
    LifeAt(life, log, answers, start, id, k);
    var c :| k < c < |log| && log[c] == AskCancel(id);
    CancelLeavesNoSession(life, log, answers, start, id, c);
  }
}
