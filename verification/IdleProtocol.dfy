/** The idle notice across both ends: datagrams may be lost, repeated and reordered, control
    messages arrive in order. Packets are named by their position in what the sender tried,
    which numbers them modulo 2^32. */
module IdleProtocol {
  import opened Numbers
  import JitterModel
  import opened JitterRefinement
  import opened PacketizerModel
  import opened IdleClient
  import A = AudioSender

  /** The phone's memory in unbounded positions. */
  datatype Ideal = Ideal(newest: Option<nat>, boundary: Option<nat>, deadline: Option<nat>, active: bool)

  function Restarts(i: Ideal, n: nat): Option<nat> {
    if i.boundary.Some? && n >= i.boundary.value then i.boundary else None
  }

  function Take(i: Ideal, n: nat): Ideal {
    var i := if Restarts(i, n).Some? then i.(boundary := None, deadline := None) else i;
    i.(newest := if i.newest.None? || n >= i.newest.value then Some(n) else i.newest,
       active := i.active || i.boundary.None?)
  }

  predicate AcceptsAt(i: Ideal, next: nat) {
    i.newest.None? || i.newest.value < next
  }

  function Notice(i: Ideal, next: nat, now: nat): Ideal {
    if AcceptsAt(i, next) then i.(boundary := Some(next), deadline := Some(now + IDLE_DELAY_MS)) else i
  }

  function Expire(i: Ideal): Ideal {
    if i.deadline.Some? then i.(deadline := None, active := false) else i
  }

  // ----- the 32-bit client -----

  function WrapOption(o: Option<nat>): Option<u32> {
    match o
    case None => None
    case Some(n) => Some(Wrap(n))
  }

  predicate Represents(c: Client, i: Ideal) {
    c == Client(WrapOption(i.newest), WrapOption(i.boundary), i.deadline, i.active)
  }

  /** Close enough for 32 bits to tell which comes first. */
  predicate Near(a: nat, b: nat) {
    -HALF_U32 <= a - b < HALF_U32
  }

  lemma BeforeIsLess(a: nat, b: nat)
    requires Near(a, b)
    ensures JitterModel.SequenceIsBefore(Wrap(a), Wrap(b)) <==> a < b
  {
  }

  /** A packet exactly 2^31 ahead of the boundary counts as before it. */
  lemma HalfwayIsBefore(b: nat)
    ensures JitterModel.SequenceIsBefore(Wrap(b + HALF_U32), Wrap(b))
    ensures !Near(b + HALF_U32, b)
  {
  }

  predicate NearOption(n: nat, o: Option<nat>) {
    o.Some? ==> Near(n, o.value)
  }

  lemma PacketRefines(c: Client, i: Ideal, n: nat)
    requires Represents(c, i) && NearOption(n, i.boundary) && NearOption(n, i.newest)
    ensures Represents(AfterPacket(c, Wrap(n), true), Take(i, n))
    ensures RestartAt(c, Wrap(n)) == WrapOption(Restarts(i, n))
  {
    if i.boundary.Some? {
      BeforeIsLess(n, i.boundary.value);
    }
    if i.newest.Some? {
      BeforeIsLess(n, i.newest.value);
    }
  }

  lemma NoticeRefines(c: Client, i: Ideal, next: nat, now: nat)
    requires Represents(c, i) && (i.newest.Some? ==> Near(i.newest.value, next))
    ensures Represents(AfterNotice(c, Wrap(next), now), Notice(i, next, now))
  {
  }

  // ----- the system -----

  /** The sender has tried `attempted` packets; `control` are the notices under way; the
      phone has handled the packets `handled` and restarted at `restarts`. */
  datatype System = System(
    attempted: nat,
    control: seq<nat>,
    client: Ideal,
    handled: seq<nat>,
    restarts: seq<nat>)

  datatype Event =
    | Try
    | FallIdle
    | Arrive(position: nat)
    | Receive(now: nat)
    | Lapse

  function Start(): System {
    System(0, [], Ideal(None, None, None, false), [], [])
  }

  /** A datagram that was tried may arrive at any time, any number of times or never. */
  predicate Possible(s: System, event: Event) {
    match event
    case Arrive(n) => n < s.attempted
    case Receive(_) => s.control != []
    case _ => true
  }

  function Next(s: System, event: Event): System
    requires Possible(s, event)
  {
    match event
    case Try => s.(attempted := s.attempted + 1)
    case FallIdle => s.(control := s.control + [s.attempted])
    case Arrive(n) =>
      s.(client := Take(s.client, n), handled := s.handled + [n],
         restarts := if Restarts(s.client, n).Some? then s.restarts + [s.client.boundary.value] else s.restarts)
    case Receive(now) => s.(control := s.control[1..], client := Notice(s.client, s.control[0], now))
    case Lapse => s.(client := Expire(s.client))
  }

  ghost predicate Ascending(s: seq<nat>) {
    forall j, k | 0 <= j < k < |s| :: s[j] <= s[k]
  }

  ghost predicate StrictlyAscending(s: seq<nat>) {
    forall j, k | 0 <= j < k < |s| :: s[j] < s[k]
  }

  /** `newest` is the greatest position handled. */
  ghost predicate IsNewest(newest: Option<nat>, handled: seq<nat>) {
    match newest
    case None => handled == []
    case Some(n) => n in handled && forall h <- handled :: h <= n
  }

  ghost predicate Valid(s: System) {
    // notices on their way carry positions of the past, in order
    && Ascending(s.control) && (forall m <- s.control :: m <= s.attempted)
    && (forall h <- s.handled :: h < s.attempted)
    && IsNewest(s.client.newest, s.handled)
    // no handled packet lies at or past a standing boundary
    && (s.client.boundary.Some? ==>
         && s.client.boundary.value <= s.attempted
         && (forall m <- s.control :: s.client.boundary.value <= m)
         && forall h <- s.handled :: h < s.client.boundary.value)
    // restarts only move forward, and a handled packet lies at or past each
    && StrictlyAscending(s.restarts)
    && (forall r <- s.restarts :: exists h <- s.handled :: r <= h)
    // while idle the audio is reported inactive once the deadline has passed
    && (s.client.deadline.Some? ==> s.client.boundary.Some?)
    && (s.client.boundary.Some? && s.client.deadline.None? ==> !s.client.active)
  }

  lemma ArriveKeepsValid(s: System, n: nat)
    requires Valid(s) && n < s.attempted
    ensures Valid(Next(s, Arrive(n)))
  {
    var next := Next(s, Arrive(n));
    assert n in next.handled;
    forall r | r in next.restarts
      ensures exists h <- next.handled :: r <= h
    {
      if r in s.restarts {
        var h :| h in s.handled && r <= h;
        assert h in next.handled;
      }
    }
    forall j | 0 <= j < |s.restarts| && Restarts(s.client, n).Some?
      ensures s.restarts[j] < s.client.boundary.value
    {
      assert s.restarts[j] in s.restarts;
      var h :| h in s.handled && s.restarts[j] <= h;
    }
  }

  lemma ReceiveKeepsValid(s: System, now: nat)
    requires Valid(s) && s.control != []
    ensures Valid(Next(s, Receive(now)))
  {
    var m, rest := s.control[0], s.control[1..];
    assert m in s.control;
    forall l | l in rest
      ensures l in s.control && m <= l
    {
      var k :| 0 <= k < |rest| && rest[k] == l;
      assert s.control[0] <= s.control[k + 1];
    }
    assert forall j, k | 0 <= j < k < |rest| :: rest[j] == s.control[j + 1] && rest[k] == s.control[k + 1];
  }

  lemma FallIdleKeepsValid(s: System)
    requires Valid(s)
    ensures Valid(Next(s, FallIdle))
  {
    assert forall j | 0 <= j < |s.control| :: s.control[j] in s.control;
  }

  lemma NextKeepsValid(s: System, event: Event)
    requires Valid(s) && Possible(s, event)
    ensures Valid(Next(s, event))
  {
    match event
    case Arrive(n) => ArriveKeepsValid(s, n);
    case Receive(now) => ReceiveKeepsValid(s, now);
    case FallIdle => FallIdleKeepsValid(s);
    case _ =>
  }

  /** The phone takes a notice exactly if it has handled no packet at or past it. */
  lemma AcceptedExactly(s: System)
    requires Valid(s) && s.control != []
    ensures AcceptsAt(s.client, s.control[0]) <==> forall h <- s.handled :: h < s.control[0]
  {
  }

  /** The first packet at or past a standing boundary restarts playback there, once: the
      boundary lies past all earlier restarts and all packets handled before. */
  lemma ReachedBoundaryRestarts(s: System, n: nat)
    requires Valid(s) && n < s.attempted && s.client.boundary.Some?
    ensures var b, next := s.client.boundary.value, Next(s, Arrive(n));
            && (forall r <- s.restarts :: r < b) && (forall h <- s.handled :: h < b)
            && next.restarts == (if n >= b then s.restarts + [b] else s.restarts)
            && next.client.boundary == (if n >= b then None else Some(b))
  {
  }

  ghost predicate PossibleRun(s: System, events: seq<Event>)
    decreases |events|
  {
    events == [] || (Possible(s, events[0]) && PossibleRun(Next(s, events[0]), events[1..]))
  }

  ghost function Run(s: System, events: seq<Event>): System
    requires PossibleRun(s, events)
    decreases |events|
  {
    if events == [] then s else Run(Next(s, events[0]), events[1..])
  }

  lemma {:induction false} RunKeepsValid(s: System, events: seq<Event>)
    requires Valid(s) && PossibleRun(s, events)
    ensures Valid(Run(s, events))
    ensures Run(s, events).attempted >= s.attempted
    decreases |events|
  {
    if events != [] {
      NextKeepsValid(s, events[0]);
      RunKeepsValid(Next(s, events[0]), events[1..]);
    }
  }

  lemma EveryRunIsValid(events: seq<Event>)
    requires PossibleRun(Start(), events)
    ensures Valid(Run(Start(), events))
  {
    RunKeepsValid(Start(), events);
  }

  // ----- the system with the 32-bit client -----

  datatype Wire = Wire(client: Client, restarts: seq<u32>)

  /** What the phone does in the same step, seeing only numbers. */
  function WireNext(w: Wire, s: System, event: Event): Wire
    requires Possible(s, event)
  {
    match event
    case Arrive(n) =>
      var restart := RestartAt(w.client, Wrap(n));
      Wire(AfterPacket(w.client, Wrap(n), true), if restart.Some? then w.restarts + [restart.value] else w.restarts)
    case Receive(now) => w.(client := AfterNotice(w.client, Wrap(s.control[0]), now))
    case Lapse => w.(client := AfterDeadline(w.client))
    case _ => w
  }

  ghost function WireRun(w: Wire, s: System, events: seq<Event>): Wire
    requires PossibleRun(s, events)
    decreases |events|
  {
    if events == [] then w else WireRun(WireNext(w, s, events[0]), Next(s, events[0]), events[1..])
  }

  function WrapAll(positions: seq<nat>): seq<u32> {
    seq(|positions|, k requires 0 <= k < |positions| => Wrap(positions[k]))
  }

  predicate Follows(w: Wire, s: System) {
    Represents(w.client, s.client) && w.restarts == WrapAll(s.restarts)
  }

  /** The numbers the phone compares in this step are less than 2^31 apart. */
  predicate InWindow(s: System, event: Event)
    requires Possible(s, event)
  {
    match event
    case Arrive(n) => NearOption(n, s.client.boundary) && NearOption(n, s.client.newest)
    case Receive(_) => s.client.newest.Some? ==> Near(s.client.newest.value, s.control[0])
    case _ => true
  }

  lemma NextFollows(w: Wire, s: System, event: Event)
    requires Follows(w, s) && Possible(s, event) && InWindow(s, event)
    ensures Follows(WireNext(w, s, event), Next(s, event))
  {
    match event
    case Arrive(n) =>
      PacketRefines(w.client, s.client, n);
    case Receive(now) =>
      NoticeRefines(w.client, s.client, s.control[0], now);
    case _ =>
  }

  ghost predicate InWindowRun(s: System, events: seq<Event>)
    requires PossibleRun(s, events)
    decreases |events|
  {
    events == [] || (InWindow(s, events[0]) && InWindowRun(Next(s, events[0]), events[1..]))
  }

  /** While no arriving number is 2^31 or more from those remembered, the phone restarts
      exactly where the unbounded one does. */
  lemma {:induction false} RunFollows(w: Wire, s: System, events: seq<Event>)
    requires Follows(w, s) && PossibleRun(s, events) && InWindowRun(s, events)
    ensures Follows(WireRun(w, s, events), Run(s, events))
    decreases |events|
  {
    if events != [] {
      NextFollows(w, s, events[0]);
      RunFollows(WireNext(w, s, events[0]), Next(s, events[0]), events[1..]);
    }
  }

  lemma {:induction false} ShortRunsAreInWindow(s: System, events: seq<Event>)
    requires Valid(s) && PossibleRun(s, events) && Run(s, events).attempted <= HALF_U32
    ensures InWindowRun(s, events)
    decreases |events|
  {
    if events != [] {
      var next := Next(s, events[0]);
      NextKeepsValid(s, events[0]);
      RunKeepsValid(next, events[1..]);
      ShortRunsAreInWindow(next, events[1..]);
    }
  }

  /** Over at most 2^31 packets, however datagrams are lost, repeated and reordered, the
      phone on its 32-bit numbers restarts at the boundaries of the unbounded protocol, each
      past the one before. */
  lemma FewPacketsAreSafe(events: seq<Event>)
    requires PossibleRun(Start(), events) && Run(Start(), events).attempted <= HALF_U32
    ensures var w := WireRun(Wire(NewClient(), []), Start(), events);
            && Follows(w, Run(Start(), events)) && StrictlyAscending(w.restarts)
  {
    ShortRunsAreInWindow(Start(), events);
    RunFollows(Wire(NewClient(), []), Start(), events);
    EveryRunIsValid(events);
    var s := Run(Start(), events);
    forall r | r in s.restarts
      ensures Wrap(r) == r
    {
      var h :| h in s.handled && r <= h;
    }
    assert WrapAll(s.restarts) == s.restarts;
  }

  // One packet more is too many: idle before the first packet, the phone misses the boundary
  // at position 0 if of 2^31 + 1 packets only the last arrives.

  ghost function Tries(n: nat): (r: seq<Event>)
    ensures |r| == n && forall k | 0 <= k < n :: r[k] == Try
  {
    seq(n, _ => Try)
  }

  lemma {:induction false} TriesAttempt(w: Wire, s: System, n: nat, rest: seq<Event>)
    requires PossibleRun(s.(attempted := s.attempted + n), rest)
    ensures PossibleRun(s, Tries(n) + rest)
    ensures var t := s.(attempted := s.attempted + n);
            Run(s, Tries(n) + rest) == Run(t, rest) && WireRun(w, s, Tries(n) + rest) == WireRun(w, t, rest)
    decreases n
  {
    if n == 0 {
      assert Tries(n) + rest == rest;
    } else {
      var next := Next(s, Try);
      assert (Tries(n) + rest)[0] == Try && (Tries(n) + rest)[1..] == Tries(n - 1) + rest;
      TriesAttempt(w, next, n - 1, rest);
    }
  }

  ghost function LateArrival(n: nat): seq<Event> {
    [FallIdle, Receive(0)] + (Tries(n + 1) + [Arrive(n)])
  }

  lemma LateArrivalRuns(n: nat)
    ensures PossibleRun(Start(), LateArrival(n))
    ensures var w, s := WireRun(Wire(NewClient(), []), Start(), LateArrival(n)), Run(Start(), LateArrival(n));
            && s.attempted == n + 1 && s.restarts == [0]
            && (JitterModel.SequenceIsBefore(Wrap(n), Wrap(0)) ==> w.restarts == [])
  {
    var w0, s0 := Wire(NewClient(), []), Start();
    var all := LateArrival(n);
    var w1, s1 := WireNext(w0, s0, FallIdle), Next(s0, FallIdle);
    var w2, s2 := WireNext(w1, s1, Receive(0)), Next(s1, Receive(0));
    var rest := Tries(n + 1) + [Arrive(n)];
    assert all[0] == FallIdle && all[1..] == [Receive(0)] + rest && all[1..][1..] == rest;
    var t := s2.(attempted := n + 1);
    OneEvent(w2, t, Arrive(n));
    TriesAttempt(w2, s2, n + 1, [Arrive(n)]);
  }

  lemma OneEvent(w: Wire, s: System, event: Event)
    requires Possible(s, event)
    ensures PossibleRun(s, [event])
    ensures Run(s, [event]) == Next(s, event) && WireRun(w, s, [event]) == WireNext(w, s, event)
  {
    assert [event][1..] == [];
  }

  /** Of 2^31 + 1 packets tried after an idle notice only the last arrives: the protocol
      restarts at 0 and the phone does not. */
  lemma LateArrivalIsMissed() returns (events: seq<Event>)
    ensures PossibleRun(Start(), events) && Run(Start(), events).attempted == HALF_U32 + 1
    ensures Run(Start(), events).restarts == [0]
    ensures WireRun(Wire(NewClient(), []), Start(), events).restarts == []
  {
    events := LateArrival(HALF_U32);
    LateArrivalRuns(HALF_U32);
    HalfwayIsBefore(0);
  }

  /** Every run of at most `n` packets restarts the phone where the protocol does. */
  ghost predicate AlwaysFollows(n: nat) {
    forall events | PossibleRun(Start(), events) && Run(Start(), events).attempted <= n ::
      WireRun(Wire(NewClient(), []), Start(), events).restarts == WrapAll(Run(Start(), events).restarts)
  }

  /** The protocol survives 32-bit numbers exactly up to 2^31 packets. */
  lemma SafeExactly(n: nat)
    ensures AlwaysFollows(n) <==> n <= HALF_U32
  {
    if n <= HALF_U32 {
      forall events | PossibleRun(Start(), events) && Run(Start(), events).attempted <= n
        ensures WireRun(Wire(NewClient(), []), Start(), events).restarts == WrapAll(Run(Start(), events).restarts)
      {
        FewPacketsAreSafe(events);
      }
    } else {
      var events := LateArrivalIsMissed();
      assert |WrapAll(Run(Start(), events).restarts)| == 1;
    }
  }

  // ----- the sender's side -----

  /** What the sender's emissions are to the system. */
  function Emitted(log: seq<A.Emission>): seq<Event> {
    seq(|log|, k requires 0 <= k < |log| => if log[k].Tried? then Try else FallIdle)
  }

  /** The sender's `i`th emission carries the number of the position the system is at: a
      notice separates what was tried before it from all that comes after. */
  lemma {:induction false} SenderIsNumbered(s: A.Sender, events: seq<A.Event>, i: nat)
    requires s.packetizer.sequence == 0 && i < |A.Run(s, events).emitted|
    ensures A.NumberOf(A.Run(s, events).emitted[i]) == Wrap(A.PacketsBefore(A.Run(s, events).emitted, i))
  {
    var log := A.Run(s, events).emitted;
    A.RunIsNumbered(s, events);
    assert A.IsNumbered(log, 0, i);
    NumberIsWrapped(A.PacketsBefore(log, i));
  }

  lemma {:induction false} NumberIsWrapped(k: nat)
    ensures NumberAfter(0, k) == Wrap(k)
  {
    if k > 0 {
      NumberIsWrapped(k - 1);
      WrapStep(k - 1, k);
    }
  }

  /** What the sender emits is a run of this protocol, and its `i`th emission carries the
      number of the position the protocol gives that packet or notice. */
  lemma EmissionsDrive(s: A.Sender, events: seq<A.Event>, i: nat)
    requires s.packetizer.sequence == 0 && i <= |A.Run(s, events).emitted|
    ensures var log := A.Run(s, events).emitted;
            && PossibleRun(Start(), Emitted(log[..i]))
            && Run(Start(), Emitted(log[..i])).attempted == A.PacketsBefore(log, i)
            && (i < |log| ==> A.NumberOf(log[i]) == Wrap(Run(Start(), Emitted(log[..i])).attempted))
  {
    var log := A.Run(s, events).emitted;
    EmissionsDriveFrom(Start(), log, 0, i);
    assert log[0..i] == log[..i];
    if i < |log| {
      SenderIsNumbered(s, events, i);
    }
  }

  lemma {:induction false} EmissionsDriveFrom(s: System, log: seq<A.Emission>, j: nat, i: nat)
    requires j <= i <= |log| && s.attempted == A.PacketsBefore(log, j)
    ensures PossibleRun(s, Emitted(log[j..i]))
    ensures Run(s, Emitted(log[j..i])).attempted == A.PacketsBefore(log, i)
    decreases i - j
  {
    if j < i {
      var events := Emitted(log[j..i]);
      assert events[1..] == Emitted(log[j + 1..i]);
      EmissionsDriveFrom(Next(s, events[0]), log, j + 1, i);
    }
  }
}
