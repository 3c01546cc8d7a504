/** What the server may hear about a tone: over any interleaving of requests, forced stops,
    expiries and playback reports (android/app/src/main/rust/src/device_control.rs). */
module ToneGrammar {
  import opened Numbers
  import opened ToneModel

  datatype Event =
    | Ask(requestId: u32, enabled: bool, speaker: bool, now: nat)
    | Stop
    | Tick(now: nat)
    | Report(token: Token, playing: bool, now: nat)
    | Reset

  function Initial(): Tone { Tone(0, None, false) }

  function Step(t: Tone, event: Event): (d: Decided)
    requires Valid(t)
    ensures Valid(d.tone)
  {
    match event
    case Ask(id, enabled, speaker, now) => Request(id, enabled, speaker, now)
    case Stop => ForceStop(t)
    case Tick(now) => Expire(t, now)
    case Report(token, playing, now) => Playback(t, token, playing, now)
    case Reset => Decided(Initial(), [])
  }

  /** The tone with its history: all reports, and the enable and disable requests. */
  datatype Session = Session(tone: Tone, log: seq<ToneState>, asked: map<u32, bool>)

  function Begin(): Session { Session(Initial(), [], map[]) }

  function Next(s: Session, event: Event): Session
    requires Valid(s.tone)
  {
    var d := Step(s.tone, event);
    Session(d.tone, s.log + d.reports, if event.Ask? then s.asked[event.requestId := event.enabled] else s.asked)
  }

  /** The server never uses a request id other than 0 twice. */
  predicate Fresh(s: Session, event: Event) {
    event.Ask? && event.requestId != 0 ==> event.requestId !in s.asked
  }

  ghost predicate FreshRun(s: Session, events: seq<Event>)
    requires Valid(s.tone)
    decreases |events|
  {
    events == [] || (Fresh(s, events[0]) && FreshRun(Next(s, events[0]), events[1..]))
  }

  ghost function Run(s: Session, events: seq<Event>): Session
    requires Valid(s.tone)
    decreases |events|
  {
    if events == [] then s else Run(Next(s, events[0]), events[1..])
  }

  /** What the log says about one request. */
  function Trace(log: seq<ToneState>, id: u32): seq<ToneState> {
    if log == [] then [] else
    var front := Trace(log[..|log| - 1], id);
    if log[|log| - 1].requestId == id then front + [log[|log| - 1]] else front
  }

  lemma {:induction false} TraceConcat(a: seq<ToneState>, b: seq<ToneState>, id: u32)
    ensures Trace(a + b, id) == Trace(a, id) + Trace(b, id)
  {
    if b == [] {
      assert a + b == a;
    } else {
      TraceConcat(a, b[..|b| - 1], id);
      assert (a + b)[..|a| + |b| - 1] == a + b[..|b| - 1];
    }
  }

  function Playing(id: u32): ToneState { ToneState(id, true, false) }

  function Stopped(id: u32): ToneState { ToneState(id, false, false) }

  function Failed(id: u32): ToneState { ToneState(id, false, true) }

  /** The language of acknowledgements of one request. */
  predicate Allowed(trace: seq<ToneState>, id: u32, enabled: bool) {
    if enabled then trace in {[], [Playing(id)], [Failed(id)], [Playing(id), Failed(id)]}
    else trace in {[], [Stopped(id)]}
  }

  /** Where the current request stands, and what was said about it. */
  predicate Current(t: Tone, trace: seq<ToneState>, id: u32, enabled: bool) {
    if !enabled then
      t.token == TokenOf(id, false) && t.until.None? && trace == if t.responded then [Stopped(id)] else []
    else if t.token == TokenOf(id, true) then
      if t.until.Some? then trace == (if t.responded then [Playing(id)] else [])
      else t.responded && trace == [Failed(id)]
    else
      && t.token == TokenOf(id, false) && t.until.None? && t.responded
      && trace in {[Failed(id)], [Playing(id), Failed(id)]}
  }

  ghost predicate Acknowledged(s: Session) {
    && Valid(s.tone)
    && (forall id <- s.asked :: id != 0 ==> Allowed(Trace(s.log, id), id, s.asked[id]))
    && (forall id: u32 :: id == 0 || id !in s.asked ==> Trace(s.log, id) == [])
    && var id := IdOf(s.tone.token);
       id != 0 ==> id in s.asked && Current(s.tone, Trace(s.log, id), id, s.asked[id])
  }

  /** The request that a step is about. */
  function Served(s: Session, event: Event): u32
    requires Valid(s.tone)
  {
    if event.Ask? then event.requestId else IdOf(s.tone.token)
  }

  /** A step speaks only of the request it serves, and only in the order of the language. */
  lemma StepSpeaks(s: Session, event: Event)
    requires Acknowledged(s) && Fresh(s, event)
    ensures var d := Step(s.tone, event);
            && |d.reports| <= 1
            && (forall r <- d.reports :: r.requestId == Served(s, event))
            && (Served(s, event) == 0 ==> d.reports == [])
  {
  }

  lemma CurrentMoves(t: Tone, trace: seq<ToneState>, id: u32, enabled: bool, event: Event)
    requires Valid(t) && id != 0 && IdOf(t.token) == id && Current(t, trace, id, enabled)
    requires !event.Ask? && !event.Reset?
    ensures var d := Step(t, event);
            && IdOf(d.tone.token) == id && Current(d.tone, trace + d.reports, id, enabled)
  {
    assert trace + [] == trace && [] + [Playing(id)] == [Playing(id)] && [] + [Stopped(id)] == [Stopped(id)];
    assert [] + [Failed(id)] == [Failed(id)] && [Playing(id)] + [Failed(id)] == [Playing(id), Failed(id)];
  }

  lemma CurrentIsAllowed(t: Tone, trace: seq<ToneState>, id: u32, enabled: bool)
    requires Current(t, trace, id, enabled)
    ensures Allowed(trace, id, enabled)
  {
  }

  lemma AskBegins(s: Session, event: Event)
    requires Acknowledged(s) && event.Ask? && event.requestId != 0 && Fresh(s, event)
    ensures var d := Step(s.tone, event);
            && IdOf(d.tone.token) == event.requestId
            && Current(d.tone, d.reports, event.requestId, event.enabled)
  {
  }

  lemma OneReport(r: ToneState, id: u32)
    ensures Trace([r], id) == if r.requestId == id then [r] else []
  {
  }

  lemma TraceAfter(s: Session, event: Event, id: u32)
    requires Acknowledged(s) && Fresh(s, event)
    ensures var d := Step(s.tone, event);
            Trace(Next(s, event).log, id)
            == Trace(s.log, id)
               + if id == Served(s, event) then d.reports else []
  {
    var d := Step(s.tone, event);
    TraceConcat(s.log, d.reports, id);
    StepSpeaks(s, event);
    if d.reports != [] {
      assert d.reports == [d.reports[0]] && d.reports[0] in d.reports;
      OneReport(d.reports[0], id);
    }
  }

  /** The step leaves every trace but the served one as it was. */
  lemma OthersKeep(s: Session, event: Event)
    requires Acknowledged(s) && Fresh(s, event)
    ensures forall id: u32 :: id == 0 || id != Served(s, event) ==> Trace(Next(s, event).log, id) == Trace(s.log, id)
  {
    StepSpeaks(s, event);
    forall id: u32 | id == 0 || id != Served(s, event)
      ensures Trace(Next(s, event).log, id) == Trace(s.log, id)
    {
      TraceAfter(s, event, id);
    }
  }

  lemma ServedIsAcknowledged(s: Session, event: Event)
    requires Acknowledged(s) && Fresh(s, event) && Served(s, event) != 0 && !event.Reset?
    ensures var id, next := Served(s, event), Next(s, event);
            && IdOf(next.tone.token) == id && id in next.asked
            && Current(next.tone, Trace(next.log, id), id, next.asked[id])
            && Allowed(Trace(next.log, id), id, next.asked[id])
  {
    var id, next := Served(s, event), Next(s, event);
    TraceAfter(s, event, id);
    if event.Ask? {
      AskBegins(s, event);
      assert [] + Step(s.tone, event).reports == Step(s.tone, event).reports;
    } else {
      CurrentMoves(s.tone, Trace(s.log, id), id, s.asked[id], event);
    }
    CurrentIsAllowed(next.tone, Trace(next.log, id), id, next.asked[id]);
  }

  lemma NextIsAcknowledged(s: Session, event: Event)
    requires Acknowledged(s) && Fresh(s, event)
    ensures Acknowledged(Next(s, event))
  {
    OthersKeep(s, event);
    if event.Reset? {
      assert s.log + [] == s.log;
    } else if Served(s, event) != 0 {
      ServedIsAcknowledged(s, event);
    }
  }

  lemma {:induction false} RunIsAcknowledged(s: Session, events: seq<Event>)
    requires Acknowledged(s) && FreshRun(s, events)
    ensures Acknowledged(Run(s, events))
    decreases |events|
  {
    if events != [] {
      NextIsAcknowledged(s, events[0]);
      RunIsAcknowledged(Next(s, events[0]), events[1..]);
    }
  }

  /** Over any run an enable request is answered by nothing, playing, failed, or playing and
      then failed; a disable request by nothing or stopped; no other id is ever named. */
  lemma AcknowledgementsFollowGrammar(events: seq<Event>, id: u32)
    requires FreshRun(Begin(), events)
    ensures var s := Run(Begin(), events);
            if id != 0 && id in s.asked then Allowed(Trace(s.log, id), id, s.asked[id])
            else Trace(s.log, id) == []
  {
    RunIsAcknowledged(Begin(), events);
  }

  /** A tone that ends without a request of the server, by expiry, a forced stop or a worker
      that fell silent late, is reported failed at once, exactly once; whatever else happens
      leaves it running. */
  lemma EndIsReported(s: Session, event: Event)
    requires Acknowledged(s) && !event.Ask? && !event.Reset?
    requires s.tone.until.Some? && IdOf(s.tone.token) != 0
    ensures var id, next := IdOf(s.tone.token), Next(s, event);
            next.tone.until.None? ==>
              && next.log == s.log + [Failed(id)] && !Enabled(next.tone.token)
              && Trace(next.log, id) == Trace(s.log, id) + [Failed(id)]
  {
  }

  /** A report for any other token than the current one changes nothing. */
  lemma StaleTokenIsIgnored(s: Session, token: Token, playing: bool, now: nat)
    requires Valid(s.tone) && token != s.tone.token
    ensures Next(s, Report(token, playing, now)) == s
  {
  }

  ghost predicate Ended(s: Session, id: u32) {
    id != 0 && id in s.asked && s.asked[id] && Valid(s.tone) && s.tone.token != TokenOf(id, true)
  }

  lemma EndedStaysEnded(s: Session, event: Event, id: u32)
    requires Acknowledged(s) && Fresh(s, event) && Ended(s, id)
    ensures Ended(Next(s, event), id) && Trace(Next(s, event).log, id) == Trace(s.log, id)
  {
    TraceAfter(s, event, id);
    if id == Served(s, event) {
      assert Trace(s.log, id) + [] == Trace(s.log, id);
    }
  }

  /** A tone ended without a request cannot come back: its token is stale for good. */
  lemma {:induction false} EndedToneStaysSilent(s: Session, events: seq<Event>, id: u32)
    requires Acknowledged(s) && FreshRun(s, events) && Ended(s, id)
    ensures Ended(Run(s, events), id) && Trace(Run(s, events).log, id) == Trace(s.log, id)
    decreases |events|
  {
    if events != [] {
      NextIsAcknowledged(s, events[0]);
      EndedStaysEnded(s, events[0], id);
      EndedToneStaysSilent(Next(s, events[0]), events[1..], id);
    }
  }
}
