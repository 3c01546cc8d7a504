/** What the server is told about a tone, and when: the answers to requests and the end of
    tones that nobody ended (android/app/src/main/rust/src/device_control.rs:107-228). */
module ToneAnswers {
  import opened Numbers
  import opened ToneModel
  import opened ToneGrammar

  predicate IsOn(t: Tone, id: u32) {
    t.token == 2 * id + 1
  }

  predicate IsOff(t: Tone, id: u32) {
    t.token == 2 * id
  }

  predicate Sounds(t: Tone, now: nat) {
    t.until.Some? && now < t.until.value
  }

  // ----- single reports -----

  /** The first report that the tone is heard is passed on and gives it five more seconds. */
  lemma HeardIsAnswered(s: Session, id: u32, now: nat)
    requires Valid(s.tone) && id != 0 && IsOn(s.tone, id) && Sounds(s.tone, now) && !s.tone.responded
    ensures var next := Next(s, Report(2 * id + 1, true, now));
            && next.log == s.log + [Playing(id)]
            && next.tone == s.tone.(until := Some(now + 5000), responded := true)
  {
  }

  /** The first report of silence after a request to stop is passed on. */
  lemma SilenceIsAnswered(s: Session, id: u32, now: nat)
    requires Valid(s.tone) && id != 0 && IsOff(s.tone, id) && !s.tone.responded
    ensures var next := Next(s, Report(2 * id, false, now));
            next.log == s.log + [Stopped(id)] && next.tone == s.tone.(responded := true)
  {
  }

  /** A tone found silent past its end has failed. */
  lemma LateSilenceIsFailure(s: Session, id: u32, now: nat)
    requires Valid(s.tone) && id != 0 && IsOn(s.tone, id) && !Sounds(s.tone, now)
    requires s.tone.until.Some? || !s.tone.responded
    ensures var next := Next(s, Report(2 * id + 1, false, now));
            next.log == s.log + [Failed(id)] && next.tone == Tone(2 * id, None, true)
  {
  }

  /** Any other report changes nothing and tells nothing. */
  lemma OtherReportsAreMute(s: Session, token: Token, playing: bool, now: nat)
    requires Valid(s.tone)
    requires Next(s, Report(token, playing, now)) != s
    ensures token == s.tone.token && token / 2 != 0
    ensures if token % 2 == 0 then !playing && !s.tone.responded
            else if playing then Sounds(s.tone, now) && !s.tone.responded
            else !Sounds(s.tone, now) && (s.tone.until.Some? || !s.tone.responded)
  {
    assert s.log + [] == s.log;
  }

  // ----- requests, stops and deadlines -----

  /** A request replaces the tone. It sounds for five seconds if the phone plays on its speaker,
      and fails at once if not. */
  lemma RequestStarts(s: Session, id: u32, enabled: bool, speaker: bool, now: nat)
    requires Valid(s.tone)
    ensures var next := Next(s, Ask(id, enabled, speaker, now));
            && (if enabled then IsOn(next.tone, id) else IsOff(next.tone, id))
            && next.tone.until == (if enabled && speaker then Some(now + 5000) else None)
            && next.log == s.log + (if enabled && !speaker && id != 0 then [Failed(id)] else [])
            && (next.tone.responded <==> id == 0 || (enabled && !speaker))
            && next.asked == s.asked[id := enabled]
  {
  }

  /** A forced stop, as when the speaker is lost, silences the tone; one that sounded has failed. */
  lemma StopSilences(s: Session)
    requires Valid(s.tone)
    ensures var id, next := s.tone.token / 2, Next(s, Stop);
            && IsOff(next.tone, id) && next.tone.until.None?
            && next.log == s.log + (if s.tone.until.Some? && id != 0 then [Failed(id)] else [])
            && (next.tone.responded <==> s.tone.responded || s.tone.until.Some?)
  {
  }

  /** A deadline that passed silences the tone, which has failed; before it nothing happens. */
  lemma DeadlineSilences(s: Session, now: nat)
    requires Valid(s.tone)
    ensures var id, next := s.tone.token / 2, Next(s, Tick(now));
            if s.tone.until.Some? && s.tone.until.value <= now then
              next.tone == Tone(2 * id, None, true) && next.log == s.log + if id != 0 then [Failed(id)] else []
            else next == s
  {
    assert s.log + [] == s.log;
  }

  // ----- over runs -----

  /** Neither a request, a stop or a reset, nor the report that is waited for; and none of it
      after `deadline`, if there is one. */
  predicate Waits(event: Event, token: Token, playing: bool, deadline: Option<nat>) {
    match event
    case Tick(now) => deadline.None? || now < deadline.value
    case Report(other, heard, now) =>
      !(other == token && heard == playing) && (deadline.None? || now < deadline.value)
    case _ => false
  }

  lemma {:induction false} WaitingIsMute(s: Session, events: seq<Event>, id: u32)
    requires Valid(s.tone) && id != 0
    requires IsOn(s.tone, id) || IsOff(s.tone, id)
    requires IsOn(s.tone, id) ==> s.tone.until.Some?
    requires IsOff(s.tone, id) ==> s.tone.until.None?
    requires forall e <- events :: Waits(e, s.tone.token, IsOn(s.tone, id), s.tone.until)
    ensures Run(s, events) == s
    decreases |events|
  {
    if events != [] {
      assert events[0] in events;
      WaitStep(s, events[0], id);
      WaitingIsMute(s, events[1..], id);
    }
  }

  lemma WaitStep(s: Session, event: Event, id: u32)
    requires Valid(s.tone) && id != 0
    requires IsOn(s.tone, id) || IsOff(s.tone, id)
    requires IsOn(s.tone, id) ==> s.tone.until.Some?
    requires IsOff(s.tone, id) ==> s.tone.until.None?
    requires Waits(event, s.tone.token, IsOn(s.tone, id), s.tone.until)
    ensures Next(s, event) == s
  {
    if event.Tick? {
      DeadlineSilences(s, event.now);
    } else if Next(s, event) != s {
      OtherReportsAreMute(s, event.token, event.playing, event.now);
    }
  }

  /** A tone that was asked for on the speaker and is heard within five seconds is acknowledged
      as playing, whatever stale or silent reports and clock ticks lie between. */
  lemma AskedToneIsAcknowledged(s: Session, id: u32, start: nat, events: seq<Event>, now: nat)
    requires Valid(s.tone) && id != 0 && now < start + 5000
    requires forall e <- events :: Waits(e, 2 * id + 1, true, Some(start + 5000))
    ensures var asked := Next(s, Ask(id, true, true, start));
            var heard := Next(asked, Report(2 * id + 1, true, now));
            && Run(asked, events) == asked && asked.log == s.log
            && heard.log == s.log + [Playing(id)] && heard.tone.until == Some(now + 5000)
  {
    RequestStarts(s, id, true, true, start);
    assert s.log + [] == s.log;
    var asked := Next(s, Ask(id, true, true, start));
    WaitingIsMute(asked, events, id);
    HeardIsAnswered(asked, id, now);
  }

  /** A stop that was asked for is acknowledged with the first report of silence, however late. */
  lemma AskedStopIsAcknowledged(s: Session, id: u32, start: nat, events: seq<Event>, speaker: bool, now: nat)
    requires Valid(s.tone) && id != 0
    requires forall e <- events :: Waits(e, 2 * id, false, None)
    ensures var asked := Next(s, Ask(id, false, speaker, start));
            && Run(asked, events) == asked && asked.log == s.log
            && Next(asked, Report(2 * id, false, now)).log == s.log + [Stopped(id)]
  {
    RequestStarts(s, id, false, speaker, start);
    assert s.log + [] == s.log;
    var asked := Next(s, Ask(id, false, speaker, start));
    WaitingIsMute(asked, events, id);
    SilenceIsAnswered(asked, id, now);
  }

  /** A tone that was asked for on the speaker and never heard is reported failed by the first
      tick past its five seconds. */
  lemma UnheardToneFails(s: Session, id: u32, start: nat, events: seq<Event>, now: nat)
    requires Valid(s.tone) && id != 0 && start + 5000 <= now
    requires forall e <- events :: Waits(e, 2 * id + 1, true, Some(start + 5000))
    ensures var asked := Next(s, Ask(id, true, true, start));
            var late := Next(asked, Tick(now));
            Run(asked, events) == asked && late.log == s.log + [Failed(id)] && late.tone == Tone(2 * id, None, true)
  {
    RequestStarts(s, id, true, true, start);
    assert s.log + [] == s.log;
    var asked := Next(s, Ask(id, true, true, start));
    WaitingIsMute(asked, events, id);
    DeadlineSilences(asked, now);
  }

  /** A tone that was heard is not prolonged again: it ends five seconds after its first report,
      unless it is stopped or replaced before. */
  lemma HeardToneEnds(s: Session, id: u32, event: Event)
    requires Valid(s.tone) && id != 0 && IsOn(s.tone, id) && s.tone.until.Some? && s.tone.responded
    requires !event.Ask? && !event.Reset?
    ensures Next(s, event).tone == s.tone || Next(s, event).tone.until.None?
  {
  }
}
