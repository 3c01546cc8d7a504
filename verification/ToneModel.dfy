/** The calibration tone of a phone and who is told about it, as functions of its value
    (android/app/src/main/rust/src/device_control.rs). Each function is one section under the
    tone's lock; times are milliseconds of a monotonic clock. */
module ToneModel {
  import opened Numbers

  const TONE_MS := 5000

  /** `token` is twice the request id, plus one while the tone is wanted. */
  datatype Tone = Tone(token: nat, until: Option<nat>, responded: bool)

  /** An acknowledgement to the server. */
  datatype ToneState = ToneState(requestId: u32, playing: bool, failed: bool)

  datatype Decided = Decided(tone: Tone, reports: seq<ToneState>)

  type Token = n: int | 0 <= n < 2 * U32_MODULUS

  predicate Valid(t: Tone) {
    t.token < 2 * U32_MODULUS
  }

  function TokenOf(requestId: u32, enabled: bool): Token {
    2 * requestId + if enabled then 1 else 0
  }

  function IdOf(token: Token): u32 { token / 2 }

  predicate Enabled(token: nat) { token % 2 == 1 }

  /** The token with its low bit cleared. */
  function Disabled(token: nat): nat { token - token % 2 }

  function Failure(requestId: u32): seq<ToneState> {
    if requestId != 0 then [ToneState(requestId, false, true)] else []
  }

  predicate Active(t: Tone, now: nat) {
    t.until.Some? && now < t.until.value
  }

  /** A request replaces the tone; one that may not play fails at once. */
  function Request(requestId: u32, enabled: bool, speaker: bool, now: nat): Decided {
    var allowed := !enabled || speaker;
    Decided(
      Tone(TokenOf(requestId, enabled),
           if enabled && allowed then Some(now + TONE_MS) else None,
           requestId == 0 || !allowed),
      if allowed then [] else Failure(requestId))
  }

  /** A stop that the server did not ask for. */
  function ForceStop(t: Tone): Decided
    requires Valid(t)
  {
    Decided(
      Tone(Disabled(t.token), None, t.responded || t.until.Some?),
      if t.until.Some? then Failure(IdOf(t.token)) else [])
  }

  function Expire(t: Tone, now: nat): Decided
    requires Valid(t)
  {
    if t.until.Some? && now >= t.until.value then
      Decided(Tone(Disabled(t.token), None, true), Failure(IdOf(t.token)))
    else Decided(t, [])
  }

  /** The audio worker tells what it played for `token`; only the current token counts. */
  function Playback(t: Tone, token: Token, playing: bool, now: nat): Decided {
    var id := IdOf(token);
    if id == 0 || token != t.token then Decided(t, [])
    else if Enabled(token) && playing && Active(t, now) && !t.responded then
      Decided(t.(until := Some(now + TONE_MS), responded := true), [ToneState(id, true, false)])
    else if !Enabled(token) && !playing && !t.responded then
      Decided(t.(responded := true), [ToneState(id, false, false)])
    else if Enabled(token) && !playing && !Active(t, now) && (t.until.Some? || !t.responded) then
      Decided(Tone(Disabled(token), None, true), [ToneState(id, false, true)])
    else Decided(t, [])
  }
}
