/** Within 2^31 of the expected number the 32-bit jitter buffer takes the unbounded one's decisions (jitter.rs). */
module JitterRefinement {
  import opened Numbers
  import opened AudioPackets
  import opened JitterModel
  import opened JitterIdeal

  /** The sequence number on the wire of the packet at position `n`. */
  function Wrap(n: int): u32 { n % U32_MODULUS }

  /** The position nearest to `e` that carries the number `x`. */
  function Unwrap(e: nat, x: u32): int {
    var d := WrappingSub(x, Wrap(e));
    if d < HALF_U32 then e + d else e + d - U32_MODULUS
  }

  ghost predicate InWindow(e: Option<nat>, n: int) {
    match e
    case None => n >= 0
    case Some(e) => -HALF_U32 <= n - e < HALF_U32
  }

  lemma WrapStep(e: nat, n: int)
    requires -U32_MODULUS < n - e < U32_MODULUS
    ensures WrappingSub(Wrap(n), Wrap(e)) == if n >= e then n - e else n - e + U32_MODULUS
    ensures n >= e ==> Wrap(n) == WrappingAdd(Wrap(e), n - e)
  {
  }

  /** The nearest position carries the number and lies in the window. */
  lemma UnwrapWraps(e: nat, x: u32)
    ensures Wrap(Unwrap(e, x)) == x && InWindow(Some(e), Unwrap(e, x))
  {
  }

  /** Within the window the nearest position is the true one. */
  lemma UnwrapIsInverse(e: nat, n: int)
    requires InWindow(Some(e), n)
    ensures Unwrap(e, Wrap(n)) == n
  {
  }

  /** The number at position `k` and the position of the number `x`, when `w` is the
      number at position `e`. */
  function NumberAt(w: u32, e: nat, k: nat): u32
    requires e <= k < e + HALF_U32
  {
    WrappingAdd(w, k - e)
  }

  function PositionOf(w: u32, e: nat, x: u32): nat { e + WrappingSub(x, w) }

  /** `up` and `ip` hold the same packets under numbers and under positions. */
  ghost predicate SameKeys(up: map<u32, AudioPacket>, ip: map<nat, AudioPacket>, w: u32, e: nat) {
    && |up| == |ip|
    && (forall k <- ip :: e <= k < e + HALF_U32)
    && (forall k {:trigger NumberAt(w, e, k)} :: k in ip ==>
          NumberAt(w, e, k) in up && up[NumberAt(w, e, k)] == ip[k])
    && (forall x {:trigger PositionOf(w, e, x)} :: x in up ==> PositionOf(w, e, x) in ip)
  }

  ghost predicate Represents(u: Buffer, i: Ideal) {
    && (match i.expected
        case None => u.expected.None? && u.packets == map[] && i.packets == map[]
        case Some(e) => u.expected == Some(Wrap(e)) && SameKeys(u.packets, i.packets, Wrap(e), e))
    && u.target == i.target && u.maxPackets == i.maxPackets && u.started == i.started
    && u.lost == Saturate(i.lost) && u.late == Saturate(i.late)
  }

  function Erase(output: seq<IdealOutput>): seq<JitterOutput> {
    if output == [] then [] else
    [match output[0] case IdealAudio(_, p) => Audio(p) case IdealSilence => Silence] + Erase(output[1..])
  }

  lemma {:induction false} EraseConcat(a: seq<IdealOutput>, b: seq<IdealOutput>)
    ensures Erase(a + b) == Erase(a) + Erase(b)
  {
    if a == [] {
      assert a + b == b;
    } else {
      assert (a + b)[1..] == a[1..] + b;
      EraseConcat(a[1..], b);
    }
  }

  lemma SameKeysAhead(up: map<u32, AudioPacket>, ip: map<nat, AudioPacket>, w: u32, e: nat, x: u32)
    requires SameKeys(up, ip, w, e) && x in up
    ensures WrappingSub(x, w) < HALF_U32
  {
    assert PositionOf(w, e, x) in ip;
  }

  lemma RepresentsAhead(u: Buffer, i: Ideal)
    requires Represents(u, i)
    ensures Ahead(u) && i.Ordered()
  {
    if i.expected.Some? {
      forall x | x in u.packets
        ensures WrappingSub(x, u.expected.value) < HALF_U32
      {
        SameKeysAhead(u.packets, i.packets, u.expected.value, i.expected.value, x);
      }
    }
  }

  lemma MemberAgrees(up: map<u32, AudioPacket>, ip: map<nat, AudioPacket>, w: u32, e: nat, x: u32, n: int)
    requires SameKeys(up, ip, w, e)
    requires -HALF_U32 <= n - e < HALF_U32
    requires WrappingSub(x, w) == if n >= e then n - e else n - e + U32_MODULUS
    ensures n in ip <==> x in up
  {
    if n in ip {
      assert NumberAt(w, e, n) == x;
    }
    if x in up {
      assert PositionOf(w, e, x) in ip;
    }
  }

  lemma InsertSame(
    up: map<u32, AudioPacket>, ip: map<nat, AudioPacket>, w: u32, e: nat, n: nat, packet: AudioPacket)
    requires SameKeys(up, ip, w, e) && e <= n < e + HALF_U32 && n !in ip && NumberAt(w, e, n) !in up
    ensures SameKeys(up[NumberAt(w, e, n) := packet], ip[n := packet], w, e)
  {
  }

  /** Moving the expected position up, no further than the first key. */
  lemma MoveUp(up: map<u32, AudioPacket>, ip: map<nat, AudioPacket>, w: u32, e: nat, f: nat)
    requires SameKeys(up, ip, w, e) && e <= f < e + HALF_U32 && forall k <- ip :: f <= k
    ensures SameKeys(up, ip, NumberAt(w, e, f), f)
  {
    var v := NumberAt(w, e, f);
    forall k | k in ip
      ensures NumberAt(v, f, k) == NumberAt(w, e, k)
    {
    }
    forall x | x in up
      ensures PositionOf(v, f, x) in ip
    {
      assert PositionOf(v, f, x) == PositionOf(w, e, x);
    }
  }

  /** Dropping the packet at the expected position, on both sides. */
  lemma RemoveHead(up: map<u32, AudioPacket>, ip: map<nat, AudioPacket>, w: u32, e: nat)
    requires SameKeys(up, ip, w, e) && e in ip
    ensures w in up && up[w] == ip[e]
    ensures SameKeys(up - {w}, ip - {e}, w, e)
    ensures forall k <- ip - {e} :: e + 1 <= k
  {
    assert NumberAt(w, e, e) == w;
    assert (up - {w}).Keys == up.Keys - {w};
    assert (ip - {e}).Keys == ip.Keys - {e};
  }

  lemma NextAgrees(up: map<u32, AudioPacket>, ip: map<nat, AudioPacket>, w: u32, e: nat, next: nat)
    requires SameKeys(up, ip, w, e) && e !in ip && next in ip && forall k <- ip :: next <= k
    ensures e < next && NextBuffered(up, w) == Some(NumberAt(w, e, next))
  {
    var x := NumberAt(w, e, next);
    assert x in Later(up, w);
    var nearest := NextBuffered(up, w).value;
    assert PositionOf(w, e, nearest) in ip;
    assert WrappingSub(nearest, w) <= WrappingSub(x, w);
  }

  ghost predicate SameTurn(u: Buffer, i: Ideal)
    requires Ahead(u) && i.Ordered()
  {
    match Turn(i)
    case Halt => Step(u).Stop?
    case Advance(next, output) =>
      && Step(u).Go? && Represents(Step(u).buffer, next) && Step(u).output == Erase(output)
  }

  lemma MovedUp(u: Buffer, i: Ideal, e: nat, f: nat, lost: nat)
    requires Represents(u, i) && i.expected == Some(e)
    requires e <= f < e + HALF_U32 && forall k <- i.packets :: f <= k
    ensures Represents(u.(expected := Some(Wrap(f)), lost := Saturate(lost)), i.(expected := Some(f), lost := lost))
    ensures Wrap(f) == NumberAt(Wrap(e), e, f) && WrappingSub(Wrap(f), Wrap(e)) == f - e
  {
    WrapStep(e, f);
    MoveUp(u.packets, i.packets, Wrap(e), e, f);
  }

  /** Nothing is at the expected position and both buffers wait, skip or fill. */
  ghost predicate Waiting(u: Buffer, i: Ideal, e: nat, next: nat) {
    && Represents(u, i) && Ahead(u) && i.Ordered()
    && i.expected == Some(e) && e !in i.packets && Wrap(e) !in u.packets
    && i.packets != map[] && next == Least(i.packets.Keys) && e < next
    && NextBuffered(u.packets, Wrap(e)) == Some(NumberAt(Wrap(e), e, next))
  }

  lemma WaitSimulates(u: Buffer, i: Ideal, e: nat, next: nat)
    requires Waiting(u, i, e, next) && next - e <= i.maxPackets
    requires |i.packets| < i.target && |i.packets| < i.maxPackets
    ensures Turn(i) == Halt && Step(u).Stop?
  {
  }

  lemma SkipSimulates(u: Buffer, i: Ideal, e: nat, next: nat)
    requires Waiting(u, i, e, next) && next - e > i.maxPackets
    ensures SameTurn(u, i)
  {
    assert Turn(i) == Advance(i.(lost := i.lost + (next - e), expected := Some(next)), []);
    MovedUp(u, i, e, next, i.lost + (next - e));
  }

  lemma FillSimulates(u: Buffer, i: Ideal, e: nat, next: nat)
    requires Waiting(u, i, e, next) && next - e <= i.maxPackets
    requires !(|i.packets| < i.target && |i.packets| < i.maxPackets)
    ensures SameTurn(u, i)
  {
    assert Turn(i) == Advance(i.(lost := i.lost + 1, expected := Some(e + 1)), [IdealSilence]);
    MovedUp(u, i, e, e + 1, i.lost + 1);
  }

  /** One turn of the drain loop. */
  lemma TurnSimulates(u: Buffer, i: Ideal)
    requires Represents(u, i)
    ensures Ahead(u) && i.Ordered() && SameTurn(u, i)
  {
    RepresentsAhead(u, i);
    if i.expected.None? { return; }
    var e := i.expected.value;
    var w := Wrap(e);
    MemberAgrees(u.packets, i.packets, w, e, w, e);
    if e in i.packets {
      RemoveHead(u.packets, i.packets, w, e);
      WrapStep(e, e + 1);
      MoveUp(u.packets - {w}, i.packets - {e}, w, e, e + 1);
    } else if i.packets != map[] {
      var next := Least(i.packets.Keys);
      NextAgrees(u.packets, i.packets, w, e, next);
      if next - e > i.maxPackets {
        SkipSimulates(u, i, e, next);
      } else if |i.packets| < i.target && |i.packets| < i.maxPackets {
        WaitSimulates(u, i, e, next);
      } else {
        FillSimulates(u, i, e, next);
      }
    } else {
      assert |u.packets| == 0;
      NextIsStable(u);
    }
  }

  lemma {:induction false} DrainSimulates(u: Buffer, i: Ideal)
    requires Represents(u, i)
    ensures Ahead(u) && i.Ordered()
    ensures Represents(Drain(u).buffer, IdealDrain(i).buffer)
    ensures Drain(u).output == Erase(IdealDrain(i).output)
    decreases if i.Ordered() then |i.packets| else 0, if i.Ordered() then Distance(i) else 0
  {
    TurnSimulates(u, i);
    match Turn(i)
    case Halt =>
    case Advance(next, output) =>
      DrainSimulates(Step(u).buffer, next);
      EraseConcat(output, IdealDrain(next).output);
  }

  /** One push, on numbers within 2^31 of the expected one. */
  lemma PushSimulates(u: Buffer, i: Ideal, n: int, packet: AudioPacket)
    requires Represents(u, i) && WellFormed(u)
    requires packet.sequence == Wrap(n) && InWindow(i.expected, n)
    ensures i.Ordered()
    ensures Represents(Push(u, packet).buffer, IdealPush(i, n, packet).buffer)
    ensures Push(u, packet).output == Erase(IdealPush(i, n, packet).output)
  {
    RepresentsAhead(u, i);
    var e: nat := match i.expected case Some(e) => e case None => n;
    var w := Wrap(e);
    WrapStep(e, n);
    MemberAgrees(u.packets, i.packets, w, e, packet.sequence, n);
    if n !in i.packets && n >= e {
      AcceptSimulates(u.(expected := Some(w)), i.(expected := Some(e)), e, n, packet);
    }
  }

  lemma AcceptSimulates(u: Buffer, i: Ideal, e: nat, n: nat, packet: AudioPacket)
    requires Represents(u, i) && i.expected == Some(e) && e <= n < e + HALF_U32
    requires packet.sequence == NumberAt(Wrap(e), e, n) && n !in i.packets && packet.sequence !in u.packets
    ensures var v, j := u.(packets := u.packets[packet.sequence := packet]), i.(packets := i.packets[n := packet]);
            && Ahead(v) && j.Ordered()
            && Represents(DrainReady(v).buffer, IdealDrainReady(j).buffer)
            && DrainReady(v).output == Erase(IdealDrainReady(j).output)
  {
    var v, j := u.(packets := u.packets[packet.sequence := packet]), i.(packets := i.packets[n := packet]);
    InsertSame(u.packets, i.packets, Wrap(e), e, n, packet);
    assert Represents(v, j);
    RepresentsAhead(v, j);
    DrainSimulates(v.(started := true), j.(started := true));
  }

  /** A restart at the number of position `n`. */
  lemma RestartSimulates(u: Buffer, i: Ideal, n: nat)
    requires Represents(u, i)
    ensures Represents(Restart(u, Wrap(n)), IdealRestart(i, n))
  {
  }
}
