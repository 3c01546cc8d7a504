/** Exactly how much reordering the jitter buffer absorbs without loss
    (android/app/src/main/rust/src/jitter.rs:37-58 and 90-127). */
module JitterReordering {
  import opened Numbers
  import opened AudioPackets
  import opened JitterModel
  import opened JitterIdeal
  import opened JitterLaws
  import opened JitterRefinement

  /** The oldest position from `b` on that is not in `seen`. */
  ghost function OldestMissing(seen: set<nat>, b: nat): (m: nat)
    ensures b <= m && m !in seen
    ensures forall k: nat | b <= k < m :: k in seen
    decreases |seen|
  {
    if b !in seen then b else
      assert |seen - {b}| < |seen|;
      var m := OldestMissing(seen - {b}, b + 1);
      assert forall k: nat | b + 1 <= k < m :: k in seen - {b} && k in seen;
      assert m !in seen - {b} && m != b;
      m
  }

  lemma OldestMissingIsUnique(seen: set<nat>, b: nat, m: nat)
    requires b <= m && m !in seen && forall k: nat | b <= k < m :: k in seen
    ensures OldestMissing(seen, b) == m
  {
  }

  ghost function Beyond(seen: set<nat>, m: nat): set<nat> { set k | k in seen && k > m }

  lemma {:induction false} SubsetIsSmaller<T>(a: set<T>, b: set<T>)
    requires a <= b
    ensures |a| <= |b|
  {
    if a != {} {
      var x :| x in a;
      SubsetIsSmaller(a - {x}, b - {x});
    }
  }

  /** With the packets of `seen` delivered: fewer than `target` packets wait behind the
      oldest missing one and, once playback has started, the nearest of them is within
      the window. */
  ghost predicate Tolerable(seen: set<nat>, b: nat, target: nat, window: nat) {
    var m := OldestMissing(seen, b);
    var waiting := Beyond(seen, m);
    && |waiting| < target
    && (|seen| >= target && waiting != {} ==> Least(waiting) - m <= window)
  }

  ghost function Content(source: nat -> AudioPacket, keys: set<nat>): map<nat, AudioPacket> {
    map k | k in keys :: source(k)
  }

  /** The packets of positions lo, lo + 1, ..., hi - 1, in order. */
  ghost function Stretch(source: nat -> AudioPacket, lo: nat, hi: nat): seq<IdealOutput>
    decreases hi - lo
  {
    if lo >= hi then [] else [IdealAudio(lo, source(lo))] + Stretch(source, lo + 1, hi)
  }

  lemma {:induction false} StretchConcat(source: nat -> AudioPacket, lo: nat, mid: nat, hi: nat)
    requires lo <= mid <= hi
    ensures Stretch(source, lo, mid) + Stretch(source, mid, hi) == Stretch(source, lo, hi)
    decreases mid - lo
  {
    if lo < mid {
      StretchConcat(source, lo + 1, mid, hi);
      assert Stretch(source, lo, mid) + Stretch(source, mid, hi)
          == [IdealAudio(lo, source(lo))] + (Stretch(source, lo + 1, mid) + Stretch(source, mid, hi));
    }
  }

  /** The lossless state after `seen` has been delivered since a restart at `b`. */
  ghost function Lossless(source: nat -> AudioPacket, seen: set<nat>, b: nat, target: u64, window: u64): Ideal {
    if |seen| < target then Ideal(Some(b), Content(source, seen), target, window, false, 0, 0)
    else
      var m := OldestMissing(seen, b);
      Ideal(Some(m), Content(source, Beyond(seen, m)), target, window, true, 0, 0)
  }

  ghost function PlayedUpTo(seen: set<nat>, b: nat, target: nat): nat {
    if |seen| < target then b else OldestMissing(seen, b)
  }

  ghost function From(source: nat -> AudioPacket, i: Ideal, keys: set<nat>, e: nat): Ideal {
    i.(expected := Some(e), packets := Content(source, keys))
  }

  lemma FromIsOrdered(source: nat -> AudioPacket, i: Ideal, keys: set<nat>, e: nat)
    requires forall k <- keys :: e <= k
    ensures From(source, i, keys, e).Ordered()
  {
  }

  lemma DrainPlays(source: nat -> AudioPacket, i: Ideal, keys: set<nat>, e: nat)
    requires e in keys && forall k <- keys :: e <= k
    ensures var start, next := From(source, i, keys, e), From(source, i, keys - {e}, e + 1);
            && start.Ordered() && next.Ordered()
            && IdealDrain(start).buffer == IdealDrain(next).buffer
            && IdealDrain(start).output == [IdealAudio(e, source(e))] + IdealDrain(next).output
  {
    var start, next := From(source, i, keys, e), From(source, i, keys - {e}, e + 1);
    assert start.packets - {e} == next.packets;
    assert Turn(start) == Advance(next, [IdealAudio(e, source(e))]);
  }

  /** Draining plays the contiguous packets and goes on at the oldest missing one. */
  ghost predicate DrainsTo(source: nat -> AudioPacket, i: Ideal, keys: set<nat>, e: nat, m: nat) {
    var start, rest := From(source, i, keys, e), From(source, i, Beyond(keys, m), m);
    && start.Ordered() && rest.Ordered()
    && IdealDrain(start).buffer == IdealDrain(rest).buffer
    && IdealDrain(start).output == Stretch(source, e, m) + IdealDrain(rest).output
  }

  lemma DrainOneFurther(source: nat -> AudioPacket, i: Ideal, keys: set<nat>, e: nat, m: nat)
    requires e in keys && e < m && forall k <- keys :: e <= k
    requires DrainsTo(source, i, keys - {e}, e + 1, m)
    ensures DrainsTo(source, i, keys, e, m)
  {
    DrainPlays(source, i, keys, e);
    assert Beyond(keys - {e}, m) == Beyond(keys, m);
    var rest := From(source, i, Beyond(keys, m), m);
    Prepend(source, e, m, IdealDrain(rest).output);
  }

  lemma DrainNoFurther(source: nat -> AudioPacket, i: Ideal, keys: set<nat>, e: nat)
    requires e !in keys && forall k <- keys :: e <= k
    ensures DrainsTo(source, i, keys, e, e)
  {
    assert Beyond(keys, e) == keys;
    FromIsOrdered(source, i, keys, e);
    var tail := IdealDrain(From(source, i, keys, e)).output;
    assert Stretch(source, e, e) + tail == tail;
  }

  lemma {:induction false} DrainContiguous(source: nat -> AudioPacket, i: Ideal, keys: set<nat>, e: nat)
    requires forall k <- keys :: e <= k
    ensures DrainsTo(source, i, keys, e, OldestMissing(keys, e))
    decreases |keys|
  {
    if e in keys {
      assert |keys - {e}| < |keys|;
      DrainContiguous(source, i, keys - {e}, e + 1);
      DrainOneFurther(source, i, keys, e, OldestMissing(keys, e));
    } else {
      DrainNoFurther(source, i, keys, e);
    }
  }

  lemma Prepend(source: nat -> AudioPacket, e: nat, m: nat, tail: seq<IdealOutput>)
    requires e < m
    ensures [IdealAudio(e, source(e))] + (Stretch(source, e + 1, m) + tail) == Stretch(source, e, m) + tail
  {
  }

  /** At a missing packet the loop waits when the wait is tolerable and otherwise loses. */
  lemma DrainAtMissing(i: Ideal, m: nat)
    requires i.Ordered() && i.expected == Some(m) && m !in i.packets && i.target <= i.maxPackets
    ensures i.packets == map[] || (|i.packets| < i.target && Least(i.packets.Keys) - m <= i.maxPackets)
            ==> IdealDrain(i) == IdealPushed(i, [])
    ensures i.packets != map[] && !(|i.packets| < i.target && Least(i.packets.Keys) - m <= i.maxPackets)
            ==> IdealDrain(i).buffer.lost > i.lost
  {
    if Turn(i).Advance? {
      DrainAccount(Turn(i).buffer);
    }
  }

  ghost function Seen(arrivals: seq<nat>): set<nat> { set k | k in arrivals }

  /** Each packet arrives at most once, none from before the restart. */
  ghost predicate Distinct(arrivals: seq<nat>, b: nat) {
    && (forall j | 0 <= j < |arrivals| :: b <= arrivals[j])
    && (forall j, l | 0 <= j < l < |arrivals| :: arrivals[j] != arrivals[l])
  }

  /** Delivering the packets at the given positions, the last element last. */
  ghost function Deliver(i: Ideal, source: nat -> AudioPacket, arrivals: seq<nat>): (r: IdealPushed)
    requires i.Ordered() && i.expected.Some?
    ensures r.buffer.Ordered() && r.buffer.expected.Some? && r.buffer.lost >= i.lost
  {
    if arrivals == [] then IdealPushed(i, []) else
    var n := arrivals[|arrivals| - 1];
    var before := Deliver(i, source, arrivals[..|arrivals| - 1]);
    HandleAccount(before.buffer, Arrive(n, source(n)));
    var now := IdealPush(before.buffer, n, source(n));
    IdealPushed(now.buffer, before.output + now.output)
  }

  lemma DrainFrom(source: nat -> AudioPacket, i: Ideal, now: set<nat>, keys: set<nat>, b: nat, e: nat)
    requires b <= e && keys == (set k | k in now && e <= k) && (forall k: nat | b <= k < e :: k in now)
    requires 1 <= i.target <= i.maxPackets
    ensures var m := OldestMissing(now, b);
            var waiting := Beyond(now, m);
            var start := From(source, i, keys, e);
            && start.Ordered()
            && var r := IdealDrain(start);
            if waiting == {} || (|waiting| < i.target && Least(waiting) - m <= i.maxPackets) then
              && r.buffer == From(source, i, waiting, m)
              && r.output == Stretch(source, e, m)
            else r.buffer.lost > i.lost
  {
    var m := OldestMissing(now, b);
    assert m < e ==> m in now;
    OldestMissingIsUnique(keys, e, m);
    DrainContiguous(source, i, keys, e);
    assert Beyond(keys, m) == Beyond(now, m);
    var rest := From(source, i, Beyond(now, m), m);
    assert rest.packets.Keys == Beyond(now, m);
    DrainAtMissing(rest, m);
  }

  ghost predicate Fits(seen: set<nat>, b: nat, target: u64, window: u64, n: nat) {
    && 1 <= target <= window && (forall k <- seen :: b <= k) && b <= n && n !in seen
    && Tolerable(seen, b, target, window)
  }

  lemma OneMoreBeforeStart(source: nat -> AudioPacket, seen: set<nat>, b: nat, target: u64, window: u64, n: nat)
    requires Fits(seen, b, target, window, n) && |seen| + 1 < target
    ensures var i, now := Lossless(source, seen, b, target, window), seen + {n};
            && i.Ordered() && |now| == |seen| + 1
            && Tolerable(now, b, target, window)
            && IdealPush(i, n, source(n)) == IdealPushed(Lossless(source, now, b, target, window), [])
  {
    var i, now := Lossless(source, seen, b, target, window), seen + {n};
    var m := OldestMissing(now, b);
    SubsetIsSmaller(Beyond(now, m), now);
    assert i.packets[n := source(n)] == Content(source, now);
    assert Content(source, now).Keys == now;
  }

  /** The positions from the one playback has reached on, with `n` just arrived. */
  ghost function Buffered(seen: set<nat>, b: nat, target: nat, n: nat): set<nat> {
    if |seen| < target then seen + {n} else Beyond(seen, OldestMissing(seen, b)) + {n}
  }

  lemma AcceptedPushDrains(i: Ideal, n: nat, packet: AudioPacket, e: nat)
    requires i.Ordered() && i.expected == Some(e) && e <= n && n !in i.packets
    requires i.started || |i.packets| + 1 >= i.target
    ensures var start := i.(packets := i.packets[n := packet], started := true);
            start.Ordered() && IdealPush(i, n, packet) == IdealDrain(start)
  {
  }

  lemma ContentInsert(source: nat -> AudioPacket, keys: set<nat>, n: nat)
    ensures Content(source, keys)[n := source(n)] == Content(source, keys + {n})
    ensures |Content(source, keys)| == |keys|
  {
    assert Content(source, keys).Keys == keys;
  }

  lemma PlayingPushDrains(source: nat -> AudioPacket, seen: set<nat>, b: nat, target: u64, window: u64, n: nat)
    requires (forall k <- seen :: b <= k) && b <= n && n !in seen && |seen| + 1 >= target
    ensures var i := Lossless(source, seen, b, target, window);
            var start := From(source, i.(started := true), Buffered(seen, b, target, n), PlayedUpTo(seen, b, target));
            && i.Ordered() && start.Ordered() && IdealPush(i, n, source(n)) == IdealDrain(start)
  {
    var e := PlayedUpTo(seen, b, target);
    var keys := if |seen| < target then seen else Beyond(seen, e);
    ContentInsert(source, keys, n);
    AcceptedPushDrains(Lossless(source, seen, b, target, window), n, source(n), e);
  }

  lemma BufferedIsRest(seen: set<nat>, b: nat, target: nat, n: nat)
    requires (forall k <- seen :: b <= k) && b <= n && n !in seen
    ensures var e := PlayedUpTo(seen, b, target);
            && b <= e && (forall k: nat | b <= k < e :: k in seen + {n})
            && Buffered(seen, b, target, n) == set k | k in seen + {n} && e <= k
  {
  }

  lemma OneMorePlaying(source: nat -> AudioPacket, seen: set<nat>, b: nat, target: u64, window: u64, n: nat)
    requires Fits(seen, b, target, window, n) && |seen| + 1 >= target
    ensures var i, now := Lossless(source, seen, b, target, window), seen + {n};
            && i.Ordered() && |now| == |seen| + 1
            && var r := IdealPush(i, n, source(n));
            if Tolerable(now, b, target, window) then
              && r.buffer == Lossless(source, now, b, target, window)
              && r.output == Stretch(source, PlayedUpTo(seen, b, target), OldestMissing(now, b))
            else r.buffer.lost > 0
  {
    var i := Lossless(source, seen, b, target, window);
    PlayingPushDrains(source, seen, b, target, window, n);
    BufferedIsRest(seen, b, target, n);
    assert |seen + {n}| == |seen| + 1;
    DrainFrom(source, i.(started := true), seen + {n}, Buffered(seen, b, target, n), b, PlayedUpTo(seen, b, target));
  }

  /** Lossless so far: every prefix of the arrivals was tolerable. */
  ghost predicate AlwaysTolerable(arrivals: seq<nat>, b: nat, target: nat, window: nat) {
    forall p | 0 <= p <= |arrivals| :: Tolerable(Seen(arrivals[..p]), b, target, window)
  }

  ghost function Restarted(b: nat, target: u64, window: u64): Ideal {
    Ideal(Some(b), map[], target, window, false, 0, 0)
  }

  lemma LastArrival(arrivals: seq<nat>, b: nat)
    requires arrivals != [] && Distinct(arrivals, b)
    ensures var last := |arrivals| - 1;
            var before, n := arrivals[..last], arrivals[last];
            && Distinct(before, b) && b <= n && n !in Seen(before) && Seen(arrivals) == Seen(before) + {n}
            && (forall k <- Seen(before) :: b <= k)
  {
  }

  lemma LastMoment(arrivals: seq<nat>, b: nat, target: nat, window: nat)
    requires arrivals != []
    ensures AlwaysTolerable(arrivals, b, target, window) <==>
              && AlwaysTolerable(arrivals[..|arrivals| - 1], b, target, window)
              && Tolerable(Seen(arrivals), b, target, window)
  {
    var last := |arrivals| - 1;
    assert arrivals[..|arrivals|] == arrivals;
    assert forall p | 0 <= p <= last :: arrivals[..p] == arrivals[..last][..p];
  }

  lemma PushKeepsLosses(i: Ideal, n: nat, packet: AudioPacket)
    requires i.Ordered() && i.expected.Some?
    ensures IdealPush(i, n, packet).buffer.lost >= i.lost
  {
    HandleAccount(i, Arrive(n, packet));
  }

  ghost predicate Exact(source: nat -> AudioPacket, arrivals: seq<nat>, b: nat, target: u64, window: u64) {
    var r := Deliver(Restarted(b, target, window), source, arrivals);
    && (AlwaysTolerable(arrivals, b, target, window) <==> r.buffer.lost == 0)
    && (r.buffer.lost == 0 ==>
          && r.buffer == Lossless(source, Seen(arrivals), b, target, window)
          && r.output == Stretch(source, b, PlayedUpTo(Seen(arrivals), b, target)))
  }

  /** Distinct packets delivered after a restart, in any order: nothing is counted lost
      exactly when every moment was tolerable, and then nothing is late and the output
      is the packets themselves, in order. */
  lemma {:induction false} ToleranceIsExact(
    source: nat -> AudioPacket, arrivals: seq<nat>, b: nat, target: u64, window: u64)
    requires Distinct(arrivals, b) && 1 <= target <= window
    ensures Exact(source, arrivals, b, target, window)
  {
    if arrivals == [] {
      assert Seen([]) == {} && arrivals[..0] == [];
      assert Lossless(source, {}, b, target, window) == Restarted(b, target, window);
    } else {
      LastArrival(arrivals, b);
      ToleranceIsExact(source, arrivals[..|arrivals| - 1], b, target, window);
      ExactStep(source, arrivals, b, target, window);
    }
  }

  lemma ExactStep(source: nat -> AudioPacket, arrivals: seq<nat>, b: nat, target: u64, window: u64)
    requires Distinct(arrivals, b) && 1 <= target <= window && arrivals != []
    requires Exact(source, arrivals[..|arrivals| - 1], b, target, window)
    ensures Exact(source, arrivals, b, target, window)
  {
    LastArrival(arrivals, b);
    LastMoment(arrivals, b, target, window);
    var last := |arrivals| - 1;
    var before, n := arrivals[..last], arrivals[last];
    var seen, now := Seen(before), Seen(arrivals);
    var r := Deliver(Restarted(b, target, window), source, before);
    PushKeepsLosses(r.buffer, n, source(n));
    if r.buffer.lost == 0 {
      assert Tolerable(Seen(before[..last]), b, target, window) && before[..last] == before;
      if |seen| + 1 < target {
        OneMoreBeforeStart(source, seen, b, target, window, n);
      } else {
        OneMorePlaying(source, seen, b, target, window, n);
        if Tolerable(now, b, target, window) {
          PlayedFurther(seen, n, b, target);
          StretchConcat(source, b, PlayedUpTo(seen, b, target), OldestMissing(now, b));
        }
      }
    }
  }

  lemma PlayedFurther(seen: set<nat>, n: nat, b: nat, target: nat)
    ensures b <= PlayedUpTo(seen, b, target) <= OldestMissing(seen + {n}, b)
  {
  }

  // ------------------------------------------------- the bound in terms of overtaking

  /** Which earlier arrivals overtook the packet that arrives at index `j`. */
  ghost function Overtakers(arrivals: seq<nat>, j: nat): set<nat>
    requires j < |arrivals|
  {
    set l: nat | l < j && arrivals[l] > arrivals[j]
  }

  /** The packets b, b + 1, ... arrive once each, none overtaken by `target` or more
      later ones and none more than `window` ahead of the oldest missing one. */
  ghost predicate MildlyReordered(arrivals: seq<nat>, b: nat, target: nat, window: nat) {
    && Distinct(arrivals, b)
    && (forall k: nat | b <= k < b + |arrivals| :: k in arrivals)
    && (forall j | 0 <= j < |arrivals| :: |Overtakers(arrivals, j)| < target)
    && (forall j | 0 <= j < |arrivals| ::
          arrivals[j] - OldestMissing(Seen(arrivals[..j]), b) <= window)
  }

  ghost function Values(arrivals: seq<nat>, indices: set<nat>): set<nat>
    requires forall l <- indices :: l < |arrivals|
  {
    set l | l in indices :: arrivals[l]
  }

  lemma {:induction false} ValuesAreFewer(arrivals: seq<nat>, indices: set<nat>)
    requires forall l <- indices :: l < |arrivals|
    ensures |Values(arrivals, indices)| <= |indices|
  {
    if indices != {} {
      var l :| l in indices;
      var rest := indices - {l};
      ValuesAreFewer(arrivals, rest);
      assert Values(arrivals, indices) == Values(arrivals, rest) + {arrivals[l]};
    }
  }

  /** Distinct values inside an interval of their number are all of it. */
  lemma {:induction false} NothingBeyond(arrivals: seq<nat>, b: nat)
    requires Distinct(arrivals, b) && forall k: nat | b <= k < b + |arrivals| :: k in arrivals
    ensures forall k <- Seen(arrivals) :: k < b + |arrivals|
    ensures |Seen(arrivals)| == |arrivals|
  {
    var all := Interval(0, |arrivals|);
    ValuesAreFewer(arrivals, all);
    assert Values(arrivals, all) == Seen(arrivals);
    var interval := Interval(b, |arrivals|);
    assert interval <= Seen(arrivals);
    SubsetIsSmaller(interval, Seen(arrivals));
    SameSizeSubset(interval, Seen(arrivals));
  }

  ghost function Interval(lo: nat, n: nat): (r: set<nat>)
    ensures forall k: nat :: k in r <==> lo <= k < lo + n
    ensures |r| == n
  {
    if n == 0 then {} else Interval(lo, n - 1) + {lo + n - 1}
  }

  lemma SameSizeSubset<T>(a: set<T>, c: set<T>)
    requires a <= c && |c| <= |a|
    ensures a == c
  {
    assert c == a + (c - a);
  }

  lemma OldestMissingGrows(early: set<nat>, late: set<nat>, b: nat)
    requires early <= late
    ensures OldestMissing(early, b) <= OldestMissing(late, b)
  {
  }

  lemma MildIsTolerableAt(arrivals: seq<nat>, b: nat, target: nat, window: nat, p: nat)
    requires MildlyReordered(arrivals, b, target, window) && p <= |arrivals| && target >= 1
    ensures Tolerable(Seen(arrivals[..p]), b, target, window)
  {
    var seen := Seen(arrivals[..p]);
    var m := OldestMissing(seen, b);
    var waiting := Beyond(seen, m);
    if waiting != {} {
      var nearest := Least(waiting);
      var l: nat :| l < p && arrivals[l] == nearest;
      assert Seen(arrivals[..l]) <= seen;
      OldestMissingGrows(Seen(arrivals[..l]), seen, b);
      NothingBeyond(arrivals, b);
      assert nearest in Seen(arrivals);
      assert m in arrivals;
      assert forall l | 0 <= l < p :: arrivals[..p][l] in seen && arrivals[..p][l] == arrivals[l];
      var j: nat :| j < |arrivals| && arrivals[j] == m;
      WaitingOvertook(arrivals, p, j);
    }
  }

  lemma WaitingOvertook(arrivals: seq<nat>, p: nat, j: nat)
    requires p <= j < |arrivals|
    ensures |Beyond(Seen(arrivals[..p]), arrivals[j])| <= |Overtakers(arrivals, j)|
  {
    var waiting := Beyond(Seen(arrivals[..p]), arrivals[j]);
    var overtakers := Overtakers(arrivals, j);
    forall k | k in waiting
      ensures k in Values(arrivals, overtakers)
    {
      var l: nat :| l < p && arrivals[..p][l] == k;
      assert l in overtakers;
    }
    SubsetIsSmaller(waiting, Values(arrivals, overtakers));
    ValuesAreFewer(arrivals, overtakers);
  }

  lemma MildIsTolerable(arrivals: seq<nat>, b: nat, target: nat, window: nat)
    requires MildlyReordered(arrivals, b, target, window) && target >= 1
    ensures AlwaysTolerable(arrivals, b, target, window)
  {
    forall p | 0 <= p <= |arrivals|
      ensures Tolerable(Seen(arrivals[..p]), b, target, window)
    {
      MildIsTolerableAt(arrivals, b, target, window, p);
    }
  }

  lemma MildIsPlayed(arrivals: seq<nat>, b: nat, target: nat, window: nat)
    requires MildlyReordered(arrivals, b, target, window)
    ensures PlayedUpTo(Seen(arrivals), b, target) == if |arrivals| < target then b else b + |arrivals|
  {
    NothingBeyond(arrivals, b);
    OldestMissingIsUnique(Seen(arrivals), b, b + |arrivals|);
  }

  /** After a restart at `b`, mild reordering of at least `target` packets costs nothing:
      the output is those packets in order, with no filler and nothing lost or late. */
  lemma MildReorderingIsLossless(
    source: nat -> AudioPacket, arrivals: seq<nat>, b: nat, target: u64, window: u64)
    requires MildlyReordered(arrivals, b, target, window) && 1 <= target <= window
    ensures var r := Deliver(Restarted(b, target, window), source, arrivals);
            && r.buffer.lost == 0 && r.buffer.late == 0
            && r.output == Stretch(source, b, if |arrivals| < target then b else b + |arrivals|)
  {
    ToleranceIsExact(source, arrivals, b, target, window);
    MildIsTolerable(arrivals, b, target, window);
    MildIsPlayed(arrivals, b, target, window);
  }

  // --------------------------------------------------------- over 32-bit numbers

  ghost predicate Numbered(source: nat -> AudioPacket) {
    forall k: nat :: source(k).sequence == Wrap(k)
  }

  ghost function DeliverOnWire(u: Buffer, source: nat -> AudioPacket, arrivals: seq<nat>): (r: Pushed)
    requires Valid(u)
    ensures Valid(r.buffer)
  {
    if arrivals == [] then Pushed(u, []) else
    var before := DeliverOnWire(u, source, arrivals[..|arrivals| - 1]);
    var packet := source(arrivals[|arrivals| - 1]);
    PushKeepsValid(before.buffer, packet);
    var now := Push(before.buffer, packet);
    Pushed(now.buffer, before.output + now.output)
  }

  /** Every packet arrives within 2^31 of the position expected at that moment. */
  ghost predicate StaysInWindow(i: Ideal, source: nat -> AudioPacket, arrivals: seq<nat>)
    requires i.Ordered() && i.expected.Some?
  {
    forall p | 0 <= p < |arrivals| ::
      InWindow(Deliver(i, source, arrivals[..p]).buffer.expected, arrivals[p])
  }

  lemma {:induction false} DeliveryRefines(u: Buffer, i: Ideal, source: nat -> AudioPacket, arrivals: seq<nat>)
    requires Valid(u) && Represents(u, i) && i.Ordered() && i.expected.Some?
    requires Numbered(source) && StaysInWindow(i, source, arrivals)
    ensures Represents(DeliverOnWire(u, source, arrivals).buffer, Deliver(i, source, arrivals).buffer)
    ensures DeliverOnWire(u, source, arrivals).output == Erase(Deliver(i, source, arrivals).output)
  {
    if arrivals != [] {
      var last := |arrivals| - 1;
      var before, n := arrivals[..last], arrivals[last];
      assert forall p | 0 <= p < last :: before[..p] == arrivals[..p];
      DeliveryRefines(u, i, source, before);
      var ub, ib := DeliverOnWire(u, source, before), Deliver(i, source, before);
      PushSimulates(ub.buffer, ib.buffer, n, source(n));
      EraseConcat(ib.output, IdealPush(ib.buffer, n, source(n)).output);
    }
  }

  // A restart keeps both counters, and no decision looks at them.

  ghost function Counting(i: Ideal, lost: nat, late: nat): Ideal {
    i.(lost := lost + i.lost, late := late + i.late)
  }

  lemma TurnCounts(i: Ideal, lost: nat, late: nat)
    requires i.Ordered()
    ensures Counting(i, lost, late).Ordered()
    ensures match Turn(i)
            case Halt => Turn(Counting(i, lost, late)) == Halt
            case Advance(next, output) =>
              Turn(Counting(i, lost, late)) == Advance(Counting(next, lost, late), output)
  {
  }

  lemma {:induction false} DrainCounts(i: Ideal, lost: nat, late: nat)
    requires i.Ordered()
    ensures Counting(i, lost, late).Ordered()
    ensures IdealDrain(Counting(i, lost, late))
         == IdealPushed(Counting(IdealDrain(i).buffer, lost, late), IdealDrain(i).output)
    decreases |i.packets|, Distance(i)
  {
    TurnCounts(i, lost, late);
    if Turn(i).Advance? {
      DrainCounts(Turn(i).buffer, lost, late);
    }
  }

  lemma DrainReadyCounts(i: Ideal, lost: nat, late: nat)
    requires i.Ordered()
    ensures Counting(i, lost, late).Ordered()
    ensures var r := IdealDrainReady(i);
            IdealDrainReady(Counting(i, lost, late)) == IdealPushed(Counting(r.buffer, lost, late), r.output)
  {
    var started := i.(started := true);
    DrainCounts(started, lost, late);
    assert Counting(started, lost, late) == Counting(i, lost, late).(started := true);
  }

  lemma PushCounts(i: Ideal, lost: nat, late: nat, e: nat, n: nat, packet: AudioPacket)
    requires i.Ordered() && i.expected == Some(e)
    ensures Counting(i, lost, late).Ordered()
    ensures var r := IdealPush(i, n, packet);
            IdealPush(Counting(i, lost, late), n, packet) == IdealPushed(Counting(r.buffer, lost, late), r.output)
  {
    if n !in i.packets && e <= n {
      var accepted := i.(packets := i.packets[n := packet]);
      DrainReadyCounts(accepted, lost, late);
      var counting := Counting(i, lost, late);
      assert counting.(packets := counting.packets[n := packet]) == Counting(accepted, lost, late);
      assert IdealPush(i, n, packet) == IdealDrainReady(accepted);
    }
  }

  /** What was counted before only adds to the counters. */
  lemma {:induction false} DeliverCounts(
    i: Ideal, lost: nat, late: nat, source: nat -> AudioPacket, arrivals: seq<nat>)
    requires i.Ordered() && i.expected.Some?
    ensures Counting(i, lost, late).Ordered()
    ensures var r := Deliver(i, source, arrivals);
            Deliver(Counting(i, lost, late), source, arrivals)
            == IdealPushed(Counting(r.buffer, lost, late), r.output)
  {
    if arrivals != [] {
      var before := arrivals[..|arrivals| - 1];
      var n := arrivals[|arrivals| - 1];
      DeliverCounts(i, lost, late, source, before);
      var reached := Deliver(i, source, before).buffer;
      PushCounts(reached, lost, late, reached.expected.value, n, source(n));
    }
  }

  lemma WindowIgnoresCounts(i: Ideal, lost: nat, late: nat, source: nat -> AudioPacket, arrivals: seq<nat>)
    requires i.Ordered() && i.expected.Some? && StaysInWindow(i, source, arrivals)
    ensures Counting(i, lost, late).Ordered() && StaysInWindow(Counting(i, lost, late), source, arrivals)
  {
    forall p | 0 <= p < |arrivals|
      ensures InWindow(Deliver(Counting(i, lost, late), source, arrivals[..p]).buffer.expected, arrivals[p])
    {
      DeliverCounts(i, lost, late, source, arrivals[..p]);
    }
  }

  /** The exact tolerance holds for the 32-bit buffer: from a restart at any number, with
      every arrival within 2^31 of the expected position, the loss counter stays as it was
      exactly when every moment was tolerable or it was saturated; and in the tolerable
      case so does the late counter and the packets come out in order. */
  lemma ToleranceOnWire(u: Buffer, source: nat -> AudioPacket, arrivals: seq<nat>, b: nat)
    requires Valid(u) && Numbered(source) && Distinct(arrivals, b)
    requires StaysInWindow(Restarted(b, u.target, u.maxPackets), source, arrivals)
    ensures var r := DeliverOnWire(Restart(u, Wrap(b)), source, arrivals);
            && (r.buffer.lost == u.lost <==>
                  AlwaysTolerable(arrivals, b, u.target, u.maxPackets) || u.lost == U64_MODULUS - 1)
            && (AlwaysTolerable(arrivals, b, u.target, u.maxPackets) ==>
                  && r.buffer.late == u.late
                  && r.output == Erase(Stretch(source, b, PlayedUpTo(Seen(arrivals), b, u.target))))
  {
    var start := Restart(u, Wrap(b));
    var i := Restarted(b, u.target, u.maxPackets);
    var counting := Counting(i, u.lost, u.late);
    assert Represents(start, counting);
    WindowIgnoresCounts(i, u.lost, u.late, source, arrivals);
    DeliveryRefines(start, counting, source, arrivals);
    DeliverCounts(i, u.lost, u.late, source, arrivals);
    ToleranceIsExact(source, arrivals, b, u.target, u.maxPackets);
  }

  /** A mildly reordered arrival is at or past the expected position, by less than both bounds together. */
  lemma MildArrivalIsNear(
    source: nat -> AudioPacket, arrivals: seq<nat>, b: nat, target: u64, window: u64, p: nat)
    requires MildlyReordered(arrivals, b, target, window) && 1 <= target <= window && p < |arrivals|
    ensures var e := Deliver(Restarted(b, target, window), source, arrivals[..p]).buffer.expected;
            e.Some? && 0 <= arrivals[p] - e.value < target + window
  {
    var before := arrivals[..p];
    var seen := Seen(before);
    ToleranceIsExact(source, before, b, target, window);
    forall q | 0 <= q <= p
      ensures Tolerable(Seen(before[..q]), b, target, window)
    {
      MildIsTolerableAt(arrivals, b, target, window, q);
      assert before[..q] == arrivals[..q];
    }
    var m := OldestMissing(seen, b);
    SubsetIsSmaller(Interval(b, m - b), seen);
    assert arrivals[p] !in seen;
  }

  /** Mild reordering costs the 32-bit buffer nothing, from a restart at any number and whatever
      was counted before, as long as target and window together stay within 2^31. */
  lemma MildReorderingOnWire(u: Buffer, source: nat -> AudioPacket, arrivals: seq<nat>, b: nat)
    requires Valid(u) && Numbered(source) && u.target + u.maxPackets <= HALF_U32
    requires MildlyReordered(arrivals, b, u.target, u.maxPackets)
    ensures var r := DeliverOnWire(Restart(u, Wrap(b)), source, arrivals);
            && r.buffer.lost == u.lost && r.buffer.late == u.late
            && r.output == Erase(Stretch(source, b, if |arrivals| < u.target then b else b + |arrivals|))
  {
    forall p | 0 <= p < |arrivals|
      ensures InWindow(Deliver(Restarted(b, u.target, u.maxPackets), source, arrivals[..p]).buffer.expected,
                       arrivals[p])
    {
      MildArrivalIsNear(source, arrivals, b, u.target, u.maxPackets, p);
    }
    MildIsTolerable(arrivals, b, u.target, u.maxPackets);
    ToleranceOnWire(u, source, arrivals, b);
    MildIsPlayed(arrivals, b, u.target, u.maxPackets);
  }
}
