/** The transmit gate: time is cut into slots, every party owns some of them, and a datagram
    may start only in an owned slot that has more than the guard band left. */
module TdmaGate {
  import opened Wrappers
  import opened Counting
  import Z = ZMod

  /** Which parties may transmit in which slot of a cycle. */
  datatype Schedule = Schedule(slotNs: nat, slotOwners: seq<seq<int>>) {
    predicate Ok() {
      slotNs > 0 && |slotOwners| > 0
    }

    predicate Owns(party: int, slot: nat) {
      slot < |slotOwners| && party in slotOwners[slot]
    }

    /** The slot j slots after slot `cur` is the party's. */
    predicate OwnsAhead(party: int, cur: nat, j: nat)
      requires Ok()
    {
      Owns(party, (cur + j) % |slotOwners|)
    }

    /** The slot of the cycle that a clock reading falls into. */
    function SlotOf(t: nat): (k: nat)
      requires Ok()
      ensures k < |slotOwners|
    {
      SlotInCycle(t, slotNs, |slotOwners|);
      t % (slotNs * |slotOwners|) / slotNs
    }

    /** What is left of the slot. */
    function Remaining(t: nat): (r: nat)
      requires Ok()
      ensures 0 < r <= slotNs
    {
      slotNs - t % slotNs
    }

    /** A transmission may start. */
    predicate MayStart(party: int, guard: nat, t: nat)
      requires Ok()
    {
      Owns(party, SlotOf(t)) && Remaining(t) > guard
    }
  }

  lemma MulDivMod(t: nat, d: nat)
    requires d > 0
    ensures t == t / d * d + t % d && 0 <= t % d < d
  {
  }

  lemma Distribute(a: nat, b: nat, d: nat)
    ensures (a + b) * d == a * d + b * d
  {
  }

  lemma CyclePosition(q: nat, n: nat, r: nat, slot: nat, off: nat)
    requires slot > 0 && r < n && off < slot
    ensures (q * n + r) * slot + off == q * (slot * n) + (r * slot + off)
    ensures r * slot + off < slot * n && slot * n > 0
  {
    assert (q * n + r) * slot == q * n * slot + r * slot;
    assert q * n * slot == q * (slot * n);
    assert slot * n == (n - 1 - r) * slot + r * slot + slot;
  }

  lemma SlotParts(t: nat, slot: nat, n: nat, q: nat, r: nat, off: nat)
    requires slot > 0 && r < n && off < slot && t == (q * n + r) * slot + off
    ensures slot * n > 0 && t % (slot * n) == r * slot + off && t % (slot * n) / slot == r
  {
    CyclePosition(q, n, r, slot, off);
    Z.ModUnique(slot * n, t, q, r * slot + off);
    Z.ModUnique(slot, r * slot + off, r, off);
  }

  /** Cutting into cycles and then into slots is cutting into slots and then counting modulo n. */
  lemma SlotInCycle(t: nat, slot: nat, n: nat)
    requires slot > 0 && n > 0
    ensures slot * n > 0 && t % (slot * n) / slot == t / slot % n
  {
    MulDivMod(t, slot);
    MulDivMod(t / slot, n);
    SlotParts(t, slot, n, t / slot / n, t / slot % n, t % slot);
  }

  function RoundRobin(nP: nat, slotNs: nat): (s: Schedule)
    ensures s.slotNs == slotNs && |s.slotOwners| == nP
    ensures forall i :: 0 <= i < nP ==> s.slotOwners[i] == [i]
  {
    Schedule(slotNs, seq(nP, i => [i]))
  }

  /** A time inside slot number g, counted from time 0. */
  lemma InSlot(s: Schedule, g: nat, off: nat)
    requires s.Ok() && off < s.slotNs
    ensures s.SlotOf(g * s.slotNs + off) == g % |s.slotOwners|
    ensures s.Remaining(g * s.slotNs + off) == s.slotNs - off
  {
    var t := g * s.slotNs + off;
    Z.ModUnique(s.slotNs, t, g, off);
    SlotInCycle(t, s.slotNs, |s.slotOwners|);
  }

  // ---- the wait ------------------------------------------------------------------------------------

  /** How many slots ahead the party's next slot is, from k on; 0 if it owns none of the cycle. */
  function SlotsAhead(s: Schedule, party: int, cur: nat, k: nat): (r: nat)
    requires s.Ok() && 1 <= k <= |s.slotOwners| + 1
    ensures r == 0 || k <= r <= |s.slotOwners|
    ensures r != 0 ==> s.OwnsAhead(party, cur, r)
    ensures forall j :: k <= j <= |s.slotOwners| && (r == 0 || j < r) ==> !s.OwnsAhead(party, cur, j)
    decreases |s.slotOwners| + 1 - k
  {
    if k == |s.slotOwners| + 1 then 0
    else if s.OwnsAhead(party, cur, k) then k
    else SlotsAhead(s, party, cur, k + 1)
  }

  /** How long to sleep at clock reading t: 0 is to go ahead. */
  function Sleep(s: Schedule, party: int, guard: nat, t: nat): (d: nat)
    requires s.Ok()
  {
    if s.MayStart(party, guard, t) then 0
    else
      var ahead := SlotsAhead(s, party, s.SlotOf(t), 1);
      if ahead == 0 then 0
      else
        SleepPositive(s, ahead, t);
        ahead * s.slotNs - t % s.slotNs
  }

  lemma SleepPositive(s: Schedule, ahead: nat, t: nat)
    requires s.Ok() && ahead > 0
    ensures ahead * s.slotNs - t % s.slotNs > 0
  {
    assert (ahead - 1) * s.slotNs >= 0;
    assert ahead * s.slotNs == (ahead - 1) * s.slotNs + s.slotNs;
  }

  ghost predicate OwnsNothing(s: Schedule, party: int) {
    forall k :: 0 <= k < |s.slotOwners| ==> !s.Owns(party, k)
  }

  /** Every slot of the cycle is some number of slots ahead. */
  lemma Reachable(n: nat, cur: nat, k: nat) returns (j: nat)
    requires n > 0 && cur < n && k < n
    ensures 1 <= j <= n && (cur + j) % n == k
  {
    j := if cur < k then k - cur else n + k - cur;
    Z.ModUnique(n, cur + j, if cur < k then 0 else 1, k);
  }

  lemma AheadIff(s: Schedule, party: int, cur: nat)
    requires s.Ok() && cur < |s.slotOwners|
    ensures SlotsAhead(s, party, cur, 1) == 0 <==> OwnsNothing(s, party)
  {
    var n := |s.slotOwners|;
    var ahead := SlotsAhead(s, party, cur, 1);
    if ahead != 0 {
      MulDivMod(cur + ahead, n);
      assert s.OwnsAhead(party, cur, ahead) && s.Owns(party, (cur + ahead) % n);
    } else {
      forall k | 0 <= k < n ensures !s.Owns(party, k) {
        var j := Reachable(n, cur, k);
        assert !s.OwnsAhead(party, cur, j);
      }
    }
  }

  /** The gate opens exactly in an owned slot with more than the guard left, or for a party
      that owns no slot at all. */
  lemma OpensIff(s: Schedule, party: int, guard: nat, t: nat)
    requires s.Ok()
    ensures Sleep(s, party, guard, t) == 0 <==> s.MayStart(party, guard, t) || OwnsNothing(s, party)
  {
    hide OwnsNothing;
    AheadIff(s, party, s.SlotOf(t));
    var ahead := SlotsAhead(s, party, s.SlotOf(t), 1);
    if ahead != 0 {
      SleepPositive(s, ahead, t);
    }
  }

  lemma AheadNotOwned(s: Schedule, party: int, g: nat, ahead: nat, h: nat)
    requires s.Ok() && ahead != 0 && ahead == SlotsAhead(s, party, g % |s.slotOwners|, 1) && g < h < g + ahead
    ensures !s.Owns(party, h % |s.slotOwners|)
  {
    ShiftMod(g, h - g, |s.slotOwners|);
    assert !s.OwnsAhead(party, g % |s.slotOwners|, h - g);
  }

  lemma SleepIs(s: Schedule, party: int, guard: nat, t: nat)
    requires s.Ok() && Sleep(s, party, guard, t) > 0
    ensures var ahead := SlotsAhead(s, party, t / s.slotNs % |s.slotOwners|, 1);
      ahead != 0 && Sleep(s, party, guard, t) == ahead * s.slotNs - t % s.slotNs
  {
    SlotInCycle(t, s.slotNs, |s.slotOwners|);
  }

  lemma SleepSum(t: nat, sleep: nat, g: nat, ahead: nat, slot: nat, off: nat)
    requires t == g * slot + off && sleep == ahead * slot - off
    ensures t + sleep == (g + ahead) * slot
  {
  }

  /** The slot numbers, counted from time 0, that a sleep leads from and to. */
  lemma SleepTarget(s: Schedule, party: int, guard: nat, t: nat) returns (g: nat, e: nat)
    requires s.Ok() && Sleep(s, party, guard, t) > 0
    ensures g == t / s.slotNs && e > g && t + Sleep(s, party, guard, t) == e * s.slotNs
    ensures s.Owns(party, e % |s.slotOwners|)
    ensures forall h :: g < h < e ==> !s.Owns(party, h % |s.slotOwners|)
  {
    hide Sleep, SlotsAhead, s.Owns;
    var n, slot := |s.slotOwners|, s.slotNs;
    g := t / slot;
    MulDivMod(t, slot);
    SleepIs(s, party, guard, t);
    var ahead := SlotsAhead(s, party, g % n, 1);
    e := g + ahead;
    SleepSum(t, Sleep(s, party, guard, t), g, ahead, slot, t % slot);
    OwnedAhead(s, party, g, ahead);
    forall h | g < h < e ensures !s.Owns(party, h % n) {
      AheadNotOwned(s, party, g, ahead, h);
    }
  }

  lemma OwnedAhead(s: Schedule, party: int, g: nat, ahead: nat)
    requires s.Ok() && ahead != 0 && ahead == SlotsAhead(s, party, g % |s.slotOwners|, 1)
    ensures s.Owns(party, (g + ahead) % |s.slotOwners|)
  {
    ShiftMod(g, ahead, |s.slotOwners|);
    assert s.OwnsAhead(party, g % |s.slotOwners|, ahead);
  }

  /** The sleep ends at the start of the party's next slot, and skips none. */
  lemma SleepsToNextSlot(s: Schedule, party: int, guard: nat, t: nat)
    requires s.Ok() && Sleep(s, party, guard, t) > 0
    ensures var u := t + Sleep(s, party, guard, t);
      && u % s.slotNs == 0 && s.Owns(party, s.SlotOf(u))
      && forall v: nat :: t < v < u && v % s.slotNs == 0 ==> !s.Owns(party, s.SlotOf(v))
  {
    hide Sleep;
    var g, e := SleepTarget(s, party, guard, t);
    var u, slot := t + Sleep(s, party, guard, t), s.slotNs;
    InSlot(s, e, 0);
    Z.ModUnique(slot, u, e, 0);
    MulDivMod(t, slot);
    forall v: nat | t < v < u && v % slot == 0 ensures !s.Owns(party, s.SlotOf(v)) {
      var h := v / slot;
      MulDivMod(v, slot);
      Between(g, h, e, slot, t, v, u);
      InSlot(s, h, 0);
    }
  }

  /** Waking up late by less than the slot without its guard, the party may start. */
  lemma OneSleepIsEnough(s: Schedule, party: int, guard: nat, t: nat, wake: nat)
    requires s.Ok() && Sleep(s, party, guard, t) > 0
    requires t + Sleep(s, party, guard, t) <= wake < t + Sleep(s, party, guard, t) + s.slotNs - guard
    ensures s.MayStart(party, guard, wake) && Sleep(s, party, guard, wake) == 0
  {
    var u := t + Sleep(s, party, guard, t);
    assert s.MayStart(party, guard, wake) by {
      hide Sleep;
      var g, e := SleepTarget(s, party, guard, t);
      InSlot(s, e, wake - u);
    }
  }

  lemma ShiftMod(g: nat, k: nat, n: nat)
    requires n > 0
    ensures (g % n + k) % n == (g + k) % n
  {
    Z.CongMod(n, g);
    Z.CongAdd(n, g % n, g, k, k);
  }

  lemma Between(g: nat, h: nat, e: nat, slot: nat, t: nat, v: nat, u: nat)
    requires slot > 0 && g * slot <= t < v == h * slot < u == e * slot
    ensures g < h < e
  {
    assert h <= g ==> h * slot <= g * slot;
    assert e <= h ==> e * slot <= h * slot;
  }

  /** Only a guard below the slot length ever lets an owner start. */
  lemma NeverOpens(s: Schedule, party: int, guard: nat)
    requires s.Ok() && !OwnsNothing(s, party)
    ensures (exists t: nat :: Sleep(s, party, guard, t) == 0) <==> guard < s.slotNs
  {
    forall t: nat ensures Sleep(s, party, guard, t) == 0 <==> s.MayStart(party, guard, t) {
      OpensIff(s, party, guard, t);
    }
    if guard < s.slotNs {
      var k :| 0 <= k < |s.slotOwners| && s.Owns(party, k);
      InSlot(s, k, 0);
      Z.ModUnique(|s.slotOwners|, k, 0, k);
      assert Sleep(s, party, guard, k * s.slotNs + 0) == 0;
    }
  }

  // ---- exclusion ------------------------------------------------------------------------------------

  /** A party whose clock shows real time plus `skew` starts a datagram at real time `start`. */
  ghost predicate Starts(s: Schedule, party: int, guard: nat, start: nat, skew: nat)
    requires s.Ok()
  {
    s.MayStart(party, guard, start + skew)
  }

  /** Real time x falls into a transmission of at most d that began at `start`. */
  predicate During(start: nat, d: nat, x: nat) {
    start <= x <= start + d
  }

  /** In the course of a guarded transmission the slot does not end. */
  lemma StaysInSlot(s: Schedule, guard: nat, t: nat, e: nat)
    requires s.Ok() && s.Remaining(t) > guard && e <= guard
    ensures s.SlotOf(t + e) == s.SlotOf(t) && s.Remaining(t + e) == s.Remaining(t) - e
    ensures (t + e) / s.slotNs == t / s.slotNs
  {
    MulDivMod(t, s.slotNs);
    InSlot(s, t / s.slotNs, t % s.slotNs);
    InSlot(s, t / s.slotNs, t % s.slotNs + e);
    Z.ModUnique(s.slotNs, t + e, t / s.slotNs, t % s.slotNs + e);
  }

  /** Two parties never share a slot. */
  ghost predicate Exclusive(s: Schedule, p: int, q: int) {
    forall k: nat :: !(s.Owns(p, k) && s.Owns(q, k))
  }

  lemma RoundRobinExclusive(nP: nat, slotNs: nat, p: int, q: int)
    requires p != q
    ensures Exclusive(RoundRobin(nP, slotNs), p, q)
  {
  }

  /** Transmissions of parties without a common slot never overlap: the guard pays for the
      length of a transmission and for the difference of the clocks. */
  lemma NoOverlap(s: Schedule, guard: nat, d: nat, eps: nat, p: int, sp: nat, kp: nat, q: int, sq: nat, kq: nat, x: nat)
    requires s.Ok() && Exclusive(s, p, q) && d + eps <= guard
    requires Starts(s, p, guard, sp, kp) && Starts(s, q, guard, sq, kq)
    requires kp <= kq <= kp + eps
    ensures !(During(sp, d, x) && During(sq, d, x))
  {
    hide s.Owns, s.SlotOf, s.Remaining;
    if During(sp, d, x) && During(sq, d, x) {
      assert sp + kp + (x - sp + (kq - kp)) == sq + kq + (x - sq);
      StaysInSlot(s, guard, sp + kp, x - sp + (kq - kp));
      StaysInSlot(s, guard, sq + kq, x - sq);
      assert false;
    }
  }

  /** Some two transmissions of parties 0 and 1 overlap. */
  ghost predicate CanOverlap(s: Schedule, guard: nat, d: nat, eps: nat)
    requires s.Ok()
  {
    exists sp: nat, kp: nat, sq: nat, kq: nat, x: nat ::
      && Starts(s, 0, guard, sp, kp) && Starts(s, 1, guard, sq, kq)
      && kp <= kq + eps && kq <= kp + eps
      && During(sp, d, x) && During(sq, d, x)
  }

  /** Party 0 starts at the last moment; party 1, whose clock is ahead, with its own slot. */
  lemma OverlapExample(nP: nat, slotNs: nat, guard: nat, d: nat, eps: nat)
    requires nP >= 2 && guard < slotNs && d + eps > guard
    ensures CanOverlap(RoundRobin(nP, slotNs), guard, d, eps)
  {
    var s := RoundRobin(nP, slotNs);
    var delta := if eps <= guard + 1 then eps else guard + 1;
    var sp, x := slotNs - (guard + 1), slotNs - delta;
    InSlot(s, 0, sp);
    InSlot(s, 1, 0);
    Z.ModUnique(nP, 0, 0, 0);
    Z.ModUnique(nP, 1, 0, 1);
    hide s.SlotOf, s.Remaining;
    assert Starts(s, 0, guard, sp, 0) && Starts(s, 1, guard, x, delta);
    assert During(sp, d, x) && During(x, d, x);
  }

  /** Under round robin the bound is exact. */
  lemma ExclusionIff(nP: nat, slotNs: nat, guard: nat, d: nat, eps: nat)
    requires nP >= 2 && guard < slotNs
    ensures CanOverlap(RoundRobin(nP, slotNs), guard, d, eps) <==> d + eps > guard
  {
    var s := RoundRobin(nP, slotNs);
    if d + eps > guard {
      OverlapExample(nP, slotNs, guard, d, eps);
    } else if CanOverlap(s, guard, d, eps) {
      hide Starts, During;
      RoundRobinExclusive(nP, slotNs, 0, 1);
      RoundRobinExclusive(nP, slotNs, 1, 0);
      var sp: nat, kp: nat, sq: nat, kq: nat, x: nat :|
        && Starts(s, 0, guard, sp, kp) && Starts(s, 1, guard, sq, kq)
        && kp <= kq + eps && kq <= kp + eps
        && During(sp, d, x) && During(sq, d, x);
      if kp <= kq {
        NoOverlap(s, guard, d, eps, 0, sp, kp, 1, sq, kq, x);
      } else {
        NoOverlap(s, guard, d, eps, 1, sq, kq, 0, sp, kp, x);
      }
    }
  }

  // ---- the scheduler object ---------------------------------------------------------------------------

  class TDMAScheduler {
    const party: int
    const sched: Schedule
    const guardNs: nat
    var disabled: bool
    var owns: seq<bool>
    var waits: nat
    var nsWaited: nat
    var inSlotSends: nat
    var outOfSlotSends: nat
    var boundarySpans: nat
    var slotHist: seq<nat>
    /** The pre- and post-readings of the sends recorded so far. */
    ghost var sends: seq<(nat, nat)>

    /** The counters tell the recorded sends apart. */
    ghost predicate Valid()
      reads this
    {
      !disabled ==>
        && sched.Ok() && |owns| == |slotHist| == |sched.slotOwners|
        && (forall k :: 0 <= k < |owns| ==> owns[k] == sched.Owns(party, k))
        && inSlotSends == CountIf(sends, Clean(sched, party))
        && outOfSlotSends == |sends| - inSlotSends
        && boundarySpans == CountIf(sends, Spans(sched))
        && forall k :: 0 <= k < |slotHist| ==> slotHist[k] == CountIf(sends, StartsIn(sched, k))
    }

    constructor (party: int, sched: Schedule, guardNs: nat, clockOk: bool, disabled: bool)
      ensures Valid() && this.party == party && this.sched == sched && this.guardNs == guardNs
      ensures this.disabled <==> disabled || !sched.Ok() || !clockOk
      ensures waits == nsWaited == 0 && sends == []
    {
      this.party, this.sched, this.guardNs := party, sched, guardNs;
      this.disabled := disabled || !sched.Ok() || !clockOk;
      var n := if sched.Ok() then |sched.slotOwners| else 0;
      owns := seq(n, k requires k >= 0 => sched.Owns(party, k));
      slotHist := seq(n, k => 0);
      waits, nsWaited, inSlotSends, outOfSlotSends, boundarySpans := 0, 0, 0, 0, 0;
      sends := [];
    }

    /** The search loop of the wait. */
    method FindNext(cur: nat, pos: nat) returns (delta: nat)
      requires Valid() && !disabled && cur < |owns|
      requires pos == cur * sched.slotNs + pos % sched.slotNs
      ensures var ahead := SlotsAhead(sched, party, cur, 1);
        delta == if ahead == 0 then 0 else ahead * sched.slotNs - pos % sched.slotNs
    {
      var n, slot := |owns|, sched.slotNs;
      for k := 1 to n + 1
        invariant SlotsAhead(sched, party, cur, 1) == SlotsAhead(sched, party, cur, k)
      {
        MulDivMod(cur + k, n);
        var s := (cur + k) % n;
        assert owns[s] == sched.Owns(party, s);
        assert sched.Owns(party, s) == sched.OwnsAhead(party, cur, k);
        if owns[s] {
          Distribute(cur, k, slot);
          SleepPositive(sched, k, pos);
          var nextPos := (cur + k) * slot;
          return nextPos - pos;
        }
      }
      delta := 0;
    }

    /** One round of the wait at clock reading `now`: 0 to go ahead, else the time to sleep. */
    method Decide(now: nat) returns (delta: nat)
      requires Valid() && !disabled
      ensures delta == Sleep(sched, party, guardNs, now)
    {
      var n, slot := |owns|, sched.slotNs;
      SlotInCycle(now, slot, n);
      var pos := now % (slot * n);
      var cur := pos / slot;
      PositionInSlot(now, slot, n);
      var remaining := slot - (pos - cur * slot);
      if cur < n && owns[cur] && remaining > guardNs {
        return 0;
      }
      delta := FindNext(cur, pos);
    }

    /** Waits through the clock readings the loop takes, and stops at the first one that lets
        the party go ahead; None if the readings end before. */
    method WaitForSlot(readings: seq<nat>) returns (at: Option<nat>)
      requires Valid()
      modifies this`waits, this`nsWaited
      ensures Valid()
      ensures disabled ==> at == Some(0) && waits == old(waits) && nsWaited == old(nsWaited)
      ensures !disabled ==> at == FirstOpen(sched, party, guardNs, readings, 0)
      ensures !disabled ==> var n := if at.Some? then at.value else |readings|;
        && n <= |readings| && waits == old(waits) + n
        && nsWaited == old(nsWaited) + TotalSleep(sched, party, guardNs, readings, n)
    {
      if disabled {
        return Some(0);
      }
      for i := 0 to |readings|
        invariant Valid() && waits == old(waits) + i
        invariant nsWaited == old(nsWaited) + TotalSleep(sched, party, guardNs, readings, i)
        invariant FirstOpen(sched, party, guardNs, readings, 0) == FirstOpen(sched, party, guardNs, readings, i)
      {
        var delta := Decide(readings[i]);
        if delta == 0 {
          return Some(i);
        }
        waits := waits + 1;
        nsWaited := nsWaited + delta;
      }
      at := None;
    }

    /** Books a send by its two clock readings. */
    method MarkPost(tPre: nat, tPost: nat)
      requires Valid()
      modifies this
      ensures Valid() && disabled == old(disabled) && waits == old(waits) && nsWaited == old(nsWaited)
      ensures sends == if disabled then old(sends) else old(sends) + [(tPre, tPost)]
    {
      if disabled {
        return;
      }
      SlotInCycle(tPre, sched.slotNs, |sched.slotOwners|);
      var sPre := sched.SlotOf(tPre);
      var sPost := sched.SlotOf(tPost);
      CountMore(sends, (tPre, tPost));
      slotHist := slotHist[sPre := slotHist[sPre] + 1];
      if owns[sPre] && owns[sPost] && sPre == sPost {
        inSlotSends := inSlotSends + 1;
      } else {
        outOfSlotSends := outOfSlotSends + 1;
        if sPre != sPost {
          boundarySpans := boundarySpans + 1;
        }
      }
      sends := sends + [(tPre, tPost)];
    }
  }

  lemma PositionInSlot(now: nat, slot: nat, n: nat)
    requires slot > 0 && n > 0
    ensures slot * n > 0 && var pos := now % (slot * n);
      pos % slot == now % slot && pos == pos / slot * slot + pos % slot
  {
    MulDivMod(now, slot);
    MulDivMod(now / slot, n);
    SlotParts(now, slot, n, now / slot / n, now / slot % n, now % slot);
    Z.ModUnique(slot, now / slot % n * slot + now % slot, now / slot % n, now % slot);
  }

  /** The time asked for by the first i readings. */
  function TotalSleep(s: Schedule, party: int, guard: nat, readings: seq<nat>, i: nat): nat
    requires s.Ok() && i <= |readings|
  {
    if i == 0 then 0 else TotalSleep(s, party, guard, readings, i - 1) + Sleep(s, party, guard, readings[i - 1])
  }

  /** The first clock reading, from number i on, at which the gate is open. */
  function FirstOpen(s: Schedule, party: int, guard: nat, readings: seq<nat>, i: nat): Option<nat>
    requires s.Ok() && i <= |readings|
    decreases |readings| - i
  {
    if i == |readings| then None
    else if Sleep(s, party, guard, readings[i]) == 0 then Some(i)
    else FirstOpen(s, party, guard, readings, i + 1)
  }

  /** Sleeping at least as long as asked, and not longer by a slot without its guard, the
      party waits at most once. */
  lemma AtMostOneWait(s: Schedule, party: int, guard: nat, readings: seq<nat>)
    requires s.Ok() && |readings| >= 2
    requires var t := readings[0]; var u := t + Sleep(s, party, guard, t);
      Sleep(s, party, guard, t) > 0 ==> u <= readings[1] < u + s.slotNs - guard
    ensures FirstOpen(s, party, guard, readings, 0) in {Some(0), Some(1)}
  {
    hide Sleep;
    if Sleep(s, party, guard, readings[0]) > 0 {
      OneSleepIsEnough(s, party, guard, readings[0], readings[1]);
      assert FirstOpen(s, party, guard, readings, 1) == Some(1);
    }
  }

  // ---- counting ------------------------------------------------------------------------------------

  function CountIf(s: seq<(nat, nat)>, p: ((nat, nat)) -> bool): nat {
    if s == [] then 0 else CountIf(s[..|s| - 1], p) + if p(s[|s| - 1]) then 1 else 0
  }

  function Clean(s: Schedule, party: int): ((nat, nat)) -> bool
    requires s.Ok()
  {
    (t: (nat, nat)) => s.Owns(party, s.SlotOf(t.0)) && s.Owns(party, s.SlotOf(t.1)) && s.SlotOf(t.0) == s.SlotOf(t.1)
  }

  function Spans(s: Schedule): ((nat, nat)) -> bool
    requires s.Ok()
  {
    (t: (nat, nat)) => s.SlotOf(t.0) != s.SlotOf(t.1)
  }

  function StartsIn(s: Schedule, k: nat): ((nat, nat)) -> bool
    requires s.Ok()
  {
    (t: (nat, nat)) => s.SlotOf(t.0) == k
  }

  lemma CountMore(s: seq<(nat, nat)>, t: (nat, nat))
    ensures forall p: ((nat, nat)) -> bool :: CountIf(s + [t], p) == CountIf(s, p) + if p(t) then 1 else 0
  {
    assert (s + [t])[..|s|] == s;
  }

  /** A send that starts when the gate lets it and ends within the guard is never a violation. */
  lemma GuardedSendIsClean(s: Schedule, party: int, guard: nat, t: nat, post: nat)
    requires s.Ok() && s.MayStart(party, guard, t) && t <= post <= t + guard
    ensures Clean(s, party)((t, post)) && !Spans(s)((t, post))
  {
    StaysInSlot(s, guard, t, post - t);
  }

  /** What is booked as a violation, exactly: every send but those that start and end in the same
      slot of the cycle, one the party owns; and as a spill, every send that ends in another
      slot than it started in. */
  lemma BookedIff(s: Schedule, party: int, pre: nat, post: nat)
    requires s.Ok()
    ensures var n := |s.slotOwners|;
      && (Clean(s, party)((pre, post)) <==>
            party in s.slotOwners[pre / s.slotNs % n] && pre / s.slotNs % n == post / s.slotNs % n)
      && (Spans(s)((pre, post)) <==> pre / s.slotNs % n != post / s.slotNs % n)
      && forall k: nat :: StartsIn(s, k)((pre, post)) <==> pre / s.slotNs % n == k
  {
    SlotInCycle(pre, s.slotNs, |s.slotOwners|);
    SlotInCycle(post, s.slotNs, |s.slotOwners|);
  }

  lemma SameResidue(a: nat, b: nat, n: nat)
    requires n > 0 && a <= b < a + n
    ensures a % n == b % n <==> a == b
  {
    if a % n == b % n {
      MulDivMod(a, n);
      MulDivMod(b, n);
      var k := b / n - a / n;
      assert b - a == k * n;
      assert k >= 1 ==> k * n >= n;
    }
  }

  /** For sends of less than a cycle these are the slots on the clock: a send is in order if and
      only if it ends in the slot it started in, and that slot is the party's. */
  lemma ShortSendIff(s: Schedule, party: int, pre: nat, post: nat)
    requires s.Ok() && pre / s.slotNs <= post / s.slotNs < pre / s.slotNs + |s.slotOwners|
    ensures Clean(s, party)((pre, post)) <==>
      party in s.slotOwners[pre / s.slotNs % |s.slotOwners|] && pre / s.slotNs == post / s.slotNs
    ensures Spans(s)((pre, post)) <==> pre / s.slotNs != post / s.slotNs
  {
    hide Clean, Spans;
    BookedIff(s, party, pre, post);
    SameResidue(pre / s.slotNs, post / s.slotNs, |s.slotOwners|);
  }

  /** A count is the number of recorded sends it is about. */
  lemma {:induction false} CountIs(s: seq<(nat, nat)>, p: ((nat, nat)) -> bool)
    ensures CountIf(s, p) == |set i: nat | i < |s| && p(s[i])|
  {
    if s != [] {
      var n := |s| - 1;
      CountIs(s[..n], p);
      var before, all := set i: nat | i < |s[..n]| && p(s[..n][i]), set i: nat | i < |s| && p(s[i]);
      CountNext(before, all, n, p(s[n]));
    }
  }
}
