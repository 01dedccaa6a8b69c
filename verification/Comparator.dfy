/** The radix-4 prefix network.  For every lane of 64 bits it forms all prefix ANDs in three
    levels, marks the first 0 of the lane and selects the lane's data bit at that place. */
module Comparator {
  import opened Circuits
  import Z = ZMod

  const K: nat := 64

  // ---- the circuit, wire by wire ------------------------------------------------------------

  /** Four blocks of h wires from p on are joined: gate i of block c ANDs the whole blocks
      before it to its own wire. */
  function JoinGate(cur: seq<Wire>, h: nat, p: nat, i: nat, c: nat): Gate
    requires i < h && p + 4 * h <= |cur|
  {
    match c
    case 0 => ConstAdd(cur[p + i], 0)
    case 1 => Mul2(cur[p + h - 1], cur[p + h + i])
    case 2 => Mul3(cur[p + h - 1], cur[p + 2 * h - 1], cur[p + 2 * h + i])
    case _ => Mul4(cur[p + h - 1], cur[p + 2 * h - 1], cur[p + 3 * h - 1], cur[p + 3 * h + i])
  }

  /** The gates of one level come in fours, one for each block of a group. */
  function LevelGate(cur: seq<Wire>, h: nat, idx: nat): Gate
    requires h > 0 && idx < |cur| && |cur| % (4 * h) == 0
  {
    var t := idx / 4;
    GateInBounds(|cur|, h, idx);
    JoinGate(cur, h, t / h * (4 * h), t % h, idx % 4)
  }

  lemma GateInBounds(n: nat, h: nat, idx: nat)
    requires h > 0 && idx < n && n % (4 * h) == 0
    ensures idx / 4 / h * (4 * h) + 4 * h <= n
    ensures 0 <= idx / 4 % h < h
  {
    var t := idx / 4;
    var q := t / h;
    DivMod(t, h);
    assert 4 * (q * h) == q * (4 * h);
    GroupFits(n, h, q, idx - 4 * (q * h));
  }

  function LevelGates(cur: seq<Wire>, h: nat): (gs: seq<Gate>)
    requires h > 0 && |cur| % (4 * h) == 0
    ensures |gs| == |cur| && forall i :: 0 <= i < |gs| ==> gs[i] == LevelGate(cur, h, i)
  {
    seq(|cur|, i requires 0 <= i < |cur| => LevelGate(cur, h, i))
  }

  lemma DivMod(a: nat, d: nat)
    requires d > 0
    ensures a == a / d * d + a % d && 0 <= a % d < d && 0 <= a / d
  {
  }

  /** A position in a group of four blocks: the group, the block and the place in it. */
  function Split(h: nat, pos: nat): (r: (nat, nat, nat))
    requires h > 0
    ensures pos == r.0 * (4 * h) + r.1 * h + r.2 && r.1 < 4 && r.2 < h
  {
    var off := pos % (4 * h);
    DivMod(pos, 4 * h);
    DivMod(off, h);
    SmallQuotient(off, h, off / h, off % h);
    (pos / (4 * h), off / h, off % h)
  }

  lemma SmallQuotient(off: nat, h: nat, c: int, i: nat)
    requires h > 0 && off < 4 * h && off == c * h + i && i < h
    ensures 0 <= c < 4
  {
    assert c >= 4 ==> c * h >= 4 * h;
    assert c <= -1 ==> c * h <= -1 * h;
  }

  lemma SplitIs(h: nat, q: nat, c: nat, i: nat)
    requires h > 0 && c < 4 && i < h
    ensures Split(h, q * (4 * h) + c * h + i) == (q, c, i)
  {
    var off := c * h + i;
    Monotone(c, 3, h);
    Z.ModUnique(4 * h, q * (4 * h) + off, q, off);
    Z.ModUnique(h, off, c, i);
  }

  /** Which gate of a level serves position pos. */
  function GateOf(h: nat, pos: nat): nat
    requires h > 0
  {
    var (q, c, i) := Split(h, pos);
    4 * (q * h + i) + c
  }

  /** The wires after a level that starts at gate number `base`. */
  function LevelWires(n: nat, h: nat, base: nat): (ws: seq<Wire>)
    requires h > 0
    ensures |ws| == n && forall p :: 0 <= p < n ==> ws[p] == base + GateOf(h, p)
  {
    seq(n, p requires 0 <= p < n => base + GateOf(h, p))
  }

  function Zeros(n: nat): (s: seq<Wire>)
    ensures |s| == n && forall i :: 0 <= i < n ==> s[i] == 0
  {
    seq(n, i => 0)
  }

  function From(base: nat, n: nat): (s: seq<Wire>)
    ensures |s| == n && forall i :: 0 <= i < n ==> s[i] == base + i
  {
    seq(n, i requires i >= 0 => base + i)
  }

  /** Complements of the prefix ANDs. */
  function Complements(cur: seq<Wire>): (gs: seq<Gate>)
    ensures |gs| == |cur| && forall p :: 0 <= p < |gs| ==> gs[p] == ConstAdd(cur[p], 1)
  {
    seq(|cur|, p requires 0 <= p < |cur| => ConstAdd(cur[p], 1))
  }

  /** In each lane, sums of neighbouring complements. */
  function Markers(base: nat, n: nat): (gs: seq<Gate>)
    ensures |gs| == n
    ensures forall p :: 0 <= p < n ==>
      gs[p] == if p % K == 0 then ConstAdd(base + p, 0) else Lin(false, base + p, base + p - 1)
  {
    seq(n, p requires 0 <= p < n => if p % K == 0 then ConstAdd(base + p, 0) else Lin(false, base + p, base + p - 1))
  }

  /** The selecting scalar product; both vectors begin with n copies of wire 0. */
  function Selector(n: nat): Gate {
    Simd(false, Zeros(n) + From(6 * n, n), Zeros(n) + From(n, n))
  }

  function Inputs(n: nat): (gs: seq<Gate>)
    ensures |gs| == n && forall i :: 0 <= i < n ==> gs[i] == Inp
  {
    seq(n, i => Inp)
  }

  lemma Sizes(lanes: nat)
    ensures K * lanes % (4 * 1) == 0 && K * lanes % (4 * 4) == 0 && K * lanes % (4 * 16) == 0
  {
  }

  /** n prefix inputs, n data inputs, three levels, complements, markers, the selector. */
  function PrefixOrGates(lanes: nat): (gs: seq<Gate>)
    ensures |gs| == 7 * (K * lanes) + 1
  {
    var n := K * lanes;
    Sizes(lanes);
    Inputs(2 * n)
      + LevelGates(From(0, n), 1)
      + LevelGates(LevelWires(n, 1, 2 * n), 4)
      + LevelGates(LevelWires(n, 4, 3 * n), 16)
      + Complements(LevelWires(n, 16, 4 * n))
      + Markers(5 * n, n)
      + [Selector(n)]
  }

  /** Gate w of the circuit is g: the parts by gate number. */
  ghost predicate PartIs(n: nat, w: nat, g: Gate)
    requires n % (4 * 1) == 0 && n % (4 * 4) == 0 && n % (4 * 16) == 0
  {
    && (w < 2 * n ==> g == Inp)
    && (2 * n <= w < 3 * n ==> g == LevelGate(From(0, n), 1, w - 2 * n))
    && (3 * n <= w < 4 * n ==> g == LevelGate(LevelWires(n, 1, 2 * n), 4, w - 3 * n))
    && (4 * n <= w < 5 * n ==> g == LevelGate(LevelWires(n, 4, 3 * n), 16, w - 4 * n))
    && (5 * n <= w < 6 * n ==> g == ConstAdd(LevelWires(n, 16, 4 * n)[w - 5 * n], 1))
    && (6 * n <= w < 7 * n ==> g == Markers(5 * n, n)[w - 6 * n])
    && (w == 7 * n ==> g == Selector(n))
  }

  lemma PrefixOrParts(lanes: nat, w: nat)
    requires w < |PrefixOrGates(lanes)|
    ensures K * lanes % (4 * 1) == 0 && K * lanes % (4 * 4) == 0 && K * lanes % (4 * 16) == 0
    ensures PartIs(K * lanes, w, PrefixOrGates(lanes)[w])
  {
    hide LevelGate, Selector, GateOf;
    Sizes(lanes);
  }

  lemma {:induction false} Monotone(a: nat, b: nat, d: nat)
    requires a <= b
    ensures a * d <= b * d
  {
    if d > 0 {
      Monotone(a, b, d - 1);
    }
  }

  lemma NextMultiple(q: nat, b: nat, d: nat, r: nat)
    requires q * d + r < b * d
    ensures q * d + d <= b * d
  {
    if q >= b {
      Monotone(b, q, d);
    } else {
      Monotone(q + 1, b, d);
    }
  }

  lemma GroupFits(n: nat, h: nat, q: nat, r: nat)
    requires h > 0 && n % (4 * h) == 0 && q * (4 * h) + r < n
    ensures q * (4 * h) + 4 * h <= n
  {
    DivMod(n, 4 * h);
    NextMultiple(q, n / (4 * h), 4 * h, r);
  }

  lemma GateOfBound(n: nat, h: nat, pos: nat)
    requires h > 0 && pos < n && n % (4 * h) == 0
    ensures GateOf(h, pos) < n
  {
    var (q, c, i) := Split(h, pos);
    GroupFits(n, h, q, c * h + i);
    assert 4 * (q * h + i) + c == q * (4 * h) + 4 * i + c;
  }

  lemma JoinGateOk(cur: seq<Wire>, h: nat, p: nat, i: nat, c: nat, base: nat, n: nat)
    requires i < h && p + 4 * h <= |cur| && Below(cur, base) && base <= n
    ensures GateOk(JoinGate(cur, h, p, i, c), n)
  {
  }

  lemma LevelGateOk(cur: seq<Wire>, h: nat, idx: nat, base: nat)
    requires h > 0 && idx < |cur| && |cur| % (4 * h) == 0 && Below(cur, base)
    ensures GateOk(LevelGate(cur, h, idx), base) && GateOk(LevelGate(cur, h, idx), base + idx)
  {
    GateInBounds(|cur|, h, idx);
    hide JoinGate;
    JoinGateOk(cur, h, idx / 4 / h * (4 * h), idx / 4 % h, idx % 4, base, base);
    JoinGateOk(cur, h, idx / 4 / h * (4 * h), idx / 4 % h, idx % 4, base, base + idx);
  }

  lemma LevelWiresBelow(n: nat, h: nat, base: nat)
    requires h > 0 && n % (4 * h) == 0
    ensures Below(LevelWires(n, h, base), base + n)
  {
    forall p | 0 <= p < n ensures LevelWires(n, h, base)[p] < base + n {
      GateOfBound(n, h, p);
    }
  }

  lemma PrefixOrWellFormed(lanes: nat)
    ensures WellFormed(PrefixOrGates(lanes))
  {
    hide LevelGate, GateOf, PrefixOrGates;
    var n, gs := K * lanes, PrefixOrGates(lanes);
    forall w | 0 <= w < |gs| ensures GateOk(gs[w], w) {
      PrefixOrParts(lanes, w);
      if 2 * n <= w < 3 * n {
        LevelGateOk(From(0, n), 1, w - 2 * n, 2 * n);
      } else if 3 * n <= w < 4 * n {
        LevelWiresBelow(n, 1, 2 * n);
        LevelGateOk(LevelWires(n, 1, 2 * n), 4, w - 3 * n, 3 * n);
      } else if 4 * n <= w < 5 * n {
        LevelWiresBelow(n, 4, 3 * n);
        LevelGateOk(LevelWires(n, 4, 3 * n), 16, w - 4 * n, 4 * n);
      } else if 5 * n <= w < 6 * n {
        LevelWiresBelow(n, 16, 4 * n);
      } else if w == 7 * n {
        SelectorOk(n);
      }
    }
  }

  /** The round of a gate of the network: the inputs, the three levels of ANDs with what is made
      of the last one, and the selection. */
  function RoundOf(n: nat, w: nat): nat {
    if w < 2 * n then 0 else if w < 3 * n then 1 else if w < 4 * n then 2 else if w < 7 * n then 3 else 4
  }

  /** The first wire of the part of the network that wire w is in. */
  function PartStart(n: nat, w: nat): nat {
    if w < 2 * n then 0
    else if w < 3 * n then 2 * n
    else if w < 4 * n then 3 * n
    else if w < 5 * n then 4 * n
    else if w < 7 * n then 5 * n
    else 7 * n
  }

  lemma MiddleLocal(n: nat, w: nat)
    ensures 5 * n <= w < 6 * n ==> !Interactive(ConstAdd(LevelWires(n, 16, 4 * n)[w - 5 * n], 1))
    ensures 6 * n <= w < 7 * n ==> !Interactive(Markers(5 * n, n)[w - 6 * n])
  {
  }

  /** An interactive gate reads wires of earlier parts only. */
  lemma ReadsBelowPart(n: nat, w: nat, g: Gate)
    requires n % (4 * 1) == 0 && n % (4 * 4) == 0 && n % (4 * 16) == 0 && w <= 7 * n && PartIs(n, w, g)
    ensures Interactive(g) ==> RoundOf(n, w) >= 1 && GateOk(g, PartStart(n, w))
  {
    hide LevelGate, LevelWires, From, GateOf, Selector, GateOk, Markers;
    if 2 * n <= w < 3 * n {
      LevelGateOk(From(0, n), 1, w - 2 * n, 2 * n);
    } else if 3 * n <= w < 4 * n {
      LevelWiresBelow(n, 1, 2 * n);
      LevelGateOk(LevelWires(n, 1, 2 * n), 4, w - 3 * n, 3 * n);
    } else if 4 * n <= w < 5 * n {
      LevelWiresBelow(n, 4, 3 * n);
      LevelGateOk(LevelWires(n, 4, 3 * n), 16, w - 4 * n, 4 * n);
    } else if w == 7 * n {
      SelectorOk(n);
    } else {
      MiddleLocal(n, w);
    }
  }

  lemma GateInRound(lanes: nat, w: nat)
    requires w < |PrefixOrGates(lanes)|
    ensures var n, g := K * lanes, PrefixOrGates(lanes)[w];
      && (forall i :: i in Ins(g) ==> i < w)
      && (Interactive(g) ==> RoundOf(n, w) >= 1 && forall i :: i in Ins(g) ==> RoundOf(n, i) < RoundOf(n, w))
  {
    PrefixOrWellFormed(lanes);
    PrefixOrParts(lanes, w);
    ReadsBelowPart(K * lanes, w, PrefixOrGates(lanes)[w]);
    hide PartIs, PrefixOrGates, GateOk, Ins, Interactive;
    var n, g := K * lanes, PrefixOrGates(lanes)[w];
    assert GateOk(g, w);
    GateOkBelow(g, w);
    if Interactive(g) {
      GateOkBelow(g, PartStart(n, w));
    }
  }

  /** Whatever the number of lanes, the comparator takes four rounds of communication. */
  lemma FourRounds(lanes: nat)
    ensures WellFormed(PrefixOrGates(lanes)) && |ByLevel(Levels(PrefixOrGates(lanes)))| <= 5
  {
    PrefixOrWellFormed(lanes);
    hide PrefixOrGates, GateOk, Levels, WellFormed, Ins;
    var gs := PrefixOrGates(lanes);
    var a := seq(|gs|, w requires 0 <= w < |gs| => RoundOf(K * lanes, w));
    forall w | 0 <= w < |gs|
      ensures forall i :: i in Ins(gs[w]) && i < |a| ==> a[i] <= a[w]
      ensures Interactive(gs[w]) ==> a[w] >= 1 && forall i :: i in Ins(gs[w]) && i < |a| ==> a[i] < a[w]
    {
      GateInRound(lanes, w);
    }
    DepthLeast(gs, a, 4);
  }

  lemma SelectorOk(n: nat)
    ensures GateOk(Selector(n), 7 * n)
  {
  }

  // ---- prefix ANDs ---------------------------------------------------------------------------

  /** The AND of the bits lo..hi-1. */
  function And(b: seq<int>, lo: nat, hi: nat): int
    requires hi <= |b|
  {
    if hi <= lo then 1 else And(b, lo, hi - 1) * b[hi - 1]
  }

  lemma {:induction false} AndBit(b: seq<int>, lo: nat, hi: nat)
    requires hi <= |b| && Reduced(2, b)
    ensures And(b, lo, hi) == 0 || And(b, lo, hi) == 1
  {
    if lo < hi {
      AndBit(b, lo, hi - 1);
    }
  }

  lemma {:induction false} AndSplit(b: seq<int>, lo: nat, mid: nat, hi: nat)
    requires lo <= mid <= hi <= |b| && Reduced(2, b)
    ensures And(b, lo, hi) == And(b, lo, mid) * And(b, mid, hi)
  {
    if mid < hi {
      AndSplit(b, lo, mid, hi - 1);
      AndBit(b, lo, mid);
      AndBit(b, mid, hi - 1);
    }
  }

  lemma AndMul(b: seq<int>, lo: nat, mid: nat, hi: nat)
    requires lo <= mid <= hi <= |b| && Reduced(2, b)
    ensures Z.Mul(2, And(b, lo, mid), And(b, mid, hi)) == And(b, lo, hi)
  {
    AndSplit(b, lo, mid, hi);
    AndBit(b, lo, mid);
    AndBit(b, mid, hi);
  }

  /** Wire cur[pos] holds the AND of its block up to pos. */
  ghost predicate BlockAnds(vs: seq<int>, b: seq<int>, cur: seq<Wire>, h: nat)
    requires h > 0
  {
    && |cur| <= |b| && Below(cur, |vs|)
    && forall pos :: 0 <= pos < |cur| ==> vs[cur[pos]] == And(b, pos - pos % h, pos + 1)
  }

  /** The same, by group and block. */
  lemma BlockAnd(vs: seq<int>, b: seq<int>, cur: seq<Wire>, h: nat, q: nat, c: nat, i: nat)
    requires h > 0 && BlockAnds(vs, b, cur, h) && i < h && q * (4 * h) + c * h + i < |cur|
    ensures vs[cur[q * (4 * h) + c * h + i]] == And(b, q * (4 * h) + c * h, q * (4 * h) + c * h + i + 1)
  {
    var pos := q * (4 * h) + c * h + i;
    assert pos == (4 * q + c) * h + i;
    Z.ModUnique(h, pos, 4 * q + c, i);
  }

  lemma Join1(vs: seq<int>, b: seq<int>, cur: seq<Wire>, h: nat, p: nat, i: nat)
    requires 0 < h && i < h && p + 4 * h <= |cur| <= |b| && Reduced(2, vs) && Reduced(2, b) && Below(cur, |vs|)
    requires vs[cur[p + h - 1]] == And(b, p, p + h) && vs[cur[p + h + i]] == And(b, p + h, p + h + i + 1)
    ensures GateOk(JoinGate(cur, h, p, i, 1), |vs|)
    ensures GateVal(2, JoinGate(cur, h, p, i, 1), vs, 0) == And(b, p, p + h + i + 1)
  {
    hide And, Z.Mul;
    AndMul(b, p, p + h, p + h + i + 1);
  }

  lemma Join2(vs: seq<int>, b: seq<int>, cur: seq<Wire>, h: nat, p: nat, i: nat)
    requires 0 < h && i < h && p + 4 * h <= |cur| <= |b| && Reduced(2, vs) && Reduced(2, b) && Below(cur, |vs|)
    requires vs[cur[p + h - 1]] == And(b, p, p + h) && vs[cur[p + 2 * h - 1]] == And(b, p + h, p + 2 * h)
    requires vs[cur[p + 2 * h + i]] == And(b, p + 2 * h, p + 2 * h + i + 1)
    ensures GateOk(JoinGate(cur, h, p, i, 2), |vs|)
    ensures GateVal(2, JoinGate(cur, h, p, i, 2), vs, 0) == And(b, p, p + 2 * h + i + 1)
  {
    hide And, Z.Mul;
    AndMul(b, p, p + h, p + 2 * h);
    AndMul(b, p, p + 2 * h, p + 2 * h + i + 1);
  }

  lemma Join3(vs: seq<int>, b: seq<int>, cur: seq<Wire>, h: nat, p: nat, i: nat)
    requires 0 < h && i < h && p + 4 * h <= |cur| <= |b| && Reduced(2, vs) && Reduced(2, b) && Below(cur, |vs|)
    requires vs[cur[p + h - 1]] == And(b, p, p + h) && vs[cur[p + 2 * h - 1]] == And(b, p + h, p + 2 * h)
    requires vs[cur[p + 3 * h - 1]] == And(b, p + 2 * h, p + 3 * h)
    requires vs[cur[p + 3 * h + i]] == And(b, p + 3 * h, p + 3 * h + i + 1)
    ensures GateOk(JoinGate(cur, h, p, i, 3), |vs|)
    ensures GateVal(2, JoinGate(cur, h, p, i, 3), vs, 0) == And(b, p, p + 3 * h + i + 1)
  {
    hide And, Z.Mul;
    AndMul(b, p, p + h, p + 2 * h);
    AndMul(b, p, p + 2 * h, p + 3 * h);
    AndMul(b, p, p + 3 * h, p + 3 * h + i + 1);
  }

  lemma Join0(vs: seq<int>, b: seq<int>, cur: seq<Wire>, h: nat, p: nat, i: nat)
    requires i < h && p + 4 * h <= |cur| <= |b| && Reduced(2, vs) && Reduced(2, b) && Below(cur, |vs|)
    requires vs[cur[p + i]] == And(b, p, p + i + 1)
    ensures GateOk(JoinGate(cur, h, p, i, 0), |vs|)
    ensures GateVal(2, JoinGate(cur, h, p, i, 0), vs, 0) == And(b, p, p + i + 1)
  {
    hide And;
    AndBit(b, p, p + i + 1);
  }

  /** The value of one joining gate. */
  lemma JoinValue(vs: seq<int>, b: seq<int>, cur: seq<Wire>, h: nat, q: nat, c: nat, i: nat)
    requires h > 0 && Reduced(2, vs) && Reduced(2, b) && BlockAnds(vs, b, cur, h) && i < h && c < 4
    requires q * (4 * h) + 4 * h <= |cur|
    ensures var p := q * (4 * h);
      && GateOk(JoinGate(cur, h, p, i, c), |vs|)
      && GateVal(2, JoinGate(cur, h, p, i, c), vs, 0) == And(b, p, p + c * h + i + 1)
  {
    hide And, Reduced, GateOk, GateVal, JoinGate;
    var p := q * (4 * h);
    BlockAnd(vs, b, cur, h, q, 0, h - 1);
    BlockAnd(vs, b, cur, h, q, 1, h - 1);
    BlockAnd(vs, b, cur, h, q, 2, h - 1);
    if c == 0 {
      BlockAnd(vs, b, cur, h, q, 0, i);
      Join0(vs, b, cur, h, p, i);
    } else if c == 1 {
      BlockAnd(vs, b, cur, h, q, 1, i);
      Join1(vs, b, cur, h, p, i);
    } else if c == 2 {
      BlockAnd(vs, b, cur, h, q, 2, i);
      Join2(vs, b, cur, h, p, i);
    } else {
      BlockAnd(vs, b, cur, h, q, 3, i);
      Join3(vs, b, cur, h, p, i);
    }
  }

  /** A level multiplies the block length by four. */
  lemma LevelAnds(vs: seq<int>, b: seq<int>, cur: seq<Wire>, h: nat, base: nat)
    requires h > 0 && |cur| % (4 * h) == 0 && Reduced(2, vs) && Reduced(2, b) && BlockAnds(vs, b, cur, h)
    requires base + |cur| <= |vs|
    requires forall idx :: 0 <= idx < |cur| ==>
      GateOk(LevelGate(cur, h, idx), |vs|) && vs[base + idx] == GateVal(2, LevelGate(cur, h, idx), vs, 0)
    ensures BlockAnds(vs, b, LevelWires(|cur|, h, base), 4 * h)
  {
    hide And, Reduced, GateOk, GateVal, LevelGate, GateOf;
    var n, ws := |cur|, LevelWires(|cur|, h, base);
    forall pos | 0 <= pos < n
      ensures ws[pos] < |vs| && vs[ws[pos]] == And(b, pos - pos % (4 * h), pos + 1)
    {
      GateOfBound(n, h, pos);
      LevelAndAt(vs, b, cur, h, base, pos);
    }
  }

  lemma LevelAndAt(vs: seq<int>, b: seq<int>, cur: seq<Wire>, h: nat, base: nat, pos: nat)
    requires h > 0 && |cur| % (4 * h) == 0 && Reduced(2, vs) && Reduced(2, b) && BlockAnds(vs, b, cur, h)
    requires base + |cur| <= |vs| && pos < |cur|
    requires forall idx :: 0 <= idx < |cur| ==>
      GateOk(LevelGate(cur, h, idx), |vs|) && vs[base + idx] == GateVal(2, LevelGate(cur, h, idx), vs, 0)
    ensures GateOf(h, pos) < |cur| && vs[base + GateOf(h, pos)] == And(b, pos - pos % (4 * h), pos + 1)
  {
    hide And, Reduced, GateOk, GateVal, JoinGate, Split, BlockAnds, LevelGate;
    var (q, c, i) := Split(h, pos);
    GroupFits(|cur|, h, q, c * h + i);
    LevelGateAt(cur, h, q, c, i);
    JoinValue(vs, b, cur, h, q, c, i);
    Monotone(c, 3, h);
    Z.ModUnique(4 * h, pos, q, c * h + i);
  }

  lemma LevelGateAt(cur: seq<Wire>, h: nat, q: nat, c: nat, i: nat)
    requires h > 0 && c < 4 && i < h && |cur| % (4 * h) == 0 && q * (4 * h) + 4 * h <= |cur|
    ensures 4 * (q * h + i) + c < |cur|
    ensures LevelGate(cur, h, 4 * (q * h + i) + c) == JoinGate(cur, h, q * (4 * h), i, c)
  {
    hide JoinGate;
    var t := q * h + i;
    assert 4 * t + c == q * (4 * h) + 4 * i + c;
    assert (4 * t + c) / 4 == t && (4 * t + c) % 4 == c;
    Z.ModUnique(h, t, q, i);
  }

  // ---- the first 0 of a lane -----------------------------------------------------------------------

  /** 1 exactly at the first 0 of the lane of position p. */
  function Marker(b: seq<int>, p: nat): int
    requires p < |b|
  {
    And(b, p - p % K, p) * (1 - b[p])
  }

  /** The data bit at the first 0 among lo..hi-1, zero if there is none. */
  function AtFirstZero(b: seq<int>, d: seq<int>, lo: nat, hi: nat): int
    requires hi <= |b| && |d| == |b|
  {
    if hi <= lo then 0 else AtFirstZero(b, d, lo, hi - 1) + And(b, lo, hi - 1) * (1 - b[hi - 1]) * d[hi - 1]
  }

  lemma {:induction false} AndAllOnes(b: seq<int>, lo: nat, hi: nat)
    requires hi <= |b| && Reduced(2, b)
    ensures And(b, lo, hi) == 1 <==> forall q :: lo <= q < hi ==> b[q] == 1
  {
    if lo < hi {
      AndAllOnes(b, lo, hi - 1);
      AndBit(b, lo, hi - 1);
    }
  }

  /** The sum picks one bit: the one at the first zero. */
  lemma {:induction false} AtFirstZeroIs(b: seq<int>, d: seq<int>, lo: nat, hi: nat, q: nat)
    requires lo <= q < hi <= |b| && |d| == |b| && Reduced(2, b)
    requires b[q] == 0 && forall i :: lo <= i < q ==> b[i] == 1
    ensures AtFirstZero(b, d, lo, hi) == d[q]
  {
    if q < hi - 1 {
      AtFirstZeroIs(b, d, lo, hi - 1, q);
      AndAllOnes(b, lo, hi - 1);
      AndBit(b, lo, hi - 1);
    } else {
      NoZero(b, d, lo, q);
      AndAllOnes(b, lo, q);
    }
  }

  lemma {:induction false} NoZero(b: seq<int>, d: seq<int>, lo: nat, hi: nat)
    requires hi <= |b| && |d| == |b| && forall i :: lo <= i < hi ==> b[i] == 1
    ensures AtFirstZero(b, d, lo, hi) == 0
  {
    if lo < hi {
      NoZero(b, d, lo, hi - 1);
      assert And(b, lo, hi - 1) * (1 - 1) == 0;
    }
  }

  /** Over all lanes. */
  function LaneSum(b: seq<int>, d: seq<int>, lanes: nat): int
    requires K * lanes <= |b| && |d| == |b|
  {
    if lanes == 0 then 0 else LaneSum(b, d, lanes - 1) + AtFirstZero(b, d, K * (lanes - 1), K * lanes)
  }

  // ---- the values in the network ----------------------------------------------------------------------

  ghost predicate Network(lanes: nat, vs: seq<int>) {
    && |vs| == 7 * (K * lanes) + 1 && Reduced(2, vs)
    && forall w :: 2 * (K * lanes) <= w < |vs| ==>
         GateOk(PrefixOrGates(lanes)[w], |vs|) && vs[w] == GateVal(2, PrefixOrGates(lanes)[w], vs, 0)
  }

  lemma NetworkAndsStep(lanes: nat, vs: seq<int>, b: seq<int>, cur: seq<Wire>, h: nat, base: nat)
    requires Network(lanes, vs) && b == vs[..K * lanes] && |cur| == K * lanes
    requires (h == 1 && base == 2 * (K * lanes) && cur == From(0, K * lanes))
          || (h == 4 && base == 3 * (K * lanes) && cur == LevelWires(K * lanes, 1, 2 * (K * lanes)))
          || (h == 16 && base == 4 * (K * lanes) && cur == LevelWires(K * lanes, 4, 3 * (K * lanes)))
    requires BlockAnds(vs, b, cur, h)
    ensures BlockAnds(vs, b, LevelWires(K * lanes, h, base), 4 * h)
  {
    hide LevelGate, LevelWires, From, GateVal, GateOk, BlockAnds, PrefixOrGates, Selector, Markers;
    var n := K * lanes;
    Sizes(lanes);
    forall idx | 0 <= idx < n
      ensures GateOk(LevelGate(cur, h, idx), |vs|) && vs[base + idx] == GateVal(2, LevelGate(cur, h, idx), vs, 0)
    {
      PrefixOrParts(lanes, base + idx);
      assert PrefixOrGates(lanes)[base + idx] == LevelGate(cur, h, idx);
    }
    LevelAnds(vs, b, cur, h, base);
  }

  lemma InputAnds(lanes: nat, vs: seq<int>, b: seq<int>)
    requires Network(lanes, vs) && b == vs[..K * lanes]
    ensures BlockAnds(vs, b, From(0, K * lanes), 1)
  {
    forall pos | 0 <= pos < K * lanes ensures b[pos] == And(b, pos, pos + 1) {
      assert And(b, pos, pos) == 1;
    }
  }

  /** After three levels every lane holds its prefix ANDs. */
  lemma PrefixAnds(lanes: nat, vs: seq<int>, b: seq<int>)
    requires Network(lanes, vs) && b == vs[..K * lanes]
    ensures BlockAnds(vs, b, LevelWires(K * lanes, 16, 4 * (K * lanes)), K)
  {
    hide BlockAnds, LevelWires, Network;
    var n := K * lanes;
    InputAnds(lanes, vs, b);
    NetworkAndsStep(lanes, vs, b, From(0, n), 1, 2 * n);
    NetworkAndsStep(lanes, vs, b, LevelWires(n, 1, 2 * n), 4, 3 * n);
    NetworkAndsStep(lanes, vs, b, LevelWires(n, 4, 3 * n), 16, 4 * n);
  }

  lemma ComplementGate(lanes: nat, vs: seq<int>, p: nat)
    requires Network(lanes, vs) && p < K * lanes
    ensures LevelWires(K * lanes, 16, 4 * (K * lanes))[p] < |vs|
    ensures vs[5 * (K * lanes) + p] == Z.Add(2, vs[LevelWires(K * lanes, 16, 4 * (K * lanes))[p]], 1)
  {
    hide LevelWires, PrefixOrGates, Selector, LevelGate, Z.Add, Reduced, Markers, From;
    PrefixOrParts(lanes, 5 * (K * lanes) + p);
  }

  lemma ComplementAt(lanes: nat, vs: seq<int>, b: seq<int>, p: nat)
    requires Network(lanes, vs) && b == vs[..K * lanes] && p < K * lanes
    ensures vs[5 * (K * lanes) + p] == 1 - And(b, p - p % K, p + 1)
  {
    hide LevelWires, And, Network, Reduced, PrefixOrGates;
    PrefixAnds(lanes, vs, b);
    BitsReduced(lanes, vs, b, p);
    ComplementGate(lanes, vs, p);
    assert vs[LevelWires(K * lanes, 16, 4 * (K * lanes))[p]] == And(b, p - p % K, p + 1);
    AndBit(b, p - p % K, p + 1);
  }

  lemma MarkerBits(a: int, bit: int, first: bool, v: int)
    requires (a == 0 || a == 1) && (bit == 0 || bit == 1) && (first ==> a == 1)
    requires v == if first then Z.Add(2, 1 - a * bit, 0) else Z.Add(2, 1 - a * bit, 1 - a)
    ensures v == a * (1 - bit)
  {
  }

  lemma MarkerGate(lanes: nat, vs: seq<int>, p: nat)
    requires Network(lanes, vs) && p < K * lanes
    ensures vs[6 * (K * lanes) + p] == (if p % K == 0 then Z.Add(2, vs[5 * (K * lanes) + p], 0)
      else Z.Add(2, vs[5 * (K * lanes) + p], vs[5 * (K * lanes) + p - 1]))
  {
    hide LevelWires, PrefixOrGates, Selector, LevelGate, Z.Add, Reduced;
    PrefixOrParts(lanes, 6 * (K * lanes) + p);
  }

  /** The marker wires. */
  lemma MarkerAt(lanes: nat, vs: seq<int>, b: seq<int>, p: nat)
    requires Network(lanes, vs) && b == vs[..K * lanes] && p < K * lanes
    ensures vs[6 * (K * lanes) + p] == Marker(b, p)
  {
    hide PrefixOrGates, Z.Add, Network, Reduced;
    var n, lo := K * lanes, p - p % K;
    BitsReduced(lanes, vs, b, p);
    MarkerGate(lanes, vs, p);
    ComplementAt(lanes, vs, b, p);
    AndBit(b, lo, p);
    if p % K != 0 {
      ComplementAt(lanes, vs, b, p - 1);
      assert p - 1 - (p - 1) % K == lo;
    }
    MarkerBits(And(b, lo, p), b[p], p % K == 0, vs[6 * n + p]);
  }

  lemma BitsReduced(lanes: nat, vs: seq<int>, b: seq<int>, p: nat)
    requires Network(lanes, vs) && b == vs[..K * lanes] && p < K * lanes
    ensures Reduced(2, b) && (b[p] == 0 || b[p] == 1) && |vs| == 7 * (K * lanes) + 1
  {
  }

  // ---- the selector -----------------------------------------------------------------------------------

  /** The markers' selection among the first p positions. */
  function Selected(b: seq<int>, d: seq<int>, p: nat): int
    requires p <= |b| == |d|
  {
    if p == 0 then 0 else Selected(b, d, p - 1) + Marker(b, p - 1) * d[p - 1]
  }

  lemma {:induction false} SelectedLane(b: seq<int>, d: seq<int>, lane: nat, q: nat)
    requires K * lane + q <= |b| == |d| && q <= K
    ensures Selected(b, d, K * lane + q) == Selected(b, d, K * lane) + AtFirstZero(b, d, K * lane, K * lane + q)
  {
    hide And;
    if q > 0 {
      SelectedLane(b, d, lane, q - 1);
      var p := K * lane + q - 1;
      assert p - p % K == K * lane;
    }
  }

  lemma {:induction false} SelectedIsLaneSum(b: seq<int>, d: seq<int>, lanes: nat)
    requires K * lanes <= |b| == |d|
    ensures Selected(b, d, K * lanes) == LaneSum(b, d, lanes)
  {
    if lanes > 0 {
      SelectedIsLaneSum(b, d, lanes - 1);
      SelectedLane(b, d, lanes - 1, K);
    }
  }

  /** The leading copies of wire 0 contribute their count times its value; an even number of
      them cancels. */
  lemma {:induction false} PaddingCancels(k: nat, vs: seq<int>)
    requires |vs| > 0 && (vs[0] == 0 || vs[0] == 1)
    ensures Dot(2, Zeros(k), Zeros(k), vs) == if vs[0] == 1 then k % 2 else 0
  {
    hide Reduced;
    if k > 0 {
      PaddingCancels(k - 1, vs);
      assert Zeros(k) == Zeros(k - 1) + [0];
      DotPush(Zeros(k - 1), Zeros(k - 1), 0, 0, vs);
      PaddingStep(k - 1, vs[0], Dot(2, Zeros(k - 1), Zeros(k - 1), vs));
    }
  }

  lemma PaddingStep(k: nat, v: int, d: int)
    requires (v == 0 || v == 1) && d == if v == 1 then k % 2 else 0
    ensures Z.Add(2, d, Z.Mul(2, v, v)) == if v == 1 then (k + 1) % 2 else 0
  {
  }

  lemma DotPush(xs: seq<Wire>, ys: seq<Wire>, u: Wire, w: Wire, vs: seq<int>)
    requires |xs| == |ys| && Below(xs, |vs|) && Below(ys, |vs|) && u < |vs| && w < |vs|
    ensures Dot(2, xs + [u], ys + [w], vs) == Z.Add(2, Dot(2, xs, ys, vs), Z.Mul(2, vs[u], vs[w]))
  {
    assert (xs + [u])[..|xs|] == xs && (ys + [w])[..|ys|] == ys;
  }

  lemma SelectStep(s: int, m: int, d: int)
    ensures Z.Add(2, s % 2, Z.Mul(2, m, d)) == (s + m * d) % 2
  {
    Z.CongMod(2, s);
    Z.CongMod(2, m * d);
    Z.CongAdd(2, s % 2, s, Z.Mul(2, m, d), m * d);
  }

  lemma {:induction false} SelectorDot(lanes: nat, vs: seq<int>, b: seq<int>, d: seq<int>, p: nat)
    requires Network(lanes, vs) && p <= K * lanes
    requires b == vs[..K * lanes] && d == vs[K * lanes..2 * (K * lanes)]
    ensures var n := K * lanes;
      Dot(2, Zeros(n) + From(6 * n, p), Zeros(n) + From(n, p), vs) == Selected(b, d, p) % 2
  {
    hide Network, Marker, PrefixOrGates, Dot, Reduced, Z.Add, Z.Mul, And, Selected;
    var n := K * lanes;
    NetworkSize(lanes, vs);
    if p == 0 {
      SelectedNone(b, d);
      assert Zeros(n) + From(6 * n, 0) == Zeros(n) && Zeros(n) + From(n, 0) == Zeros(n);
      PaddingZero(lanes, vs);
    } else {
      SelectorDot(lanes, vs, b, d, p - 1);
      var xs, ys := Zeros(n) + From(6 * n, p - 1), Zeros(n) + From(n, p - 1);
      SelectedNext(b, d, p);
      FromPush(n, 6 * n, p);
      FromPush(n, n, p);
      DotPush(xs, ys, 6 * n + p - 1, n + p - 1, vs);
      MarkerAt(lanes, vs, b, p - 1);
      SelectStep(Selected(b, d, p - 1), Marker(b, p - 1), d[p - 1]);
    }
  }

  lemma SelectedNone(b: seq<int>, d: seq<int>)
    requires |b| == |d|
    ensures Selected(b, d, 0) == 0
  {
  }

  lemma SelectedNext(b: seq<int>, d: seq<int>, p: nat)
    requires 0 < p <= |b| == |d|
    ensures Selected(b, d, p) == Selected(b, d, p - 1) + Marker(b, p - 1) * d[p - 1]
  {
  }

  lemma FromPush(n: nat, base: nat, p: nat)
    requires p > 0
    ensures Zeros(n) + From(base, p) == Zeros(n) + From(base, p - 1) + [base + p - 1]
  {
    assert From(base, p) == From(base, p - 1) + [base + p - 1];
  }

  lemma NetworkSize(lanes: nat, vs: seq<int>)
    requires Network(lanes, vs)
    ensures |vs| == 7 * (K * lanes) + 1 && Reduced(2, vs)
  {
  }

  lemma PaddingZero(lanes: nat, vs: seq<int>)
    requires Network(lanes, vs)
    ensures Dot(2, Zeros(K * lanes), Zeros(K * lanes), vs) == 0
  {
    NetworkSize(lanes, vs);
    PaddingCancels(K * lanes, vs);
    assert K * lanes * vs[0] == 2 * (32 * lanes * vs[0]);
  }

  /** The circuit: per lane the data bit at the first 0, all lanes added. */
  lemma PrefixOrValue(lanes: nat, x: map<Wire, int>)
    ensures WellFormed(PrefixOrGates(lanes))
    ensures var n, vs := K * lanes, EvalAll(2, PrefixOrGates(lanes), x);
      vs[7 * n] == LaneSum(vs[..n], vs[n..2 * n], lanes) % 2
  {
    PrefixOrWellFormed(lanes);
    hide PrefixOrGates, GateVal, LaneSum, Selected, GateOk;
    var n, gs, vs := K * lanes, PrefixOrGates(lanes), EvalAll(2, PrefixOrGates(lanes), x);
    forall w | 2 * n <= w < |vs| ensures GateOk(gs[w], |vs|) && vs[w] == GateVal(2, gs[w], vs, 0) {
      EvalAllAt(2, gs, x, w);
      PrefixOrParts(lanes, w);
      NotInput(lanes, w, vs, if w in x then x[w] else 0);
    }
    SelectorDot(lanes, vs, vs[..n], vs[n..2 * n], n);
    SelectedIsLaneSum(vs[..n], vs[n..2 * n], lanes);
    PrefixOrParts(lanes, 7 * n);
    SelectorValue(n, vs);
  }

  lemma SelectorValue(n: nat, vs: seq<int>)
    requires GateOk(Selector(n), |vs|) && Reduced(2, vs)
    ensures GateVal(2, Selector(n), vs, 0) == Dot(2, Zeros(n) + From(6 * n, n), Zeros(n) + From(n, n), vs)
  {
  }

  lemma NotInput(lanes: nat, w: nat, vs: seq<int>, v: int)
    requires 2 * (K * lanes) <= w < |PrefixOrGates(lanes)| && Reduced(2, vs)
    requires GateOk(PrefixOrGates(lanes)[w], |vs|)
    ensures GateVal(2, PrefixOrGates(lanes)[w], vs, v) == GateVal(2, PrefixOrGates(lanes)[w], vs, 0)
  {
    PrefixOrParts(lanes, w);
    hide PrefixOrGates, LevelWires, Dot;
  }
}
