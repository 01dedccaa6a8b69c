/** One level keeps the masking invariant. */
module LevelSteps {
  import opened Circuits
  import opened Sharing
  import opened Dealing
  import opened Offline
  import opened Masks
  import opened Opening
  import opened Aggregation
  import opened Online
  import opened Masking
  import opened ZMod

  /** Every gate is one the online phase handles, and no openings but those of comparisons are
      changed. */
  ghost predicate Supported(x: Ctx) {
    && (forall w :: 0 <= w < |x.gates| ==> Basic(x.gates[w]) || x.gates[w].Unary?)
    && (forall it: Item, i: nat :: it.w < |x.gates| && x.gates[it.w].Unary? ==> x.pad(it, i) == 0)
    && (forall it: Item :: x.shift(it) != 0 ==> it.w < |x.gates| && x.gates[it.w].Unary?)
  }

  /** Keys and lanes are in order; `vals` are the plain values, lane by lane. */
  ghost predicate Prepared(x: Ctx, k: Keys, tabs: seq<seq<Table>>, vals: seq<seq<int>>)
    requires CtxOk(x)
  {
    && Supported(x) && |tabs| == x.c.nP + 1
    && |k.sh| == x.c.nP + 1 && KeysOk(x.m, k.sh, k.key)
    && forall l :: 0 <= l < |vals| ==> LaneOk(x, k, tabs, l) && Computes(x.m, x.gates, vals[l])
  }

  ghost predicate HidesItem(x: Ctx, tabs: seq<seq<Table>>, vals: seq<seq<int>>, wires: map<Item, int>, it: Item)
    requires CtxOk(x)
  {
    && |tabs| > 0 && it.lane < |vals| && it.lane < |tabs[0]|
    && Hides(x.m, tabs[0][it.lane], vals[it.lane], it.w, Get(wires, it))
  }

  ghost predicate AllHide(x: Ctx, tabs: seq<seq<Table>>, vals: seq<seq<int>>, wires: map<Item, int>, done: iset<Item>)
    requires CtxOk(x)
  {
    forall it :: it in done ==> HidesItem(x, tabs, vals, wires, it)
  }

  /** Gate j finds its inputs: from lower levels or, if it is local, also from earlier on
      its own level.  Inputs were set before. */
  ghost predicate ItemPlaced(x: Ctx, lanes: nat, done: iset<Item>, items: seq<Item>, j: nat)
    requires j < |items|
  {
    && items[j].lane < lanes && items[j].w < |x.gates|
    && var g := x.gates[items[j].w];
       && (g.Inp? ==> items[j] in done)
       && forall i :: 0 <= i < |Ins(g)| ==>
            var v := Item(items[j].lane, Ins(g)[i]);
            v in done || (!Interactive(g) && v in items[..j])
  }

  ghost predicate LevelPlaced(x: Ctx, lanes: nat, done: iset<Item>, items: seq<Item>) {
    forall j :: 0 <= j < |items| ==> ItemPlaced(x, lanes, done, items, j)
  }

  ghost predicate BitsOk(x: Ctx, k: Keys, tabs: seq<seq<Table>>, vals: seq<seq<int>>, bits: map<Item, int>, it: Item)
    requires CtxOk(x)
  {
    it.w < |x.gates| && x.gates[it.w].Unary? ==>
      && |tabs| > 0 && it.lane < |tabs[0]| && it.lane < |vals|
      && BitOk(x.m, k, tabs[0][it.lane], vals[it.lane], it.w, Get(bits, it), x.shift(it))
  }

  ghost predicate AllBitsOk(x: Ctx, k: Keys, tabs: seq<seq<Table>>, vals: seq<seq<int>>, bits: map<Item, int>,
                            items: seq<Item>)
    requires CtxOk(x)
  {
    forall j :: 0 <= j < |items| ==> BitsOk(x, k, tabs, vals, bits, items[j])
  }

  lemma PlacedOk(x: Ctx, lanes: nat, done: iset<Item>, items: seq<Item>)
    requires LevelPlaced(x, lanes, done, items)
    ensures ItemsOk(x.gates, items)
  {
    forall j | 0 <= j < |items| ensures items[j].w < |x.gates| {
      assert ItemPlaced(x, lanes, done, items, j);
    }
  }

  lemma BitHeld(m: nat, k: Keys, T: Table, vs: seq<int>, w: Wire, bit: int, e: int)
    requires m > 0 && BitOk(m, k, T, vs, w, bit, e)
    ensures CompareHeld(m, k, T, w)
  {
  }

  lemma ReadyAt(x: Ctx, k: Keys, tabs: seq<seq<Table>>, vals: seq<seq<int>>, wires: map<Item, int>,
                bits: map<Item, int>, done: iset<Item>, items: seq<Item>, j: nat)
    requires CtxOk(x) && Prepared(x, k, tabs, vals) && AllHide(x, tabs, vals, wires, done)
    requires j < |items| && ItemPlaced(x, |vals|, done, items, j) && BitsOk(x, k, tabs, vals, bits, items[j])
    requires Interactive(x.gates[items[j].w])
    ensures ItemReady(x, k, tabs, vals[items[j].lane], wires, bits, items[j])
  {
    hide Hides, GoodEntries, SameTables, Computes, BitOk, CompareHeld, Basic, Ins, KeysOk, WellFormed;
    var it := items[j];
    assert LaneOk(x, k, tabs, it.lane);
    assert it.lane < |tabs[0]|;
    var g := x.gates[it.w];
    if !Basic(g) {
      BitHeld(x.m, k, tabs[0][it.lane], vals[it.lane], it.w, Get(bits, it), x.shift(it));
    }
    forall i | 0 <= i < |Ins(g)|
      ensures Hides(x.m, tabs[0][it.lane], vals[it.lane], Ins(g)[i], Get(wires, InputItems(g, it.lane)[i]))
    {
      assert HidesItem(x, tabs, vals, wires, Item(it.lane, Ins(g)[i]));
    }
  }

  lemma LevelJointOk(x: Ctx, k: Keys, tabs: seq<seq<Table>>, vals: seq<seq<int>>, wires: map<Item, int>,
                     bits: map<Item, int>, done: iset<Item>, items: seq<Item>)
    requires CtxOk(x) && Prepared(x, k, tabs, vals) && AllHide(x, tabs, vals, wires, done)
    requires LevelPlaced(x, |vals|, done, items) && AllBitsOk(x, k, tabs, vals, bits, items)
    ensures JointOk(x, tabs, items)
  {
    PlacedOk(x, |vals|, done, items);
    hide CanSend, ItemReady, ItemPlaced, BitsOk, Supported, AllHide;
    var order := CommOrder(x.gates, items);
    forall i, q | 1 <= i <= x.c.nP && 0 <= q < |order| ensures CanSend(x, tabs[i], order[q]) {
      GroupsMember(x.gates, items, 5, q);
      var j :| 0 <= j < |items| && items[j] == order[q];
      ReadyAt(x, k, tabs, vals, wires, bits, done, items, j);
      EntryOk(x, k, tabs, items[j], i);
    }
  }

  /** All parties have the same public wires. */
  ghost predicate Agree(x: Ctx, views: seq<View>, wires: map<Item, int>) {
    |views| == x.c.nP + 1 && forall i :: 1 <= i <= x.c.nP ==> views[i].wires == wires
  }

  function ShareValues(x: Ctx, tabs: seq<seq<Table>>, wires: map<Item, int>, bits: map<Item, int>, it: Item)
    : (s: seq<int>)
    requires CtxOk(x) && |tabs| == x.c.nP + 1
    requires forall i :: 1 <= i <= x.c.nP ==> CanSend(x, tabs[i], it)
    ensures |s| == x.c.nP
    ensures forall i :: 1 <= i <= x.c.nP ==> s[i - 1] == ItemShare(x, i, tabs[i], wires, bits, it).value
  {
    seq(x.c.nP, p requires 0 <= p < x.c.nP => ItemShare(x, p + 1, tabs[p + 1], wires, bits, it).value)
  }

  /** An opened value is the sum of the share values sent, plus pads, plus what was added on
      the way. */
  lemma OpenedShifted(x: Ctx, tabs: seq<seq<Table>>, views: seq<View>, wires: map<Item, int>, bits: map<Item, int>,
                      items: seq<Item>, j: nat)
    requires CtxOk(x) && JointOk(x, tabs, items) && Agree(x, views, wires)
    requires j < |items| && Interactive(x.gates[items[j].w])
    ensures forall i :: 1 <= i <= x.c.nP ==> CanSend(x, tabs[i], items[j])
    ensures Cong(x.m, Opened(x, items, j, OpenedAll(x, tabs, views, bits, items)),
                 Sum(ShareValues(x, tabs, wires, bits, items[j])) + Sum(Pads(x, items[j])) + x.shift(items[j]))
  {
    hide Cong, Sum, SumMod, Interactive, CanSend, ItemShare, Place, CommOrder, WellFormed;
    var order, pos := CommOrder(x.gates, items), Place(x.gates, items, j);
    PlaceIsOwn(x.gates, items, j);
    forall i | 1 <= i <= x.c.nP ensures CanSend(x, tabs[i], items[j]) {
      assert CanSendAll(x, tabs[i], order);
      assert order[pos] == items[j];
    }
    var xs := SentAll(x, tabs, views, bits, items);
    var col := Slice(xs, pos);
    var vals, pads := ShareValues(x, tabs, wires, bits, items[j]), Pads(x, items[j]);
    forall p | 0 <= p < x.c.nP ensures col[p] == Add(x.m, vals[p], pads[p]) {
      assert xs[p] == SentVector(x, p + 1, order, PartyShares(x, tabs, p + 1, views[p + 1].wires, bits, items));
      assert vals[p + 1 - 1] == ItemShare(x, p + 1, tabs[p + 1], wires, bits, items[j]).value;
    }
    SumAdded(x.m, vals, pads, col);
    SumModIsSum(x.m, col);
    ShiftCong(x.m, SumMod(x.m, col), Sum(col), Sum(vals) + Sum(pads), x.shift(items[j]));
  }

  lemma ShiftCong(m: nat, a: int, b: int, c: int, e: int)
    requires m > 0 && Cong(m, a, b) && Cong(m, b, c)
    ensures Cong(m, Add(m, a, e), c + e)
  {
    CongMod(m, a + e);
    CongAdd(m, a, c, e, e);
  }

  // ---- the new value of a wire --------------------------------------------------------------------

  lemma LinHides(m: nat, sub: bool, pa: int, pb: int, va: int, vb: int, da: int, db: int, dw: int, vw: int, pw: int)
    requires m > 0 && Cong(m, pa, va + da) && Cong(m, pb, vb + db)
    requires Cong(m, dw, if sub then da - db else da + db)
    requires vw == (if sub then Sub(m, va, vb) else Add(m, va, vb))
    requires pw == (if sub then Sub(m, pa, pb) else Add(m, pa, pb))
    ensures Cong(m, pw, vw + dw)
  {
    if sub {
      CongMod(m, pa - pb);
      CongMod(m, va - vb);
      CongSub(m, pa, va + da, pb, vb + db);
      CongAdd(m, vw, va - vb, dw, da - db);
    } else {
      CongMod(m, pa + pb);
      CongMod(m, va + vb);
      CongAdd(m, pa, va + da, pb, vb + db);
      CongAdd(m, vw, va + vb, dw, da + db);
    }
  }

  lemma ConstAddHides(m: nat, k: int, pa: int, va: int, da: int, dw: int, vw: int, pw: int)
    requires m > 0 && Cong(m, pa, va + da) && Cong(m, dw, da) && vw == Add(m, va, k) && pw == Add(m, pa, k)
    ensures Cong(m, pw, vw + dw)
  {
    CongMod(m, pa + k);
    CongMod(m, va + k);
    CongAdd(m, pa, va + da, k, k);
    CongAdd(m, vw, va + k, dw, da);
  }

  lemma ConstMulHides(m: nat, k: int, pa: int, va: int, da: int, dw: int, vw: int, pw: int)
    requires m > 0 && Cong(m, pa, va + da) && Cong(m, dw, da * k) && vw == Mul(m, va, k) && pw == Mul(m, pa, k)
    ensures Cong(m, pw, vw + dw)
  {
    CongMod(m, pa * k);
    CongMod(m, va * k);
    CongScale(m, pa, va + da, k);
    CongAdd(m, vw, va * k, dw, da * k);
    assert (va + da) * k == va * k + da * k;
  }

  lemma ProductHides(m: nat, q: int, s: int, pads: seq<int>, o: int, pw: int)
    requires m > 0 && Cong(m, q, s + Sum(pads)) && Cong(m, s, o) && pw == Sub(m, q, SumMod(m, pads))
    ensures Cong(m, pw, o)
  {
    var t := SumMod(m, pads);
    SumModIsSum(m, pads);
    CongSub(m, q, s + Sum(pads), t, Sum(pads));
    CongMod(m, q - t);
  }

  lemma CompareHides(m: nat, q: int, s: int, pads: seq<int>, e: int, bit: int, dw: int, db: int, d: int, vw: int,
                     pw: int)
    requires m > 0 && Cong(m, q, s + Sum(pads) + e) && Cong(m, s, dw + db * bit) && Sum(pads) == 0
    requires Cong(m, d, -2 * dw - db) && Cong(m, vw, bit + db - 2 * bit * db - 2 * e)
    requires pw == Sub(m, bit, Mul(m, 2, q))
    ensures Cong(m, pw, vw + d)
  {
    hide Sum;
    var o := dw + db * bit + e;
    CongAdd(m, s, dw + db * bit, e, e);
    CongScale(m, q, o, 2);
    CongMod(m, 2 * q);
    CongSub(m, bit, bit, Mul(m, 2, q), 2 * o);
    CongMod(m, bit - Mul(m, 2, q));
    CongAdd(m, vw, bit + db - 2 * bit * db - 2 * e, d, -2 * dw - db);
    assert bit - 2 * o == (bit + db - 2 * bit * db - 2 * e) + (-2 * dw - db) by {
      assert db * bit == bit * db;
    }
  }

  lemma LinStep(m: nat, k: Keys, T: Table, vs: seq<int>, w: Wire, sub: bool, a: Wire, b: Wire, pa: int, pb: int,
                pw: int)
    requires m > 1 && GoodPre(m, k, Lin(sub, a, b), T, w) && w < |vs|
    requires Hides(m, T, vs, a, pa) && Hides(m, T, vs, b, pb)
    requires vs[w] == if sub then Sub(m, vs[a], vs[b]) else Add(m, vs[a], vs[b])
    requires pw == if sub then Sub(m, pa, pb) else Add(m, pa, pb)
    ensures Hides(m, T, vs, w, pw)
  {
    hide Cong, Dealt, Delta, Add, Sub;
    var e, d := MaskExpr(Lin(sub, a, b)), DeltasOf(m, T, [a, b]);
    assert Secret(Leaf(0), d) == d[0] == Delta(m, T, a) && Secret(Leaf(1), d) == d[1] == Delta(m, T, b);
    LinHides(m, sub, pa, pb, vs[a], vs[b], Delta(m, T, a), Delta(m, T, b), Delta(m, T, w), vs[w], pw);
  }

  lemma ConstAddStep(m: nat, k: Keys, T: Table, vs: seq<int>, w: Wire, a: Wire, c: int, pa: int, pw: int)
    requires m > 1 && GoodPre(m, k, ConstAdd(a, c), T, w) && w < |vs| && Hides(m, T, vs, a, pa)
    requires vs[w] == Add(m, vs[a], c) && pw == Add(m, pa, c)
    ensures Hides(m, T, vs, w, pw)
  {
    hide Cong, Dealt, Delta, Add;
    var d := DeltasOf(m, T, [a]);
    assert Secret(Leaf(0), d) == d[0] == Delta(m, T, a);
    ConstAddHides(m, c, pa, vs[a], Delta(m, T, a), Delta(m, T, w), vs[w], pw);
  }

  lemma ConstMulStep(m: nat, k: Keys, T: Table, vs: seq<int>, w: Wire, a: Wire, c: int, pa: int, pw: int)
    requires m > 1 && GoodPre(m, k, ConstMul(a, c), T, w) && w < |vs| && Hides(m, T, vs, a, pa)
    requires vs[w] == Mul(m, vs[a], c) && pw == Mul(m, pa, c)
    ensures Hides(m, T, vs, w, pw)
  {
    hide Cong, Dealt, Delta, Mul;
    var d := DeltasOf(m, T, [a]);
    assert Secret(Leaf(0), d) == d[0] == Delta(m, T, a);
    ConstMulHides(m, c, pa, vs[a], Delta(m, T, a), Delta(m, T, w), vs[w], pw);
  }

  lemma LocalAt(x: Ctx, k: Keys, T: Table, vs: seq<int>, w: Wire)
    requires CtxOk(x) && GoodEntries(x.m, k, x.gates, T) && Computes(x.m, x.gates, vs)
    requires w < |x.gates| && w in T && Basic(x.gates[w]) && !x.gates[w].Inp? && !Interactive(x.gates[w])
    ensures GoodPre(x.m, k, x.gates[w], T, w)
    ensures Reduced(x.m, vs) && w < |vs| && GateOk(x.gates[w], |vs|) && vs[w] == GateVal(x.m, x.gates[w], vs, 0)
  {
    hide GateVal, GoodPre, GateOk, Reduced;
  }

  lemma LocalStep(x: Ctx, k: Keys, T: Table, vs: seq<int>, wires: map<Item, int>, it: Item, q: int, bit: int)
    requires CtxOk(x) && GoodEntries(x.m, k, x.gates, T) && Computes(x.m, x.gates, vs)
    requires it.w < |x.gates| && it.w in T && Basic(x.gates[it.w])
    requires !x.gates[it.w].Inp? && !Interactive(x.gates[it.w])
    requires forall i :: 0 <= i < |Ins(x.gates[it.w])| ==>
      Hides(x.m, T, vs, Ins(x.gates[it.w])[i], Get(wires, InputItems(x.gates[it.w], it.lane)[i]))
    ensures Hides(x.m, T, vs, it.w, WireVal(x, it, q, bit, wires))
  {
    LocalAt(x, k, T, vs, it.w);
    hide Cong, WellFormed, Add, Sub, Mul, GoodEntries, GoodPre, Hides, Reduced, Computes, Basic;
    var g, m := x.gates[it.w], x.m;
    var items := InputItems(g, it.lane);
    var pw := WireVal(x, it, q, bit, wires);
    assert Hides(m, T, vs, Ins(g)[0], Get(wires, items[0]));
    match g
    case Lin(sub, a, b) =>
      assert Hides(m, T, vs, Ins(g)[1], Get(wires, items[1]));
      LinStep(m, k, T, vs, it.w, sub, a, b, Get(wires, items[0]), Get(wires, items[1]), pw);
    case ConstAdd(a, c) =>
      ConstAddStep(m, k, T, vs, it.w, a, c, Get(wires, items[0]), pw);
    case ConstMul(a, c) =>
      ConstMulStep(m, k, T, vs, it.w, a, c, Get(wires, items[0]), pw);
  }

  lemma NoShift(x: Ctx, it: Item)
    requires Supported(x) && it.w < |x.gates| && Basic(x.gates[it.w])
    ensures x.shift(it) == 0
  {
  }

  lemma ZeroPads(x: Ctx, it: Item)
    requires Supported(x) && it.w < |x.gates| && x.gates[it.w].Unary?
    ensures Sum(Pads(x, it)) == 0
  {
    SumZero(Pads(x, it));
  }

  lemma OpenProduct(x: Ctx, T: Table, vs: seq<int>, it: Item, q: int, s: int, bit: int, now: map<Item, int>)
    requires CtxOk(x) && it.w < |x.gates| && it.w in T && it.w < |vs|
    requires Basic(x.gates[it.w]) && Interactive(x.gates[it.w])
    requires Cong(x.m, q, s + Sum(Pads(x, it))) && Cong(x.m, s, OpenSecret(x.m, T, x.gates[it.w], vs, it.w, bit))
    ensures Hides(x.m, T, vs, it.w, WireVal(x, it, q, bit, now))
  {
    hide Cong, Delta, Sum, SumMod, Sub, WellFormed, Pads;
    ProductHides(x.m, q, s, Pads(x, it), Delta(x.m, T, it.w) + vs[it.w], WireVal(x, it, q, bit, now));
  }

  lemma OpenCompare(x: Ctx, k: Keys, T: Table, vs: seq<int>, it: Item, q: int, s: int, bit: int, now: map<Item, int>)
    requires CtxOk(x) && Supported(x) && it.w < |x.gates| && x.gates[it.w].Unary?
    requires BitOk(x.m, k, T, vs, it.w, bit, x.shift(it))
    requires Cong(x.m, q, s + Sum(Pads(x, it)) + x.shift(it))
      && Cong(x.m, s, OpenSecret(x.m, T, x.gates[it.w], vs, it.w, bit))
    ensures Hides(x.m, T, vs, it.w, WireVal(x, it, q, bit, now))
  {
    hide Cong, Delta, Sum, SumMod, Sub, Mul, WellFormed, Pads, Supported, Dealt, TPSecret;
    ZeroPads(x, it);
    CompareHides(x.m, q, s, Pads(x, it), x.shift(it), bit, TPSecret(x.m, T[it.w].maskW.tp),
                 TPSecret(x.m, T[it.w].maskB.tp),
                 Delta(x.m, T, it.w), vs[it.w], WireVal(x, it, q, bit, now));
  }

  lemma OpenItem(x: Ctx, k: Keys, tabs: seq<seq<Table>>, vs: seq<int>, wires: map<Item, int>, bits: map<Item, int>,
                 it: Item, q: int, now: map<Item, int>)
    requires CtxOk(x) && Supported(x) && ItemReady(x, k, tabs, vs, wires, bits, it)
    requires |k.sh| == x.c.nP + 1 && KeysOk(x.m, k.sh, k.key)
    requires forall i :: 1 <= i <= x.c.nP ==> CanSend(x, tabs[i], it)
    requires Cong(x.m, q, Sum(ShareValues(x, tabs, wires, bits, it)) + Sum(Pads(x, it)) + x.shift(it))
    ensures |tabs| > 0 && it.lane < |tabs[0]|
    ensures Hides(x.m, tabs[0][it.lane], vs, it.w, WireVal(x, it, q, Get(bits, it), now))
  {
    hide Cong, Sum, GoodEntries, SameTables, Computes, ItemShare, OpenSecret, WireVal, Hides, BitOk, CanSend,
         WellFormed, ShareValues, Pads, KeysOk, Supported, Ins;
    var shares := ShareValues(x, tabs, wires, bits, it);
    ItemOpens(x, k, tabs, vs, wires, bits, it, shares);
    if Basic(x.gates[it.w]) {
      NoShift(x, it);
      OpenProduct(x, tabs[0][it.lane], vs, it, q, Sum(shares), Get(bits, it), now);
    } else {
      OpenCompare(x, k, tabs[0][it.lane], vs, it, q, Sum(shares), Get(bits, it), now);
    }
  }

  /** Reading back gate j, whose opening is `agg` at its place. */
  lemma OpenStep(x: Ctx, k: Keys, tabs: seq<seq<Table>>, vals: seq<seq<int>>, views: seq<View>, wires: map<Item, int>,
                 bits: map<Item, int>, done: iset<Item>, items: seq<Item>, j: nat, now: map<Item, int>)
    requires CtxOk(x) && Prepared(x, k, tabs, vals) && AllHide(x, tabs, vals, wires, done)
    requires JointOk(x, tabs, items) && Agree(x, views, wires)
    requires j < |items| && ItemPlaced(x, |vals|, done, items, j) && BitsOk(x, k, tabs, vals, bits, items[j])
    requires Interactive(x.gates[items[j].w])
    ensures HidesItem(x, tabs, vals, now[items[j] :=
      WireVal(x, items[j], Opened(x, items, j, OpenedAll(x, tabs, views, bits, items)), Get(bits, items[j]), now)],
      items[j])
  {
    hide Cong, Sum, AllHide, WellFormed, ItemReady, KeysOk, Supported, CanSend, Hides, WireVal, OpenedAll, Opened,
         BitsOk, LaneOk, Computes, ShareValues, Pads, CanSendAll;
    ReadyAt(x, k, tabs, vals, wires, bits, done, items, j);
    OpenedShifted(x, tabs, views, wires, bits, items, j);
    OpenItem(x, k, tabs, vals[items[j].lane], wires, bits, items[j],
             Opened(x, items, j, OpenedAll(x, tabs, views, bits, items)), now);
  }

  // ---- a whole level ---------------------------------------------------------------------------------

  function With(done: iset<Item>, items: seq<Item>): iset<Item> {
    done + iset it | it in items
  }

  lemma SetHides(x: Ctx, tabs: seq<seq<Table>>, vals: seq<seq<int>>, wires: map<Item, int>, done: iset<Item>,
                 items: seq<Item>, n: nat, v: int)
    requires CtxOk(x) && n < |items| && AllHide(x, tabs, vals, wires, With(done, items[..n]))
    requires HidesItem(x, tabs, vals, wires[items[n] := v], items[n])
    ensures AllHide(x, tabs, vals, wires[items[n] := v], With(done, items[..n + 1]))
  {
    hide Hides;
    var now := wires[items[n] := v];
    forall it | it in With(done, items[..n + 1]) ensures HidesItem(x, tabs, vals, now, it) {
      if it != items[n] {
        assert items[..n + 1] == items[..n] + [items[n]];
        assert it in With(done, items[..n]);
        assert HidesItem(x, tabs, vals, wires, it);
      }
    }
  }

  lemma LocalAtPlace(x: Ctx, k: Keys, tabs: seq<seq<Table>>, vals: seq<seq<int>>, done: iset<Item>, items: seq<Item>,
                     j: nat, now: map<Item, int>, q: int, bit: int)
    requires CtxOk(x) && Prepared(x, k, tabs, vals) && j < |items|
    requires AllHide(x, tabs, vals, now, With(done, items[..j])) && ItemPlaced(x, |vals|, done, items, j)
    requires !Interactive(x.gates[items[j].w])
    ensures HidesItem(x, tabs, vals, now[items[j] := WireVal(x, items[j], q, bit, now)], items[j])
  {
    hide Hides, Computes, SameTables, GoodEntries, Interactive, Ins, WireVal, WellFormed, KeysOk, Basic;
    var it := items[j];
    var g := x.gates[it.w];
    assert LaneOk(x, k, tabs, it.lane);
    assert it.lane < |tabs[0]|;
    if g.Inp? {
      assert WireVal(x, it, q, bit, now) == Get(now, it) by {
        SetInput(x, it, q, bit, now);
      }
      assert HidesItem(x, tabs, vals, now, it);
    } else {
      forall i | 0 <= i < |Ins(g)|
        ensures Hides(x.m, tabs[0][it.lane], vals[it.lane], Ins(g)[i], Get(now, InputItems(g, it.lane)[i]))
      {
        var v := Item(it.lane, Ins(g)[i]);
        assert v in With(done, items[..j]);
        assert HidesItem(x, tabs, vals, now, v);
      }
      UnaryInteractive(g);
      LocalStep(x, k, tabs[0][it.lane], vals[it.lane], now, it, q, bit);
    }
  }

  lemma SetInput(x: Ctx, it: Item, q: int, bit: int, now: map<Item, int>)
    requires CtxOk(x) && it.w < |x.gates| && x.gates[it.w].Inp?
    ensures WireVal(x, it, q, bit, now) == Get(now, it)
  {
  }

  lemma UnaryInteractive(g: Gate)
    ensures g.Unary? ==> Interactive(g)
  {
  }

  /** After the first n gates of the level were read back. */
  lemma {:induction false} LevelKeeps(x: Ctx, k: Keys, tabs: seq<seq<Table>>, vals: seq<seq<int>>, views: seq<View>,
                                      wires: map<Item, int>, bits: map<Item, int>, done: iset<Item>, items: seq<Item>,
                                      n: nat)
    requires CtxOk(x) && Prepared(x, k, tabs, vals) && AllHide(x, tabs, vals, wires, done)
    requires LevelPlaced(x, |vals|, done, items) && AllBitsOk(x, k, tabs, vals, bits, items)
    requires JointOk(x, tabs, items) && Agree(x, views, wires) && n <= |items|
    ensures AllHide(x, tabs, vals, WiresAfter(x, items, n, OpenedAll(x, tabs, views, bits, items), bits, wires),
                    With(done, items[..n]))
  {
    hide HidesItem, Prepared, CanSendAll, ItemPlaced, BitsOk, Interactive, WireVal, WellFormed, Opened, OpenedAll,
         CommOrder, Place;
    var agg := OpenedAll(x, tabs, views, bits, items);
    if n > 0 {
      var j := n - 1;
      LevelKeeps(x, k, tabs, vals, views, wires, bits, done, items, j);
      var now := WiresAfter(x, items, j, agg, bits, wires);
      assert ItemPlaced(x, |vals|, done, items, j) && BitsOk(x, k, tabs, vals, bits, items[j]);
      if Interactive(x.gates[items[j].w]) {
        OpenStep(x, k, tabs, vals, views, wires, bits, done, items, j, now);
      } else {
        LocalAtPlace(x, k, tabs, vals, done, items, j, now, Opened(x, items, j, agg), Get(bits, items[j]));
      }
      SetHides(x, tabs, vals, now, done, items, j,
               WireVal(x, items[j], Opened(x, items, j, agg), Get(bits, items[j]), now));
    }
  }

  /** The step everyone executes keeps the public wires equal at all parties and every wire
      of the level hidden by its mask. */
  lemma StepKeeps(x: Ctx, k: Keys, tabs: seq<seq<Table>>, vals: seq<seq<int>>, views: seq<View>,
                  wires: map<Item, int>, bits: map<Item, int>, done: iset<Item>, items: seq<Item>)
    requires CtxOk(x) && Prepared(x, k, tabs, vals) && AllHide(x, tabs, vals, wires, done)
    requires LevelPlaced(x, |vals|, done, items) && AllBitsOk(x, k, tabs, vals, bits, items)
    requires Agree(x, views, wires)
    ensures JointOk(x, tabs, items)
    ensures var after := WiresAfter(x, items, |items|, OpenedAll(x, tabs, views, bits, items), bits, wires);
      Agree(x, Step(x, tabs, bits, items, views), after) && AllHide(x, tabs, vals, after, With(done, items))
  {
    hide AllHide, Prepared, CanSendAll, LevelPlaced, AllBitsOk, WellFormed, WiresAfter, QValAfter, QShAfter;
    LevelJointOk(x, k, tabs, vals, wires, bits, done, items);
    LevelKeeps(x, k, tabs, vals, views, wires, bits, done, items, |items|);
    assert items[..|items|] == items;
  }
}
