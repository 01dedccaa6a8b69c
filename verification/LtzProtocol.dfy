/** The less-than-zero gate online: the parties run the masked comparator on the bits of the
    padded masked value, all comparisons of a level side by side, and turn the masked result
    into the masked bit of a field opening. */
module LtzProtocol {
  import opened Circuits
  import opened Sharing
  import opened Dealing
  import opened Offline
  import opened Masks
  import opened Preprocess
  import opened CompareMasks
  import opened Online
  import opened Masking
  import opened LevelSteps
  import opened MacCheck
  import opened OnlineRun
  import opened LtzArithmetic
  import opened Comparator
  import opened ZMod

  /** The comparator in use: two lanes. */
  function LtzInner(lanes: nat): Inner {
    PrefixOrWellFormed(lanes);
    LevelInner(PrefixOrGates(lanes), 7 * (K * lanes))
  }

  // ---- what the parties do ------------------------------------------------------------------

  /** The comparisons of a level. */
  function LtzWires(gates: seq<Gate>, level: seq<Wire>): (ws: seq<Wire>)
    requires Below(level, |gates|)
    ensures forall q :: 0 <= q < |ws| ==> ws[q] < |gates| && gates[ws[q]].Unary? && ws[q] in level
  {
    if level == [] then [] else
      var n := |level| - 1;
      LtzWires(gates, level[..n]) + if gates[level[n]].Unary? then [level[n]] else []
  }

  lemma {:induction false} LtzWiresAll(gates: seq<Gate>, level: seq<Wire>, w: Wire)
    requires Below(level, |gates|) && w in level && w < |gates| && gates[w].Unary?
    ensures w in LtzWires(gates, level)
  {
    var n := |level| - 1;
    if w != level[n] {
      LtzWiresAll(gates, level[..n], w);
    }
  }

  function IndexOf(s: seq<Wire>, w: Wire): (i: nat)
    ensures i <= |s| && (w in s ==> i < |s| && s[i] == w)
  {
    if s == [] then 0 else if s[0] == w then 0 else 1 + IndexOf(s[1..], w)
  }

  /** The padded masked value and its sum with half the modulus. */
  function Padded(m: nat, public: int, padded: int): (v: nat)
    requires m > 0
    ensures v < m
  {
    Add(m, public, padded)
  }

  function PaddedHalf(m: nat, v: int): (v2: nat)
    requires m > 0
    ensures v2 < m
  {
    Add(m, v, (m + 1) / 2)
  }

  /** What is put on the j-th wire of the comparator's first level. */
  function InputBit(j: nat, v: nat, v2: nat): (b: int)
    ensures 0 <= b < 2
  {
    if j < 64 then 1 - Bit(v, 63 - j) else if j < 128 then 1 - Bit(v2, 127 - j) else 0
  }

  ghost predicate EntriesFit(gates: seq<Gate>, tab: Table, ws: seq<Wire>) {
    forall q :: 0 <= q < |ws| ==> ws[q] < |gates| && gates[ws[q]].Unary? && ws[q] in tab && tab[ws[q]].Compare?
  }

  /** The comparator inputs of all comparisons, as one party sets them. */
  function BoolWires(m: nat, gates: seq<Gate>, inner: Inner, tab: Table, ws: seq<Wire>, wires: map<Item, int>)
    : (r: map<Item, int>)
    requires m > 0 && EntriesFit(gates, tab, ws) && |inner.ls| > 0
  {
    map it: Item | it in LevelItems(|ws|, inner.ls[0]) ::
      BoolWire(m, gates, inner, tab, ws, wires, it)
  }

  function BoolWire(m: nat, gates: seq<Gate>, inner: Inner, tab: Table, ws: seq<Wire>, wires: map<Item, int>,
                    it: Item): int
    requires m > 0 && EntriesFit(gates, tab, ws) && |inner.ls| > 0
  {
    if it.lane < |ws| && it.w < |inner.gates| && inner.gates[it.w].Inp? then
      var w := ws[it.lane];
      var v := Padded(m, Get(wires, Item(0, gates[w].inp)), tab[w].padded);
      InputBit(IndexOf(inner.ls[0], it.w), v, PaddedHalf(m, v))
    else 0
  }

  /** The masked comparison bit: the comparator's output, corrected by a public comparison. */
  function LtzBit(m: nat, v: nat, out: int): (b: int)
    requires m > 0
    ensures b == 0 || b == 1
  {
    (out + if PaddedHalf(m, v) < (m + 1) / 2 then 1 else 0) % 2
  }

  // ---- all parties together --------------------------------------------------------------------

  /** What goes onto the openings of the comparators of a level: the parties' pads, and
      whatever is added on the way. */
  datatype Noise = Noise(pad: (Item, nat) -> int, shift: Item -> int)

  ghost predicate Clean(noise: Noise) {
    forall it: Item :: noise.shift(it) == 0
  }

  function BoolCtx(x: Ctx, inner: Inner, noise: Noise): Ctx {
    Ctx(x.c, 2, inner.gates, noise.pad, noise.shift)
  }

  /** The comparator tables of the given comparisons, one lane each. */
  function InnerLanes(gates: seq<Gate>, tab: Table, ws: seq<Wire>): (t: seq<Table>)
    requires EntriesFit(gates, tab, ws)
    ensures |t| == |ws| && forall q :: 0 <= q < |ws| ==> ws[q] in tab && tab[ws[q]].Compare? && t[q] == tab[ws[q]].inner
  {
    seq(|ws|, q requires 0 <= q < |ws| => tab[ws[q]].inner)
  }

  ghost predicate AllFit(x: Ctx, tabs: seq<seq<Table>>, ws: seq<Wire>) {
    |tabs| == x.c.nP + 1 && forall i :: 0 <= i <= x.c.nP ==> |tabs[i]| > 0 && EntriesFit(x.gates, tabs[i][0], ws)
  }

  function InnerTables(x: Ctx, tabs: seq<seq<Table>>, ws: seq<Wire>): (t: seq<seq<Table>>)
    requires AllFit(x, tabs, ws)
    ensures |t| == x.c.nP + 1
    ensures forall i :: 0 <= i <= x.c.nP ==> t[i] == InnerLanes(x.gates, tabs[i][0], ws)
  {
    seq(x.c.nP + 1, i requires 0 <= i <= x.c.nP => InnerLanes(x.gates, tabs[i][0], ws))
  }

  ghost predicate Comparisons(x: Ctx, ws: seq<Wire>) {
    forall q :: 0 <= q < |ws| ==> ws[q] < |x.gates| && x.gates[ws[q]].Unary?
  }

  /** Everything the field phase relies on. */
  ghost predicate FieldOk(x: Ctx, k: FullKeys, inner: Inner, tabs: seq<seq<Table>>) {
    && CtxOk(x) && InnerOk(inner) && LevelOrdered(inner.gates, inner.ls) && |inner.ls| > 0
    && |tabs| == x.c.nP + 1 && LaneOk(x, k.a, tabs, 0)
    && |k.a.sh| == |k.b.sh| == x.c.nP + 1 && KeysOk(x.m, k.a.sh, k.a.key) && KeysOk(2, k.b.sh, k.b.key)
    && (forall w: Wire :: w < |x.gates| && x.gates[w].Unary? ==>
        GoodCompare(x.m, k, inner, tabs[0][0], x.gates[w].inp, w))
  }

  lemma FieldEntries(x: Ctx, k: FullKeys, inner: Inner, tabs: seq<seq<Table>>, ws: seq<Wire>)
    requires FieldOk(x, k, inner, tabs)
    requires Comparisons(x, ws)
    ensures AllFit(x, tabs, ws)
  {
    hide GoodEntries, KeysOk, InnerOk, WellFormed, LevelOrdered, GoodInner, SameBasic, Cong, Dealt;
    forall i, q | 0 <= i <= x.c.nP && 0 <= q < |ws| ensures ws[q] in tabs[i][0] && tabs[i][0][ws[q]].Compare? {
      assert GoodCompare(x.m, k, inner, tabs[0][0], x.gates[ws[q]].inp, ws[q]);
      if i > 0 {
        assert SameTables(x.c, i, tabs[0][0], tabs[i][0]);
        assert SameCompare(x.c, i, tabs[0][0][ws[q]], tabs[i][0][ws[q]]);
      }
    }
  }

  /** The comparator's lanes are in order. */
  lemma BoolLaneOk(x: Ctx, k: FullKeys, inner: Inner, tabs: seq<seq<Table>>, ws: seq<Wire>, noise: Noise, q: nat)
    requires FieldOk(x, k, inner, tabs) && q < |ws|
    requires Comparisons(x, ws)
    requires AllFit(x, tabs, ws)
    ensures CtxOk(BoolCtx(x, inner, noise))
    ensures LaneOk(BoolCtx(x, inner, noise), k.b, InnerTables(x, tabs, ws), q)
  {
    hide GoodEntries, KeysOk, WellFormed, LevelOrdered, SameTable, Cong, Dealt, InnerInputs, Topological, AllBasic;
    var xb, t, w := BoolCtx(x, inner, noise), InnerTables(x, tabs, ws), ws[q];
    assert GoodCompare(x.m, k, inner, tabs[0][0], x.gates[w].inp, w);
    forall i | 1 <= i <= x.c.nP ensures SameTables(x.c, i, t[0][q], t[i][q]) {
      assert SameTables(x.c, i, tabs[0][0], tabs[i][0]);
      assert SameCompare(x.c, i, tabs[0][0][w], tabs[i][0][w]);
    }
  }

  lemma BoolHeld(x: Ctx, k: FullKeys, inner: Inner, tabs: seq<seq<Table>>, ws: seq<Wire>, noise: Noise)
    requires FieldOk(x, k, inner, tabs)
    requires Comparisons(x, ws)
    requires AllFit(x, tabs, ws)
    ensures CtxOk(BoolCtx(x, inner, noise))
    ensures Held(BoolCtx(x, inner, noise), k.b, InnerTables(x, tabs, ws), |ws|)
  {
    hide LaneOk, KeysOk, WellFormed, LevelOrdered, Interactive, Basic;
    var xb, t := BoolCtx(x, inner, noise), InnerTables(x, tabs, ws);
    forall it: Item | it.lane < |ws| && it.w < |xb.gates| && Interactive(xb.gates[it.w])
      ensures ItemHeld(xb, k.b, t, it)
    {
      BoolLaneOk(x, k, inner, tabs, ws, noise, it.lane);
      HoldsBasic(xb, k.b, t, it);
    }
  }

  // ---- the comparator's inputs come first ------------------------------------------------------------

  lemma {:induction false} OnLevelPrefix(lv: seq<nat>, k: nat)
    requires k <= |lv| && forall w :: 0 <= w < k ==> lv[w] == 0
    ensures k <= |OnLevel(lv, 0)| && forall w :: 0 <= w < k ==> OnLevel(lv, 0)[w] == w
  {
    if lv != [] {
      var n := |lv| - 1;
      if k <= n {
        OnLevelPrefix(lv[..n], k);
      } else {
        OnLevelPrefix(lv[..n], n);
        OnLevelSize(lv[..n]);
      }
    }
  }

  lemma {:induction false} OnLevelSize(lv: seq<nat>)
    ensures |OnLevel(lv, 0)| <= |lv|
  {
    if lv != [] {
      OnLevelSize(lv[..|lv| - 1]);
    }
  }

  lemma {:induction false} FlattenFirst(ls: seq<seq<Wire>>)
    requires |ls| > 0
    ensures ls[0] <= Flatten(ls)
  {
    if |ls| > 1 {
      FlattenFirst(ls[..|ls| - 1]);
    } else {
      assert ls[..0] == [];
    }
  }

  lemma {:induction false} SeenFirst(gates: seq<Gate>, order: seq<Wire>, k: nat)
    requires k <= |order| && forall i :: 0 <= i < k ==> order[i] < |gates| && gates[order[i]].Inp?
    ensures SeenInputs(gates, order[..k]) == k
  {
    if k > 0 {
      SeenFirst(gates, order, k - 1);
      assert order[..k][..k - 1] == order[..k - 1];
    }
  }

  lemma {:induction false} IndexOfAt(s: seq<Wire>, k: nat, w: Wire)
    requires w < |s| && forall i :: 0 <= i <= w ==> s[i] == k + i
    ensures IndexOf(s, k + w) == w
  {
    if w > 0 {
      IndexOfAt(s[1..], k + 1, w - 1);
    }
  }

  lemma LtzInputLevels(lanes: nat)
    ensures WellFormed(PrefixOrGates(lanes))
    ensures forall w :: 0 <= w < 2 * (K * lanes) ==> Levels(PrefixOrGates(lanes))[w] == 0
  {
    PrefixOrWellFormed(lanes);
    hide PrefixOrGates, WellFormed, Levels;
    forall w | 0 <= w < 2 * (K * lanes) ensures Levels(PrefixOrGates(lanes))[w] == 0 {
      PrefixOrParts(lanes, w);
      LevelsAt(PrefixOrGates(lanes), w);
    }
  }

  lemma LtzGates(lanes: nat)
    ensures WellFormed(PrefixOrGates(lanes)) && AllBasic(PrefixOrGates(lanes))
    ensures forall w :: 0 <= w < |PrefixOrGates(lanes)| ==> (PrefixOrGates(lanes)[w].Inp? <==> w < 2 * (K * lanes))
  {
    PrefixOrWellFormed(lanes);
    hide PrefixOrGates, WellFormed;
    forall w | 0 <= w < |PrefixOrGates(lanes)|
      ensures Basic(PrefixOrGates(lanes)[w])
      ensures PrefixOrGates(lanes)[w].Inp? <==> w < 2 * (K * lanes)
    {
      PrefixOrParts(lanes, w);
    }
  }

  /** Inputs are the first gates of the first level, and the first of the traversal. */
  lemma LtzInnerShape(lanes: nat)
    ensures var inner := LtzInner(lanes);
      && InnerOk(inner) && LevelOrdered(inner.gates, inner.ls) && |inner.ls| > 0
      && |inner.ls[0]| >= 2 * (K * lanes) && |inner.order| >= 2 * (K * lanes)
      && (forall w :: 0 <= w < 2 * (K * lanes) ==> inner.ls[0][w] == w && inner.order[w] == w)
  {
    LtzGates(lanes);
    LtzInputLevels(lanes);
    hide PrefixOrGates, WellFormed, AllBasic, LevelOrdered, Topological, Levels, OnLevel, MaxOf;
    var gs := PrefixOrGates(lanes);
    LevelInnerOk(gs, 7 * (K * lanes));
    OnLevelPrefix(Levels(gs), 2 * (K * lanes));
    FlattenFirst(ByLevel(Levels(gs)));
  }

  lemma LtzIndex(lanes: nat, w: Wire)
    requires w < 2 * (K * lanes)
    ensures |LtzInner(lanes).ls| > 0 && w in LtzInner(lanes).ls[0] && IndexOf(LtzInner(lanes).ls[0], w) == w
  {
    LtzInnerShape(lanes);
    hide LtzInner, InnerOk, LevelOrdered;
    IndexOfAt(LtzInner(lanes).ls[0], 0, w);
    assert LtzInner(lanes).ls[0][w] == w;
  }

  /** The mask of comparator input w is bit 63 - w mod 64 of the padded input mask. */
  lemma LtzInputMask(lanes: nat, table: Table, r: nat, w: Wire)
    requires w < 2 * (K * lanes)
    requires forall i :: 0 <= i < |LtzInner(lanes).order| ==> LtzInner(lanes).order[i] < |LtzInner(lanes).gates|
    requires InnerInputs(LtzInner(lanes), table, r)
    ensures w in table && Cong(2, Delta(2, table, w), Bit(r, 63 - w % 64))
  {
    LtzInnerShape(lanes);
    LtzGates(lanes);
    var inner := LtzInner(lanes);
    hide PrefixOrGates, InnerOk, LevelOrdered, Bit, Delta, Cong, ByLevel, Flatten, AllBasic, WellFormed, Levels;
    assert inner.order[w] == w;
    forall i | 0 <= i < w ensures inner.gates[inner.order[i]].Inp? {
      assert inner.order[i] == i;
    }
    SeenFirst(inner.gates, inner.order, w);
    assert inner.gates[inner.order[w]].Inp?;
  }

  // ---- the Boolean run --------------------------------------------------------------------------------

  /** Every party sets the comparator's wires from what it holds itself. */
  function BoolStart(x: Ctx, inner: Inner, tabs: seq<seq<Table>>, ws: seq<Wire>, wires: map<Item, int>): (v: seq<View>)
    requires x.m > 0 && AllFit(x, tabs, ws) && |inner.ls| > 0
    ensures |v| == x.c.nP + 1
    ensures forall i :: 0 <= i <= x.c.nP ==> v[i].wires == BoolWires(x.m, x.gates, inner, tabs[i][0], ws, wires)
  {
    seq(x.c.nP + 1, i requires 0 <= i <= x.c.nP =>
      View(BoolWires(x.m, x.gates, inner, tabs[i][0], ws, wires), map[], map[]))
  }

  function NoBits(): BitSource {
    (l, v) => map[]
  }

  /** The comparators of all given comparisons, run side by side. */
  ghost function BoolRun(x: Ctx, k: FullKeys, inner: Inner, tabs: seq<seq<Table>>, ws: seq<Wire>,
                         noise: Noise, wires: map<Item, int>): (after: seq<View>)
    requires FieldOk(x, k, inner, tabs) && AllFit(x, tabs, ws)
    requires Comparisons(x, ws)
    ensures |after| == x.c.nP + 1
  {
    BoolHeld(x, k, inner, tabs, ws, noise);
    Run(BoolCtx(x, inner, noise), k.b, InnerTables(x, tabs, ws), NoBits(), |ws|, inner.ls, |inner.ls|,
        BoolStart(x, inner, tabs, ws, wires))
  }

  function PaddedOf(x: Ctx, tab: Table, w: Wire, wires: map<Item, int>): (v: nat)
    requires x.m > 0 && w < |x.gates| && x.gates[w].Unary? && w in tab && tab[w].Compare?
    ensures v < x.m
  {
    Padded(x.m, Get(wires, Item(0, x.gates[w].inp)), tab[w].padded)
  }

  /** The masked bits of the given comparisons. */
  ghost function LtzBits(x: Ctx, k: FullKeys, inner: Inner, tabs: seq<seq<Table>>, ws: seq<Wire>,
                         noise: Noise, wires: map<Item, int>): map<Item, int>
    requires FieldOk(x, k, inner, tabs) && AllFit(x, tabs, ws)
    requires Comparisons(x, ws)
  {
    var after := BoolRun(x, k, inner, tabs, ws, noise, wires);
    map it: Item | it in Row(0, ws) ::
      LtzBitOf(x, inner, tabs[1][0], ws, after[1], wires, it.w)
  }

  function LtzBitOf(x: Ctx, inner: Inner, tab: Table, ws: seq<Wire>, v: View, wires: map<Item, int>, w: Wire): int
    requires x.m > 0 && EntriesFit(x.gates, tab, ws)
  {
    var q := IndexOf(ws, w);
    if q < |ws| then LtzBit(x.m, PaddedOf(x, tab, ws[q], wires), Get(v.wires, Item(q, inner.out))) else 0
  }

  /** The plain comparator inputs of one comparison: public bits minus their masks. */
  function PlainInputs(gates: seq<Gate>, T: Table, start: map<Item, int>, q: nat): map<Wire, int>
  {
    map w: Wire | w < |gates| && w in T :: (Get(start, Item(q, w)) - Delta(2, T, w)) % 2
  }

  function PlainLanes(x: Ctx, inner: Inner, t: seq<Table>, start: map<Item, int>, n: nat): (vals: seq<seq<int>>)
    requires WellFormed(inner.gates) && n <= |t|
    ensures |vals| == n
    ensures forall q :: 0 <= q < n ==> vals[q] == EvalAll(2, inner.gates, PlainInputs(inner.gates, t[q], start, q))
  {
    seq(n, q requires 0 <= q < n => EvalAll(2, inner.gates, PlainInputs(inner.gates, t[q], start, q)))
  }

  /** Plain evaluation satisfies every gate's equation. */
  lemma EvalComputes(m: nat, gates: seq<Gate>, x: map<Wire, int>)
    requires m > 1 && WellFormed(gates)
    ensures Computes(m, gates, EvalAll(m, gates, x))
  {
    hide GateVal, EvalAll, WellFormed, GateOk;
    forall w | 0 <= w < |gates| && Basic(gates[w]) && !gates[w].Inp?
      ensures GateOk(gates[w], |gates|)
      ensures EvalAll(m, gates, x)[w] == GateVal(m, gates[w], EvalAll(m, gates, x), 0)
    {
      EvalAllAt(m, gates, x, w);
      ValueIgnoresInput(m, gates[w], EvalAll(m, gates, x), if w in x then x[w] else 0);
    }
  }

  lemma ValueIgnoresInput(m: nat, g: Gate, vs: seq<int>, v: int)
    requires m > 1 && GateOk(g, |vs|) && Reduced(m, vs) && !g.Inp?
    ensures GateVal(m, g, vs, v) == GateVal(m, g, vs, 0)
  {
  }

  lemma StartAgrees(x: Ctx, k: FullKeys, inner: Inner, tabs: seq<seq<Table>>, ws: seq<Wire>, wires: map<Item, int>,
                    i: nat)
    requires FieldOk(x, k, inner, tabs) && AllFit(x, tabs, ws) && 1 <= i <= x.c.nP
    ensures BoolWires(x.m, x.gates, inner, tabs[i][0], ws, wires)
      == BoolWires(x.m, x.gates, inner, tabs[1][0], ws, wires)
  {
    hide GoodEntries, KeysOk, InnerOk, WellFormed, LevelOrdered, GoodInner, GoodCompare, SameBasic, Cong, Dealt, Padded,
         PaddedHalf, InputBit, SameTable, IndexOf, LevelItems;
    forall q | 0 <= q < |ws| ensures tabs[i][0][ws[q]].padded == tabs[1][0][ws[q]].padded {
      assert SameTables(x.c, i, tabs[0][0], tabs[i][0]) && SameTables(x.c, 1, tabs[0][0], tabs[1][0]);
      assert SameCompare(x.c, i, tabs[0][0][ws[q]], tabs[i][0][ws[q]]);
      assert SameCompare(x.c, 1, tabs[0][0][ws[q]], tabs[1][0][ws[q]]);
      assert tabs[0][0][ws[q]].Compare?;
    }
  }

  /** A comparator input hides its plain bit. */
  lemma InputHides(inner: Inner, T: Table, start: map<Item, int>, q: nat, w: Wire)
    requires InnerOk(inner) && w < |inner.gates| && inner.gates[w].Inp? && w in T
    requires 0 <= Get(start, Item(q, w)) < 2
    ensures Hides(2, T, EvalAll(2, inner.gates, PlainInputs(inner.gates, T, start, q)), w, Get(start, Item(q, w)))
  {
    hide Delta, WellFormed, AllBasic, Topological;
    var x := PlainInputs(inner.gates, T, start, q);
    EvalAllAt(2, inner.gates, x, w);
    var pub, d := Get(start, Item(q, w)), Delta(2, T, w);
    assert x[w] == (pub - d) % 2;
    hide EvalAll, GateVal, PlainInputs, GateOk;
    InputCong(pub, d, EvalAll(2, inner.gates, x)[w]);
  }

  lemma InputCong(pub: int, d: int, v: int)
    requires v == (pub - d) % 2 % 2
    ensures Cong(2, pub, v + d)
  {
  }

  lemma StartBits(x: Ctx, inner: Inner, tab: Table, ws: seq<Wire>, wires: map<Item, int>, it: Item)
    requires x.m > 0 && EntriesFit(x.gates, tab, ws) && |inner.ls| > 0
    ensures 0 <= Get(BoolWires(x.m, x.gates, inner, tab, ws, wires), it) < 2
  {
    hide EntriesFit, Bit, IndexOf;
  }

  lemma InnerCovers(x: Ctx, k: FullKeys, inner: Inner, tabs: seq<seq<Table>>, ws: seq<Wire>, q: nat)
    requires FieldOk(x, k, inner, tabs) && AllFit(x, tabs, ws) && Comparisons(x, ws) && q < |ws|
    ensures forall w: Wire :: w < |inner.gates| ==> w in InnerTables(x, tabs, ws)[0][q]
  {
    hide GoodEntries, KeysOk, WellFormed, LevelOrdered, Cong, Dealt, InnerInputs, Topological, AllBasic, LaneOk;
    assert GoodCompare(x.m, k, inner, tabs[0][0], x.gates[ws[q]].inp, ws[q]);
  }

  /** Before the first level the comparators' inputs hide their plain bits. */
  lemma StartHides(x: Ctx, k: FullKeys, inner: Inner, tabs: seq<seq<Table>>, ws: seq<Wire>, noise: Noise,
                   wires: map<Item, int>)
    requires FieldOk(x, k, inner, tabs) && AllFit(x, tabs, ws) && Comparisons(x, ws)
    ensures var xb, t := BoolCtx(x, inner, noise), InnerTables(x, tabs, ws);
      var start := BoolWires(x.m, x.gates, inner, tabs[1][0], ws, wires);
      CtxOk(xb) && AllHide(xb, t, PlainLanes(x, inner, t[0], start, |ws|), start, Known0(xb, |ws|, []))
  {
    BoolHeld(x, k, inner, tabs, ws, noise);
    hide LaneOk, KeysOk, LevelOrdered, GoodCompare, Hides, EvalAll, BoolWires, PlainInputs, EntriesFit, InnerOk, Held;
    var xb, t := BoolCtx(x, inner, noise), InnerTables(x, tabs, ws);
    var start := BoolWires(x.m, x.gates, inner, tabs[1][0], ws, wires);
    forall it | it in Known0(xb, |ws|, [])
      ensures HidesItem(xb, t, PlainLanes(x, inner, t[0], start, |ws|), start, it)
    {
      InnerCovers(x, k, inner, tabs, ws, it.lane);
      StartBits(x, inner, tabs[1][0], ws, wires, it);
      InputHides(inner, t[0][it.lane], start, it.lane, it.w);
    }
  }

  lemma BoolPrepared(x: Ctx, k: FullKeys, inner: Inner, tabs: seq<seq<Table>>, ws: seq<Wire>, noise: Noise,
                     vals: seq<seq<int>>, start: map<Item, int>)
    requires FieldOk(x, k, inner, tabs) && AllFit(x, tabs, ws) && Comparisons(x, ws)
    requires vals == PlainLanes(x, inner, InnerTables(x, tabs, ws)[0], start, |ws|)
    requires Clean(noise)
    ensures var xb := BoolCtx(x, inner, noise);
      CtxOk(xb) && Prepared(xb, k.b, InnerTables(x, tabs, ws), vals)
      && GoodBits(xb, k.b, InnerTables(x, tabs, ws), vals, NoBits(), inner.ls)
  {
    BoolHeld(x, k, inner, tabs, ws, noise);
    hide LaneOk, KeysOk, LevelOrdered, GoodCompare, EvalAll, PlainInputs, EntriesFit, WellFormed, Topological, Held,
         Computes, AllHide, LevelItems, Flatten, Known0;
    var xb, t := BoolCtx(x, inner, noise), InnerTables(x, tabs, ws);
    forall q | 0 <= q < |vals| ensures LaneOk(xb, k.b, t, q) && Computes(2, inner.gates, vals[q]) {
      BoolLaneOk(x, k, inner, tabs, ws, noise, q);
      EvalComputes(2, inner.gates, PlainInputs(inner.gates, t[0][q], start, q));
    }
    assert forall w :: 0 <= w < |inner.gates| ==> Basic(inner.gates[w]) && !inner.gates[w].Unary?;
  }

  /** The comparators' outputs hide the plain comparison results. */
  lemma BoolRunHides(x: Ctx, k: FullKeys, inner: Inner, tabs: seq<seq<Table>>, ws: seq<Wire>, noise: Noise,
                     wires: map<Item, int>, q: nat)
    requires FieldOk(x, k, inner, tabs) && AllFit(x, tabs, ws) && Comparisons(x, ws) && q < |ws|
    requires Clean(noise)
    ensures var t := InnerTables(x, tabs, ws)[0][q];
      var start := BoolWires(x.m, x.gates, inner, tabs[1][0], ws, wires);
      Hides(2, t, EvalAll(2, inner.gates, PlainInputs(inner.gates, t, start, q)), inner.out,
            Get(BoolRun(x, k, inner, tabs, ws, noise, wires)[1].wires, Item(q, inner.out)))
  {
    var xb, t := BoolCtx(x, inner, noise), InnerTables(x, tabs, ws);
    var start := BoolWires(x.m, x.gates, inner, tabs[1][0], ws, wires);
    var vals := PlainLanes(x, inner, t[0], start, |ws|);
    BoolHeld(x, k, inner, tabs, ws, noise);
    StartHides(x, k, inner, tabs, ws, noise, wires);
    BoolPrepared(x, k, inner, tabs, ws, noise, vals, start);
    LastLevel(inner);
    hide LaneOk, KeysOk, LevelOrdered, GoodCompare, EvalAll, PlainInputs, EntriesFit, WellFormed, Topological, Held,
         Computes, AllHide, LevelItems, Flatten, Prepared, GoodBits, BoolWires, AllFit, Run, Hides, AllBasic;
    var views := BoolStart(x, inner, tabs, ws, wires);
    forall i | 1 <= i <= x.c.nP ensures views[i].wires == start {
      StartAgrees(x, k, inner, tabs, ws, wires, i);
    }
    RunMasks(xb, k.b, t, vals, NoBits(), inner.ls, |inner.ls|, views, start);
    OutHides(xb, t, vals, BoolRun(x, k, inner, tabs, ws, noise, wires)[1].wires, inner.ls, q, inner.out);
  }

  lemma LastLevel(inner: Inner)
    requires InnerOk(inner) && LevelOrdered(inner.gates, inner.ls)
    ensures inner.out in Flatten(inner.ls[..|inner.ls|])
  {
    assert inner.ls[..|inner.ls|] == inner.ls;
  }

  lemma OutHides(x: Ctx, tabs: seq<seq<Table>>, vals: seq<seq<int>>, wires: map<Item, int>, ls: seq<seq<Wire>>, q: nat,
                 w: Wire)
    requires CtxOk(x) && q < |vals| && w in Flatten(ls[..|ls|])
    requires AllHide(x, tabs, vals, wires, Known0(x, |vals|, Flatten(ls[..|ls|])))
    ensures HidesItem(x, tabs, vals, wires, Item(q, w))
  {
  }

  // ---- what the comparator computes -------------------------------------------------------------------

  lemma PlainBit(pub: int, d: int, r: int, v: int)
    requires (pub == 0 || pub == 1) && (r == 0 || r == 1) && Cong(2, d, r) && v == (pub - d) % 2 % 2
    ensures v == if pub == r then 0 else 1
  {
  }

  lemma EvalInput(m: nat, gates: seq<Gate>, x: map<Wire, int>, w: Wire)
    requires m > 1 && WellFormed(gates) && w < |gates| && gates[w].Inp? && w in x
    ensures EvalAll(m, gates, x)[w] == x[w] % m
  {
    EvalAllAt(m, gates, x, w);
    hide EvalAll, WellFormed, Reduced;
  }

  /** A plain comparator input: whether public and mask bit differ. */
  lemma PlainInputIs(inner: Inner, lanes: nat, T: Table, start: map<Item, int>, q: nat, v: nat, v2: nat, r: nat,
                     w: Wire)
    requires inner == LtzInner(lanes) && w < 2 * (K * lanes)
    requires forall i :: 0 <= i < |inner.order| ==> inner.order[i] < |inner.gates|
    requires InnerInputs(inner, T, r) && Get(start, Item(q, w)) == InputBit(w, v, v2)
    ensures WellFormed(inner.gates) && w < |inner.gates|
    ensures EvalAll(2, inner.gates, PlainInputs(inner.gates, T, start, q))[w]
         == if InputBit(w, v, v2) == Bit(r, 63 - w % 64) then 0 else 1
  {
    LtzGates(lanes);
    LtzInputMask(lanes, T, r, w);
    hide PrefixOrGates, AllBasic, WellFormed, Delta, Bit, InputBit, Flatten, ByLevel, Levels, EvalAll, InnerInputs,
         Cong, PlainInputs;
    PlainDiffers(inner.gates, T, start, q, w, InputBit(w, v, v2), Bit(r, 63 - w % 64));
  }

  lemma PlainDiffers(gates: seq<Gate>, T: Table, start: map<Item, int>, q: nat, w: Wire, pub: int, r: int)
    requires WellFormed(gates) && w < |gates| && gates[w].Inp? && w in T && Get(start, Item(q, w)) == pub
    requires (pub == 0 || pub == 1) && (r == 0 || r == 1) && Cong(2, Delta(2, T, w), r)
    ensures EvalAll(2, gates, PlainInputs(gates, T, start, q))[w] == if pub == r then 0 else 1
  {
    hide WellFormed, Delta, EvalAll, Cong;
    var x := PlainInputs(gates, T, start, q);
    EvalInput(2, gates, x, w);
    PlainBit(pub, Delta(2, T, w), r, EvalAll(2, gates, x)[w]);
  }

  lemma LtzLaneBits(vs: seq<int>, v: nat, v2: nat, r: nat)
    requires |vs| >= 256
    requires forall w :: 0 <= w < 256 ==> vs[w] == if InputBit(w, v, v2) == Bit(r, 63 - w % 64) then 0 else 1
    ensures Compares(vs[..128], vs[128..256], 0, v, r)
    ensures Compares(vs[..128], vs[128..256], 64, v2, r)
  {
    hide Bit;
    var b, d := vs[..128], vs[128..256];
    forall j | 0 <= j < 64 ensures ComparesAt(b, d, 0, v, r, j) {
      assert vs[j] == if InputBit(j, v, v2) == Bit(r, 63 - j) then 0 else 1;
      assert vs[128 + j] == if InputBit(128 + j, v, v2) == Bit(r, 63 - j) then 0 else 1;
    }
    forall j | 0 <= j < 64 ensures ComparesAt(b, d, 64, v2, r, j) {
      assert vs[64 + j] == if InputBit(64 + j, v, v2) == Bit(r, 63 - j) then 0 else 1;
      assert vs[192 + j] == if InputBit(192 + j, v, v2) == Bit(r, 63 - j) then 0 else 1;
    }
  }

  /** The comparator adds the two comparisons, modulo two. */
  lemma ComparatorValue(inner: Inner, lanes: nat, T: Table, start: map<Item, int>, q: nat, v: nat, v2: nat, r: nat)
    requires lanes == 2 && inner == LtzInner(lanes) && v < TwoTo(64) && v2 < TwoTo(64) && r < TwoTo(64)
    requires forall i :: 0 <= i < |inner.order| ==> inner.order[i] < |inner.gates|
    requires InnerInputs(inner, T, r)
    requires forall w :: 0 <= w < 256 ==> Get(start, Item(q, w)) == InputBit(w, v, v2)
    ensures WellFormed(inner.gates) && inner.out < |inner.gates|
    ensures EvalAll(2, inner.gates, PlainInputs(inner.gates, T, start, q))[inner.out]
         == ((if v < r then 1 else 0) + (if v2 < r then 1 else 0)) % 2
  {
    LtzGates(lanes);
    hide PrefixOrGates, AllBasic, WellFormed, InputBit, Flatten, ByLevel, Levels, InnerInputs, EvalAll, TwoTo, Bit,
         PlainInputs;
    var x := PlainInputs(inner.gates, T, start, q);
    var vs := EvalAll(2, inner.gates, x);
    forall w | 0 <= w < 256 ensures vs[w] == if InputBit(w, v, v2) == Bit(r, 63 - w % 64) then 0 else 1 {
      PlainInputIs(inner, lanes, T, start, q, v, v2, r, w);
    }
    LtzLaneBits(vs, v, v2, r);
    PrefixOrValue(lanes, x);
    TwoLanes(vs[..128], vs[128..256], lanes, v, v2, r);
  }

  lemma TwoLanes(b: seq<int>, d: seq<int>, lanes: nat, v: nat, v2: nat, r: nat)
    requires lanes == 2 && Compares(b, d, 0, v, r) && Compares(b, d, 64, v2, r)
    requires v < TwoTo(64) && v2 < TwoTo(64) && r < TwoTo(64)
    ensures LaneSum(b, d, lanes) == (if v < r then 1 else 0) + (if v2 < r then 1 else 0)
  {
    hide AtFirstZero, TwoTo, Compares;
    assert |b| == |d| >= 128 by {
      CompareSize(b, d, v2, r);
    }
    LaneCompares(b, d, 0, v, r);
    LaneCompares(b, d, 64, v2, r);
    assert LaneSum(b, d, 0) == 0;
    assert LaneSum(b, d, lanes - 1) == AtFirstZero(b, d, 0, 64);
  }

  lemma CompareSize(b: seq<int>, d: seq<int>, v: nat, r: nat)
    requires Compares(b, d, 64, v, r)
    ensures |b| == |d| >= 128
  {
  }

  // ---- the masked bit fits its masks ---------------------------------------------------------------------

  /** The field of the arithmetic circuit: an odd modulus below 2^64. */
  ghost predicate FieldModulus(m: nat) {
    m % 2 == 1 && 2 < m < TwoTo(64)
  }

  /** Padding the public value adds the padded mask to the plain one. */
  lemma PaddedIs(m: nat, public: int, v: int, d: int, padded: int)
    requires m > 0 && Cong(m, public, v + d)
    ensures Padded(m, public, padded) == Add(m, v, Add(m, padded, d))
  {
    CongAdd(m, public, v + d, padded, padded);
    CongMod(m, padded + d);
    CongAdd(m, v, v, Add(m, padded, d), padded + d);
  }

  lemma SecretRange(m: nat, t: TP)
    requires m > 0
    ensures 0 <= TPSecret(m, t) < m
  {
    SumModIsSum(m, t.values);
  }

  lemma MaskBitIs(m: nat, db: int, d: int)
    requires m > 2 && 0 <= db < m && 0 <= d < 2 && Cong(m, db, d)
    ensures db == d
  {
    CongEq(m, db, d);
  }

  /** From the comparator's masked output to the masked bit of the result. */
  lemma LtzBitIs(m: nat, v: int, r: int, w: int, out: int, z: int, d: int, db: int)
    requires FieldModulus(m) && 0 <= v < m && 0 <= r < m && w == Add(m, v, r)
    requires 0 <= d < 2 && db == d && Cong(2, out, z + d)
    requires z == ((if w < r then 1 else 0) + (if PaddedHalf(m, w) < r then 1 else 0)) % 2
    ensures var bit := LtzBit(m, w, out); HalfBit(m, v) == bit + db - 2 * bit * db
  {
    hide TwoTo, Add;
    WrapCount(m, v, r, w, PaddedHalf(m, w));
    var c := if PaddedHalf(m, w) < (m + 1) / 2 then 1 else 0;
    var bit := LtzBit(m, w, out);
    assert (bit + db) % 2 == HalfBit(m, v);
    XorBits(bit, db, HalfBit(m, v));
  }

  /** The value of a comparison to whose opening e is added. */
  function ComparedVal(m: nat, v: int, e: int): (r: int)
    requires m > 0
    ensures 0 <= r < m
  {
    Sub(m, HalfBit(m, v), Mul(m, 2, e))
  }

  lemma ComparedCong(m: nat, v: int, e: int)
    requires m > 0
    ensures Cong(m, ComparedVal(m, v, e), HalfBit(m, v) - 2 * e)
  {
    hide HalfBit;
    CongMod(m, 2 * e);
    CongSub(m, HalfBit(m, v), HalfBit(m, v), Mul(m, 2, e), 2 * e);
    CongMod(m, HalfBit(m, v) - Mul(m, 2, e));
  }

  /** What the protocol relies on for one comparison. */
  ghost predicate LtzReady(x: Ctx, inner: Inner, tabs: seq<seq<Table>>, vs: seq<int>, wires: map<Item, int>, w: Wire)
    requires CtxOk(x)
  {
    && |tabs| > 0 && |tabs[0]| > 0 && w < |x.gates| == |vs| && x.gates[w].Unary? && x.gates[w].inp < |vs|
    && Hides(x.m, tabs[0][0], vs, x.gates[w].inp, Get(wires, Item(0, x.gates[w].inp)))
    && 0 <= vs[x.gates[w].inp] < x.m && vs[w] == ComparedVal(x.m, vs[x.gates[w].inp], x.shift(Item(0, w)))
  }

  lemma PaddedSame(x: Ctx, k: FullKeys, inner: Inner, tabs: seq<seq<Table>>, ws: seq<Wire>, w: Wire)
    requires FieldOk(x, k, inner, tabs) && AllFit(x, tabs, ws) && Comparisons(x, ws) && w in ws
    ensures w in tabs[0][0] && tabs[0][0][w].Compare? && w in tabs[1][0] && tabs[1][0][w].Compare?
    ensures tabs[1][0][w].padded == tabs[0][0][w].padded
    ensures GoodCompare(x.m, k, inner, tabs[0][0], x.gates[w].inp, w)
  {
    hide GoodEntries, KeysOk, WellFormed, LevelOrdered, Cong, Dealt, SameTable, SameBasic, GoodInner, InnerOk,
         GoodCompare;
    var q :| 0 <= q < |ws| && ws[q] == w;
    assert SameTables(x.c, 1, tabs[0][0], tabs[1][0]);
    assert SameCompare(x.c, 1, tabs[0][0][w], tabs[1][0][w]);
  }

  /** The comparator's inputs, read back. */
  lemma StartIs(x: Ctx, inner: Inner, lanes: nat, tab: Table, ws: seq<Wire>, wires: map<Item, int>, q: nat, w: nat)
    requires inner == LtzInner(lanes) && x.m > 0 && EntriesFit(x.gates, tab, ws) && q < |ws| && w < 2 * (K * lanes)
    ensures |inner.ls| > 0
    ensures ws[q] in tab && tab[ws[q]].Compare? && ws[q] < |x.gates| && x.gates[ws[q]].Unary?
    ensures var v := PaddedOf(x, tab, ws[q], wires);
      Get(BoolWires(x.m, x.gates, inner, tab, ws, wires), Item(q, w)) == InputBit(w, v, PaddedHalf(x.m, v))
  {
    LtzIndex(lanes, w);
    LtzGates(lanes);
    LevelItemsMember(|ws|, inner.ls[0], Item(q, w));
    hide PrefixOrGates, AllBasic, WellFormed, InputBit, ByLevel, Levels, Flatten, LevelItems, IndexOf, PaddedHalf,
         Padded;
  }

  lemma CompareValue(x: Ctx, k: FullKeys, inner: Inner, lanes: nat, tabs: seq<seq<Table>>, ws: seq<Wire>,
                     wires: map<Item, int>, q: nat, v: nat, r: nat)
    requires lanes == 2 && inner == LtzInner(lanes) && FieldOk(x, k, inner, tabs) && FieldModulus(x.m)
    requires AllFit(x, tabs, ws) && Comparisons(x, ws) && q < |ws|
    requires EntriesFit(x.gates, tabs[1][0], ws) && ws[q] in tabs[1][0] && tabs[1][0][ws[q]].Compare?
    requires v == PaddedOf(x, tabs[1][0], ws[q], wires) && r < TwoTo(64)
    requires ws[q] in tabs[0][0] && tabs[0][0][ws[q]].Compare?
    requires forall i :: 0 <= i < |inner.order| ==> inner.order[i] < |inner.gates|
    requires InnerInputs(inner, tabs[0][0][ws[q]].inner, r)
    ensures var t, start := tabs[0][0][ws[q]].inner, BoolWires(x.m, x.gates, inner, tabs[1][0], ws, wires);
      inner.out < |inner.gates|
      && EvalAll(2, inner.gates, PlainInputs(inner.gates, t, start, q))[inner.out]
         == ((if v < r then 1 else 0) + (if PaddedHalf(x.m, v) < r then 1 else 0)) % 2
  {
    hide LaneOk, KeysOk, LevelOrdered, GoodCompare, EvalAll, PlainInputs, BoolWires, InnerInputs, InputBit, TwoTo,
         LevelInner, EntriesFit, LtzInner, PaddedOf, WellFormed, FieldModulus, Topological, AllBasic, Padded,
         PaddedHalf;
    var t, start := tabs[0][0][ws[q]].inner, BoolWires(x.m, x.gates, inner, tabs[1][0], ws, wires);
    forall w | 0 <= w < 256 ensures Get(start, Item(q, w)) == InputBit(w, v, PaddedHalf(x.m, v)) {
      StartIs(x, inner, lanes, tabs[1][0], ws, wires, q, w);
    }
    FieldBound(x.m, v);
    FieldBound(x.m, PaddedHalf(x.m, v));
    ComparatorValue(inner, lanes, t, start, q, v, PaddedHalf(x.m, v), r);
  }

  /** The test's result is the exclusive or of the masked bit and mask_b. */
  lemma LtzXor(x: Ctx, k: FullKeys, inner: Inner, lanes: nat, tabs: seq<seq<Table>>, ws: seq<Wire>,
               noise: Noise, vs: seq<int>, wires: map<Item, int>, w: Wire, q: nat, v: nat, out: int, db: int)
    requires lanes == 2 && inner == LtzInner(lanes) && FieldOk(x, k, inner, tabs) && FieldModulus(x.m)
    requires AllFit(x, tabs, ws) && Comparisons(x, ws) && LtzReady(x, inner, tabs, vs, wires, w)
    requires q < |ws| && ws[q] == w && w in tabs[1][0] && tabs[1][0][w].Compare? && w in tabs[0][0]
      && tabs[0][0][w].Compare?
    requires v == PaddedOf(x, tabs[1][0], w, wires)
    requires out == Get(BoolRun(x, k, inner, tabs, ws, noise, wires)[1].wires, Item(q, inner.out))
    requires db == TPSecret(x.m, tabs[0][0][w].maskB.tp)
    requires Clean(noise)
    ensures var bit := LtzBit(x.m, v, out); HalfBit(x.m, vs[x.gates[w].inp]) == bit + db - 2 * bit * db
  {
    hide LaneOk, KeysOk, LevelOrdered, EvalAll, ComparedVal, PlainInputs, BoolWires, InnerInputs, TwoTo, LevelInner,
         LtzInner, WellFormed, Topological, AllBasic, GoodEntries, BoolRun, NoCompare, Dealt, Cong, Bit, Padded,
         PaddedHalf, LtzBit, TPSecret, HalfBit, EntriesFit, Add, FieldModulus, CompareHeld;
    PaddedSame(x, k, inner, tabs, ws, w);
    BoolRunHides(x, k, inner, tabs, ws, noise, wires, q);
    var m, T := x.m, tabs[0][0];
    var d := Delta(m, T, x.gates[w].inp);
    var r, public := Add(m, T[w].padded, d), Get(wires, Item(0, x.gates[w].inp));
    PaddedIs(m, public, vs[x.gates[w].inp], d, T[w].padded);
    FieldBound(m, r);
    CompareValue(x, k, inner, lanes, tabs, ws, wires, q, v, r);
    var start := BoolWires(m, x.gates, inner, tabs[1][0], ws, wires);
    var z := EvalAll(2, inner.gates, PlainInputs(inner.gates, T[w].inner, start, q))[inner.out];
    MaskBitOf(m, T[w].maskB.tp, T[w].inner[inner.out].mask.tp);
    LtzBitIs(m, vs[x.gates[w].inp], r, v, out, z, Delta(2, T[w].inner, inner.out), db);
  }

  /** The masked bit of a comparison fits the masks in its entry. */
  lemma LtzBitGood(x: Ctx, k: FullKeys, inner: Inner, lanes: nat, tabs: seq<seq<Table>>, ws: seq<Wire>,
                   noise: Noise, vs: seq<int>, wires: map<Item, int>, w: Wire)
    requires lanes == 2 && inner == LtzInner(lanes) && FieldOk(x, k, inner, tabs) && FieldModulus(x.m)
    requires AllFit(x, tabs, ws) && Comparisons(x, ws) && w in ws && LtzReady(x, inner, tabs, vs, wires, w)
    requires Clean(noise)
    ensures BitOk(x.m, k.a, tabs[0][0], vs, w, Get(LtzBits(x, k, inner, tabs, ws, noise, wires), Item(0, w)),
                  x.shift(Item(0, w)))
  {
    hide LaneOk, KeysOk, LevelOrdered, LevelInner, LtzInner, WellFormed, GoodInner, BoolRun, Dealt, Cong, Padded,
         LtzBit, TPSecret, HalfBit, EntriesFit, FieldModulus, Hides, InnerOk, ComparedVal;
    PaddedSame(x, k, inner, tabs, ws, w);
    RowMember(ws, w);
    var q := IndexOf(ws, w);
    var out := Get(BoolRun(x, k, inner, tabs, ws, noise, wires)[1].wires, Item(q, inner.out));
    var db := TPSecret(x.m, tabs[0][0][w].maskB.tp);
    var v := PaddedOf(x, tabs[1][0], w, wires);
    LtzXor(x, k, inner, lanes, tabs, ws, noise, vs, wires, w, q, v, out, db);
    ComparedCong(x.m, vs[x.gates[w].inp], x.shift(Item(0, w)));
  }

  lemma FieldBound(m: nat, r: nat)
    requires FieldModulus(m) && r < m
    ensures r < m < TwoTo(64) && m > 2
  {
  }

  lemma MaskBitOf(m: nat, t: TP, u: TP)
    requires m > 2 && Cong(m, TPSecret(m, t), TPSecret(2, u))
    ensures TPSecret(m, t) == TPSecret(2, u) && 0 <= TPSecret(2, u) < 2
  {
    SecretRange(m, t);
    SecretRange(2, u);
    MaskBitIs(m, TPSecret(m, t), TPSecret(2, u));
  }

  lemma RowMember(ws: seq<Wire>, w: Wire)
    requires w in ws
    ensures Item(0, w) in Row(0, ws)
  {
    var q :| 0 <= q < |ws| && ws[q] == w;
    assert Row(0, ws)[q] == Item(0, w);
  }
}
