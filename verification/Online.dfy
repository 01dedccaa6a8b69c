/** The online phase, level by level.  Parties hold public masked wires.  On a level every
    party computes its share of each interactive gate from the wires of lower levels, all
    shares are opened together, and the results are written back gate by gate.

    The Boolean evaluator runs several copies (lanes) of one circuit side by side and pads
    its openings; the arithmetic evaluator is the case of one lane and zero pads, plus
    comparison gates, whose masked result bits come from a Boolean run. */
module Online {
  import opened Circuits
  import opened Sharing
  import opened Dealing
  import opened Offline
  import opened Masks
  import opened Opening
  import opened Aggregation
  import opened ZMod

  /** A gate of one lane. */
  datatype Item = Item(lane: nat, w: Wire)

  /** What all parties know: the configuration, the ring, the circuit and the pads they
      draw from a stream they share.  `shift` is what is added to an opened value on its
      way to the parties: zero unless somebody cheats. */
  datatype Ctx = Ctx(c: Config, m: nat, gates: seq<Gate>, pad: (Item, nat) -> int, shift: Item -> int)

  ghost predicate CtxOk(x: Ctx) {
    x.c.nP > 0 && x.m > 1 && WellFormed(x.gates)
  }

  /** A table of wires; what was never set is zero. */
  function Get(wires: map<Item, int>, it: Item): int {
    if it in wires then wires[it] else 0
  }

  /** A party: public wires, opened values, and its shares of the opened values. */
  datatype View = View(wires: map<Item, int>, qVal: map<Item, int>, qSh: map<Item, Auth>)

  // ---- the order of communication ------------------------------------------------------

  /** Vectors are sent in five groups: two, three and four factors, scalar products,
      comparisons. */
  function Group(g: Gate): nat {
    match g
    case Mul2(_, _) => 0
    case Mul3(_, _, _) => 1
    case Mul4(_, _, _, _) => 2
    case Simd(_, _, _) => 3
    case Unary(_, _) => 4
    case _ => 5
  }

  ghost predicate ItemsOk(gates: seq<Gate>, items: seq<Item>) {
    forall j :: 0 <= j < |items| ==> items[j].w < |gates|
  }

  function InGroup(gates: seq<Gate>, items: seq<Item>, k: nat): (s: seq<Item>)
    requires ItemsOk(gates, items)
  {
    if items == [] then [] else
      var n := |items| - 1;
      InGroup(gates, items[..n], k) + if Group(gates[items[n].w]) == k then [items[n]] else []
  }

  /** The first k groups, one after the other. */
  function Groups(gates: seq<Gate>, items: seq<Item>, k: nat): seq<Item>
    requires ItemsOk(gates, items)
  {
    if k == 0 then [] else Groups(gates, items, k - 1) + InGroup(gates, items, k - 1)
  }

  function CommOrder(gates: seq<Gate>, items: seq<Item>): seq<Item>
    requires ItemsOk(gates, items)
  {
    Groups(gates, items, 5)
  }

  /** Where the result of the j-th gate is found: after the groups before its own, behind as
      many results of its own group as such gates came before it. */
  function Place(gates: seq<Gate>, items: seq<Item>, j: nat): nat
    requires ItemsOk(gates, items) && j < |items|
  {
    var k := Group(gates[items[j].w]);
    |Groups(gates, items, k)| + |InGroup(gates, items[..j], k)|
  }

  lemma {:induction false} InGroupAt(gates: seq<Gate>, items: seq<Item>, j: nat, k: nat)
    requires ItemsOk(gates, items) && j < |items| && Group(gates[items[j].w]) == k
    ensures |InGroup(gates, items[..j], k)| < |InGroup(gates, items, k)|
    ensures InGroup(gates, items, k)[|InGroup(gates, items[..j], k)|] == items[j]
  {
    var n := |items| - 1;
    if j < n {
      InGroupAt(gates, items[..n], j, k);
      assert items[..n][..j] == items[..j];
    }
  }

  lemma {:induction false} GroupsAt(gates: seq<Gate>, items: seq<Item>, k: nat, n: nat, i: nat)
    requires ItemsOk(gates, items) && k < n && i < |InGroup(gates, items, k)|
    ensures |Groups(gates, items, k)| + i < |Groups(gates, items, n)|
    ensures Groups(gates, items, n)[|Groups(gates, items, k)| + i] == InGroup(gates, items, k)[i]
  {
    if k < n - 1 {
      GroupsAt(gates, items, k, n - 1, i);
    }
  }

  /** Counting per group while reading finds every gate its own opening. */
  lemma PlaceIsOwn(gates: seq<Gate>, items: seq<Item>, j: nat)
    requires ItemsOk(gates, items) && j < |items| && Interactive(gates[items[j].w])
    ensures Place(gates, items, j) < |CommOrder(gates, items)|
    ensures CommOrder(gates, items)[Place(gates, items, j)] == items[j]
  {
    var k := Group(gates[items[j].w]);
    InGroupAt(gates, items, j, k);
    GroupsAt(gates, items, k, 5, |InGroup(gates, items[..j], k)|);
  }

  lemma {:induction false} InGroupMember(gates: seq<Gate>, items: seq<Item>, k: nat, i: nat)
    requires ItemsOk(gates, items) && i < |InGroup(gates, items, k)|
    ensures InGroup(gates, items, k)[i].w < |gates| && Group(gates[InGroup(gates, items, k)[i].w]) == k
    ensures InGroup(gates, items, k)[i] in items
  {
    var n := |items| - 1;
    if i < |InGroup(gates, items[..n], k)| {
      InGroupMember(gates, items[..n], k, i);
    }
  }

  lemma {:induction false} GroupsMember(gates: seq<Gate>, items: seq<Item>, n: nat, i: nat)
    requires ItemsOk(gates, items) && i < |Groups(gates, items, n)| && n <= 5
    ensures var it := Groups(gates, items, n)[i];
      it.w < |gates| && Interactive(gates[it.w]) && it in items
  {
    var lo := Groups(gates, items, n - 1);
    if i < |lo| {
      GroupsMember(gates, items, n - 1, i);
    } else {
      InGroupMember(gates, items, n - 1, i - |lo|);
    }
  }

  // ---- one party's share of a gate ---------------------------------------------------------

  function InputItems(g: Gate, lane: nat): (s: seq<Item>)
    ensures |s| == |Ins(g)| && forall i :: 0 <= i < |s| ==> s[i] == Item(lane, Ins(g)[i])
  {
    seq(|Ins(g)|, i requires 0 <= i < |Ins(g)| => Item(lane, Ins(g)[i]))
  }

  function PublicInputs(g: Gate, lane: nat, wires: map<Item, int>): (v: seq<int>)
    ensures |v| == |Ins(g)| && forall i :: 0 <= i < |v| ==> v[i] == Get(wires, Item(lane, Ins(g)[i]))
  {
    seq(|Ins(g)|, i requires 0 <= i < |Ins(g)| => Get(wires, Item(lane, Ins(g)[i])))
  }

  /** The masks of a gate's inputs. */
  function InputMasks(tab: Table, ws: seq<Wire>): (s: seq<Share>)
    requires Known(tab, ws)
    ensures |s| == |ws| && forall i :: 0 <= i < |s| ==> s[i] == tab[ws[i]].mask
  {
    seq(|ws|, i requires 0 <= i < |ws| => tab[ws[i]].mask)
  }

  /** The shares a gate's opening is made of. */
  function LeafShares(tab: Table, g: Gate, w: Wire): (s: seq<Share>)
    requires w in tab && Known(tab, Ins(g))
    requires (Basic(g) ==> tab[w].Product?) && (!Basic(g) ==> tab[w].Compare?)
  {
    if Basic(g) then
      [tab[w].mask] + tab[w].prods + InputMasks(tab, Ins(g))
    else
      [tab[w].maskW, tab[w].maskB]
  }

  /** A comparison's masked bit b selects its expression: mask_w + mask_b * b. */
  function ItemExpr(m: nat, g: Gate, v: seq<int>, bit: int): (e: Expr)
    requires m > 0 && Interactive(g) && |v| == |Ins(g)| && (g.Simd? ==> |g.ins1| == |g.ins2|)
  {
    if Basic(g) then QExpr(m, g, v) else Plus(Leaf(0), Times(Leaf(1), bit))
  }

  /** What a party must hold for a gate before it can compute its share. */
  ghost predicate CanSend(x: Ctx, tabs: seq<Table>, it: Item)
    requires CtxOk(x)
  {
    && it.lane < |tabs| && it.w < |x.gates| && Interactive(x.gates[it.w])
    && it.w in tabs[it.lane] && Known(tabs[it.lane], Ins(x.gates[it.w]))
    && var g, p := x.gates[it.w], tabs[it.lane][it.w];
       (if Basic(g) then p.Product? && |p.prods| == ProductCount(g) else p.Compare?)
       && (g.Simd? ==> |g.ins1| == |g.ins2|)
  }

  lemma ExprInRange(x: Ctx, tabs: seq<Table>, it: Item, v: seq<int>, bit: int)
    requires CtxOk(x) && CanSend(x, tabs, it) && |v| == |Ins(x.gates[it.w])|
    ensures InRange(ItemExpr(x.m, x.gates[it.w], v, bit), |LeafShares(tabs[it.lane], x.gates[it.w], it.w)|)
  {
  }

  function ItemShare(x: Ctx, id: nat, tabs: seq<Table>, wires: map<Item, int>, bits: map<Item, int>, it: Item): Auth
    requires CtxOk(x) && CanSend(x, tabs, it)
  {
    var g := x.gates[it.w];
    var v := PublicInputs(g, it.lane, wires);
    ExprInRange(x, tabs, it, v, Get(bits, it));
    Eval(x.m, ItemExpr(x.m, g, v, Get(bits, it)), Auths(LeafShares(tabs[it.lane], g, it.w)), id)
  }

  // ---- sending and receiving -----------------------------------------------------------------

  ghost predicate CanSendAll(x: Ctx, tabs: seq<Table>, items: seq<Item>)
    requires CtxOk(x)
  {
    forall j :: 0 <= j < |items| ==> CanSend(x, tabs, items[j])
  }

  /** A party's shares of a list of gates. */
  function ItemShares(x: Ctx, id: nat, tabs: seq<Table>, wires: map<Item, int>, bits: map<Item, int>, items: seq<Item>)
    : (s: seq<Auth>)
    requires CtxOk(x) && CanSendAll(x, tabs, items)
    ensures |s| == |items|
    ensures forall j :: 0 <= j < |s| ==> s[j] == ItemShare(x, id, tabs, wires, bits, items[j])
  {
    seq(|items|, j requires 0 <= j < |items| => ItemShare(x, id, tabs, wires, bits, items[j]))
  }

  /** The vector a party puts into the opening: its shares' values, each with its pad. */
  function SentVector(x: Ctx, id: nat, items: seq<Item>, shares: seq<Auth>): (s: seq<int>)
    requires CtxOk(x) && |shares| == |items|
    ensures |s| == |items|
    ensures forall j :: 0 <= j < |s| ==> s[j] == Add(x.m, shares[j].value, x.pad(items[j], id))
  {
    seq(|items|, j requires 0 <= j < |items| => Add(x.m, shares[j].value, x.pad(items[j], id)))
  }

  function Pads(x: Ctx, it: Item): (s: seq<int>)
    ensures |s| == x.c.nP && forall p :: 0 <= p < |s| ==> s[p] == x.pad(it, p + 1)
  {
    seq(x.c.nP, p requires 0 <= p < x.c.nP => x.pad(it, p + 1))
  }

  /** The new value of a wire; q is what was opened for it. */
  function WireVal(x: Ctx, it: Item, q: int, bit: int, wires: map<Item, int>): int
    requires CtxOk(x) && it.w < |x.gates|
  {
    match x.gates[it.w]
    case Inp => Get(wires, it)
    case Lin(sub, a, b) =>
      if sub then Sub(x.m, Get(wires, Item(it.lane, a)), Get(wires, Item(it.lane, b)))
      else Add(x.m, Get(wires, Item(it.lane, a)), Get(wires, Item(it.lane, b)))
    case ConstAdd(a, k) => Add(x.m, Get(wires, Item(it.lane, a)), k)
    case ConstMul(a, k) => Mul(x.m, Get(wires, Item(it.lane, a)), k)
    case Unary(_, _) => Sub(x.m, bit, Mul(x.m, 2, q))
    case _ => Sub(x.m, q, SumMod(x.m, Pads(x, it)))
  }

  function Opened(x: Ctx, items: seq<Item>, j: nat, agg: seq<int>): int
    requires CtxOk(x) && ItemsOk(x.gates, items) && j < |items|
    requires |agg| == |CommOrder(x.gates, items)|
  {
    if Interactive(x.gates[items[j].w]) then
      PlaceIsOwn(x.gates, items, j);
      Add(x.m, agg[Place(x.gates, items, j)], x.shift(items[j]))
    else 0
  }

  /** The wires after the first n gates of the level were read back. */
  function WiresAfter(x: Ctx, items: seq<Item>, n: nat, agg: seq<int>, bits: map<Item, int>, wires: map<Item, int>)
    : map<Item, int>
    requires CtxOk(x) && ItemsOk(x.gates, items) && n <= |items| && |agg| == |CommOrder(x.gates, items)|
  {
    if n == 0 then wires else
      var before := WiresAfter(x, items, n - 1, agg, bits, wires);
      var it := items[n - 1];
      before[it := WireVal(x, it, Opened(x, items, n - 1, agg), Get(bits, it), before)]
  }

  function QValAfter(x: Ctx, items: seq<Item>, n: nat, agg: seq<int>, qVal: map<Item, int>): map<Item, int>
    requires CtxOk(x) && ItemsOk(x.gates, items) && n <= |items| && |agg| == |CommOrder(x.gates, items)|
  {
    if n == 0 then qVal else
      var it := items[n - 1];
      var before := QValAfter(x, items, n - 1, agg, qVal);
      if Interactive(x.gates[it.w]) then before[it := Opened(x, items, n - 1, agg)] else before
  }

  function QShAfter(x: Ctx, items: seq<Item>, n: nat, shares: seq<Auth>, qSh: map<Item, Auth>): map<Item, Auth>
    requires CtxOk(x) && ItemsOk(x.gates, items) && n <= |items| && |shares| == |CommOrder(x.gates, items)|
  {
    if n == 0 then qSh else
      var it := items[n - 1];
      var before := QShAfter(x, items, n - 1, shares, qSh);
      if Interactive(x.gates[it.w]) then
        PlaceIsOwn(x.gates, items, n - 1);
        before[it := shares[Place(x.gates, items, n - 1)]]
      else before
  }

  // ---- all parties together -------------------------------------------------------------------

  /** Tables and views are indexed by id; entry 0 of the views is not used. */
  ghost predicate JointOk(x: Ctx, tabs: seq<seq<Table>>, items: seq<Item>)
    requires CtxOk(x)
  {
    && |tabs| == x.c.nP + 1 && ItemsOk(x.gates, items)
    && forall i :: 1 <= i <= x.c.nP ==> CanSendAll(x, tabs[i], CommOrder(x.gates, items))
  }

  function PartyShares(x: Ctx, tabs: seq<seq<Table>>, i: nat, wires: map<Item, int>, bits: map<Item, int>,
                       items: seq<Item>): (s: seq<Auth>)
    requires CtxOk(x) && JointOk(x, tabs, items) && 1 <= i <= x.c.nP
    ensures |s| == |CommOrder(x.gates, items)|
  {
    ItemShares(x, i, tabs[i], wires, bits, CommOrder(x.gates, items))
  }

  /** The vectors of parties 1..nP. */
  function SentAll(x: Ctx, tabs: seq<seq<Table>>, views: seq<View>, bits: map<Item, int>, items: seq<Item>)
    : (xs: seq<seq<int>>)
    requires CtxOk(x) && JointOk(x, tabs, items) && |views| == x.c.nP + 1
    ensures |xs| == x.c.nP && SameLength(xs, |CommOrder(x.gates, items)|)
    ensures forall p :: 0 <= p < |xs| ==>
      xs[p] == SentVector(x, p + 1, CommOrder(x.gates, items),
                          PartyShares(x, tabs, p + 1, views[p + 1].wires, bits, items))
  {
    seq(x.c.nP, p requires 0 <= p < x.c.nP =>
      SentVector(x, p + 1, CommOrder(x.gates, items), PartyShares(x, tabs, p + 1, views[p + 1].wires, bits, items)))
  }

  function OpenedAll(x: Ctx, tabs: seq<seq<Table>>, views: seq<View>, bits: map<Item, int>, items: seq<Item>)
    : (agg: seq<int>)
    requires CtxOk(x) && JointOk(x, tabs, items) && |views| == x.c.nP + 1
    ensures |agg| == |CommOrder(x.gates, items)|
  {
    ColumnSums(x.m, SentAll(x, tabs, views, bits, items), |CommOrder(x.gates, items)|)
  }

  function PartyAfter(x: Ctx, items: seq<Item>, shares: seq<Auth>, agg: seq<int>, bits: map<Item, int>, v: View): View
    requires CtxOk(x) && ItemsOk(x.gates, items) && |shares| == |agg| == |CommOrder(x.gates, items)|
  {
    View(WiresAfter(x, items, |items|, agg, bits, v.wires),
         QValAfter(x, items, |items|, agg, v.qVal),
         QShAfter(x, items, |items|, shares, v.qSh))
  }

  /** One level, executed by everyone. */
  function Step(x: Ctx, tabs: seq<seq<Table>>, bits: map<Item, int>, items: seq<Item>, views: seq<View>)
    : (after: seq<View>)
    requires CtxOk(x) && JointOk(x, tabs, items) && |views| == x.c.nP + 1
    ensures |after| == |views|
  {
    var agg := OpenedAll(x, tabs, views, bits, items);
    seq(|views|, i requires 0 <= i < |views| =>
      if i == 0 then views[0]
      else PartyAfter(x, items, PartyShares(x, tabs, i, views[i].wires, bits, items), agg, bits, views[i]))
  }
}
