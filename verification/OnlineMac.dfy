/** The check at the end of a run: what it accepts, and what it makes of changed openings. */
module OnlineMac {
  import opened Circuits
  import opened Sharing
  import opened Dealing
  import opened Offline
  import opened Masks
  import opened Aggregation
  import opened Online
  import opened Masking
  import opened LevelSteps
  import opened MacCheck
  import opened OnlineRun
  import opened ZMod

  // ---- a step, whatever is opened ------------------------------------------------------------

  lemma StepAgrees(x: Ctx, tabs: seq<seq<Table>>, views: seq<View>, wires: map<Item, int>, bits: map<Item, int>,
                   items: seq<Item>, qVal: map<Item, int>)
    requires CtxOk(x) && JointOk(x, tabs, items) && Agree(x, views, wires) && SameOpened(x, views, qVal)
    ensures var after := Step(x, tabs, bits, items, views);
      Agree(x, after, after[1].wires) && SameOpened(x, after, after[1].qVal)
  {
    hide WiresAfter, QValAfter, QShAfter, CanSendAll, WellFormed, OpenedAll, CommOrder;
  }

  /** The parties' views agree after any number of levels, whatever is opened. */
  lemma {:induction false} RunAgrees(x: Ctx, k: Keys, tabs: seq<seq<Table>>, bits: BitSource, lanes: nat,
                                     ls: seq<seq<Wire>>, n: nat, views: seq<View>, wires: map<Item, int>,
                                     qVal: map<Item, int>)
    requires CtxOk(x) && Held(x, k, tabs, lanes) && LevelOrdered(x.gates, ls) && n <= |ls|
    requires Agree(x, views, wires) && SameOpened(x, views, qVal)
    ensures var after := Run(x, k, tabs, bits, lanes, ls, n, views);
      Agree(x, after, after[1].wires) && SameOpened(x, after, after[1].qVal)
  {
    hide Held, LevelOrdered, WellFormed, JointOk, Step, LevelItems;
    if n > 0 {
      var before := Run(x, k, tabs, bits, lanes, ls, n - 1, views);
      RunAgrees(x, k, tabs, bits, lanes, ls, n - 1, views, wires, qVal);
      LevelBelow(x, ls, n - 1);
      HeldJointOk(x, k, tabs, lanes, ls[n - 1]);
      StepAgrees(x, tabs, before, before[1].wires, bits(n - 1, before[1]), LevelItems(lanes, ls[n - 1]),
                 before[1].qVal);
    }
  }

  /** The opened value kept for a gate is the one found at one of its places. */
  lemma {:induction false} KeptOpening(x: Ctx, items: seq<Item>, n: nat, agg: seq<int>, qVal: map<Item, int>, it: Item)
    returns (j: nat)
    requires CtxOk(x) && ItemsOk(x.gates, items) && n <= |items| && |agg| == |CommOrder(x.gates, items)|
    requires it in items[..n] && Interactive(x.gates[it.w])
    ensures j < |items| && items[j] == it && Get(QValAfter(x, items, n, agg, qVal), it) == Opened(x, items, j, agg)
  {
    hide CommOrder, Place, Interactive, WellFormed, Opened;
    assert items[..n] == items[..n - 1] + [items[n - 1]];
    if items[n - 1] == it {
      j := n - 1;
    } else {
      j := KeptOpening(x, items, n - 1, agg, qVal, it);
    }
  }

  lemma {:induction false} OtherOpening(x: Ctx, items: seq<Item>, n: nat, agg: seq<int>, qVal: map<Item, int>, it: Item)
    requires CtxOk(x) && ItemsOk(x.gates, items) && n <= |items| && |agg| == |CommOrder(x.gates, items)|
    requires it !in items[..n]
    ensures Get(QValAfter(x, items, n, agg, qVal), it) == Get(qVal, it)
  {
    hide CommOrder, Place, Interactive, WellFormed, Opened;
    if n > 0 {
      assert items[..n] == items[..n - 1] + [items[n - 1]];
      OtherOpening(x, items, n - 1, agg, qVal, it);
    }
  }

  // ---- what the check knows about a gate ----------------------------------------------------------

  /** The shares kept for a gate are authenticated, and the opened value differs from their
      sum by exactly what was added on the way. */
  ghost predicate Checked(x: Ctx, k: Keys, views: seq<View>, it: Item)
    requires CtxOk(x)
  {
    && |views| == x.c.nP + 1 && TagsFit(x, k, views, it)
    && Cong(x.m, Change(x, views[1].qVal, views, it), x.shift(it))
  }

  /** The arithmetic evaluator adds no pads. */
  ghost predicate Unpadded(x: Ctx) {
    forall it: Item, i: nat :: x.pad(it, i) == 0
  }

  lemma StoredAreSent(x: Ctx, tabs: seq<seq<Table>>, views: seq<View>, wires: map<Item, int>, bits: map<Item, int>,
                      items: seq<Item>, it: Item)
    requires CtxOk(x) && JointOk(x, tabs, items) && Agree(x, views, wires)
    requires it in items && it.w < |x.gates| && Interactive(x.gates[it.w])
    ensures forall i :: 1 <= i <= x.c.nP ==> CanSend(x, tabs[i], it)
    ensures StoredValues(x, Step(x, tabs, bits, items, views), it) == ShareValues(x, tabs, wires, bits, it)
  {
    hide WiresAfter, QValAfter, QShAfter, CanSend, WellFormed, OpenedAll, CommOrder, Interactive, ItemShare;
    var after := Step(x, tabs, bits, items, views);
    assert items[..|items|] == items;
    forall i | 1 <= i <= x.c.nP
      ensures CanSend(x, tabs[i], it) && GetSh(after[i].qSh, it) == ItemShare(x, i, tabs[i], wires, bits, it)
    {
      KeptShare(x, i, tabs[i], wires, bits, items, |items|, views[i].qSh, it);
    }
    forall p | 0 <= p < x.c.nP
      ensures StoredValues(x, after, it)[p] == ShareValues(x, tabs, wires, bits, it)[p]
    {
      assert ShareValues(x, tabs, wires, bits, it)[p + 1 - 1]
        == ItemShare(x, p + 1, tabs[p + 1], wires, bits, it).value;
    }
  }

  lemma StepChecks(x: Ctx, k: Keys, tabs: seq<seq<Table>>, lanes: nat, views: seq<View>, wires: map<Item, int>,
                   bits: map<Item, int>, items: seq<Item>, it: Item)
    requires CtxOk(x) && Keyed(x, k, tabs, lanes) && JointOk(x, tabs, items) && Agree(x, views, wires) && Unpadded(x)
    requires it in items && it.lane < lanes && it.w < |x.gates|
    requires Interactive(x.gates[it.w]) && Basic(x.gates[it.w])
    ensures Checked(x, k, Step(x, tabs, bits, items, views), it)
  {
    hide LaneOk, Interactive, Basic, Sum, Cong, CanSend, WellFormed, KeysOk, WiresAfter, QValAfter, QShAfter, CommOrder,
         OpenedAll, ShareValues, Opened, StoredTags, StoredValues, CanSendAll;
    var after := Step(x, tabs, bits, items, views);
    var agg := OpenedAll(x, tabs, views, bits, items);
    StepTags(x, k, tabs, lanes, views, wires, bits, items, it);
    StoredAreSent(x, tabs, views, wires, bits, items, it);
    assert items[..|items|] == items;
    var j := KeptOpening(x, items, |items|, agg, views[1].qVal, it);
    OpenedShifted(x, tabs, views, wires, bits, items, j);
    assert Sum(Pads(x, it)) == 0 by {
      NoPads(x, it);
    }
    ChangeIs(x.m, Get(after[1].qVal, it), Sum(ShareValues(x, tabs, wires, bits, it)), x.shift(it));
  }

  lemma NoPads(x: Ctx, it: Item)
    requires Unpadded(x)
    ensures Sum(Pads(x, it)) == 0
  {
    SumZero(Pads(x, it));
  }

  lemma ChangeIs(m: nat, q: int, s: int, e: int)
    requires m > 0 && Cong(m, q, s + e)
    ensures Cong(m, q - s, e)
  {
    CongSub(m, q, s + e, s, s);
  }

  lemma StepKeepsChecked(x: Ctx, k: Keys, tabs: seq<seq<Table>>, views: seq<View>, wires: map<Item, int>,
                         bits: map<Item, int>, items: seq<Item>, it: Item)
    requires CtxOk(x) && JointOk(x, tabs, items) && Agree(x, views, wires)
    requires it !in items && it.w < |x.gates| && Checked(x, k, views, it)
    ensures Checked(x, k, Step(x, tabs, bits, items, views), it)
  {
    hide Interactive, Sum, Cong, CanSend, WellFormed, WiresAfter, QValAfter, QShAfter, CommOrder, OpenedAll, ItemShare;
    var after := Step(x, tabs, bits, items, views);
    assert items[..|items|] == items;
    forall i | 1 <= i <= x.c.nP ensures GetSh(after[i].qSh, it) == GetSh(views[i].qSh, it) {
      KeptShare(x, i, tabs[i], wires, bits, items, |items|, views[i].qSh, it);
    }
    OtherOpening(x, items, |items|, OpenedAll(x, tabs, views, bits, items), views[1].qVal, it);
    assert StoredValues(x, after, it) == StoredValues(x, views, it);
    assert StoredTags(x, after, it) == StoredTags(x, views, it);
  }

  lemma DrawsInteractive(g: Gate)
    requires Draws(g) > 0
    ensures Interactive(g) && Basic(g)
  {
  }

  /** Every gate the check looks at. */
  ghost predicate AllChecked(x: Ctx, k: Keys, views: seq<View>, lanes: nat, ws: seq<Wire>)
    requires CtxOk(x)
  {
    forall it: Item :: it.lane < lanes && it.w in ws && it.w < |x.gates| && Draws(x.gates[it.w]) > 0 ==>
      Checked(x, k, views, it)
  }

  /** Over a whole run, changed or not: the parties' views agree and every gate is checked. */
  lemma {:induction false} RunChecks(x: Ctx, k: Keys, tabs: seq<seq<Table>>, bits: BitSource, lanes: nat,
                                     ls: seq<seq<Wire>>, n: nat, views: seq<View>, wires: map<Item, int>,
                                     qVal: map<Item, int>)
    requires CtxOk(x) && Held(x, k, tabs, lanes) && LevelOrdered(x.gates, ls) && n <= |ls| && |views| == x.c.nP + 1
    requires Keyed(x, k, tabs, lanes) && Unpadded(x) && Agree(x, views, wires) && SameOpened(x, views, qVal)
    ensures var after := Run(x, k, tabs, bits, lanes, ls, n, views);
      && Agree(x, after, after[1].wires) && SameOpened(x, after, after[1].qVal)
      && AllChecked(x, k, after, lanes, Flatten(ls[..n]))
  {
    hide Held, LevelOrdered, WellFormed, JointOk, Step, LevelItems, OpenedAll, Keyed, Checked, Draws, Unpadded;
    if n > 0 {
      var before := Run(x, k, tabs, bits, lanes, ls, n - 1, views);
      RunChecks(x, k, tabs, bits, lanes, ls, n - 1, views, wires, qVal);
      var items, b := LevelItems(lanes, ls[n - 1]), bits(n - 1, before[1]);
      LevelBelow(x, ls, n - 1);
      HeldJointOk(x, k, tabs, lanes, ls[n - 1]);
      StepAgrees(x, tabs, before, before[1].wires, b, items, before[1].qVal);
      var after := Step(x, tabs, b, items, before);
      assert ls[..n][..n - 1] == ls[..n - 1];
      assert Flatten(ls[..n]) == Flatten(ls[..n - 1]) + ls[n - 1];
      forall it: Item | it.lane < lanes && it.w in Flatten(ls[..n]) && it.w < |x.gates| && Draws(x.gates[it.w]) > 0
        ensures Checked(x, k, after, it)
      {
        LevelItemsMember(lanes, ls[n - 1], it);
        if it in items {
          DrawsInteractive(x.gates[it.w]);
          StepChecks(x, k, tabs, lanes, before, before[1].wires, b, items, it);
        } else {
          StepKeepsChecked(x, k, tabs, before, before[1].wires, b, items, it);
        }
      }
    }
  }

  // ---- the verdict ------------------------------------------------------------------------------------

  /** The weighted sum of what was added to the openings. */
  function WeightedShifts(x: Ctx, order: seq<Item>, n: nat, rho: nat -> int): int
    requires ItemsOk(x.gates, order) && n <= |order|
  {
    if n == 0 then 0 else
      var it := order[n - 1];
      WeightedShifts(x, order, n - 1, rho)
        + Weight(rho, DrawsBefore(x.gates, order, n - 1), Draws(x.gates[it.w])) * x.shift(it)
  }

  lemma {:induction false} ChangesAreShifts(x: Ctx, k: Keys, order: seq<Item>, n: nat, rho: nat -> int,
                                            views: seq<View>)
    requires CtxOk(x) && ItemsOk(x.gates, order) && n <= |order| && |views| == x.c.nP + 1
    requires forall j :: 0 <= j < n && Draws(x.gates[order[j].w]) > 0 ==> Checked(x, k, views, order[j])
    ensures Cong(x.m, WeightedChanges(x, order, n, rho, views[1].qVal, views), WeightedShifts(x, order, n, rho))
  {
    hide Sum, Cong, TagsFit, Draws, DrawsBefore, Weight, Change, WellFormed;
    if n == 0 {
      SelfCong(x.m, 0);
    } else {
      var it := order[n - 1];
      var cnt := Draws(x.gates[it.w]);
      var w := Weight(rho, DrawsBefore(x.gates, order, n - 1), cnt);
      ChangesAreShifts(x, k, order, n - 1, rho, views);
      assert Cong(x.m, w * Change(x, views[1].qVal, views, it), w * x.shift(it)) by {
        if cnt == 0 {
          NoWeight(x.m, rho, DrawsBefore(x.gates, order, n - 1), Change(x, views[1].qVal, views, it), x.shift(it));
        } else {
          CongScale(x.m, Change(x, views[1].qVal, views, it), x.shift(it), w);
        }
      }
      CongAdd(x.m, WeightedChanges(x, order, n - 1, rho, views[1].qVal, views), WeightedShifts(x, order, n - 1, rho),
              w * Change(x, views[1].qVal, views, it), w * x.shift(it));
    }
  }

  lemma SelfCong(m: nat, a: int)
    requires m > 0
    ensures Cong(m, a, a)
  {
  }

  /** The traversal of the check. */
  function MacOrder(ls: seq<seq<Wire>>): seq<Item> {
    Row(0, Flatten(ls))
  }

  lemma MacOrderOk(x: Ctx, ls: seq<seq<Wire>>)
    requires LevelOrdered(x.gates, ls)
    ensures ItemsOk(x.gates, MacOrder(ls))
  {
    var ws := Flatten(ls);
    FlattenTopological(x.gates, ls, |ls|);
    assert ls[..|ls|] == ls;
    OrderBelow(x.gates, ws);
  }

  /** The residue of a run: the key times the weighted sum of everything that was added to
      openings.  It does not depend on anything else. */
  lemma RunResidue(x: Ctx, k: Keys, tabs: seq<seq<Table>>, bits: BitSource, ls: seq<seq<Wire>>, views: seq<View>,
                   wires: map<Item, int>, qVal: map<Item, int>, rho: nat -> int)
    requires CtxOk(x) && Held(x, k, tabs, 1) && LevelOrdered(x.gates, ls) && |views| == x.c.nP + 1
    requires Keyed(x, k, tabs, 1) && Unpadded(x) && Agree(x, views, wires) && SameOpened(x, views, qVal)
    ensures ItemsOk(x.gates, MacOrder(ls))
    ensures var after := Run(x, k, tabs, bits, 1, ls, |ls|, views);
      && Cong(x.m, Residue(x, MacOrder(ls), rho, k.sh, after),
              k.key * WeightedShifts(x, MacOrder(ls), |MacOrder(ls)|, rho))
      && 0 <= Residue(x, MacOrder(ls), rho, k.sh, after) < x.m
  {
    MacOrderOk(x, ls);
    RunChecks(x, k, tabs, bits, 1, ls, |ls|, views, wires, qVal);
    assert ls[..|ls|] == ls;
    hide Cong, Draws, WellFormed, Held, LevelOrdered, Run, Residue, WeightedShifts, WeightedChanges, KeysOk, LaneOk,
         Flatten;
    var after := Run(x, k, tabs, bits, 1, ls, |ls|, views);
    var order := MacOrder(ls);
    forall j | 0 <= j < |order| && Draws(x.gates[order[j].w]) > 0 ensures Checked(x, k, after, order[j]) {
      assert order[j].w == Flatten(ls)[j];
    }
    ResidueIsKeyTimesChanges(x, k, order, rho, after, after[1].qVal);
    ChangesAreShifts(x, k, order, |order|, rho, after);
    ResidueCollect(x.m, k.key, Residue(x, order, rho, k.sh, after),
                   WeightedChanges(x, order, |order|, rho, after[1].qVal, after),
                   WeightedShifts(x, order, |order|, rho));
  }

  lemma ResidueCollect(m: nat, key: int, r: int, c: int, s: int)
    requires m > 0 && Cong(m, r, key * c) && Cong(m, c, s)
    ensures Cong(m, r, key * s)
  {
    CongScale(m, c, s, key);
  }

  lemma {:induction false} NoShifts(x: Ctx, order: seq<Item>, n: nat, rho: nat -> int)
    requires ItemsOk(x.gates, order) && n <= |order|
    requires forall it: Item :: it.w < |x.gates| && Draws(x.gates[it.w]) > 0 ==> x.shift(it) == 0
    ensures WeightedShifts(x, order, n, rho) == 0
  {
    if n > 0 {
      NoShifts(x, order, n - 1, rho);
      var d, e := Draws(x.gates[order[n - 1].w]), x.shift(order[n - 1]);
      assert d == 0 || e == 0;
      assert d == 0 ==> Weight(rho, DrawsBefore(x.gates, order, n - 1), d) == 0;
    }
  }
}
