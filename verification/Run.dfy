/** The online phase from the inputs to the outputs, all levels and all parties. */
module OnlineRun {
  import opened Circuits
  import opened Sharing
  import opened Dealing
  import opened Offline
  import opened Masks
  import opened Aggregation
  import opened Online
  import opened Masking
  import opened LevelSteps
  import opened MacCheck
  import opened ZMod

  // ---- the gates of a level, lane by lane --------------------------------------------------

  function Row(lane: nat, level: seq<Wire>): (s: seq<Item>)
    ensures |s| == |level| && forall j :: 0 <= j < |s| ==> s[j] == Item(lane, level[j])
  {
    seq(|level|, j requires 0 <= j < |level| => Item(lane, level[j]))
  }

  function LevelItems(lanes: nat, level: seq<Wire>): seq<Item> {
    if lanes == 0 then [] else LevelItems(lanes - 1, level) + Row(lanes - 1, level)
  }

  lemma {:induction false} LevelItemsMember(lanes: nat, level: seq<Wire>, it: Item)
    ensures it in LevelItems(lanes, level) <==> it.lane < lanes && it.w in level
  {
    if lanes > 0 {
      LevelItemsMember(lanes - 1, level, it);
      var row := Row(lanes - 1, level);
      if it.lane == lanes - 1 && it.w in level {
        var j :| 0 <= j < |level| && level[j] == it.w;
        assert row[j] == it;
      }
    }
  }

  lemma LevelItemsOk(gates: seq<Gate>, lanes: nat, level: seq<Wire>)
    requires Below(level, |gates|)
    ensures ItemsOk(gates, LevelItems(lanes, level))
  {
    var items := LevelItems(lanes, level);
    forall t | 0 <= t < |items| ensures items[t].w < |gates| {
      LevelItemsMember(lanes, level, items[t]);
    }
  }

  /** Wires whose values are known before a level: those of the lower levels and all inputs. */
  ghost function Known0(x: Ctx, lanes: nat, ws: seq<Wire>): iset<Item> {
    iset it: Item | it.lane < lanes && (it.w in ws || (it.w < |x.gates| && x.gates[it.w].Inp?))
  }

  lemma PlacePrefix(x: Ctx, lanes: nat, more: nat, done: iset<Item>, items: seq<Item>, rest: seq<Item>, t: nat)
    requires t < |items| && lanes <= more && ItemPlaced(x, lanes, done, items, t)
    ensures ItemPlaced(x, more, done, items + rest, t)
  {
    assert (items + rest)[..t] == items[..t];
  }

  lemma RowPlaced(x: Ctx, lanes: nat, ls: seq<seq<Wire>>, l: nat, before: seq<Item>, lane: nat, j: nat)
    requires l < |ls| && j < |ls[l]| && PlaceOk(x.gates, ls, l, j) && lane < lanes
    ensures ItemPlaced(x, lanes, Known0(x, lanes, Flatten(ls[..l])), before + Row(lane, ls[l]), |before| + j)
  {
    var level, row := ls[l], Row(lane, ls[l]);
    var g := x.gates[level[j]];
    assert (before + row)[..|before| + j] == before + row[..j];
    forall i | 0 <= i < |Ins(g)|
      ensures var v := Item(lane, Ins(g)[i]);
        v in Known0(x, lanes, Flatten(ls[..l])) || (!Interactive(g) && v in (before + row)[..|before| + j])
    {
      assert Ins(g)[i] in Ins(g);
      if Ins(g)[i] in level[..j] {
        var q :| 0 <= q < j && level[q] == Ins(g)[i];
        assert row[..j][q] == Item(lane, Ins(g)[i]);
      }
    }
  }

  /** The traversal of a level reads only wires that are already set. */
  lemma {:induction false} LevelIsPlaced(x: Ctx, lanes: nat, all: nat, ls: seq<seq<Wire>>, l: nat)
    requires LevelOrdered(x.gates, ls) && l < |ls| && lanes <= all
    ensures LevelPlaced(x, all, Known0(x, all, Flatten(ls[..l])), LevelItems(lanes, ls[l]))
  {
    hide Known0, ItemPlaced, Interactive, Ins, Flatten;
    if lanes > 0 {
      LevelIsPlaced(x, lanes - 1, all, ls, l);
      var before, row := LevelItems(lanes - 1, ls[l]), Row(lanes - 1, ls[l]);
      var done := Known0(x, all, Flatten(ls[..l]));
      forall t | 0 <= t < |before + row| ensures ItemPlaced(x, all, done, before + row, t) {
        if t < |before| {
          assert ItemPlaced(x, all, done, before, t);
          PlacePrefix(x, all, all, done, before, row, t);
        } else {
          assert PlaceOk(x.gates, ls, l, t - |before|);
          RowPlaced(x, all, ls, l, before, lanes - 1, t - |before|);
        }
      }
    }
  }

  // ---- everybody can take part in every level --------------------------------------------------

  ghost predicate Held(x: Ctx, k: Keys, tabs: seq<seq<Table>>, lanes: nat)
    requires CtxOk(x)
  {
    && |tabs| == x.c.nP + 1
    && forall it: Item :: it.lane < lanes && it.w < |x.gates| && Interactive(x.gates[it.w]) ==> ItemHeld(x, k, tabs, it)
  }

  lemma HeldJointOk(x: Ctx, k: Keys, tabs: seq<seq<Table>>, lanes: nat, level: seq<Wire>)
    requires CtxOk(x) && Held(x, k, tabs, lanes) && Below(level, |x.gates|)
    ensures JointOk(x, tabs, LevelItems(lanes, level))
  {
    hide CanSend, ItemHeld, Interactive, WellFormed, LevelItems;
    var items := LevelItems(lanes, level);
    LevelItemsOk(x.gates, lanes, level);
    var order := CommOrder(x.gates, items);
    forall i, q | 1 <= i <= x.c.nP && 0 <= q < |order| ensures CanSend(x, tabs[i], order[q]) {
      GroupsMember(x.gates, items, 5, q);
      LevelItemsMember(lanes, level, order[q]);
      EntryOk(x, k, tabs, order[q], i);
    }
  }

  // ---- all levels ---------------------------------------------------------------------------------


  lemma LevelBelow(x: Ctx, ls: seq<seq<Wire>>, l: nat)
    requires LevelOrdered(x.gates, ls) && l < |ls|
    ensures Below(ls[l], |x.gates|)
  {
    forall j | 0 <= j < |ls[l]| ensures ls[l][j] < |x.gates| {
      assert PlaceOk(x.gates, ls, l, j);
    }
  }

  /** The masked bits of comparisons, as a function of the level and of a party's view. */
  type BitSource = (nat, View) -> map<Item, int>

  /** The first n levels. */
  ghost function Run(x: Ctx, k: Keys, tabs: seq<seq<Table>>, bits: BitSource, lanes: nat, ls: seq<seq<Wire>>, n: nat,
                     views: seq<View>): (after: seq<View>)
    requires CtxOk(x) && Held(x, k, tabs, lanes) && LevelOrdered(x.gates, ls) && n <= |ls| && |views| == x.c.nP + 1
    ensures |after| == |views|
  {
    if n == 0 then views else
      var before := Run(x, k, tabs, bits, lanes, ls, n - 1, views);
      LevelBelow(x, ls, n - 1);
      HeldJointOk(x, k, tabs, lanes, ls[n - 1]);
      Step(x, tabs, bits(n - 1, before[1]), LevelItems(lanes, ls[n - 1]), before)
  }

  /** Comparisons get the right bits whenever the wires below are right. */
  ghost predicate GoodBits(x: Ctx, k: Keys, tabs: seq<seq<Table>>, vals: seq<seq<int>>, bits: BitSource,
                           ls: seq<seq<Wire>>)
    requires CtxOk(x)
  {
    forall l: nat, v: View :: l < |ls| && AllHide(x, tabs, vals, v.wires, Known0(x, |vals|, Flatten(ls[..l]))) ==>
      AllBitsOk(x, k, tabs, vals, bits(l, v), LevelItems(|vals|, ls[l]))
  }

  lemma KnownGrows(x: Ctx, lanes: nat, ls: seq<seq<Wire>>, l: nat)
    requires l < |ls|
    ensures Known0(x, lanes, Flatten(ls[..l + 1])) == With(Known0(x, lanes, Flatten(ls[..l])), LevelItems(lanes, ls[l]))
  {
    assert ls[..l + 1][..l] == ls[..l];
    forall it ensures it in LevelItems(lanes, ls[l]) <==> it.lane < lanes && it.w in ls[l] {
      LevelItemsMember(lanes, ls[l], it);
    }
  }

  /** The masking invariant after every level: all parties agree on the public wires, and
      each wire below the level hides its plain value behind its mask. */
  lemma {:induction false} RunMasks(x: Ctx, k: Keys, tabs: seq<seq<Table>>, vals: seq<seq<int>>, bits: BitSource,
                                    ls: seq<seq<Wire>>, n: nat, views: seq<View>, wires: map<Item, int>)
    requires CtxOk(x) && Held(x, k, tabs, |vals|) && LevelOrdered(x.gates, ls) && n <= |ls| && |views| == x.c.nP + 1
    requires Prepared(x, k, tabs, vals) && GoodBits(x, k, tabs, vals, bits, ls)
    requires Agree(x, views, wires) && AllHide(x, tabs, vals, wires, Known0(x, |vals|, []))
    ensures var after := Run(x, k, tabs, bits, |vals|, ls, n, views);
      && Agree(x, after, after[1].wires)
      && AllHide(x, tabs, vals, after[1].wires, Known0(x, |vals|, Flatten(ls[..n])))
  {
    hide Held, LevelOrdered, Prepared, AllHide, AllBitsOk, WellFormed, Known0, LevelPlaced, WiresAfter, JointOk, Step,
         LevelItems, OpenedAll, With;
    if n > 0 {
      var before := Run(x, k, tabs, bits, |vals|, ls, n - 1, views);
      RunMasks(x, k, tabs, vals, bits, ls, n - 1, views, wires);
      var done, items := Known0(x, |vals|, Flatten(ls[..n - 1])), LevelItems(|vals|, ls[n - 1]);
      LevelBelow(x, ls, n - 1);
      HeldJointOk(x, k, tabs, |vals|, ls[n - 1]);
      LevelIsPlaced(x, |vals|, |vals|, ls, n - 1);
      StepKeeps(x, k, tabs, vals, before, before[1].wires, bits(n - 1, before[1]), done, items);
      KnownGrows(x, |vals|, ls, n - 1);
    }
  }
}
