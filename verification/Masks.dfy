/** What the dealer's table means: every wire's mask is a good sharing, masks of local
    gates are the right combinations, and interactive gates carry sharings of the right
    products. */
module Masks {
  import opened Circuits
  import opened Sharing
  import opened Dealing
  import opened Offline
  import opened ZMod

  /** The mask of a wire, as the dealer reconstructs it. */
  function Delta(m: nat, pre: Table, w: Wire): int
    requires m > 0 && w in pre
  {
    TPSecret(m, pre[w].mask.tp)
  }

  function DeltasOf(m: nat, pre: Table, ws: seq<Wire>): (d: seq<int>)
    requires m > 0 && forall i :: 0 <= i < |ws| ==> ws[i] in pre
    ensures |d| == |ws| && forall i :: 0 <= i < |d| ==> d[i] == Delta(m, pre, ws[i])
  {
    seq(|ws|, i requires 0 <= i < |ws| => Delta(m, pre, ws[i]))
  }

  ghost predicate Known(pre: Table, ws: seq<Wire>) {
    forall i :: 0 <= i < |ws| ==> ws[i] in pre
  }

  ghost predicate AllDealt(m: nat, k: Keys, s: seq<Share>, ss: seq<int>)
    requires m > 0
  {
    |s| == |ss| && forall j :: 0 <= j < |s| ==> Dealt(m, k, s[j].tp, ss[j])
  }

  /** The dealer's entry for gate g on wire w. */
  ghost predicate GoodPre(m: nat, k: Keys, g: Gate, pre: Table, w: Wire)
    requires m > 0
  {
    && w in pre && Known(pre, Ins(g))
    && Dealt(m, k, pre[w].mask.tp, Delta(m, pre, w))
    && (Basic(g) && !g.Inp? && !Interactive(g) ==>
          InRange(MaskExpr(g), |Ins(g)|)
          && Cong(m, Delta(m, pre, w), Secret(MaskExpr(g), DeltasOf(m, pre, Ins(g)))))
    && (Basic(g) && Interactive(g) ==>
          && pre[w].Product? && (g.Simd? ==> |g.ins1| == |g.ins2|)
          && AllDealt(m, k, pre[w].prods, Products(m, g, DeltasOf(m, pre, Ins(g)))))
  }

  /** Both masks of a comparison's entry were dealt. */
  ghost predicate CompareHeld(m: nat, k: Keys, T: Table, w: Wire)
    requires m > 0
  {
    && w in T && T[w].Compare?
    && Dealt(m, k, T[w].maskW.tp, TPSecret(m, T[w].maskW.tp))
    && Dealt(m, k, T[w].maskB.tp, TPSecret(m, T[w].maskB.tp))
  }

  /** The reconstructed mask is the one that was dealt. */
  lemma DealtDelta(m: nat, k: Keys, t: TP, s: int)
    requires m > 0 && Dealt(m, k, t, s)
    ensures Cong(m, TPSecret(m, t), s) && Dealt(m, k, t, TPSecret(m, t))
  {
    SumModIsSum(m, t.values);
    assert Values(Parts(t)) == t.values;
    SharesCong(m, Parts(t), k.sh, k.key, s, TPSecret(m, t));
  }

  lemma {:induction false} TPEvalFrame(m: nat, k: Keys, e: Expr, copies: seq<TP>, n: nat)
    requires m > 0 && InRange(e, |copies|) && Linear(e) && |k.sh| == n > 1
    requires forall j :: 0 <= j < |copies| ==>
      TPOk(copies[j], n) && copies[j].keySh == k.sh && copies[j].key == k.key
      && copies[j].values[0] == 0 && copies[j].tags[0] == 0
    ensures var t := TPEval(m, e, copies, n);
      t.keySh == k.sh && t.key == k.key && t.values[0] == 0 && t.tags[0] == 0
  {
    match e
    case Leaf(_) =>
    case Plus(l, r) =>
      TPEvalFrame(m, k, l, copies, n);
      TPEvalFrame(m, k, r, copies, n);
    case Minus(l, r) =>
      TPEvalFrame(m, k, l, copies, n);
      TPEvalFrame(m, k, r, copies, n);
    case Times(a, _) =>
      TPEvalFrame(m, k, a, copies, n);
  }

  /** A linear combination of dealt sharings is dealt. */
  lemma CombineDealt(c: Config, m: nat, k: Keys, e: Expr, s: seq<Share>, ss: seq<int>)
    requires m > 0 && c.nP > 0 && KeysOk(m, k.sh, k.key) && |k.sh| == c.nP + 1
    requires AllDealt(m, k, s, ss) && InRange(e, |s|) && Linear(e)
    ensures SharesOk(c, 0, s) && Dealt(m, k, Combine(c, 0, m, e, s).tp, Secret(e, ss))
  {
    hide Cong, Sum, SumMod, Eval, TPEval, Secret, InRange, Linear;
    var n := c.nP + 1;
    var copies := TPs(s);
    forall j | 0 <= j < |copies|
      ensures TPOk(copies[j], n) && copies[j].values[0] == 0 && copies[j].tags[0] == 0
    {
      assert Dealt(m, k, s[j].tp, ss[j]);
      assert Parts(copies[j])[0] == PartOf(copies[j], 0);
    }
    var t := TPEval(m, e, copies, n);
    TPEvalFrame(m, k, e, copies, n);
    var table: seq<seq<Auth>> := seq(n, i requires 0 <= i < n =>
      seq(|copies|, j requires 0 <= j < |copies| => PartOf(copies[j], i)));
    forall j | 0 <= j < |ss| ensures Shares(m, Column(table, j), k.sh, k.key, ss[j]) {
      assert Dealt(m, k, s[j].tp, ss[j]);
      assert Column(table, j) == Parts(copies[j]);
    }
    Homomorphism(m, e, table, k.sh, k.key, ss);
    var js := EvalJoint(m, e, table);
    forall i | 0 <= i < n ensures js[i] == PartOf(t, i) {
      if i > 0 {
        DealerInStep(m, e, copies, table[i], n, i);
      }
    }
    assert js == Parts(t);
  }

  lemma {:induction false} ShareSecretsDealt(c: Config, m: nat, k: Keys, secrets: seq<int>, st: St)
    requires m > 0 && StOk(c, 0, k, st)
    ensures AllDealt(m, k, ShareSecrets(c, 0, m, k, secrets, st).0, secrets)
  {
    if secrets != [] {
      var n := |secrets| - 1;
      ShareSecretsDealt(c, m, k, secrets[..n], st);
      var st1 := ShareSecrets(c, 0, m, k, secrets[..n], st).1;
      DealSecretDealt(c, m, k, secrets[n], st1.cur);
    }
  }

  lemma ProductPreDealt(c: Config, m: nat, k: Keys, g: Gate, masks: seq<Share>, st: St)
    requires m > 0 && StOk(c, 0, k, st) && |masks| == |Ins(g)| && (g.Simd? ==> |g.ins1| == |g.ins2|)
    ensures var p := ProductPre(c, 0, m, k, g, masks, st).0;
      && p.Product? && Dealt(m, k, p.mask.tp, TPSecret(m, p.mask.tp))
      && AllDealt(m, k, p.prods, Products(m, g, Deltas(m, 0, masks)))
  {
    RandomShareDealt(c, m, k, st);
    ShareSecretsDealt(c, m, k, Products(m, g, Deltas(m, 0, masks)), RandomShare(c, 0, m, k, st).1);
  }

  ghost predicate InputsDealt(m: nat, k: Keys, inp: Inputs)
    requires m > 0
  {
    inp.Supplied? ==> forall j :: 0 <= j < |inp.shares| ==>
      Dealt(m, k, inp.shares[j].tp, TPSecret(m, inp.shares[j].tp))
  }

  /** An input's mask is known to its owner, or is the next one of the supplied list. */
  ghost predicate InputMask(c: Config, m: nat, inp: Inputs, pre: Table, w: Wire, seen: nat)
    requires m > 0 && w in pre
  {
    match inp
    case Owned(owners) =>
      w in owners && pre[w].Input? && pre[w].owner == owners[w] && Cong(m, pre[w].maskValue, Delta(m, pre, w))
    case Supplied(shares) =>
      |shares| > 0 && pre[w].mask == shares[seen % |shares|]
  }

  lemma LocalGood(c: Config, m: nat, k: Keys, w: Wire, g: Gate, pre: Table)
    requires m > 0 && c.nP > 0 && |k.sh| == c.nP + 1 && KeysOk(m, k.sh, k.key)
    requires Basic(g) && !g.Inp? && !Interactive(g) && GateOk(g, w) && w !in pre && TableOk(c, 0, pre)
    requires forall v :: v in Ins(g) ==> v in pre
    requires forall v :: v in pre ==> Dealt(m, k, pre[v].mask.tp, Delta(m, pre, v))
    ensures GoodPre(m, k, g, pre[w := Local(Combine(c, 0, m, MaskExpr(g), Masks(pre, Ins(g))))], w)
  {
    var ins := Ins(g);
    assert forall i :: 0 <= i < |ins| ==> ins[i] in ins;
    var d := DeltasOf(m, pre, ins);
    var r := Combine(c, 0, m, MaskExpr(g), Masks(pre, ins));
    CombineDealt(c, m, k, MaskExpr(g), Masks(pre, ins), d);
    DealtDelta(m, k, r.tp, Secret(MaskExpr(g), d));
    assert DeltasOf(m, pre[w := Local(r)], ins) == d;
  }

  lemma ProductGood(c: Config, m: nat, k: Keys, w: Wire, g: Gate, pre: Table, st: St)
    requires m > 0 && StOk(c, 0, k, st)
    requires Basic(g) && Interactive(g) && GateOk(g, w) && w !in pre
    requires forall v :: v in Ins(g) ==> v in pre
    ensures GoodPre(m, k, g, pre[w := ProductPre(c, 0, m, k, g, Masks(pre, Ins(g)), st).0], w)
  {
    var ins := Ins(g);
    assert forall i :: 0 <= i < |ins| ==> ins[i] in ins;
    var p := ProductPre(c, 0, m, k, g, Masks(pre, ins), st).0;
    ProductPreDealt(c, m, k, g, Masks(pre, ins), st);
    assert DeltasOf(m, pre[w := p], ins) == Deltas(m, 0, Masks(pre, ins));
  }

  lemma InputGood(c: Config, m: nat, k: Keys, inp: Inputs, w: Wire, seen: nat, pre: Table, st: St)
    requires m > 0 && StOk(c, 0, k, st) && TableOk(c, 0, pre) && w !in pre
    requires InputsOk(c, 0, inp, w) && InputsDealt(m, k, inp)
    ensures var pre' := pre[w := BasicPre(c, 0, m, k, inp, w, Inp, seen, pre, st).0];
      GoodPre(m, k, Inp, pre', w) && InputMask(c, m, inp, pre', w, seen)
  {
    var p := BasicPre(c, 0, m, k, inp, w, Inp, seen, pre, st).0;
    if inp.Owned? {
      var owner := inp.owners[w];
      DealSecretDealt(c, m, k, Draw(c, m, owner, st.cur[owner]), Bump(st.cur, owner, 1));
      DealtDelta(m, k, p.mask.tp, p.maskValue);
    }
  }

  lemma BasicPreGood(c: Config, m: nat, k: Keys, inp: Inputs, w: Wire, g: Gate, seen: nat, pre: Table, st: St)
    requires m > 0 && StOk(c, 0, k, st) && TableOk(c, 0, pre) && Basic(g) && GateOk(g, w) && w !in pre
    requires forall v :: v in Ins(g) ==> v in pre
    requires g.Inp? ==> InputsOk(c, 0, inp, w)
    requires KeysOk(m, k.sh, k.key) && InputsDealt(m, k, inp)
    requires forall v :: v in pre ==> Dealt(m, k, pre[v].mask.tp, Delta(m, pre, v))
    ensures var pre' := pre[w := BasicPre(c, 0, m, k, inp, w, g, seen, pre, st).0];
      GoodPre(m, k, g, pre', w) && (g.Inp? ==> InputMask(c, m, inp, pre', w, seen))
  {
    if g.Inp? {
      InputGood(c, m, k, inp, w, seen, pre, st);
    } else if !Interactive(g) {
      LocalGood(c, m, k, w, g, pre);
    } else {
      ProductGood(c, m, k, w, g, pre, st);
    }
  }

  /** An entry's meaning is not disturbed by later entries. */
  lemma GoodPreFrame(m: nat, k: Keys, g: Gate, pre: Table, w: Wire, v: Wire, p: Pre)
    requires m > 0 && GoodPre(m, k, g, pre, w) && v !in pre
    ensures GoodPre(m, k, g, pre[v := p], w)
  {
    assert DeltasOf(m, pre[v := p], Ins(g)) == DeltasOf(m, pre, Ins(g));
  }

  ghost predicate GoodEntries(m: nat, k: Keys, gates: seq<Gate>, pre: Table)
    requires m > 0
  {
    forall w :: w in pre ==> w < |gates| && GoodPre(m, k, gates[w], pre, w)
  }

  ghost predicate GoodInputs(c: Config, m: nat, inp: Inputs, gates: seq<Gate>, order: seq<Wire>, pre: Table)
    requires m > 0 && forall i :: 0 <= i < |order| ==> order[i] < |gates|
  {
    forall j :: 0 <= j < |order| && gates[order[j]].Inp? ==>
      order[j] in pre && InputMask(c, m, inp, pre, order[j], SeenInputs(gates, order[..j]))
  }

  lemma GoodEntriesStep(m: nat, k: Keys, gates: seq<Gate>, pre: Table, w: Wire, p: Pre)
    requires m > 0 && GoodEntries(m, k, gates, pre) && w !in pre && w < |gates|
    requires GoodPre(m, k, gates[w], pre[w := p], w)
    ensures GoodEntries(m, k, gates, pre[w := p])
  {
    forall v | v in pre && v != w ensures v < |gates| && GoodPre(m, k, gates[v], pre[w := p], v) {
      GoodPreFrame(m, k, gates[v], pre, v, w, p);
    }
  }

  lemma GoodInputsStep(c: Config, m: nat, inp: Inputs, gates: seq<Gate>, order: seq<Wire>, pre: Table, w: Wire, p: Pre)
    requires m > 0 && forall i :: 0 <= i < |order| ==> order[i] < |gates|
    requires w < |gates| && w !in pre
    requires GoodInputs(c, m, inp, gates, order, pre)
    requires gates[w].Inp? ==> InputMask(c, m, inp, pre[w := p], w, SeenInputs(gates, order))
    ensures GoodInputs(c, m, inp, gates, order + [w], pre[w := p])
  {
    var order' := order + [w];
    forall j | 0 <= j < |order'| && gates[order'[j]].Inp?
      ensures order'[j] in pre[w := p]
      ensures InputMask(c, m, inp, pre[w := p], order'[j], SeenInputs(gates, order'[..j]))
    {
      if j < |order| {
        assert order'[..j] == order[..j];
        assert InputMask(c, m, inp, pre, order[j], SeenInputs(gates, order[..j]));
      } else {
        assert order'[..j] == order;
      }
    }
  }

  /** The dealer's pass over a circuit without comparisons fills a good table. */
  lemma {:induction false} RunBasicGood(c: Config, m: nat, k: Keys, inp: Inputs, gates: seq<Gate>, order: seq<Wire>,
                                        st: St)
    requires m > 0 && StOk(c, 0, k, st) && AllBasic(gates) && RunOk(c, 0, gates, inp, order)
    requires KeysOk(m, k.sh, k.key) && InputsDealt(m, k, inp)
    ensures var pre := RunBasic(c, 0, m, k, inp, gates, order, st).0;
      && GoodEntries(m, k, gates, pre)
      && (forall i :: 0 <= i < |order| ==> order[i] < |gates|) && GoodInputs(c, m, inp, gates, order, pre)
  {
    if order != [] {
      var n := |order| - 1;
      LastReady(c, 0, gates, inp, order);
      var w, seen := order[n], SeenInputs(gates, order[..n]);
      assert GateOk(gates[w], w);
      assert order == order[..n] + [w];
      var (pre, st1) := RunBasic(c, 0, m, k, inp, gates, order[..n], st);
      var p := BasicPre(c, 0, m, k, inp, w, gates[w], seen, pre, st1).0;
      RunBasicGood(c, m, k, inp, gates, order[..n], st);
      BasicPreGood(c, m, k, inp, w, gates[w], seen, pre, st1);
      GoodEntriesStep(m, k, gates, pre, w, p);
      GoodInputsStep(c, m, inp, gates, order[..n], pre, w, p);
    }
  }
}
