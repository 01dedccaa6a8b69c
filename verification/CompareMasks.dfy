/** What the dealer's table means when the circuit has comparisons. */
module CompareMasks {
  import opened Circuits
  import opened Sharing
  import opened Dealing
  import opened Offline
  import opened Masks
  import opened Preprocess
  import opened ZMod

  /** The comparator's inputs are masked, over and over, by the bits of r from the most
      significant one down. */
  ghost predicate InnerInputs(inner: Inner, table: Table, r: nat)
    requires forall i :: 0 <= i < |inner.order| ==> inner.order[i] < |inner.gates|
  {
    forall j :: 0 <= j < |inner.order| && inner.gates[inner.order[j]].Inp? ==>
      && inner.order[j] in table
      && Cong(2, Delta(2, table, inner.order[j]), Bit(r, 63 - SeenInputs(inner.gates, inner.order[..j]) % 64))
  }

  /** The masked comparator of a comparison whose padded input mask is r. */
  ghost predicate GoodInner(k: Keys, inner: Inner, table: Table, r: nat) {
    && (forall i :: 0 <= i < |inner.order| ==> inner.order[i] < |inner.gates|)
    && GoodEntries(2, k, inner.gates, table)
    && (forall w: Wire :: w < |inner.gates| ==> w in table)
    && NoCompare(table)
    && InnerInputs(inner, table, r)
  }

  /** A comparison's entry: its comparator is masked by the padded input mask, mask_b is
      the comparator's output mask, and the result's mask follows from mask_w and mask_b. */
  ghost predicate GoodCompare(m: nat, k: FullKeys, inner: Inner, pre: Table, input: Wire, w: Wire)
    requires m > 0
  {
    && CompareHeld(m, k.a, pre, w) && input in pre
    && GoodInner(k.b, inner, pre[w].inner, Add(m, pre[w].padded, Delta(m, pre, input)))
    && inner.out in pre[w].inner
    && var dw, db := TPSecret(m, pre[w].maskW.tp), TPSecret(m, pre[w].maskB.tp);
       && Cong(m, Delta(m, pre, w), -2 * dw - db)
       && Cong(m, db, Delta(2, pre[w].inner, inner.out))
  }

  ghost predicate NoCompare(pre: Table) {
    forall w :: w in pre ==> !pre[w].Compare?
  }

  lemma {:induction false} NoCompares(c: Config, m: nat, k: Keys, inp: Inputs, gates: seq<Gate>, order: seq<Wire>,
                                      st: St)
    requires m > 0 && StOk(c, 0, k, st) && AllBasic(gates) && RunOk(c, 0, gates, inp, order)
    ensures NoCompare(RunBasic(c, 0, m, k, inp, gates, order, st).0)
  {
    hide GateOk, BasicPre, Ins, WellFormed, Topological, TPOk;
    if order != [] {
      var n := |order| - 1;
      LastReady(c, 0, gates, inp, order);
      NoCompares(c, m, k, inp, gates, order[..n], st);
      var (pre, st1) := RunBasic(c, 0, m, k, inp, gates, order[..n], st);
      assert NoCompare(pre);
      BasicIsNoCompare(c, m, k, inp, order[n], gates[order[n]], SeenInputs(gates, order[..n]), pre, st1);
    }
  }

  lemma AllDealtDelta(m: nat, k: Keys, shares: seq<Share>, secrets: seq<int>)
    requires m > 0 && AllDealt(m, k, shares, secrets)
    ensures InputsDealt(m, k, Supplied(shares))
    ensures forall j :: 0 <= j < |shares| ==> Cong(m, TPSecret(m, shares[j].tp), secrets[j])
  {
    forall j | 0 <= j < |shares|
      ensures Dealt(m, k, shares[j].tp, TPSecret(m, shares[j].tp)) && Cong(m, TPSecret(m, shares[j].tp), secrets[j])
    {
      DealtDelta(m, k, shares[j].tp, secrets[j]);
    }
  }

  lemma CompareBoolGood(c: Config, k: Keys, inner: Inner, secrets: seq<int>, st: St, r: nat)
    requires StOk(c, 0, k, st) && InnerOk(inner) && KeysOk(2, k.sh, k.key)
    requires |secrets| == 64 && forall i :: 0 <= i < 64 ==> secrets[i] == Bit(r, 63 - i)
    ensures GoodInner(k, inner, CompareBool(c, 0, k, inner, secrets, st).0, r)
  {
    hide Cong, GoodEntries, Bit, WellFormed, AllBasic, Topological, RunBasic, ShareSecrets, KeysOk, InnerInputs,
         GoodInputs, InputsDealt, TPSecret, NoCompare;
    var (shares, s1) := ShareSecrets(c, 0, 2, k, secrets, st);
    ShareSecretsDealt(c, 2, k, secrets, st);
    AllDealtDelta(2, k, shares, secrets);
    RunBasicGood(c, 2, k, Supplied(shares), inner.gates, inner.order, s1);
    NoCompares(c, 2, k, Supplied(shares), inner.gates, inner.order, s1);
    var table := RunBasic(c, 0, 2, k, Supplied(shares), inner.gates, inner.order, s1).0;
    SuppliedMasks(c, inner, shares, secrets, table, r);
  }

  lemma SuppliedMasks(c: Config, inner: Inner, shares: seq<Share>, secrets: seq<int>, table: Table, r: nat)
    requires |shares| == |secrets| == 64 && forall i :: 0 <= i < 64 ==> secrets[i] == Bit(r, 63 - i)
    requires forall j :: 0 <= j < 64 ==> Cong(2, TPSecret(2, shares[j].tp), secrets[j])
    requires forall i :: 0 <= i < |inner.order| ==> inner.order[i] < |inner.gates|
    requires GoodInputs(c, 2, Supplied(shares), inner.gates, inner.order, table)
    ensures InnerInputs(inner, table, r)
  {
    hide Cong, Bit, TPSecret;
    forall j | 0 <= j < |inner.order| && inner.gates[inner.order[j]].Inp?
      ensures inner.order[j] in table
      ensures Cong(2, Delta(2, table, inner.order[j]), Bit(r, 63 - SeenInputs(inner.gates, inner.order[..j]) % 64))
    {
      var seen := SeenInputs(inner.gates, inner.order[..j]);
      assert InputMask(c, 2, Supplied(shares), table, inner.order[j], seen);
      assert secrets[seen % 64] == Bit(r, 63 - seen % 64);
    }
  }

  lemma CompareArithGood(c: Config, m: nat, k: Keys, bit: int, st: St)
    requires m > 0 && StOk(c, 0, k, st) && KeysOk(m, k.sh, k.key) && |k.sh| == c.nP + 1
    ensures var r := CompareArith(c, 0, m, k, bit, st);
      && Dealt(m, k, r.0.tp, TPSecret(m, r.0.tp)) && Dealt(m, k, r.1.tp, TPSecret(m, r.1.tp))
      && Cong(m, TPSecret(m, r.1.tp), bit)
      && var mask := Combine(c, 0, m, LtzMask(), [r.0, r.1]);
         && Dealt(m, k, mask.tp, TPSecret(m, mask.tp))
         && Cong(m, TPSecret(m, mask.tp), -2 * TPSecret(m, r.0.tp) - TPSecret(m, r.1.tp))
  {
    hide Cong, Dealt, TPSecret, LtzMask, KeysOk, Combine;
    var (maskB, s3) := RandomShareSecret(c, 0, m, k, bit, st);
    var (maskW, s4) := RandomShare(c, 0, m, k, s3);
    DealSecretDealt(c, m, k, bit, st.cur);
    DealtDelta(m, k, maskB.tp, bit);
    RandomShareDealt(c, m, k, s3);
    var ss := [TPSecret(m, maskW.tp), TPSecret(m, maskB.tp)];
    CombineDealt(c, m, k, LtzMask(), [maskW, maskB], ss);
    LtzMaskSecret(ss[0], ss[1]);
    DealtDelta(m, k, Combine(c, 0, m, LtzMask(), [maskW, maskB]).tp, Secret(LtzMask(), ss));
  }

  lemma LtzMaskSecret(dw: int, db: int)
    ensures Secret(LtzMask(), [dw, db]) == -2 * dw - db
  {
    assert Secret(Times(Leaf(0), -2), [dw, db]) == dw * -2;
    assert Secret(Times(Leaf(1), -1), [dw, db]) == db * -1;
  }

  lemma ComparePreGood(c: Config, m: nat, k: FullKeys, inner: Inner, pre: Table, input: Wire, w: Wire, st: Full)
    requires m > 0 && FullOk(c, 0, k, st) && InnerOk(inner)
    requires KeysOk(m, k.a.sh, k.a.key) && KeysOk(2, k.b.sh, k.b.key)
    requires input in pre && w !in pre
    ensures var p := ComparePre(c, 0, m, k, inner, pre[input].mask, st).0;
      && Dealt(m, k.a, p.mask.tp, TPSecret(m, p.mask.tp))
      && GoodCompare(m, k, inner, pre[w := p], input, w)
  {
    hide Cong, Dealt, TPSecret, LtzMask, KeysOk, Combine, CompareBool, CompareArith, PaddedBits, InnerOk, GoodInner;
    var padded := Draw(c, m, 0, st.cur[0]);
    var secrets := PaddedBits(m, 0, padded, pre[input].mask);
    var s0 := St(Bump(st.cur, 0, 1), st.b);
    CompareBoolGood(c, k.b, inner, secrets, s0, Add(m, padded, Delta(m, pre, input)));
    var (table, s2) := CompareBool(c, 0, k.b, inner, secrets, s0);
    CompareArithGood(c, m, k.a, TPSecret(2, table[inner.out].mask.tp), St(s2.cur, st.a));
  }

  /** The dealer's table of a whole circuit. */
  ghost predicate GoodTable(m: nat, k: FullKeys, inner: Inner, gates: seq<Gate>, pre: Table)
    requires m > 0
  {
    && GoodEntries(m, k.a, gates, pre)
    && forall w :: w in pre && w < |gates| && gates[w].Unary? ==> GoodCompare(m, k, inner, pre, gates[w].inp, w)
  }

  lemma GatePreGood(c: Config, m: nat, k: FullKeys, inner: Inner, inp: Inputs, w: Wire, g: Gate, seen: nat, pre: Table,
                    st: Full)
    requires m > 0 && FullOk(c, 0, k, st) && InnerOk(inner) && TableOk(c, 0, pre) && inp.Owned?
    requires (Basic(g) || g.Unary?) && GateOk(g, w) && w !in pre
    requires forall v :: v in Ins(g) ==> v in pre
    requires g.Inp? ==> InputsOk(c, 0, inp, w)
    requires KeysOk(m, k.a.sh, k.a.key) && KeysOk(2, k.b.sh, k.b.key)
    requires forall v :: v in pre ==> Dealt(m, k.a, pre[v].mask.tp, Delta(m, pre, v))
    ensures var pre' := pre[w := GatePre(c, 0, m, k, inner, inp, w, g, seen, pre, st).0];
      && GoodPre(m, k.a, g, pre', w) && (g.Inp? ==> InputMask(c, m, inp, pre', w, seen))
      && (g.Unary? ==> GoodCompare(m, k, inner, pre', g.inp, w))
  {
    hide Cong, Dealt, KeysOk, InnerOk, GoodCompare, ComparePre, BasicPre, InputMask, StOk, TableOk, Delta;
    if g.Unary? {
      assert g.inp in Ins(g);
      ComparePreGood(c, m, k, inner, pre, g.inp, w, st);
      CompareGoodPre(m, k.a, g, pre, w, ComparePre(c, 0, m, k, inner, pre[g.inp].mask, st).0);
    } else {
      BasicPreGood(c, m, k.a, inp, w, g, seen, pre, Arith(st));
    }
  }

  lemma CompareGoodPre(m: nat, k: Keys, g: Gate, pre: Table, w: Wire, p: Pre)
    requires m > 0 && g.Unary? && g.inp in pre && Dealt(m, k, p.mask.tp, TPSecret(m, p.mask.tp))
    ensures GoodPre(m, k, g, pre[w := p], w)
  {
  }

  lemma GoodTableStep(m: nat, k: FullKeys, inner: Inner, gates: seq<Gate>, pre: Table, w: Wire, p: Pre)
    requires m > 0 && GoodTable(m, k, inner, gates, pre) && w !in pre && w < |gates|
    requires GoodPre(m, k.a, gates[w], pre[w := p], w)
    requires gates[w].Unary? ==> GoodCompare(m, k, inner, pre[w := p], gates[w].inp, w)
    ensures GoodTable(m, k, inner, gates, pre[w := p])
  {
    hide GoodPre, GoodInner, Cong, Dealt;
    GoodEntriesStep(m, k.a, gates, pre, w, p);
    forall v | v in pre && v < |gates| && gates[v].Unary? && v != w
      ensures GoodCompare(m, k, inner, pre[w := p], gates[v].inp, v)
    {
      assert GoodCompare(m, k, inner, pre, gates[v].inp, v);
    }
  }

  lemma EntriesDealt(m: nat, k: Keys, gates: seq<Gate>, pre: Table)
    requires m > 0 && GoodEntries(m, k, gates, pre)
    ensures forall v :: v in pre ==> Dealt(m, k, pre[v].mask.tp, Delta(m, pre, v))
  {
    hide Dealt, Delta;
    forall v | v in pre ensures Dealt(m, k, pre[v].mask.tp, Delta(m, pre, v)) {
      assert GoodPre(m, k, gates[v], pre, v);
    }
  }

  /** The dealer's pass fills a good table, comparisons included. */
  lemma {:induction false} RunFullGood(c: Config, m: nat, k: FullKeys, inner: Inner, inp: Inputs, gates: seq<Gate>,
                                       order: seq<Wire>, n: nat, st: Full)
    requires m > 0 && FullOk(c, 0, k, st) && InnerOk(inner) && AllSupported(gates) && RunOk(c, 0, gates, inp, order)
    requires n <= |order| && inp.Owned? && KeysOk(m, k.a.sh, k.a.key) && KeysOk(2, k.b.sh, k.b.key)
    ensures var pre := RunFull(c, 0, m, k, inner, inp, gates, order, n, st).0;
      && GoodTable(m, k, inner, gates, pre)
      && (forall i :: 0 <= i < n ==> order[i] < |gates|) && GoodInputs(c, m, inp, gates, order[..n], pre)
  {
    hide Cong, Dealt, KeysOk, InnerOk, GoodCompare, GoodPre, GatePre, GateOk, Ins, InputMask, FullOk, RunOk, Basic;
    if n > 0 {
      RunFullGood(c, m, k, inner, inp, gates, order, n - 1, st);
      GateReady(c, 0, gates, inp, order, n - 1);
      var (pre, st1) := RunFull(c, 0, m, k, inner, inp, gates, order, n - 1, st);
      var w, seen := order[n - 1], SeenInputs(gates, order[..n - 1]);
      var p := GatePre(c, 0, m, k, inner, inp, w, gates[w], seen, pre, st1).0;
      EntriesDealt(m, k.a, gates, pre);
      GatePreGood(c, m, k, inner, inp, w, gates[w], seen, pre, st1);
      GoodTableStep(m, k, inner, gates, pre, w, p);
      GoodInputsStep(c, m, inp, gates, order[..n - 1], pre, w, p);
    }
  }
}
