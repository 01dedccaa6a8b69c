/** The offline phase of all ids together: the dealer's pass, its message to the last party,
    and everybody else's pass. */
module OfflinePhase {
  import opened Circuits
  import opened Sharing
  import opened Dealing
  import opened Offline
  import opened Preprocess
  import opened BoolPacking
  import opened OfflineProgram
  import Z = ZMod

  // ---- the lists hold elements of their ring ----------------------------------------------------

  ghost predicate AllIn(m: nat, s: seq<int>) {
    forall i :: 0 <= i < |s| ==> 0 <= s[i] < m
  }

  ghost predicate InRing(m: nat, ch: Chan) {
    AllIn(m, ch.sh) && AllIn(m, ch.sec) && AllIn(m, ch.party)
  }

  lemma RandomShareInRing(c: Config, id: nat, m: nat, k: Keys, st: St)
    requires m > 0 && StOk(c, id, k, st) && InRing(m, st.ch)
    ensures InRing(m, RandomShare(c, id, m, k, st).1.ch)
  {
  }

  lemma SecretInRing(c: Config, id: nat, m: nat, k: Keys, secret: int, st: St)
    requires m > 0 && StOk(c, id, k, st) && InRing(m, st.ch)
    ensures InRing(m, RandomShareSecret(c, id, m, k, secret, st).1.ch)
  {
  }

  lemma WithPartyInRing(c: Config, id: nat, m: nat, k: Keys, owner: nat, st: St)
    requires m > 0 && StOk(c, id, k, st) && 0 < owner <= c.nP && InRing(m, st.ch)
    ensures InRing(m, RandomShareWithParty(c, id, m, k, owner, st).2.ch)
  {
  }

  lemma {:induction false} SecretsInRing(c: Config, id: nat, m: nat, k: Keys, secrets: seq<int>, st: St)
    requires m > 0 && StOk(c, id, k, st) && InRing(m, st.ch)
    ensures InRing(m, ShareSecrets(c, id, m, k, secrets, st).1.ch)
  {
    hide InRing, RandomShareSecret;
    if secrets != [] {
      var n := |secrets| - 1;
      SecretsInRing(c, id, m, k, secrets[..n], st);
      SecretInRing(c, id, m, k, secrets[n], ShareSecrets(c, id, m, k, secrets[..n], st).1);
    }
  }

  lemma BasicInRing(c: Config, id: nat, m: nat, k: Keys, inp: Inputs, w: Wire, g: Gate, seen: nat, pre: Table, st: St)
    requires m > 0 && StOk(c, id, k, st) && TableOk(c, id, pre) && Basic(g) && GateOk(g, w)
    requires forall v :: v in Ins(g) ==> v in pre
    requires g.Inp? ==> InputsOk(c, id, inp, w)
    requires InRing(m, st.ch)
    ensures InRing(m, BasicPre(c, id, m, k, inp, w, g, seen, pre, st).1.ch)
  {
    hide InRing, RandomShare, RandomShareWithParty, ShareSecrets, Products, Combine;
    if g.Inp? {
      if inp.Owned? {
        WithPartyInRing(c, id, m, k, inp.owners[w], st);
      }
    } else if Interactive(g) {
      var masks := Masks(pre, Ins(g));
      RandomShareInRing(c, id, m, k, st);
      SecretsInRing(c, id, m, k, Products(m, g, Deltas(m, id, masks)), RandomShare(c, id, m, k, st).1);
    }
  }

  lemma {:induction false} RunInRing(c: Config, id: nat, m: nat, k: Keys, inp: Inputs, gates: seq<Gate>,
                                     order: seq<Wire>, st: St)
    requires m > 0 && StOk(c, id, k, st) && AllBasic(gates) && RunOk(c, id, gates, inp, order) && InRing(m, st.ch)
    ensures InRing(m, RunBasic(c, id, m, k, inp, gates, order, st).1.ch)
  {
    hide InRing, BasicPre, InputsOk, GateOk, Ins;
    if order != [] {
      var n := |order| - 1;
      LastReady(c, id, gates, inp, order);
      RunInRing(c, id, m, k, inp, gates, order[..n], st);
      var (pre, st1) := RunBasic(c, id, m, k, inp, gates, order[..n], st);
      BasicInRing(c, id, m, k, inp, order[n], gates[order[n]], SeenInputs(gates, order[..n]), pre, st1);
    }
  }

  lemma CompareInRing(c: Config, id: nat, m: nat, k: FullKeys, inner: Inner, input: Share, st: Full)
    requires m > 0 && FullOk(c, id, k, st) && InnerOk(inner) && InRing(2, st.b)
    ensures InRing(2, ComparePre(c, id, m, k, inner, input, st).1.b)
  {
    hide InRing, RunBasic, ShareSecrets, PaddedBits, Combine, CompareArith;
    var bits := PaddedBits(m, id, Draw(c, m, 0, st.cur[0]), input);
    var s := St(Bump(st.cur, 0, 1), st.b);
    SecretsInRing(c, id, 2, k.b, bits, s);
    var (shares, s1) := ShareSecrets(c, id, 2, k.b, bits, s);
    RunInRing(c, id, 2, k.b, Supplied(shares), inner.gates, inner.order, s1);
  }

  /** The Boolean corrections are bits. */
  lemma {:induction false} FullInRing(c: Config, id: nat, m: nat, k: FullKeys, inner: Inner, inp: Inputs,
                                      gates: seq<Gate>, order: seq<Wire>, n: nat, st: Full)
    requires m > 0 && FullOk(c, id, k, st) && InnerOk(inner) && AllSupported(gates) && RunOk(c, id, gates, inp, order)
    requires n <= |order| && InRing(2, st.b)
    ensures InRing(2, RunFull(c, id, m, k, inner, inp, gates, order, n, st).1.b)
  {
    hide InRing, BasicPre, ComparePre, InputsOk, GateOk, InnerOk, FullOk;
    if n > 0 {
      FullInRing(c, id, m, k, inner, inp, gates, order, n - 1, st);
      GateReady(c, id, gates, inp, order, n - 1);
      var (pre, st1) := RunFull(c, id, m, k, inner, inp, gates, order, n - 1, st);
      var g := gates[order[n - 1]];
      if g.Unary? {
        assert g.inp in Ins(g);
        CompareInRing(c, id, m, k, inner, pre[g.inp].mask, st1);
      }
    }
  }

  // ---- the message and the passes ---------------------------------------------------------------

  /** The lists of one ring on their way from the dealer to the last party: their lengths, then
      all elements in one vector, packed if they are bits. */
  method SendLists(from: ShareLists, bits: bool) returns (to: ShareLists)
    requires bits ==> InRing(2, from.Value())
    ensures fresh(to) && to.Value() == Received(from.Value())
  {
    var lengths, flat := from.Flatten();
    if bits {
      ReducedFlat(from.Value());
      var packed := Pack(ToBits(flat));
      var unpacked := Unpack(packed, lengths[0]);
      assert packed + [] == packed;
      UnpackedIs(ToBits(flat), packed, [], unpacked);
      flat := FromBits(unpacked);
    }
    to := new ShareLists.Receive(lengths, flat, from.Value());
  }

  lemma ReducedFlat(ch: Chan)
    requires InRing(2, ch)
    ensures AreBits(ch.sh + ch.sec + ch.party)
  {
  }

  ghost predicate Ready(c: Config, m: nat, inner: Inner, inp: Inputs, gs: seq<Gate>, ls: seq<seq<Wire>>) {
    && m > 1 && c.nP > 0 && InnerOk(inner) && AllSupported(gs)
    && forall id :: 0 <= id <= c.nP ==> RunOk(c, id, gs, inp, Flatten(ls))
  }

  /** The table of one id. */
  ghost function TableFor(c: Config, id: nat, m: nat, inner: Inner, inp: Inputs, gs: seq<Gate>,
                          ls: seq<seq<Wire>>): Table
    requires Ready(c, m, inner, inp, gs, ls) && id <= c.nP
  {
    Preprocessing(c, id, m, inner, inp, gs, Flatten(ls)).0
  }

  /** One id's pass, with fresh lists unless it is the last party. */
  method RunId(c: Config, id: nat, m: nat, inner: Inner, inp: Inputs, gs: seq<Gate>, ls: seq<seq<Wire>>,
               arith: ShareLists, boolean: ShareLists) returns (ev: OfflineEvaluator)
    requires Ready(c, m, inner, inp, gs, ls) && id <= c.nP && arith != boolean
    requires id != c.nP ==> arith.Value() == EMPTY && boolean.Value() == EMPTY
    requires id == c.nP ==> var lists := Preprocessing(c, 0, m, inner, inp, gs, Flatten(ls)).1;
      arith.Value() == Received(lists.a) && boolean.Value() == Received(lists.b)
    modifies arith, boolean
    ensures fresh(ev) && ev.gates == TableFor(c, id, m, inner, inp, gs, ls)
    ensures var lists := Preprocessing(c, id, m, inner, inp, gs, Flatten(ls)).1;
      arith.Value() == lists.a && boolean.Value() == lists.b
  {
    hide InnerOk, AllSupported, RunOk, Preprocessing;
    ev := new OfflineEvaluator(c, id, arith, boolean);
    ev.SetWireMasks(m, inner, inp, gs, ls);
  }

  lemma DealerBits(c: Config, m: nat, inner: Inner, inp: Inputs, gs: seq<Gate>, ls: seq<seq<Wire>>)
    requires Ready(c, m, inner, inp, gs, ls)
    ensures InRing(2, Preprocessing(c, 0, m, inner, inp, gs, Flatten(ls)).1.b)
  {
    hide InnerOk, AllSupported, RunOk, RunFull;
    var order := Flatten(ls);
    FullInRing(c, 0, m, KeysFor(c, 0, m), inner, inp, gs, order, |order|, Full(StartCur(c, 0), EMPTY, EMPTY));
  }

  /** The offline phase: all ids end with the tables the theorems are about. */
  method RunAll(c: Config, m: nat, inner: Inner, inp: Inputs, gs: seq<Gate>, ls: seq<seq<Wire>>)
    returns (evs: seq<OfflineEvaluator>)
    requires Ready(c, m, inner, inp, gs, ls)
    ensures |evs| == c.nP + 1
    ensures forall id :: 0 <= id <= c.nP ==> evs[id].gates == TableFor(c, id, m, inner, inp, gs, ls)
  {
    hide InnerOk, AllSupported, RunOk, TableFor, Preprocessing, InRing;
    var arith := new ShareLists([], [], []);
    var boolean := new ShareLists([], [], []);
    var dealer := RunId(c, 0, m, inner, inp, gs, ls, arith, boolean);
    DealerBits(c, m, inner, inp, gs, ls);
    ghost var lists := Preprocessing(c, 0, m, inner, inp, gs, Flatten(ls)).1;
    evs := [dealer];
    var a := SendLists(arith, false);
    var b := SendLists(boolean, true);
    for id := 1 to c.nP
      invariant |evs| == id && a != b && a.Value() == Received(lists.a) && b.Value() == Received(lists.b)
      invariant forall q :: 0 <= q < id ==> evs[q].gates == TableFor(c, q, m, inner, inp, gs, ls)
    {
      var none := new ShareLists([], [], []);
      var noneB := new ShareLists([], [], []);
      var ev := RunId(c, id, m, inner, inp, gs, ls, none, noneB);
      evs := evs + [ev];
    }
    var last := RunId(c, c.nP, m, inner, inp, gs, ls, a, b);
    evs := evs + [last];
  }

  /** The tables themselves, for circuits run once. */
  method AllTables(c: Config, m: nat, inner: Inner, inp: Inputs, gs: seq<Gate>, ls: seq<seq<Wire>>)
    returns (tabs: seq<seq<Table>>)
    requires Ready(c, m, inner, inp, gs, ls)
    ensures |tabs| == c.nP + 1
    ensures forall id :: 0 <= id <= c.nP ==> tabs[id] == [TableFor(c, id, m, inner, inp, gs, ls)]
  {
    hide Ready, TableFor;
    var evs := RunAll(c, m, inner, inp, gs, ls);
    tabs := [];
    for id := 0 to |evs|
      invariant |tabs| == id && forall i :: 0 <= i < id ==> tabs[i] == [evs[i].gates]
    {
      tabs := tabs + [[evs[id].gates]];
    }
  }
}
