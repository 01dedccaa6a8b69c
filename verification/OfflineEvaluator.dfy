/** The offline program of one id: it advances the streams, appends the corrections for the
    last party (or reads them), and fills the table of gates.  Every method is tied to the
    function of the same name that the theorems are about. */
module OfflineProgram {
  import opened Circuits
  import opened Sharing
  import opened Dealing
  import opened Offline
  import opened Preprocess
  import Z = ZMod

  /** What is announced of the lists of a ring: how many elements in all, and in each. */
  function LengthsOf(ch: Chan): (lengths: seq<nat>)
    ensures |lengths| == 4 && lengths[0] == |ch.sh + ch.sec + ch.party|
  {
    [|ch.sh| + |ch.sec| + |ch.party|, |ch.sh|, |ch.sec|, |ch.party|]
  }

  /** The corrections of one ring and how far they are read. */
  class ShareLists {
    var randSh: seq<int>
    var randShSec: seq<int>
    var randShParty: seq<int>
    var idxRandSh: nat
    var idxRandShSec: nat
    var idxRandShParty: nat

    function Value(): Chan
      reads this
    {
      Chan(randSh, randShSec, randShParty, idxRandSh, idxRandShSec, idxRandShParty)
    }

    /** Lists as received, nothing read yet. */
    constructor (sh: seq<int>, sec: seq<int>, party: seq<int>)
      ensures Value() == Chan(sh, sec, party, 0, 0, 0)
    {
      randSh, randShSec, randShParty := sh, sec, party;
      idxRandSh, idxRandShSec, idxRandShParty := 0, 0, 0;
    }

    /** The lists in one message: the lengths tell where each ends. */
    method Flatten() returns (lengths: seq<nat>, flat: seq<int>)
      ensures lengths == LengthsOf(Value()) && flat == randSh + randShSec + randShParty
    {
      lengths := [|randSh| + |randShSec| + |randShParty|, |randSh|, |randShSec|, |randShParty|];
      flat := [];
      for i := 0 to |randSh|
        invariant flat == randSh[..i]
      {
        flat := flat + [randSh[i]];
      }
      for i := 0 to |randShSec|
        invariant flat == randSh + randShSec[..i]
      {
        flat := flat + [randShSec[i]];
      }
      for i := 0 to |randShParty|
        invariant flat == randSh + randShSec + randShParty[..i]
      {
        flat := flat + [randShParty[i]];
      }
    }

    /** What the last party makes of the message: the sender's lists, unread. */
    constructor Receive(lengths: seq<nat>, flat: seq<int>, ghost sent: Chan)
      requires lengths == LengthsOf(sent) && flat == sent.sh + sent.sec + sent.party
      ensures Value() == Received(sent)
    {
      randSh := flat[..lengths[1]];
      randShSec := flat[lengths[1]..][..lengths[2]];
      randShParty := flat[lengths[1] + lengths[2]..][..lengths[3]];
      idxRandSh, idxRandShSec, idxRandShParty := 0, 0, 0;
    }
  }

  class OfflineEvaluator {
    const c: Config
    const id: nat
    /** The positions in the shared streams. */
    var cur: seq<nat>
    const arith: ShareLists
    const boolean: ShareLists
    /** What is kept for the gates done so far. */
    var gates: Table

    ghost predicate Valid()
      reads this
    {
      arith != boolean && c.nP > 0 && id <= c.nP && |cur| == c.nP + 1
    }

    ghost function Ring(lists: ShareLists): St
      reads this, lists
    {
      St(cur, lists.Value())
    }

    ghost function State(): Full
      reads this, arith, boolean
    {
      Full(cur, arith.Value(), boolean.Value())
    }

    constructor (c: Config, id: nat, arith: ShareLists, boolean: ShareLists)
      requires c.nP > 0 && id <= c.nP && arith != boolean
      ensures Valid() && this.c == c && this.id == id && this.arith == arith && this.boolean == boolean
      ensures cur == seq(c.nP + 1, _ => 0) && gates == map[]
    {
      this.c, this.id, this.arith, this.boolean := c, id, arith, boolean;
      cur := seq(c.nP + 1, _ => 0);
      gates := map[];
    }

    /** The next element of a stream. */
    method Randomize(m: nat, stream: nat) returns (v: int)
      requires Valid() && m > 0 && stream <= c.nP
      modifies this`cur
      ensures Valid() && v == Draw(c, m, stream, old(cur)[stream]) && cur == Bump(old(cur), stream, 1)
    {
      v := Draw(c, m, stream, cur[stream]);
      cur := cur[stream := cur[stream] + 1];
    }

    /** The dealer's draws for parties 1..n-1: a value each, and a tag each below t. */
    method DrawShares(m: nat, n: nat, t: nat) returns (values: seq<int>, tags: seq<int>)
      requires Valid() && m > 0 && t <= n <= c.nP + 1 && t > 0
      modifies this`cur
      ensures Valid() && cur == Advance(old(cur), n, 2)
      ensures values == Drawn(c, m, old(cur), 0, n) && tags == Drawn(c, m, old(cur), 1, t)
    {
      values, tags := [0], [0];
      for i := 1 to n
        invariant Valid() && cur == Advance(old(cur), i, 2)
        invariant values == Drawn(c, m, old(cur), 0, i)
        invariant tags == Drawn(c, m, old(cur), 1, if i < t then i else t)
      {
        var val := Randomize(m, i);
        values := values + [val];
        var tag := Randomize(m, i);
        if i < t {
          tags := tags + [tag];
        }
      }
    }

    /** The sum as the dealer accumulates it. */
    method SumUp(m: nat, parts: seq<int>) returns (sum: int)
      requires m > 0
      ensures sum == Z.SumMod(m, parts)
    {
      sum := 0;
      for i := 0 to |parts|
        invariant sum == Z.SumMod(m, parts[..i])
      {
        assert parts[..i + 1][..i] == parts[..i];
        sum := Z.Add(m, sum, parts[i]);
      }
      assert parts[..|parts|] == parts;
    }

    /** A sharing of a value nobody chose. */
    method RandomShare(m: nat, k: Keys, lists: ShareLists) returns (s: Share)
      requires Valid() && m > 0 && (lists == arith || lists == boolean) && StOk(c, id, k, Ring(lists))
      modifies this`cur, lists
      ensures Valid() && (s, Ring(lists)) == Dealing.RandomShare(c, id, m, k, old(Ring(lists)))
    {
      if id == 0 {
        var values, tags := DrawShares(m, c.nP + 1, c.nP);
        var secret := SumUp(m, values);
        var tagn := SumUp(m, tags);
        var last := Z.Sub(m, Z.Mul(m, k.key, secret), tagn);
        lists.randSh := lists.randSh + [last];
        s := DealerPart(k, values, tags + [last]);
      } else {
        var val := Randomize(m, id);
        var tag := Randomize(m, id);
        assert cur == Bump(old(cur), id, 2);
        if id == c.nP {
          tag := At(lists.randSh, lists.idxRandSh);
          lists.idxRandSh := lists.idxRandSh + 1;
        }
        s := OwnPart(k, val, tag);
      }
    }

    /** The dealer's side of sharing a known value: all parts but the last are draws. */
    method Deal(m: nat, k: Keys, secret: int) returns (s: Share, valn: int, tagn: int)
      requires Valid() && m > 0 && |k.sh| == c.nP + 1
      modifies this`cur
      ensures Valid() && (s, valn, tagn, cur) == DealSecret(c, m, k, secret, old(cur))
    {
      var values, tags := DrawShares(m, c.nP, c.nP);
      var sumv := SumUp(m, values);
      var sumt := SumUp(m, tags);
      valn := Z.Sub(m, secret, sumv);
      tagn := Z.Sub(m, Z.Mul(m, k.key, secret), sumt);
      s := DealerPart(k, values + [valn], tags + [tagn]);
    }

    /** A sharing of a value the dealer knows; the other ids ignore `secret`. */
    method RandomShareSecret(m: nat, k: Keys, secret: int, lists: ShareLists) returns (s: Share)
      requires Valid() && m > 0 && (lists == arith || lists == boolean) && StOk(c, id, k, Ring(lists))
      modifies this`cur, lists
      ensures Valid() && (s, Ring(lists)) == Dealing.RandomShareSecret(c, id, m, k, secret, old(Ring(lists)))
    {
      if id == 0 {
        var valn, tagn;
        s, valn, tagn := Deal(m, k, secret);
        lists.randShSec := lists.randShSec + [valn] + [tagn];
        assert lists.randShSec == old(lists.randShSec) + [valn, tagn];
      } else if id != c.nP {
        var val := Randomize(m, id);
        var tag := Randomize(m, id);
        assert cur == Bump(old(cur), id, 2);
        s := OwnPart(k, val, tag);
      } else {
        var val := At(lists.randShSec, lists.idxRandShSec);
        lists.idxRandShSec := lists.idxRandShSec + 1;
        var tag := At(lists.randShSec, lists.idxRandShSec);
        lists.idxRandShSec := lists.idxRandShSec + 1;
        s := OwnPart(k, val, tag);
      }
    }

    /** A sharing of a mask that `owner` draws together with the dealer. */
    method RandomShareWithParty(m: nat, k: Keys, owner: nat, lists: ShareLists) returns (s: Share, secret: int)
      requires Valid() && m > 0 && (lists == arith || lists == boolean) && StOk(c, id, k, Ring(lists))
      requires 0 < owner <= c.nP
      modifies this`cur, lists
      ensures Valid() && (s, secret, Ring(lists)) == Dealing.RandomShareWithParty(c, id, m, k, owner, old(Ring(lists)))
    {
      secret := 0;
      if id == 0 {
        secret := Randomize(m, owner);
        var valn, tagn;
        s, valn, tagn := Deal(m, k, secret);
        lists.randShParty := lists.randShParty + [valn] + [tagn];
        assert lists.randShParty == old(lists.randShParty) + [valn, tagn];
      } else {
        if id == owner {
          secret := Randomize(m, id);
        }
        ghost var before := cur;
        if id != c.nP {
          var val := Randomize(m, id);
          var tag := Randomize(m, id);
          assert cur == Bump(before, id, 2);
          s := OwnPart(k, val, tag);
        } else {
          var val := At(lists.randShParty, lists.idxRandShParty);
          lists.idxRandShParty := lists.idxRandShParty + 1;
          var tag := At(lists.randShParty, lists.idxRandShParty);
          lists.idxRandShParty := lists.idxRandShParty + 1;
          s := OwnPart(k, val, tag);
        }
      }
    }

    /** One sharing after the other. */
    method ShareAll(m: nat, k: Keys, secrets: seq<int>, lists: ShareLists) returns (ss: seq<Share>)
      requires Valid() && m > 0 && (lists == arith || lists == boolean) && StOk(c, id, k, Ring(lists))
      modifies this`cur, lists
      ensures Valid() && (ss, Ring(lists)) == ShareSecrets(c, id, m, k, secrets, old(Ring(lists)))
    {
      hide Dealing.RandomShareSecret;
      ss := [];
      for i := 0 to |secrets|
        invariant Valid() && StOk(c, id, k, Ring(lists))
        invariant (ss, Ring(lists)) == ShareSecrets(c, id, m, k, secrets[..i], old(Ring(lists)))
      {
        assert secrets[..i + 1][..i] == secrets[..i];
        var s := RandomShareSecret(m, k, secrets[i], lists);
        ss := ss + [s];
      }
      assert secrets[..|secrets|] == secrets;
    }

    /** An interactive gate: a fresh mask, then the products of its input masks. */
    method ProductGate(m: nat, k: Keys, g: Gate, masks: seq<Share>, lists: ShareLists) returns (p: Pre)
      requires Valid() && m > 0 && (lists == arith || lists == boolean) && StOk(c, id, k, Ring(lists))
      requires |masks| == |Ins(g)| && (g.Simd? ==> |g.ins1| == |g.ins2|)
      modifies this`cur, lists
      ensures Valid() && (p, Ring(lists)) == ProductPre(c, id, m, k, g, masks, old(Ring(lists)))
    {
      hide Dealing.RandomShare, ShareSecrets, Products;
      var secrets := Products(m, g, Deltas(m, id, masks));
      var mask := RandomShare(m, k, lists);
      var prods := ShareAll(m, k, secrets, lists);
      p := Product(mask, prods);
    }

    /** One gate of a circuit without comparisons. */
    method BasicGate(m: nat, k: Keys, inp: Inputs, w: Wire, g: Gate, seen: nat, pre: Table, lists: ShareLists)
      returns (p: Pre)
      requires Valid() && m > 0 && (lists == arith || lists == boolean) && StOk(c, id, k, Ring(lists))
      requires TableOk(c, id, pre) && Basic(g) && GateOk(g, w)
      requires forall v :: v in Ins(g) ==> v in pre
      requires g.Inp? ==> InputsOk(c, id, inp, w)
      modifies this`cur, lists
      ensures Valid() && (p, Ring(lists)) == BasicPre(c, id, m, k, inp, w, g, seen, pre, old(Ring(lists)))
    {
      if g.Inp? {
        hide Dealing.RandomShareWithParty, GateOk, Ins;
        match inp
        case Owned(owners) =>
          var s, v := RandomShareWithParty(m, k, owners[w], lists);
          p := Input(s, owners[w], v);
        case Supplied(shares) =>
          p := Local(shares[seen % |shares|]);
      } else {
        p := NoInputGate(m, k, inp, w, g, seen, pre, lists);
      }
    }

    method NoInputGate(m: nat, k: Keys, ghost inp: Inputs, w: Wire, g: Gate, ghost seen: nat, pre: Table,
                       lists: ShareLists)
      returns (p: Pre)
      requires Valid() && m > 0 && (lists == arith || lists == boolean) && StOk(c, id, k, Ring(lists))
      requires TableOk(c, id, pre) && Basic(g) && !g.Inp? && GateOk(g, w)
      requires forall v :: v in Ins(g) ==> v in pre
      modifies this`cur, lists
      ensures Valid() && (p, Ring(lists)) == BasicPre(c, id, m, k, inp, w, g, seen, pre, old(Ring(lists)))
    {
      if !Interactive(g) {
        p := Local(Combine(c, id, m, MaskExpr(g), Masks(pre, Ins(g))));
      } else {
        p := ProductGate(m, k, g, Masks(pre, Ins(g)), lists);
      }
    }

    /** The pass over a circuit without comparisons. */
    method BasicPass(m: nat, k: Keys, inp: Inputs, gs: seq<Gate>, order: seq<Wire>, lists: ShareLists)
      returns (pre: Table)
      requires Valid() && m > 0 && (lists == arith || lists == boolean) && StOk(c, id, k, Ring(lists))
      requires AllBasic(gs) && RunOk(c, id, gs, inp, order)
      modifies this`cur, lists
      ensures Valid() && (pre, Ring(lists)) == RunBasic(c, id, m, k, inp, gs, order, old(Ring(lists)))
    {
      pre := map[];
      var seen := 0;
      RunOkPrefix(c, id, gs, inp, order, 0);
      OrderBelow(gs, order);
      for j := 0 to |order|
        invariant Valid() && StOk(c, id, k, Ring(lists)) && RunOk(c, id, gs, inp, order[..j])
        invariant (pre, Ring(lists)) == RunBasic(c, id, m, k, inp, gs, order[..j], old(Ring(lists)))
        invariant seen == SeenInputs(gs, order[..j])
      {
        hide BasicPre, InputsOk, GateOk, Ins;
        RunOkPrefix(c, id, gs, inp, order, j + 1);
        assert order[..j + 1][..j] == order[..j] && order[..j + 1][j] == order[j];
        LastReady(c, id, gs, inp, order[..j + 1]);
        var w := order[j];
        var p := BasicGate(m, k, inp, w, gs[w], seen, pre, lists);
        pre := pre[w := p];
        if gs[w].Inp? {
          seen := seen + 1;
        }
      }
      assert order[..|order|] == order;
    }

    /** A less-than-zero gate: the padded input mask's bits are shared, the comparator is
        masked, its output's mask bit is shared in the field. */
    method LtzGate(m: nat, k: FullKeys, inner: Inner, input: Share) returns (p: Pre)
      requires Valid() && m > 0 && FullOk(c, id, k, State()) && InnerOk(inner)
      modifies this`cur, arith, boolean
      ensures Valid() && (p, State()) == ComparePre(c, id, m, k, inner, input, old(State()))
    {
      hide RunBasic, ShareSecrets, InnerOk, Dealing.RandomShare, Dealing.RandomShareSecret, PaddedBits, Combine,
           LtzMask;
      var padded := Randomize(m, 0);
      var bits := PaddedBits(m, id, padded, input);
      var table := LtzBool(k.b, inner, bits);
      var bit := if id == 0 then TPSecret(2, table[inner.out].mask.tp) else 0;
      var maskB := RandomShareSecret(m, k.a, bit, arith);
      var maskW := RandomShare(m, k.a, arith);
      p := Compare(Combine(c, id, m, LtzMask(), [maskW, maskB]), maskW, maskB, padded, table);
    }

    /** Its Boolean part. */
    method LtzBool(k: Keys, inner: Inner, bits: seq<int>) returns (table: Table)
      requires Valid() && StOk(c, id, k, Ring(boolean)) && InnerOk(inner) && |bits| > 0
      modifies this`cur, boolean
      ensures Valid() && (table, Ring(boolean)) == CompareBool(c, id, k, inner, bits, old(Ring(boolean)))
    {
      hide RunBasic, ShareSecrets;
      var shares := ShareAll(2, k, bits, boolean);
      table := BasicPass(2, k, Supplied(shares), inner.gates, inner.order, boolean);
    }

    /** One gate of the arithmetic circuit. */
    method GateMasks(m: nat, k: FullKeys, inner: Inner, inp: Inputs, w: Wire, g: Gate, seen: nat) returns (p: Pre)
      requires Valid() && m > 0 && FullOk(c, id, k, State()) && InnerOk(inner) && TableOk(c, id, gates)
      requires (Basic(g) || g.Unary?) && GateOk(g, w)
      requires forall v :: v in Ins(g) ==> v in gates
      requires g.Inp? ==> InputsOk(c, id, inp, w)
      modifies this`cur, arith, boolean
      ensures Valid() && (p, State()) == GatePre(c, id, m, k, inner, inp, w, g, seen, gates, old(State()))
    {
      if g.Unary? {
        assert g.inp in Ins(g);
        hide ComparePre, InnerOk;
        p := LtzGate(m, k, inner, gates[g.inp].mask);
      } else {
        hide BasicPre, InnerOk, InputsOk;
        p := BasicGate(m, k.a, inp, w, g, seen, gates, arith);
      }
    }

    /** The keys: the dealer draws every party's share, a party its own. */
    method KeyGen(m: nat) returns (k: FullKeys)
      requires Valid() && m > 0 && cur == seq(c.nP + 1, _ => 0)
      modifies this`cur
      ensures Valid() && k == KeysFor(c, id, m) && cur == StartCur(c, id)
    {
      if id == 0 {
        var sh := DrawKeys(m, 0);
        var key := SumUp(m, sh);
        var bsh := DrawKeys(2, 1);
        var bkey := SumUp(2, bsh);
        k := FullKeys(Keys(key, sh), Keys(bkey, bsh));
      } else {
        var key := Randomize(m, id);
        var bkey := Randomize(2, id);
        k := FullKeys(Keys(key, []), Keys(bkey, []));
      }
    }

    method DrawKeys(m: nat, pos: nat) returns (sh: seq<int>)
      requires Valid() && m > 0 && forall i :: 0 < i <= c.nP ==> cur[i] == pos
      modifies this`cur
      ensures Valid() && sh == DealerKeys(c, m, pos).sh
      ensures forall i :: 0 <= i <= c.nP ==> cur[i] == if i == 0 then old(cur)[0] else pos + 1
    {
      sh := [0];
      for i := 1 to c.nP + 1
        invariant Valid() && |sh| == i
        invariant forall j :: 0 <= j < i ==> sh[j] == if j == 0 then 0 else Draw(c, m, j, pos)
        invariant forall j :: 0 <= j <= c.nP ==> cur[j] == if 0 < j < i then pos + 1 else old(cur)[j]
      {
        var v := Randomize(m, i);
        sh := sh + [v];
      }
    }

    /** The first n gates of the order are done, from the state `start`. */
    ghost predicate DoneTo(m: nat, k: FullKeys, inner: Inner, inp: Inputs, gs: seq<Gate>, order: seq<Wire>, n: nat,
                           start: Full, seen: nat)
      reads this, arith, boolean
      requires m > 0 && FullOk(c, id, k, start) && InnerOk(inner) && AllSupported(gs) && RunOk(c, id, gs, inp, order)
    {
      && OrderOk(gs, order) && n <= |order| && Valid()
      && (gates, State()) == RunFull(c, id, m, k, inner, inp, gs, order, n, start)
      && seen == SeenInputs(gs, order[..n])
    }

    /** The pass over all levels, gate by gate. */
    method SetWireMasksParty(m: nat, k: FullKeys, inner: Inner, inp: Inputs, gs: seq<Gate>, ls: seq<seq<Wire>>)
      requires Valid() && m > 0 && FullOk(c, id, k, State()) && InnerOk(inner) && AllSupported(gs)
      requires RunOk(c, id, gs, inp, Circuits.Flatten(ls)) && gates == map[]
      modifies this, arith, boolean
      ensures Valid()
      ensures var order := Circuits.Flatten(ls);
        (gates, State()) == RunFull(c, id, m, k, inner, inp, gs, order, |order|, old(State()))
    {
      ghost var order, start := Circuits.Flatten(ls), State();
      OrderBelow(gs, order);
      assert DoneTo(m, k, inner, inp, gs, order, 0, start, 0);
      var seen := PassLevels(m, k, inner, inp, gs, ls, order, start);
    }

    method PassLevels(m: nat, k: FullKeys, inner: Inner, inp: Inputs, gs: seq<Gate>, ls: seq<seq<Wire>>,
                      ghost order: seq<Wire>, ghost start: Full)
      returns (seen: nat)
      requires Valid() && m > 0 && FullOk(c, id, k, start) && InnerOk(inner) && AllSupported(gs)
      requires order == Circuits.Flatten(ls) && RunOk(c, id, gs, inp, order)
      requires DoneTo(m, k, inner, inp, gs, order, 0, start, 0)
      modifies this, arith, boolean
      ensures Valid() && DoneTo(m, k, inner, inp, gs, order, |order|, start, seen)
    {
      hide RunOk, InnerOk, AllSupported, FullOk, RunFull, SeenInputs, Circuits.Flatten, DoneTo, LevelAt;
      seen := 0;
      ghost var n := 0;
      FlattenNone(ls);
      for l := 0 to |ls|
        invariant Valid() && n == |Circuits.Flatten(ls[..l])| <= |order|
        invariant DoneTo(m, k, inner, inp, gs, order, n, start, seen)
      {
        FlattenLevel(ls, l);
        seen := PassLevel(m, k, inner, inp, gs, ls[l], seen, order, n, start);
        n := n + |ls[l]|;
      }
      assert ls[..|ls|] == ls;
    }

    /** One level of the pass. */
    method PassLevel(m: nat, k: FullKeys, inner: Inner, inp: Inputs, gs: seq<Gate>, level: seq<Wire>, seen0: nat,
                     ghost order: seq<Wire>, ghost n: nat, ghost start: Full)
      returns (seen: nat)
      requires Valid() && m > 0 && FullOk(c, id, k, start) && InnerOk(inner) && AllSupported(gs)
      requires RunOk(c, id, gs, inp, order) && LevelAt(order, n, level)
      requires DoneTo(m, k, inner, inp, gs, order, n, start, seen0)
      modifies this, arith, boolean
      ensures Valid() && DoneTo(m, k, inner, inp, gs, order, n + |level|, start, seen)
    {
      hide RunOk, InnerOk, AllSupported, FullOk, RunFull, SeenInputs, DoneTo;
      seen := seen0;
      for j := 0 to |level|
        invariant Valid() && DoneTo(m, k, inner, inp, gs, order, n + j, start, seen)
      {
        seen := PassGate(m, k, inner, inp, gs, level[j], seen, order, n + j, start);
      }
    }

    /** One gate of the pass. */
    method PassGate(m: nat, k: FullKeys, inner: Inner, inp: Inputs, gs: seq<Gate>, w: Wire, seen0: nat,
                    ghost order: seq<Wire>, ghost n: nat, ghost start: Full)
      returns (seen: nat)
      requires Valid() && m > 0 && FullOk(c, id, k, start) && InnerOk(inner) && AllSupported(gs)
      requires RunOk(c, id, gs, inp, order) && n < |order| && w == order[n]
      requires DoneTo(m, k, inner, inp, gs, order, n, start, seen0)
      modifies this, arith, boolean
      ensures Valid() && DoneTo(m, k, inner, inp, gs, order, n + 1, start, seen)
    {
      hide GatePre, InnerOk, InputsOk, GateOk, Ins;
      GateReady(c, id, gs, inp, order, n);
      var p := GateMasks(m, k, inner, inp, w, gs[w], seen0);
      gates := gates[w := p];
      assert order[..n + 1][..n] == order[..n];
      seen := if gs[w].Inp? then seen0 + 1 else seen0;
    }

    /** The whole offline phase of this id: keys, then the pass.  The last party's lists are
        the dealer's. */
    method SetWireMasks(m: nat, inner: Inner, inp: Inputs, gs: seq<Gate>, ls: seq<seq<Wire>>)
      requires Valid() && m > 1 && InnerOk(inner) && AllSupported(gs)
      requires RunOk(c, 0, gs, inp, Circuits.Flatten(ls)) && RunOk(c, id, gs, inp, Circuits.Flatten(ls))
      requires cur == seq(c.nP + 1, _ => 0) && gates == map[]
      requires id != c.nP ==> arith.Value() == EMPTY && boolean.Value() == EMPTY
      requires id == c.nP ==> var lists := Preprocessing(c, 0, m, inner, inp, gs, Circuits.Flatten(ls)).1;
        arith.Value() == Received(lists.a) && boolean.Value() == Received(lists.b)
      modifies this, arith, boolean
      ensures Valid()
      ensures (gates, State()) == Preprocessing(c, id, m, inner, inp, gs, Circuits.Flatten(ls))
    {
      hide RunOk, InnerOk, AllSupported, RunFull;
      ghost var order := Circuits.Flatten(ls);
      var k := KeyGen(m);
      SetWireMasksParty(m, k, inner, inp, gs, ls);
    }
  }

  ghost predicate OrderOk(gs: seq<Gate>, order: seq<Wire>) {
    forall i :: 0 <= i < |order| ==> order[i] < |gs|
  }

  ghost predicate LevelAt(order: seq<Wire>, n: nat, level: seq<Wire>) {
    n + |level| <= |order| && forall j :: 0 <= j < |level| ==> order[n + j] == level[j]
  }

  /** Where level l is found in the order of traversal. */
  lemma FlattenLevel(ls: seq<seq<Wire>>, l: nat)
    requires l < |ls|
    ensures var start := |Circuits.Flatten(ls[..l])|;
      && start + |ls[l]| == |Circuits.Flatten(ls[..l + 1])| <= |Circuits.Flatten(ls)|
      && LevelAt(Circuits.Flatten(ls), start, ls[l])
  {
    assert ls[..l + 1][..l] == ls[..l];
    FlattenPrefix(ls, l + 1);
  }

  lemma FlattenNone(ls: seq<seq<Wire>>)
    ensures Circuits.Flatten(ls[..0]) == []
  {
  }

  lemma {:induction false} FlattenPrefix(ls: seq<seq<Wire>>, n: nat)
    requires n <= |ls|
    ensures Circuits.Flatten(ls[..n]) <= Circuits.Flatten(ls)
    decreases |ls|
  {
    if n == |ls| {
      assert ls[..n] == ls;
    } else {
      FlattenPrefix(ls[..|ls| - 1], n);
      assert ls[..|ls| - 1][..n] == ls[..n];
    }
  }
}
