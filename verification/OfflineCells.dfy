/** Every share has its own place in the streams.  The sharings of a whole offline pass are
    numbered along the traversal; each is tied to the positions of the streams it is made of,
    and no position belongs to two of them. */
module OfflineCells {
  import opened Circuits
  import opened Sharing
  import opened Dealing
  import opened Offline
  import opened Preprocess
  import Z = ZMod

  // ---- the plan of a pass ---------------------------------------------------------------------

  /** One use of the streams: a public value, a sharing of a value nobody chose, of one the
      dealer knows, or of an input mask. */
  datatype Slot = Pad | Fresh(boolean: bool) | Known(boolean: bool) | InputOf(owner: nat)

  /** Stream i gives party i its value and tag, but the last party gets those of a known value
      in a list. */
  predicate Takes(nP: nat, i: nat, s: Slot) {
    0 < i <= nP && !s.Pad? && (s.Fresh? || i < nP)
  }

  /** How many positions of stream i are used up. */
  function Use(nP: nat, i: nat, s: Slot): nat {
    if s.Pad? then (if i == 0 then 1 else 0)
    else (if s == InputOf(i) && i > 0 then 1 else 0) + (if Takes(nP, i, s) then 2 else 0)
  }

  /** The first position of stream i after the first j uses; the keys took two. */
  function Start(nP: nat, i: nat, slots: seq<Slot>, j: nat): nat
    requires j <= |slots|
  {
    if j == 0 then (if i > 0 then 2 else 0) else Start(nP, i, slots, j - 1) + Use(nP, i, slots[j - 1])
  }

  /** Where the value of sharing j is drawn; its tag is drawn next. */
  function Cell(nP: nat, i: nat, slots: seq<Slot>, j: nat): nat
    requires j < |slots|
  {
    Start(nP, i, slots, j) + if slots[j] == InputOf(i) then 1 else 0
  }

  /** The list for the last party that a use adds to. */
  datatype ListName = Nowhere | Sh(boolean: bool) | Sec(boolean: bool) | OwnerSh

  function ListOf(s: Slot): ListName {
    match s
    case Pad => Nowhere
    case Fresh(b) => Sh(b)
    case Known(b) => Sec(b)
    case InputOf(_) => OwnerSh
  }

  function Rank(slots: seq<Slot>, j: nat, l: ListName): nat
    requires j <= |slots|
  {
    if j == 0 then 0 else Rank(slots, j - 1, l) + if ListOf(slots[j - 1]) == l then 1 else 0
  }

  lemma {:induction false} PlanGrows(nP: nat, i: nat, slots: seq<Slot>, more: seq<Slot>, j: nat, l: ListName)
    requires j <= |slots|
    ensures Start(nP, i, slots + more, j) == Start(nP, i, slots, j) && Rank(slots + more, j, l) == Rank(slots, j, l)
  {
    if j > 0 {
      PlanGrows(nP, i, slots, more, j - 1, l);
    }
  }

  // ---- a share in its place --------------------------------------------------------------------

  /** Party i's part of a sharing, from the dealer's record or at party i itself. */
  function PartAt(c: Config, id: nat, s: Share, i: nat): Auth
    requires i <= c.nP && (id == 0 ==> TPOk(s.tp, c.nP + 1))
  {
    if id == 0 then PartOf(s.tp, i) else s.auth
  }

  /** Sharing j as id has it: party i's part is drawn at the cell of stream i, and what the
      last party cannot draw is on the lists. */
  ghost predicate Placed(c: Config, id: nat, m: nat, slots: seq<Slot>, j: nat, s: Share, ch: Chan)
    requires m > 0
  {
    && j < |slots| && (id == 0 ==> TPOk(s.tp, c.nP + 1))
    && forall i :: 1 <= i <= c.nP && (id == 0 || id == i) ==> PlacedAt(c, m, slots, j, i, PartAt(c, id, s, i), ch)
  }

  ghost predicate PlacedAt(c: Config, m: nat, slots: seq<Slot>, j: nat, i: nat, part: Auth, ch: Chan)
    requires m > 0 && j < |slots|
  {
    Drawn(c, m, slots[j], i, Cell(c.nP, i, slots, j), Rank(slots, j, ListOf(slots[j])), part, ch)
  }

  /** Party i's part is drawn at position p and the next, or is on its list at place r. */
  ghost predicate Drawn(c: Config, m: nat, s: Slot, i: nat, p: nat, r: nat, part: Auth, ch: Chan)
    requires m > 0
  {
    if i < c.nP then
      !s.Pad? && part.value == c.tape(i, p) % m && part.tag == c.tape(i, p + 1) % m
    else
      match s
      case Pad => false
      case Fresh(_) => part.value == c.tape(i, p) % m && r < |ch.sh| && part.tag == ch.sh[r]
      case Known(_) => 2 * r + 1 < |ch.sec| && part.value == ch.sec[2 * r] && part.tag == ch.sec[2 * r + 1]
      case InputOf(_) => 2 * r + 1 < |ch.party| && part.value == ch.party[2 * r] && part.tag == ch.party[2 * r + 1]
  }

  ghost predicate Longer(a: Chan, b: Chan) {
    a.sh <= b.sh && a.sec <= b.sec && a.party <= b.party
  }

  lemma PlacedGrows(c: Config, id: nat, m: nat, slots: seq<Slot>, more: seq<Slot>, j: nat, s: Share, ch: Chan,
                    ch': Chan)
    requires m > 0 && Placed(c, id, m, slots, j, s, ch) && Longer(ch, ch')
    ensures Placed(c, id, m, slots + more, j, s, ch')
  {
    hide Start, Rank, Drawn, Longer, PartAt;
    forall i | 1 <= i <= c.nP && (id == 0 || id == i)
      ensures PlacedAt(c, m, slots + more, j, i, PartAt(c, id, s, i), ch')
    {
      assert PlacedAt(c, m, slots, j, i, PartAt(c, id, s, i), ch);
      PlanGrows(c.nP, i, slots, more, j, ListOf(slots[j]));
      DrawnGrows(c, m, slots[j], i, Cell(c.nP, i, slots, j), Rank(slots, j, ListOf(slots[j])), PartAt(c, id, s, i), ch,
                 ch');
    }
  }

  lemma DrawnGrows(c: Config, m: nat, s: Slot, i: nat, p: nat, r: nat, part: Auth, ch: Chan, ch': Chan)
    requires m > 0 && Drawn(c, m, s, i, p, r, part, ch) && Longer(ch, ch')
    ensures Drawn(c, m, s, i, p, r, part, ch')
  {
  }

  // ---- the dealer's draws --------------------------------------------------------------------------

  /** The dealer's cursors after the uses so far. */
  ghost predicate CursorsAt(c: Config, slots: seq<Slot>, cur: seq<nat>) {
    |cur| == c.nP + 1 && forall i :: 0 <= i <= c.nP ==> cur[i] == Start(c.nP, i, slots, |slots|)
  }

  /** The lists of one ring after the uses so far. */
  ghost predicate ListsAt(boolean: bool, slots: seq<Slot>, ch: Chan) {
    && |ch.sh| == Rank(slots, |slots|, Sh(boolean)) && |ch.sec| == 2 * Rank(slots, |slots|, Sec(boolean))
    && |ch.party| == if boolean then 0 else 2 * Rank(slots, |slots|, OwnerSh)
  }

  lemma PlanPush(nP: nat, i: nat, slots: seq<Slot>, s: Slot, l: ListName)
    ensures var more := slots + [s];
      && Start(nP, i, more, |slots|) == Start(nP, i, slots, |slots|)
      && Start(nP, i, more, |more|) == Start(nP, i, slots, |slots|) + Use(nP, i, s)
      && Rank(more, |slots|, l) == Rank(slots, |slots|, l)
      && Rank(more, |more|, l) == Rank(slots, |slots|, l) + if ListOf(s) == l then 1 else 0
  {
    PlanGrows(nP, i, slots, [s], |slots|, l);
  }

  /** One more use of the streams. */
  lemma CursorsNext(c: Config, slots: seq<Slot>, s: Slot, cur: seq<nat>, cur': seq<nat>)
    requires CursorsAt(c, slots, cur) && |cur'| == |cur|
    requires forall i :: 0 <= i <= c.nP ==> cur'[i] == cur[i] + Use(c.nP, i, s)
    ensures CursorsAt(c, slots + [s], cur')
  {
    hide Start, Rank, Use;
    forall i | 0 <= i <= c.nP ensures cur'[i] == Start(c.nP, i, slots + [s], |slots + [s]|) {
      PlanPush(c.nP, i, slots, s, Nowhere);
    }
  }

  lemma CursorAt(c: Config, slots: seq<Slot>, cur: seq<nat>, i: nat)
    requires CursorsAt(c, slots, cur) && i <= c.nP
    ensures |cur| == c.nP + 1 && cur[i] == Start(c.nP, i, slots, |slots|)
  {
  }

  lemma ListsNext(boolean: bool, slots: seq<Slot>, s: Slot, ch: Chan, ch': Chan)
    requires ListsAt(boolean, slots, ch) && (boolean ==> !s.InputOf?)
    requires |ch'.sh| == |ch.sh| + if s == Fresh(boolean) then 1 else 0
    requires |ch'.sec| == |ch.sec| + if s == Known(boolean) then 2 else 0
    requires |ch'.party| == |ch.party| + if s.InputOf? then 2 else 0
    ensures ListsAt(boolean, slots + [s], ch')
  {
    hide Start, Rank, Use;
    PlanPush(0, 0, slots, s, Sh(boolean));
    PlanPush(0, 0, slots, s, Sec(boolean));
    PlanPush(0, 0, slots, s, OwnerSh);
  }

  /** The share made by that use, from where the cursors and the lists stood. */
  lemma PlacedNow(c: Config, m: nat, slots: seq<Slot>, s: Slot, cur: seq<nat>, r: nat, sh: Share, ch: Chan)
    requires m > 0 && CursorsAt(c, slots, cur) && TPOk(sh.tp, c.nP + 1) && r == Rank(slots, |slots|, ListOf(s))
    requires forall i :: 1 <= i <= c.nP ==>
      Drawn(c, m, s, i, cur[i] + if s == InputOf(i) then 1 else 0, r, PartOf(sh.tp, i), ch)
    ensures Placed(c, 0, m, slots + [s], |slots|, sh, ch)
  {
    hide Start, Rank, Use, Drawn, PartOf;
    forall i | 1 <= i <= c.nP ensures PlacedAt(c, m, slots + [s], |slots|, i, PartAt(c, 0, sh, i), ch) {
      PlanPush(c.nP, i, slots, s, ListOf(s));
    }
  }

  lemma FreshPlaced(c: Config, m: nat, k: Keys, boolean: bool, slots: seq<Slot>, st: St)
    requires m > 0 && StOk(c, 0, k, st) && CursorsAt(c, slots, st.cur) && ListsAt(boolean, slots, st.ch)
    ensures var (s, st') := RandomShare(c, 0, m, k, st); var slots' := slots + [Fresh(boolean)];
      && CursorsAt(c, slots', st'.cur) && ListsAt(boolean, slots', st'.ch)
      && Placed(c, 0, m, slots', |slots|, s, st'.ch)
  {
    hide Start, Rank, Placed, CursorsAt, Z.SumMod, Closing;
    var (s, st') := RandomShare(c, 0, m, k, st);
    CursorsNext(c, slots, Fresh(boolean), st.cur, st'.cur);
    ListsNext(boolean, slots, Fresh(boolean), st.ch, st'.ch);
    PlacedNow(c, m, slots, Fresh(boolean), st.cur, |st.ch.sh|, s, st'.ch);
  }

  lemma KnownPlaced(c: Config, m: nat, k: Keys, boolean: bool, secret: int, slots: seq<Slot>, st: St)
    requires m > 0 && StOk(c, 0, k, st) && CursorsAt(c, slots, st.cur) && ListsAt(boolean, slots, st.ch)
    ensures var (s, st') := RandomShareSecret(c, 0, m, k, secret, st); var slots' := slots + [Known(boolean)];
      && CursorsAt(c, slots', st'.cur) && ListsAt(boolean, slots', st'.ch)
      && Placed(c, 0, m, slots', |slots|, s, st'.ch)
  {
    hide Start, Rank, Placed, CursorsAt, Z.SumMod, Closing;
    var (s, st') := RandomShareSecret(c, 0, m, k, secret, st);
    CursorsNext(c, slots, Known(boolean), st.cur, st'.cur);
    ListsNext(boolean, slots, Known(boolean), st.ch, st'.ch);
    PlacedNow(c, m, slots, Known(boolean), st.cur, |st.ch.sec| / 2, s, st'.ch);
  }

  /** What the dealer's side of a known value is made of. */
  lemma DealtParts(c: Config, m: nat, k: Keys, secret: int, cur: seq<nat>)
    requires m > 0 && c.nP > 0 && |cur| == c.nP + 1 == |k.sh|
    ensures var (s, valn, tagn, cur') := DealSecret(c, m, k, secret, cur);
      && TPOk(s.tp, c.nP + 1) && |cur'| == |cur|
      && (forall i :: 0 <= i <= c.nP ==> cur'[i] == cur[i] + if 0 < i < c.nP then 2 else 0)
      && (forall i :: 1 <= i < c.nP ==>
            PartOf(s.tp, i).value == c.tape(i, cur[i]) % m && PartOf(s.tp, i).tag == c.tape(i, cur[i] + 1) % m)
      && PartOf(s.tp, c.nP).value == valn && PartOf(s.tp, c.nP).tag == tagn
  {
    hide Z.SumMod, Closing;
  }

  lemma OwnedParts(c: Config, m: nat, k: Keys, owner: nat, st: St)
    requires m > 0 && StOk(c, 0, k, st) && 0 < owner <= c.nP
    ensures var (s, v, st') := RandomShareWithParty(c, 0, m, k, owner, st);
      && v == c.tape(owner, st.cur[owner]) % m && st'.ch.sh == st.ch.sh && st'.ch.sec == st.ch.sec
      && |st'.ch.party| == |st.ch.party| + 2
      && forall i :: 0 <= i <= c.nP ==> st'.cur[i] == st.cur[i] + Use(c.nP, i, InputOf(owner))
  {
    hide DealSecret;
    DealtParts(c, m, k, Draw(c, m, owner, st.cur[owner]), Bump(st.cur, owner, 1));
  }

  lemma OwnedDrawn(c: Config, m: nat, k: Keys, owner: nat, st: St, r: nat, i: nat)
    requires m > 0 && StOk(c, 0, k, st) && 0 < owner <= c.nP && |st.ch.party| == 2 * r && 1 <= i <= c.nP
    ensures var (s, v, st') := RandomShareWithParty(c, 0, m, k, owner, st);
      Drawn(c, m, InputOf(owner), i, st.cur[i] + if i == owner then 1 else 0, r, PartOf(s.tp, i), st'.ch)
  {
    hide DealSecret, PartOf;
    DealtParts(c, m, k, Draw(c, m, owner, st.cur[owner]), Bump(st.cur, owner, 1));
  }

  lemma OwnedPlaced(c: Config, m: nat, k: Keys, owner: nat, slots: seq<Slot>, st: St)
    requires m > 0 && StOk(c, 0, k, st) && CursorsAt(c, slots, st.cur) && ListsAt(false, slots, st.ch)
    requires 0 < owner <= c.nP
    ensures var (s, v, st') := RandomShareWithParty(c, 0, m, k, owner, st); var slots' := slots + [InputOf(owner)];
      && CursorsAt(c, slots', st'.cur) && ListsAt(false, slots', st'.ch)
      && Placed(c, 0, m, slots', |slots|, s, st'.ch) && v == c.tape(owner, Start(c.nP, owner, slots', |slots|)) % m
  {
    hide Start, Rank, Placed, CursorsAt, RandomShareWithParty, PartOf, Drawn;
    var (s, v, st') := RandomShareWithParty(c, 0, m, k, owner, st);
    OwnedParts(c, m, k, owner, st);
    PlanPush(c.nP, owner, slots, InputOf(owner), OwnerSh);
    CursorAt(c, slots, st.cur, owner);
    CursorsNext(c, slots, InputOf(owner), st.cur, st'.cur);
    ListsNext(false, slots, InputOf(owner), st.ch, st'.ch);
    var r := Rank(slots, |slots|, OwnerSh);
    forall i | 1 <= i <= c.nP
      ensures Drawn(c, m, InputOf(owner), i, st.cur[i] + if InputOf(owner) == InputOf(i) then 1 else 0, r,
                    PartOf(s.tp, i), st'.ch)
    {
      OwnedDrawn(c, m, k, owner, st, r, i);
    }
    PlacedNow(c, m, slots, InputOf(owner), st.cur, r, s, st'.ch);
  }

  // ---- circuits without comparisons ----------------------------------------------------------------

  function Copies(n: nat, s: Slot): (r: seq<Slot>)
    ensures |r| == n && forall i :: 0 <= i < n ==> r[i] == s
  {
    seq(n, _ => s)
  }

  /** What a gate uses.  The inputs of the Boolean circuit were shared before. */
  function GateSlots(boolean: bool, owners: map<Wire, nat>, w: Wire, g: Gate): seq<Slot> {
    if g.Inp? then if boolean then [] else [InputOf(if w in owners then owners[w] else 0)]
    else if Interactive(g) then [Fresh(boolean)] + Copies(ProductCount(g), Known(boolean))
    else []
  }

  function BasicPlan(boolean: bool, owners: map<Wire, nat>, gates: seq<Gate>, order: seq<Wire>, n: nat): seq<Slot>
    requires n <= |order| && forall i :: 0 <= i < |order| ==> order[i] < |gates|
  {
    if n == 0 then [] else
      BasicPlan(boolean, owners, gates, order, n - 1) + GateSlots(boolean, owners, order[n - 1], gates[order[n - 1]])
  }

  ghost predicate At(c: Config, boolean: bool, slots: seq<Slot>, st: St) {
    CursorsAt(c, slots, st.cur) && ListsAt(boolean, slots, st.ch)
  }

  /** The entry of a gate whose sharings are numbered from `base` on. */
  ghost predicate BasicEntry(c: Config, id: nat, m: nat, boolean: bool, slots: seq<Slot>, base: nat, g: Gate, p: Pre,
                             ch: Chan)
    requires m > 0
  {
    if g.Inp? then
      !boolean ==>
        && p.Input? && 0 < p.owner <= c.nP && Placed(c, id, m, slots, base, p.mask, ch)
           && slots[base] == InputOf(p.owner)
        && (id == 0 || id == p.owner ==> p.maskValue == c.tape(p.owner, Start(c.nP, p.owner, slots, base)) % m)
    else if Interactive(g) then
      && p.Product? && |p.prods| == ProductCount(g) && Placed(c, id, m, slots, base, p.mask, ch)
      && forall q :: 0 <= q < |p.prods| ==> Placed(c, id, m, slots, base + 1 + q, p.prods[q], ch)
    else true
  }

  lemma EntryGrows(c: Config, id: nat, m: nat, boolean: bool, slots: seq<Slot>, more: seq<Slot>, base: nat, g: Gate,
                   p: Pre, ch: Chan, ch': Chan)
    requires m > 0 && BasicEntry(c, id, m, boolean, slots, base, g, p, ch) && Longer(ch, ch')
    ensures BasicEntry(c, id, m, boolean, slots + more, base, g, p, ch')
  {
    hide Placed, Start, Rank, Longer;
    if g.Inp? {
      if !boolean {
        PlacedGrows(c, id, m, slots, more, base, p.mask, ch, ch');
        PlacedInside(c, id, m, slots, base, p.mask, ch);
        PlanGrows(c.nP, p.owner, slots, more, base, Nowhere);
      }
    } else if Interactive(g) {
      PlacedGrows(c, id, m, slots, more, base, p.mask, ch, ch');
      forall q | 0 <= q < |p.prods| ensures Placed(c, id, m, slots + more, base + 1 + q, p.prods[q], ch') {
        PlacedGrows(c, id, m, slots, more, base + 1 + q, p.prods[q], ch, ch');
      }
    }
  }

  lemma PlacedInside(c: Config, id: nat, m: nat, slots: seq<Slot>, j: nat, s: Share, ch: Chan)
    requires m > 0 && Placed(c, id, m, slots, j, s, ch)
    ensures j < |slots|
  {
  }

  lemma LongerGrows(a: St, b: St)
    requires Grows(a, b)
    ensures Longer(a.ch, b.ch)
  {
  }

  lemma {:induction false} SecretsPlaced(c: Config, m: nat, k: Keys, boolean: bool, secrets: seq<int>, slots: seq<Slot>,
                                         st: St)
    requires m > 0 && StOk(c, 0, k, st) && At(c, boolean, slots, st)
    ensures var (ss, st') := ShareSecrets(c, 0, m, k, secrets, st);
      var slots' := slots + Copies(|secrets|, Known(boolean));
      && At(c, boolean, slots', st')
      && forall q :: 0 <= q < |ss| ==> Placed(c, 0, m, slots', |slots| + q, ss[q], st'.ch)
  {
    hide Placed, CursorsAt, ListsAt, RandomShareSecret;
    if secrets == [] {
      assert slots + Copies(0, Known(boolean)) == slots;
    } else {
      var n := |secrets| - 1;
      SecretsPlaced(c, m, k, boolean, secrets[..n], slots, st);
      var (ss, st1) := ShareSecrets(c, 0, m, k, secrets[..n], st);
      var (s, st2) := RandomShareSecret(c, 0, m, k, secrets[n], st1);
      var before := slots + Copies(n, Known(boolean));
      KnownPlaced(c, m, k, boolean, secrets[n], before, st1);
      assert slots + Copies(n + 1, Known(boolean)) == before + [Known(boolean)];
      LongerGrows(st1, st2);
      forall q | 0 <= q < n
        ensures Placed(c, 0, m, before + [Known(boolean)], |slots| + q, ss[q], st2.ch)
      {
        PlacedGrows(c, 0, m, before, [Known(boolean)], |slots| + q, ss[q], st1.ch, st2.ch);
      }
    }
  }

  lemma ProductPlaced(c: Config, m: nat, k: Keys, boolean: bool, g: Gate, masks: seq<Share>, slots: seq<Slot>, st: St)
    requires m > 0 && StOk(c, 0, k, st) && |masks| == |Ins(g)| && (g.Simd? ==> |g.ins1| == |g.ins2|)
    requires At(c, boolean, slots, st) && Interactive(g)
    ensures var (p, st') := ProductPre(c, 0, m, k, g, masks, st);
      var slots' := slots + ([Fresh(boolean)] + Copies(ProductCount(g), Known(boolean)));
      At(c, boolean, slots', st') && BasicEntry(c, 0, m, boolean, slots', |slots|, g, p, st'.ch)
  {
    hide Placed, CursorsAt, ListsAt, RandomShare, ShareSecrets, Products;
    var secrets := Products(m, g, Deltas(m, 0, masks));
    ProductsNumber(m, g, Deltas(m, 0, masks));
    var (mask, st1) := RandomShare(c, 0, m, k, st);
    var (prods, st2) := ShareSecrets(c, 0, m, k, secrets, st1);
    FreshPlaced(c, m, k, boolean, slots, st);
    SecretsPlaced(c, m, k, boolean, secrets, slots + [Fresh(boolean)], st1);
    LongerGrows(st1, st2);
    var more := Copies(|secrets|, Known(boolean));
    PlacedGrows(c, 0, m, slots + [Fresh(boolean)], more, |slots|, mask, st1.ch, st2.ch);
    assert slots + ([Fresh(boolean)] + more) == slots + [Fresh(boolean)] + more;
  }

  lemma ProductsNumber(m: nat, g: Gate, d: seq<int>)
    requires m > 0 && |d| == |Ins(g)| && (g.Simd? ==> |g.ins1| == |g.ins2|)
    ensures |Products(m, g, d)| == ProductCount(g)
  {
  }

  /** Where the masks of inputs come from. */
  ghost predicate InputsFit(boolean: bool, owners: map<Wire, nat>, inp: Inputs) {
    if boolean then inp.Supplied? else inp == Inputs.Owned(owners)
  }

  lemma BasicPlaced(c: Config, m: nat, k: Keys, boolean: bool, owners: map<Wire, nat>, inp: Inputs, w: Wire, g: Gate,
                    seen: nat, pre: Table, slots: seq<Slot>, st: St)
    requires m > 0 && StOk(c, 0, k, st) && TableOk(c, 0, pre) && Basic(g) && GateOk(g, w)
    requires forall v :: v in Ins(g) ==> v in pre
    requires g.Inp? ==> InputsOk(c, 0, inp, w)
    requires At(c, boolean, slots, st) && InputsFit(boolean, owners, inp)
    ensures var (p, st') := BasicPre(c, 0, m, k, inp, w, g, seen, pre, st);
      var slots' := slots + GateSlots(boolean, owners, w, g);
      At(c, boolean, slots', st') && BasicEntry(c, 0, m, boolean, slots', |slots|, g, p, st'.ch)
  {
    hide Placed, CursorsAt, ListsAt, RandomShareWithParty, ProductPre, Products, Start, Combine;
    if g.Inp? {
      if boolean {
        assert slots + [] == slots;
      } else {
        OwnedPlaced(c, m, k, owners[w], slots, st);
      }
    } else if Interactive(g) {
      ProductPlaced(c, m, k, boolean, g, Masks(pre, Ins(g)), slots, st);
    } else {
      assert slots + [] == slots;
    }
  }

  ghost predicate EntryAt(c: Config, id: nat, m: nat, boolean: bool, owners: map<Wire, nat>, slots: seq<Slot>,
                          base: nat,
                          gates: seq<Gate>, order: seq<Wire>, t: nat, T: Table, ch: Chan)
    requires m > 0 && t < |order| && forall i :: 0 <= i < |order| ==> order[i] < |gates|
  {
    order[t] in T
    && BasicEntry(c, id, m, boolean, slots, base + |BasicPlan(boolean, owners, gates, order, t)|, gates[order[t]],
                  T[order[t]], ch)
  }

  /** The first n entries of a table, their sharings numbered from `base` on. */
  ghost predicate BasicTable(c: Config, id: nat, m: nat, boolean: bool, owners: map<Wire, nat>, slots: seq<Slot>,
                             base: nat, gates: seq<Gate>, order: seq<Wire>, n: nat, T: Table, ch: Chan)
    requires m > 0 && n <= |order| && forall i :: 0 <= i < |order| ==> order[i] < |gates|
  {
    forall t :: 0 <= t < n ==> EntryAt(c, id, m, boolean, owners, slots, base, gates, order, t, T, ch)
  }

  lemma TableGrows(c: Config, id: nat, m: nat, boolean: bool, owners: map<Wire, nat>, slots: seq<Slot>, more: seq<Slot>,
                   base: nat, gates: seq<Gate>, order: seq<Wire>, n: nat, T: Table, ch: Chan, ch': Chan)
    requires m > 0 && n <= |order| && forall i :: 0 <= i < |order| ==> order[i] < |gates|
    requires BasicTable(c, id, m, boolean, owners, slots, base, gates, order, n, T, ch) && Longer(ch, ch')
    ensures BasicTable(c, id, m, boolean, owners, slots + more, base, gates, order, n, T, ch')
  {
    hide BasicEntry, Longer, BasicPlan;
    forall t | 0 <= t < n
      ensures EntryAt(c, id, m, boolean, owners, slots + more, base, gates, order, t, T, ch')
    {
      assert EntryAt(c, id, m, boolean, owners, slots, base, gates, order, t, T, ch);
      EntryGrows(c, id, m, boolean, slots, more, base + |BasicPlan(boolean, owners, gates, order, t)|, gates[order[t]],
                 T[order[t]], ch, ch');
    }
  }

  lemma {:induction false} PlanPrefix(boolean: bool, owners: map<Wire, nat>, gates: seq<Gate>, order: seq<Wire>, k: nat,
                                      n: nat)
    requires n <= k <= |order| && forall i :: 0 <= i < |order| ==> order[i] < |gates|
    ensures BasicPlan(boolean, owners, gates, order[..k], n) == BasicPlan(boolean, owners, gates, order, n)
  {
    hide GateSlots;
    if n > 0 {
      PlanPrefix(boolean, owners, gates, order, k, n - 1);
    }
  }

  /** The pass over a circuit without comparisons. */
  lemma {:induction false} RunPlaced(c: Config, m: nat, k: Keys, boolean: bool, owners: map<Wire, nat>, inp: Inputs,
                                     gates: seq<Gate>, order: seq<Wire>, n: nat, slots: seq<Slot>, st: St)
    requires m > 0 && StOk(c, 0, k, st) && AllBasic(gates) && RunOk(c, 0, gates, inp, order) && n <= |order|
    requires At(c, boolean, slots, st) && InputsFit(boolean, owners, inp)
    ensures RunOk(c, 0, gates, inp, order[..n]) && forall i :: 0 <= i < |order| ==> order[i] < |gates|
    ensures var (T, st') := RunBasic(c, 0, m, k, inp, gates, order[..n], st);
      var slots' := slots + BasicPlan(boolean, owners, gates, order, n);
      At(c, boolean, slots', st') && BasicTable(c, 0, m, boolean, owners, slots', |slots|, gates, order, n, T, st'.ch)
  {
    hide At, BasicEntry, BasicPre, GateSlots, Start, Rank, InputsOk, GateOk, Ins, WellFormed;
    RunOkPrefix(c, 0, gates, inp, order, n);
    OrderBelow(gates, order);
    if n == 0 {
      assert slots + [] == slots;
    } else {
      RunPlaced(c, m, k, boolean, owners, inp, gates, order, n - 1, slots, st);
      assert order[..n][..n - 1] == order[..n - 1];
      LastReady(c, 0, gates, inp, order[..n]);
      var w, plan := order[n - 1], BasicPlan(boolean, owners, gates, order, n - 1);
      var (pre, st1) := RunBasic(c, 0, m, k, inp, gates, order[..n - 1], st);
      var seen := SeenInputs(gates, order[..n - 1]);
      var (p, st2) := BasicPre(c, 0, m, k, inp, w, gates[w], seen, pre, st1);
      BasicPlaced(c, m, k, boolean, owners, inp, w, gates[w], seen, pre, slots + plan, st1);
      LongerGrows(st1, st2);
      var more := GateSlots(boolean, owners, w, gates[w]);
      assert slots + (plan + more) == slots + plan + more;
      TableGrows(c, 0, m, boolean, owners, slots + plan, more, |slots|, gates, order, n - 1, pre, st1.ch, st2.ch);
      OneMore(c, m, boolean, owners, slots + plan + more, |slots|, gates, order, n, pre, p, st2.ch);
    }
  }

  lemma OneMore(c: Config, m: nat, boolean: bool, owners: map<Wire, nat>, slots: seq<Slot>, base: nat, gates: seq<Gate>,
                order: seq<Wire>, n: nat, pre: Table, p: Pre, ch: Chan)
    requires m > 0 && 0 < n <= |order| && forall i :: 0 <= i < |order| ==> order[i] < |gates|
    requires BasicTable(c, 0, m, boolean, owners, slots, base, gates, order, n - 1, pre, ch)
    requires order[n - 1] !in order[..n - 1]
    requires BasicEntry(c, 0, m, boolean, slots, base + |BasicPlan(boolean, owners, gates, order, n - 1)|,
                        gates[order[n - 1]], p, ch)
    ensures BasicTable(c, 0, m, boolean, owners, slots, base, gates, order, n, pre[order[n - 1] := p], ch)
  {
    hide BasicEntry, BasicPlan;
    var T := pre[order[n - 1] := p];
    forall t | 0 <= t < n ensures EntryAt(c, 0, m, boolean, owners, slots, base, gates, order, t, T, ch) {
      if t < n - 1 {
        assert EntryAt(c, 0, m, boolean, owners, slots, base, gates, order, t, pre, ch);
        assert order[..n - 1][t] == order[t];
      }
    }
  }

  // ---- comparisons -----------------------------------------------------------------------------------

  /** The entries of inputs that take the supplied shares in turn. */
  ghost predicate SuppliedIn(gates: seq<Gate>, order: seq<Wire>, shares: seq<Share>, T: Table)
    requires |shares| > 0 && forall i :: 0 <= i < |order| ==> order[i] < |gates|
  {
    forall t :: 0 <= t < |order| ==> SuppliedAt(gates, order, shares, T, t)
  }

  ghost predicate SuppliedAt(gates: seq<Gate>, order: seq<Wire>, shares: seq<Share>, T: Table, t: nat)
    requires |shares| > 0 && t < |order| && forall i :: 0 <= i < |order| ==> order[i] < |gates|
  {
    gates[order[t]].Inp? ==>
      order[t] in T && T[order[t]] == Local(shares[SeenInputs(gates, order[..t]) % |shares|])
  }

  lemma SuppliedPre(c: Config, id: nat, m: nat, k: Keys, shares: seq<Share>, w: Wire, g: Gate, seen: nat, pre: Table,
                    st: St)
    requires m > 0 && StOk(c, id, k, st) && TableOk(c, id, pre) && Basic(g) && GateOk(g, w)
    requires forall v :: v in Ins(g) ==> v in pre
    requires g.Inp? && InputsOk(c, id, Supplied(shares), w)
    ensures |shares| > 0
    ensures BasicPre(c, id, m, k, Supplied(shares), w, g, seen, pre, st).0 == Local(shares[seen % |shares|])
  {
  }

  lemma SuppliedMore(gates: seq<Gate>, order: seq<Wire>, shares: seq<Share>, pre: Table, p: Pre)
    requires |shares| > 0 && order != [] && forall i :: 0 <= i < |order| ==> order[i] < |gates|
    requires var n := |order| - 1;
      && order[n] !in order[..n] && SuppliedIn(gates, order[..n], shares, pre)
      && (gates[order[n]].Inp? ==> p == Local(shares[SeenInputs(gates, order[..n]) % |shares|]))
    ensures SuppliedIn(gates, order, shares, pre[order[|order| - 1] := p])
  {
    hide SeenInputs;
    var n := |order| - 1;
    var T := pre[order[n] := p];
    forall t | 0 <= t < |order| ensures SuppliedAt(gates, order, shares, T, t) {
      if t < n {
        assert SuppliedAt(gates, order[..n], shares, pre, t);
        SuppliedBefore(gates, order, shares, pre, p, t);
      }
    }
  }

  lemma SuppliedBefore(gates: seq<Gate>, order: seq<Wire>, shares: seq<Share>, pre: Table, p: Pre, t: nat)
    requires |shares| > 0 && t < |order| - 1 && forall i :: 0 <= i < |order| ==> order[i] < |gates|
    requires order[|order| - 1] !in order[..|order| - 1]
    requires SuppliedAt(gates, order[..|order| - 1], shares, pre, t)
    ensures SuppliedAt(gates, order, shares, pre[order[|order| - 1] := p], t)
  {
    hide SeenInputs;
    var n := |order| - 1;
    assert order[..n][t] == order[t] && order[..n][..t] == order[..t];
  }

  lemma {:induction false} RunSupplied(c: Config, id: nat, m: nat, k: Keys, shares: seq<Share>, gates: seq<Gate>,
                                       order: seq<Wire>, st: St)
    requires m > 0 && StOk(c, id, k, st) && AllBasic(gates) && RunOk(c, id, gates, Supplied(shares), order)
    requires |shares| > 0
    ensures forall i :: 0 <= i < |order| ==> order[i] < |gates|
    ensures SuppliedIn(gates, order, shares, RunBasic(c, id, m, k, Supplied(shares), gates, order, st).0)
  {
    hide BasicPre, InputsOk, GateOk, Ins, WellFormed, SeenInputs, SuppliedIn;
    OrderBelow(gates, order);
    if order == [] {
      NoneSupplied(gates, shares);
    } else {
      var n := |order| - 1;
      LastReady(c, id, gates, Supplied(shares), order);
      RunSupplied(c, id, m, k, shares, gates, order[..n], st);
      var w, seen := order[n], SeenInputs(gates, order[..n]);
      var (pre, st1) := RunBasic(c, id, m, k, Supplied(shares), gates, order[..n], st);
      if gates[w].Inp? {
        SuppliedPre(c, id, m, k, shares, w, gates[w], seen, pre, st1);
      }
      SuppliedMore(gates, order, shares, pre, BasicPre(c, id, m, k, Supplied(shares), w, gates[w], seen, pre, st1).0);
    }
  }

  lemma NoneSupplied(gates: seq<Gate>, shares: seq<Share>)
    requires |shares| > 0
    ensures SuppliedIn(gates, [], shares, map[])
  {
  }

  const INPUT_BITS: nat := 64

  /** A comparison: the public pad, the bits of the padded input mask, the comparator, the mask
      bit of its output, and the mask of the opening. */
  function CompareSlots(inner: Inner): seq<Slot>
    requires forall i :: 0 <= i < |inner.order| ==> inner.order[i] < |inner.gates|
  {
    [Pad] + Copies(INPUT_BITS, Known(true)) + BasicPlan(true, map[], inner.gates, inner.order, |inner.order|)
      + [Known(false), Fresh(false)]
  }

  /** The entry of a comparison: the comparator's inputs take the 64 bits in turn. */
  ghost predicate CompareEntry(c: Config, id: nat, m: nat, slots: seq<Slot>, base: nat, inner: Inner, p: Pre, a: Chan,
                               b: Chan)
    requires m > 0 && forall i :: 0 <= i < |inner.order| ==> inner.order[i] < |inner.gates|
  {
    && p.Compare? && base <= |slots| && p.padded == c.tape(0, Start(c.nP, 0, slots, base)) % m
    && BitsPlaced(c, id, slots, base + 1, inner, p.inner, b)
    && BasicTable(c, id, 2, true, map[], slots, base + 1 + INPUT_BITS, inner.gates, inner.order, |inner.order|,
                  p.inner, b)
    && var last := base + 1 + INPUT_BITS + |BasicPlan(true, map[], inner.gates, inner.order, |inner.order|)|;
       Placed(c, id, m, slots, last, p.maskB, a) && Placed(c, id, m, slots, last + 1, p.maskW, a)
  }

  ghost predicate BitsPlaced(c: Config, id: nat, slots: seq<Slot>, base: nat, inner: Inner, T: Table, b: Chan)
    requires forall i :: 0 <= i < |inner.order| ==> inner.order[i] < |inner.gates|
  {
    forall u :: 0 <= u < |inner.order| && inner.gates[inner.order[u]].Inp? ==>
      inner.order[u] in T
      && Placed(c, id, 2, slots, base + SeenInputs(inner.gates, inner.order[..u]) % INPUT_BITS, T[inner.order[u]].mask,
                b)
  }

  lemma PadPlaced(c: Config, boolean: bool, slots: seq<Slot>, cur: seq<nat>, ch: Chan)
    requires CursorsAt(c, slots, cur) && ListsAt(boolean, slots, ch)
    ensures CursorsAt(c, slots + [Pad], Bump(cur, 0, 1)) && ListsAt(boolean, slots + [Pad], ch)
  {
    CursorsNext(c, slots, Pad, cur, Bump(cur, 0, 1));
    ListsNext(boolean, slots, Pad, ch, ch);
  }

  predicate OfRing(boolean: bool, s: Slot) {
    s == Fresh(boolean) || s == Known(boolean) || (!boolean && s.InputOf?)
  }

  ghost predicate AllOfRing(boolean: bool, slots: seq<Slot>) {
    forall i :: 0 <= i < |slots| ==> OfRing(boolean, slots[i])
  }

  /** Uses of one ring leave the other ring's lists alone. */
  lemma {:induction false} OtherRing(boolean: bool, slots: seq<Slot>, more: seq<Slot>, ch: Chan)
    requires ListsAt(!boolean, slots, ch)
    requires AllOfRing(boolean, more)
    ensures ListsAt(!boolean, slots + more, ch)
  {
    if more == [] {
      assert slots + more == slots;
    } else {
      var n := |more| - 1;
      OtherRing(boolean, slots, more[..n], ch);
      assert slots + more == slots + more[..n] + [more[n]];
      PlanPush(0, 0, slots + more[..n], more[n], Sh(!boolean));
      PlanPush(0, 0, slots + more[..n], more[n], Sec(!boolean));
      PlanPush(0, 0, slots + more[..n], more[n], OwnerSh);
    }
  }

  ghost predicate FullAt(c: Config, slots: seq<Slot>, st: Full) {
    CursorsAt(c, slots, st.cur) && ListsAt(false, slots, st.a) && ListsAt(true, slots, st.b)
  }

  lemma {:induction false} BasicPlanRing(boolean: bool, owners: map<Wire, nat>, gates: seq<Gate>, order: seq<Wire>,
                                         n: nat)
    requires n <= |order| && forall i :: 0 <= i < |order| ==> order[i] < |gates|
    ensures AllOfRing(boolean, BasicPlan(boolean, owners, gates, order, n))
  {
    if n > 0 {
      BasicPlanRing(boolean, owners, gates, order, n - 1);
      GateSlotsRing(boolean, owners, order[n - 1], gates[order[n - 1]]);
      RingBoth(boolean, BasicPlan(boolean, owners, gates, order, n - 1),
               GateSlots(boolean, owners, order[n - 1], gates[order[n - 1]]));
    }
  }

  lemma GateSlotsRing(boolean: bool, owners: map<Wire, nat>, w: Wire, g: Gate)
    ensures AllOfRing(boolean, GateSlots(boolean, owners, w, g))
  {
    if !g.Inp? && Interactive(g) {
      var copies := Copies(ProductCount(g), Known(boolean));
      RingBoth(boolean, [Fresh(boolean)], copies);
    }
  }

  lemma RingBoth(boolean: bool, first: seq<Slot>, second: seq<Slot>)
    requires AllOfRing(boolean, first) && AllOfRing(boolean, second)
    ensures AllOfRing(boolean, first + second)
  {
    hide OfRing;
  }

  /** What the comparator's inputs hold after its pass. */
  lemma BitsStay(c: Config, slots: seq<Slot>, more: seq<Slot>, base: nat, inner: Inner, shares: seq<Share>, T: Table,
                 ch: Chan, ch': Chan)
    requires forall i :: 0 <= i < |inner.order| ==> inner.order[i] < |inner.gates|
    requires |shares| == INPUT_BITS && SuppliedIn(inner.gates, inner.order, shares, T) && Longer(ch, ch')
    requires forall q :: 0 <= q < |shares| ==> Placed(c, 0, 2, slots, base + q, shares[q], ch)
    ensures BitsPlaced(c, 0, slots + more, base, inner, T, ch')
  {
    hide Placed, SeenInputs, Longer;
    forall u | 0 <= u < |inner.order| && inner.gates[inner.order[u]].Inp?
      ensures inner.order[u] in T
      ensures Placed(c, 0, 2, slots + more, base + SeenInputs(inner.gates, inner.order[..u]) % INPUT_BITS,
                     T[inner.order[u]].mask, ch')
    {
      assert SuppliedAt(inner.gates, inner.order, shares, T, u);
      var q := SeenInputs(inner.gates, inner.order[..u]) % INPUT_BITS;
      PlacedGrows(c, 0, 2, slots, more, base + q, shares[q], ch, ch');
    }
  }

  /** The Boolean part of a comparison. */
  lemma CompareBoolPlaced(c: Config, k: Keys, inner: Inner, secrets: seq<int>, slots: seq<Slot>, st: St)
    requires StOk(c, 0, k, st) && InnerOk(inner) && |secrets| == INPUT_BITS && At(c, true, slots, st)
    ensures forall i :: 0 <= i < |inner.order| ==> inner.order[i] < |inner.gates|
    ensures var (T, st') := CompareBool(c, 0, k, inner, secrets, st);
      var plan := BasicPlan(true, map[], inner.gates, inner.order, |inner.order|);
      var slots' := slots + Copies(INPUT_BITS, Known(true)) + plan;
      && At(c, true, slots', st') && BitsPlaced(c, 0, slots', |slots|, inner, T, st'.ch)
      && BasicTable(c, 0, 2, true, map[], slots', |slots| + INPUT_BITS, inner.gates, inner.order, |inner.order|, T,
                    st'.ch)
  {
    hide At, Placed, BasicTable, SuppliedIn, BitsPlaced, RunBasic, ShareSecrets, WellFormed, Topological, SharesOk;
    OrderBelow(inner.gates, inner.order);
    var (shares, s1) := ShareSecrets(c, 0, 2, k, secrets, st);
    SecretsPlaced(c, 2, k, true, secrets, slots, st);
    var bits := slots + Copies(INPUT_BITS, Known(true));
    RunPlaced(c, 2, k, true, map[], Supplied(shares), inner.gates, inner.order, |inner.order|, bits, s1);
    assert inner.order[..|inner.order|] == inner.order;
    RunSupplied(c, 0, 2, k, shares, inner.gates, inner.order, s1);
    var (T, s2) := RunBasic(c, 0, 2, k, Supplied(shares), inner.gates, inner.order, s1);
    LongerGrows(s1, s2);
    BitsStay(c, bits, BasicPlan(true, map[], inner.gates, inner.order, |inner.order|), |slots|, inner, shares, T, s1.ch,
             s2.ch);
  }

  /** The arithmetic part. */
  lemma CompareArithPlaced(c: Config, m: nat, k: Keys, bit: int, slots: seq<Slot>, st: St)
    requires m > 0 && StOk(c, 0, k, st) && At(c, false, slots, st)
    ensures var (maskW, maskB, st') := CompareArith(c, 0, m, k, bit, st);
      var slots' := slots + [Known(false), Fresh(false)];
      && At(c, false, slots', st') && Longer(st.ch, st'.ch)
      && Placed(c, 0, m, slots', |slots|, maskB, st'.ch) && Placed(c, 0, m, slots', |slots| + 1, maskW, st'.ch)
  {
    hide Placed, CursorsAt, ListsAt, RandomShare, RandomShareSecret;
    var (maskB, s3) := RandomShareSecret(c, 0, m, k, bit, st);
    var (maskW, s4) := RandomShare(c, 0, m, k, s3);
    KnownPlaced(c, m, k, false, bit, slots, st);
    FreshPlaced(c, m, k, false, slots + [Known(false)], s3);
    LongerGrows(st, s4);
    LongerGrows(s3, s4);
    PlacedGrows(c, 0, m, slots + [Known(false)], [Fresh(false)], |slots|, maskB, s3.ch, s4.ch);
    assert slots + [Known(false), Fresh(false)] == slots + [Known(false)] + [Fresh(false)];
  }

  lemma BitsGrow(c: Config, id: nat, slots: seq<Slot>, more: seq<Slot>, base: nat, inner: Inner, T: Table, b: Chan,
                 b': Chan)
    requires forall i :: 0 <= i < |inner.order| ==> inner.order[i] < |inner.gates|
    requires BitsPlaced(c, id, slots, base, inner, T, b) && Longer(b, b')
    ensures BitsPlaced(c, id, slots + more, base, inner, T, b')
  {
    hide Placed, SeenInputs, Longer;
    forall u | 0 <= u < |inner.order| && inner.gates[inner.order[u]].Inp?
      ensures inner.order[u] in T
      ensures Placed(c, id, 2, slots + more, base + SeenInputs(inner.gates, inner.order[..u]) % INPUT_BITS,
                     T[inner.order[u]].mask, b')
    {
      PlacedGrows(c, id, 2, slots, more, base + SeenInputs(inner.gates, inner.order[..u]) % INPUT_BITS,
                  T[inner.order[u]].mask, b, b');
    }
  }

  lemma CompareGrows(c: Config, id: nat, m: nat, slots: seq<Slot>, more: seq<Slot>, base: nat, inner: Inner, p: Pre,
                     a: Chan, b: Chan, a': Chan, b': Chan)
    requires m > 0 && forall i :: 0 <= i < |inner.order| ==> inner.order[i] < |inner.gates|
    requires CompareEntry(c, id, m, slots, base, inner, p, a, b) && Longer(a, a') && Longer(b, b')
    ensures CompareEntry(c, id, m, slots + more, base, inner, p, a', b')
  {
    hide Placed, BitsPlaced, BasicTable, Longer, Start, Rank, BasicPlan;
    var last := base + 1 + INPUT_BITS + |BasicPlan(true, map[], inner.gates, inner.order, |inner.order|)|;
    PlanGrows(c.nP, 0, slots, more, base, Nowhere);
    BitsGrow(c, id, slots, more, base + 1, inner, p.inner, b, b');
    TableGrows(c, id, 2, true, map[], slots, more, base + 1 + INPUT_BITS, inner.gates, inner.order, |inner.order|,
               p.inner,
               b, b');
    PlacedGrows(c, id, m, slots, more, last, p.maskB, a, a');
    PlacedGrows(c, id, m, slots, more, last + 1, p.maskW, a, a');
  }

  lemma ComparePlaced(c: Config, m: nat, k: FullKeys, inner: Inner, input: Share, slots: seq<Slot>, st: Full)
    requires m > 0 && FullOk(c, 0, k, st) && InnerOk(inner) && FullAt(c, slots, st)
    ensures forall i :: 0 <= i < |inner.order| ==> inner.order[i] < |inner.gates|
    ensures var (p, st') := ComparePre(c, 0, m, k, inner, input, st);
      var slots' := slots + CompareSlots(inner);
      FullAt(c, slots', st') && CompareEntry(c, 0, m, slots', |slots|, inner, p, st'.a, st'.b)
  {
    hide Placed, CursorsAt, ListsAt, BitsPlaced, BasicTable, CompareBool, CompareArith, PaddedBits, InnerOk, Combine,
         LtzMask, Start, Rank, BasicPlan, TPSecret;
    InnerBelow(inner);
    var padded := Draw(c, m, 0, st.cur[0]);
    var bits := PaddedBits(m, 0, padded, input);
    var s1 := St(Bump(st.cur, 0, 1), st.b);
    var (T, s2) := CompareBool(c, 0, k.b, inner, bits, s1);
    var bit := TPSecret(2, T[inner.out].mask.tp);
    var (maskW, maskB, s4) := CompareArith(c, 0, m, k.a, bit, St(s2.cur, st.a));
    var plan := BasicPlan(true, map[], inner.gates, inner.order, |inner.order|);
    var p1 := slots + [Pad];
    var p2 := p1 + Copies(INPUT_BITS, Known(true)) + plan;
    var p4 := p2 + [Known(false), Fresh(false)];
    PadPlaced(c, true, slots, st.cur, st.b);
    PadPlaced(c, false, slots, st.cur, st.a);
    CompareBoolPlaced(c, k.b, inner, bits, p1, s1);
    BasicPlanRing(true, map[], inner.gates, inner.order, |inner.order|);
    RingBoth(true, Copies(INPUT_BITS, Known(true)), plan);
    OtherRing(true, p1, Copies(INPUT_BITS, Known(true)) + plan, st.a);
    assert p1 + (Copies(INPUT_BITS, Known(true)) + plan) == p2;
    CompareArithPlaced(c, m, k.a, bit, p2, St(s2.cur, st.a));
    OtherRing(false, p2, [Known(false), Fresh(false)], s2.ch);
    BitsGrow(c, 0, p2, [Known(false), Fresh(false)], |p1|, inner, T, s2.ch, s2.ch);
    TableGrows(c, 0, 2, true, map[], p2, [Known(false), Fresh(false)], |p1| + INPUT_BITS, inner.gates, inner.order,
               |inner.order|, T, s2.ch, s2.ch);
    assert slots + CompareSlots(inner) == p4;
    PadAt(c, m, slots, p4, st.cur);
  }

  lemma InnerBelow(inner: Inner)
    requires InnerOk(inner)
    ensures forall i :: 0 <= i < |inner.order| ==> inner.order[i] < |inner.gates|
  {
    OrderBelow(inner.gates, inner.order);
  }

  lemma PadAt(c: Config, m: nat, slots: seq<Slot>, all: seq<Slot>, cur: seq<nat>)
    requires m > 0 && CursorsAt(c, slots, cur) && slots <= all
    ensures |cur| > 0 && Draw(c, m, 0, cur[0]) == c.tape(0, Start(c.nP, 0, all, |slots|)) % m
  {
    PlanGrows(c.nP, 0, slots, all[|slots|..], |slots|, Nowhere);
    assert slots + all[|slots|..] == all;
  }

  // ---- the whole pass --------------------------------------------------------------------------------

  function SlotsOf(owners: map<Wire, nat>, inner: Inner, w: Wire, g: Gate): seq<Slot>
    requires forall i :: 0 <= i < |inner.order| ==> inner.order[i] < |inner.gates|
  {
    if g.Unary? then CompareSlots(inner) else GateSlots(false, owners, w, g)
  }

  /** The uses of the first n gates of the traversal. */
  function Plan(owners: map<Wire, nat>, inner: Inner, gates: seq<Gate>, order: seq<Wire>, n: nat): seq<Slot>
    requires forall i :: 0 <= i < |inner.order| ==> inner.order[i] < |inner.gates|
    requires n <= |order| && forall i :: 0 <= i < |order| ==> order[i] < |gates|
  {
    if n == 0 then [] else
      Plan(owners, inner, gates, order, n - 1) + SlotsOf(owners, inner, order[n - 1], gates[order[n - 1]])
  }

  /** The t-th gate's entry, its sharings numbered from where the gates before it end. */
  ghost predicate CellsOf(c: Config, id: nat, m: nat, owners: map<Wire, nat>, inner: Inner, slots: seq<Slot>,
                          gates: seq<Gate>, order: seq<Wire>, t: nat, T: Table, a: Chan, b: Chan)
    requires m > 0 && forall i :: 0 <= i < |inner.order| ==> inner.order[i] < |inner.gates|
    requires t < |order| && forall i :: 0 <= i < |order| ==> order[i] < |gates|
  {
    var g, base := gates[order[t]], |Plan(owners, inner, gates, order, t)|;
    && order[t] in T
    && (if g.Unary? then CompareEntry(c, id, m, slots, base, inner, T[order[t]], a, b)
        else BasicEntry(c, id, m, false, slots, base, g, T[order[t]], a))
  }

  ghost predicate AllCells(c: Config, id: nat, m: nat, owners: map<Wire, nat>, inner: Inner, slots: seq<Slot>,
                           gates: seq<Gate>, order: seq<Wire>, n: nat, T: Table, a: Chan, b: Chan)
    requires m > 0 && forall i :: 0 <= i < |inner.order| ==> inner.order[i] < |inner.gates|
    requires n <= |order| && forall i :: 0 <= i < |order| ==> order[i] < |gates|
  {
    forall t :: 0 <= t < n ==> CellsOf(c, id, m, owners, inner, slots, gates, order, t, T, a, b)
  }

  lemma CellsGrow(c: Config, m: nat, owners: map<Wire, nat>, inner: Inner, slots: seq<Slot>, more: seq<Slot>,
                  gates: seq<Gate>, order: seq<Wire>, t: nat, T: Table, T': Table, a: Chan, b: Chan, a': Chan, b': Chan)
    requires m > 0 && forall i :: 0 <= i < |inner.order| ==> inner.order[i] < |inner.gates|
    requires t < |order| && forall i :: 0 <= i < |order| ==> order[i] < |gates|
    requires CellsOf(c, 0, m, owners, inner, slots, gates, order, t, T, a, b) && Longer(a, a') && Longer(b, b')
    requires order[t] in T' && T'[order[t]] == T[order[t]]
    ensures CellsOf(c, 0, m, owners, inner, slots + more, gates, order, t, T', a', b')
  {
    hide CompareEntry, BasicEntry, Longer, Plan;
    var g, base := gates[order[t]], |Plan(owners, inner, gates, order, t)|;
    if g.Unary? {
      CompareGrows(c, 0, m, slots, more, base, inner, T[order[t]], a, b, a', b');
    } else {
      EntryGrows(c, 0, m, false, slots, more, base, g, T[order[t]], a, a');
    }
  }

  /** One gate at the dealer. */
  lemma GatePlaced(c: Config, m: nat, k: FullKeys, owners: map<Wire, nat>, inner: Inner, w: Wire, g: Gate, seen: nat,
                   pre: Table, slots: seq<Slot>, st: Full)
    requires m > 0 && FullOk(c, 0, k, st) && InnerOk(inner) && TableOk(c, 0, pre) && FullAt(c, slots, st)
    requires (Basic(g) || g.Unary?) && GateOk(g, w)
    requires forall v :: v in Ins(g) ==> v in pre
    requires g.Inp? ==> InputsOk(c, 0, Inputs.Owned(owners), w)
    ensures forall i :: 0 <= i < |inner.order| ==> inner.order[i] < |inner.gates|
    ensures var (p, st') := GatePre(c, 0, m, k, inner, Inputs.Owned(owners), w, g, seen, pre, st);
      var slots' := slots + SlotsOf(owners, inner, w, g);
      && FullAt(c, slots', st') && Longer(st.a, st'.a) && Longer(st.b, st'.b)
      && (if g.Unary? then CompareEntry(c, 0, m, slots', |slots|, inner, p, st'.a, st'.b)
          else BasicEntry(c, 0, m, false, slots', |slots|, g, p, st'.a))
  {
    hide CursorsAt, ListsAt, ComparePre, BasicPre, CompareEntry, BasicEntry, InnerOk, GateOk;
    InnerBelow(inner);
    var st' := GatePre(c, 0, m, k, inner, Inputs.Owned(owners), w, g, seen, pre, st).1;
    LongerGrows(Arith(st), Arith(st'));
    LongerGrows(Bool(st), Bool(st'));
    if g.Unary? {
      assert g.inp in Ins(g);
      ComparePlaced(c, m, k, inner, pre[g.inp].mask, slots, st);
    } else {
      BasicPlaced(c, m, k.a, false, owners, Inputs.Owned(owners), w, g, seen, pre, slots, Arith(st));
      GateSlotsRing(false, owners, w, g);
      OtherRing(false, slots, GateSlots(false, owners, w, g), st.b);
    }
  }

  /** The whole pass at the dealer. */
  lemma {:induction false} RunFullPlaced(c: Config, m: nat, k: FullKeys, owners: map<Wire, nat>, inner: Inner,
                                         gates: seq<Gate>, order: seq<Wire>, n: nat, st: Full)
    requires m > 0 && FullOk(c, 0, k, st) && InnerOk(inner) && AllSupported(gates)
    requires RunOk(c, 0, gates, Inputs.Owned(owners), order) && n <= |order| && FullAt(c, [], st)
    ensures forall i :: 0 <= i < |inner.order| ==> inner.order[i] < |inner.gates|
    ensures forall i :: 0 <= i < |order| ==> order[i] < |gates|
    ensures var (T, st') := RunFull(c, 0, m, k, inner, Inputs.Owned(owners), gates, order, n, st);
      var slots := Plan(owners, inner, gates, order, n);
      FullAt(c, slots, st') && AllCells(c, 0, m, owners, inner, slots, gates, order, n, T, st'.a, st'.b)
  {
    hide FullAt, CellsOf, InnerOk, GateOk, GatePre, SlotsOf, InputsOk, Ins, RunOk, FullOk, Longer;
    InnerBelow(inner);
    RunBelow(c, gates, Inputs.Owned(owners), order);
    if n > 0 {
      RunFullPlaced(c, m, k, owners, inner, gates, order, n - 1, st);
      GateReady(c, 0, gates, Inputs.Owned(owners), order, n - 1);
      var (pre, st1) := RunFull(c, 0, m, k, inner, Inputs.Owned(owners), gates, order, n - 1, st);
      var w, seen, before := order[n - 1], SeenInputs(gates, order[..n - 1]), Plan(owners, inner, gates, order, n - 1);
      var (p, st2) := GatePre(c, 0, m, k, inner, Inputs.Owned(owners), w, gates[w], seen, pre, st1);
      GatePlaced(c, m, k, owners, inner, w, gates[w], seen, pre, before, st1);
      var more, T := SlotsOf(owners, inner, w, gates[w]), pre[w := p];
      forall t | 0 <= t < n - 1
        ensures CellsOf(c, 0, m, owners, inner, before + more, gates, order, t, T, st2.a, st2.b)
      {
        assert order[..n - 1][t] == order[t];
        CellsGrow(c, m, owners, inner, before, more, gates, order, t, pre, T, st1.a, st1.b, st2.a, st2.b);
      }
      CellNew(c, m, owners, inner, before + more, gates, order, n - 1, T, st2.a, st2.b);
    }
  }

  lemma CellNew(c: Config, m: nat, owners: map<Wire, nat>, inner: Inner, slots: seq<Slot>, gates: seq<Gate>,
                order: seq<Wire>, t: nat, T: Table, a: Chan, b: Chan)
    requires m > 0 && forall i :: 0 <= i < |inner.order| ==> inner.order[i] < |inner.gates|
    requires t < |order| && forall i :: 0 <= i < |order| ==> order[i] < |gates|
    requires order[t] in T
    requires var g, base := gates[order[t]], |Plan(owners, inner, gates, order, t)|;
      if g.Unary? then CompareEntry(c, 0, m, slots, base, inner, T[order[t]], a, b)
      else BasicEntry(c, 0, m, false, slots, base, g, T[order[t]], a)
    ensures CellsOf(c, 0, m, owners, inner, slots, gates, order, t, T, a, b)
  {
    hide CompareEntry, BasicEntry;
  }

  lemma RunBelow(c: Config, gates: seq<Gate>, inp: Inputs, order: seq<Wire>)
    requires RunOk(c, 0, gates, inp, order)
    ensures forall i :: 0 <= i < |order| ==> order[i] < |gates|
  {
    OrderBelow(gates, order);
  }
}
