/** The dealing primitives of the offline phase.  The same code runs at the dealer (id 0)
    and at every party; what they have in common are pseudo-random streams, one shared by
    the dealer with each party, and what the dealer must send goes to the last party only. */
module Dealing {
  import opened ZMod
  import opened Sharing

  /** nP parties and the shared streams: `tape(i, k)` is the k-th draw of stream i.  Stream
      i > 0 is known to the dealer and party i, stream 0 to everyone. */
  datatype Config = Config(nP: nat, tape: (nat, nat) -> nat)

  /** The key as an id knows it: the dealer all shares, a party only its own. */
  datatype Keys = Keys(key: int, sh: seq<int>)

  /** The three lists of corrections for the last party, and how far each is consumed. */
  datatype Chan = Chan(sh: seq<int>, sec: seq<int>, party: seq<int>, iSh: nat, iSec: nat, iParty: nat)

  /** Stream cursors and correction lists. */
  datatype St = St(cur: seq<nat>, ch: Chan)

  /** One sharing as an id holds it: its own share, and at the dealer everybody's. */
  datatype Share = Share(auth: Auth, tp: TP)

  const NOTP := TP(0, [], [], [])
  const EMPTY := Chan([], [], [], 0, 0, 0)

  ghost predicate Grows(a: St, b: St) {
    && |a.cur| == |b.cur|
    && a.ch.sh <= b.ch.sh && a.ch.sec <= b.ch.sec && a.ch.party <= b.ch.party
  }

  function Draw(c: Config, m: nat, stream: nat, k: nat): (r: nat)
    requires m > 0
    ensures r < m
  {
    c.tape(stream, k) % m
  }

  /** An element of a received list; the program never reads past the end. */
  function At(s: seq<int>, i: nat): int {
    if i < |s| then s[i] else 0
  }

  /** The element that completes `parts` to `total`. */
  function Closing(m: nat, total: int, parts: seq<int>): int
    requires m > 0
  {
    Sub(m, total, SumMod(m, parts))
  }

  /** Entry 0 is zero, entry i the draw of stream i at its cursor plus `off`. */
  function Drawn(c: Config, m: nat, cur: seq<nat>, off: nat, n: nat): (s: seq<int>)
    requires m > 0 && n <= |cur|
    ensures |s| == n && forall i :: 0 <= i < n ==> s[i] == if i == 0 then 0 else Draw(c, m, i, cur[i] + off)
  {
    seq(n, i requires 0 <= i < n => if i == 0 then 0 else Draw(c, m, i, cur[i] + off))
  }

  function Advance(cur: seq<nat>, n: nat, d: nat): (r: seq<nat>)
    ensures |r| == |cur|
    ensures forall i :: 0 <= i < |cur| ==> r[i] == if 0 < i < n then cur[i] + d else cur[i]
  {
    seq(|cur|, i requires 0 <= i < |cur| => if 0 < i < n then cur[i] + d else cur[i])
  }

  function Bump(cur: seq<nat>, i: nat, d: nat): (r: seq<nat>)
    requires i < |cur|
    ensures |r| == |cur| && r == cur[i := cur[i] + d]
  {
    cur[i := cur[i] + d]
  }

  ghost predicate StOk(c: Config, id: nat, k: Keys, st: St) {
    && c.nP > 0 && id <= c.nP && |st.cur| == c.nP + 1
    && (id == 0 ==> |k.sh| == c.nP + 1)
  }

  function OwnPart(k: Keys, value: int, tag: int): Share {
    Share(Auth(k.key, value, tag), NOTP)
  }

  function DealerPart(k: Keys, values: seq<int>, tags: seq<int>): Share
    requires |k.sh| > 0
  {
    Share(Auth(k.sh[0], 0, 0), TP(k.key, k.sh, values, tags))
  }

  /** A sharing of a value nobody chose: every party's value is a draw, the last party's
      tag is corrected so that the tags match. */
  function RandomShare(c: Config, id: nat, m: nat, k: Keys, st: St): (r: (Share, St))
    requires m > 0 && StOk(c, id, k, st)
    ensures Grows(st, r.1) && StOk(c, id, k, r.1)
    ensures id == 0 ==> TPOk(r.0.tp, c.nP + 1)
  {
    if id == 0 then
      var values := Drawn(c, m, st.cur, 0, c.nP + 1);
      var tags := Drawn(c, m, st.cur, 1, c.nP);
      var last := Closing(m, Mul(m, k.key, SumMod(m, values)), tags);
      (DealerPart(k, values, tags + [last]),
       St(Advance(st.cur, c.nP + 1, 2), st.ch.(sh := st.ch.sh + [last])))
    else
      var value := Draw(c, m, id, st.cur[id]);
      var cur := Bump(st.cur, id, 2);
      if id != c.nP then
        (OwnPart(k, value, Draw(c, m, id, st.cur[id] + 1)), St(cur, st.ch))
      else
        (OwnPart(k, value, At(st.ch.sh, st.ch.iSh)), St(cur, st.ch.(iSh := st.ch.iSh + 1)))
  }

  /** The dealer's side of sharing a value it knows: all but the last part are draws. */
  function DealSecret(c: Config, m: nat, k: Keys, secret: int, cur: seq<nat>): (r: (Share, int, int, seq<nat>))
    requires m > 0 && c.nP > 0 && |cur| == c.nP + 1 == |k.sh|
    ensures TPOk(r.0.tp, c.nP + 1) && |r.3| == |cur|
  {
    var values := Drawn(c, m, cur, 0, c.nP);
    var tags := Drawn(c, m, cur, 1, c.nP);
    var valn := Closing(m, secret, values);
    var tagn := Closing(m, Mul(m, k.key, secret), tags);
    (DealerPart(k, values + [valn], tags + [tagn]), valn, tagn, Advance(cur, c.nP, 2))
  }

  /** A party's side of the same: draws, except that the last party reads corrections. */
  function TakeSecret(c: Config, id: nat, m: nat, k: Keys, list: seq<int>, i: nat, cur: seq<nat>)
    : (r: (Share, nat, seq<nat>))
    requires m > 0 && 0 < id <= c.nP && |cur| == c.nP + 1
    ensures |r.2| == |cur|
  {
    if id != c.nP then
      (OwnPart(k, Draw(c, m, id, cur[id]), Draw(c, m, id, cur[id] + 1)), i, Bump(cur, id, 2))
    else
      (OwnPart(k, At(list, i), At(list, i + 1)), i + 2, cur)
  }

  function RandomShareSecret(c: Config, id: nat, m: nat, k: Keys, secret: int, st: St): (r: (Share, St))
    requires m > 0 && StOk(c, id, k, st)
    ensures Grows(st, r.1) && StOk(c, id, k, r.1)
    ensures id == 0 ==> TPOk(r.0.tp, c.nP + 1)
  {
    if id == 0 then
      var (s, valn, tagn, cur) := DealSecret(c, m, k, secret, st.cur);
      (s, St(cur, st.ch.(sec := st.ch.sec + [valn, tagn])))
    else
      var (s, i, cur) := TakeSecret(c, id, m, k, st.ch.sec, st.ch.iSec, st.cur);
      (s, St(cur, st.ch.(iSec := i)))
  }

  /** A sharing of a mask that one party (`owner`) draws together with the dealer. */
  function RandomShareWithParty(c: Config, id: nat, m: nat, k: Keys, owner: nat, st: St): (r: (Share, int, St))
    requires m > 0 && StOk(c, id, k, st) && 0 < owner <= c.nP
    ensures Grows(st, r.2) && StOk(c, id, k, r.2)
    ensures id == 0 ==> TPOk(r.0.tp, c.nP + 1)
  {
    if id == 0 then
      var secret := Draw(c, m, owner, st.cur[owner]);
      var (s, valn, tagn, cur) := DealSecret(c, m, k, secret, Bump(st.cur, owner, 1));
      (s, secret, St(cur, st.ch.(party := st.ch.party + [valn, tagn])))
    else
      var secret := if id == owner then Draw(c, m, id, st.cur[id]) else 0;
      var cur0 := if id == owner then Bump(st.cur, id, 1) else st.cur;
      var (s, i, cur) := TakeSecret(c, id, m, k, st.ch.party, st.ch.iParty, cur0);
      (s, secret, St(cur, st.ch.(iParty := i)))
  }

  // ---- lockstep ------------------------------------------------------------------------

  /** The lists the last party received contain everything the dealer appended so far. */
  ghost predicate Sent(sent: Chan, d: Chan) {
    d.sh <= sent.sh && d.sec <= sent.sec && d.party <= sent.party
  }

  /** Dealer state d and party i's state p agree on their common streams, and the last
      party's read positions are the ends of the dealer's lists. */
  ghost predicate InStep(c: Config, sent: Chan, i: nat, d: St, p: St) {
    && |d.cur| == |p.cur| == c.nP + 1 && 0 < i <= c.nP
    && p.cur[0] == d.cur[0] && p.cur[i] == d.cur[i]
    && (i == c.nP ==>
          && p.ch.sh == sent.sh && p.ch.sec == sent.sec && p.ch.party == sent.party
          && p.ch.iSh == |d.ch.sh| && p.ch.iSec == |d.ch.sec| && p.ch.iParty == |d.ch.party|)
  }

  /** Party i holds the i-th part of what the dealer recorded. */
  ghost predicate SameShare(c: Config, i: nat, d: Share, p: Share) {
    TPOk(d.tp, c.nP + 1) && i <= c.nP && p.auth == PartOf(d.tp, i)
  }

  ghost predicate KeyOf(c: Config, i: nat, kd: Keys, kp: Keys) {
    |kd.sh| == c.nP + 1 && i <= c.nP && kp.key == kd.sh[i]
  }

  lemma PrefixAt(s: seq<int>, t: seq<int>, u: seq<int>, k: nat)
    requires s + t <= u && k < |t|
    ensures At(u, |s| + k) == t[k]
  {
    assert (s + t)[|s| + k] == t[k];
  }

  lemma RandomShareInStep(c: Config, m: nat, sent: Chan, i: nat, kd: Keys, kp: Keys, d: St, p: St)
    requires m > 0 && StOk(c, 0, kd, d) && StOk(c, i, kp, p)
    requires InStep(c, sent, i, d, p) && KeyOf(c, i, kd, kp)
    requires Sent(sent, RandomShare(c, 0, m, kd, d).1.ch)
    ensures InStep(c, sent, i, RandomShare(c, 0, m, kd, d).1, RandomShare(c, i, m, kp, p).1)
    ensures SameShare(c, i, RandomShare(c, 0, m, kd, d).0, RandomShare(c, i, m, kp, p).0)
  {
    var (ds, d') := RandomShare(c, 0, m, kd, d);
    if i == c.nP {
      PrefixAt(d.ch.sh, [ds.tp.tags[c.nP]], sent.sh, 0);
    }
  }

  lemma SecretInStep(c: Config, m: nat, i: nat, kd: Keys, kp: Keys, secret: int,
                     dl: seq<int>, list: seq<int>, dc: seq<nat>, pc: seq<nat>)
    requires m > 0 && 0 < i <= c.nP && |dc| == |pc| == c.nP + 1 == |kd.sh| && KeyOf(c, i, kd, kp)
    requires pc[0] == dc[0] && pc[i] == dc[i]
    requires var (_, valn, tagn, _) := DealSecret(c, m, kd, secret, dc);
             i == c.nP ==> dl + [valn, tagn] <= list
    ensures var (ds, valn, tagn, dc') := DealSecret(c, m, kd, secret, dc);
            var (ps, j, pc') := TakeSecret(c, i, m, kp, list, |dl|, pc);
            && SameShare(c, i, ds, ps) && pc'[0] == dc'[0] && pc'[i] == dc'[i]
            && (i == c.nP ==> j == |dl + [valn, tagn]|)
  {
    var (ds, valn, tagn, dc') := DealSecret(c, m, kd, secret, dc);
    if i == c.nP {
      PrefixAt(dl, [valn, tagn], list, 0);
      PrefixAt(dl, [valn, tagn], list, 1);
    }
  }

  lemma RandomShareSecretInStep(c: Config, m: nat, sent: Chan, i: nat, kd: Keys, kp: Keys,
                                secret: int, other: int, d: St, p: St)
    requires m > 0 && StOk(c, 0, kd, d) && StOk(c, i, kp, p)
    requires InStep(c, sent, i, d, p) && KeyOf(c, i, kd, kp)
    requires Sent(sent, RandomShareSecret(c, 0, m, kd, secret, d).1.ch)
    ensures InStep(c, sent, i, RandomShareSecret(c, 0, m, kd, secret, d).1, RandomShareSecret(c, i, m, kp, other, p).1)
    ensures SameShare(c, i, RandomShareSecret(c, 0, m, kd, secret, d).0, RandomShareSecret(c, i, m, kp, other, p).0)
  {
    if i == c.nP {
      SecretInStep(c, m, i, kd, kp, secret, d.ch.sec, p.ch.sec, d.cur, p.cur);
    } else {
      SecretInStep(c, m, i, kd, kp, secret, d.ch.sec, p.ch.sec, d.cur, p.cur);
    }
  }

  lemma RandomShareWithPartyInStep(c: Config, m: nat, sent: Chan, i: nat, kd: Keys, kp: Keys,
                                   owner: nat, d: St, p: St)
    requires m > 0 && StOk(c, 0, kd, d) && StOk(c, i, kp, p) && 0 < owner <= c.nP
    requires InStep(c, sent, i, d, p) && KeyOf(c, i, kd, kp)
    requires Sent(sent, RandomShareWithParty(c, 0, m, kd, owner, d).2.ch)
    ensures InStep(c, sent, i, RandomShareWithParty(c, 0, m, kd, owner, d).2,
                   RandomShareWithParty(c, i, m, kp, owner, p).2)
    ensures SameShare(c, i, RandomShareWithParty(c, 0, m, kd, owner, d).0,
                      RandomShareWithParty(c, i, m, kp, owner, p).0)
    ensures i == owner ==>
      RandomShareWithParty(c, i, m, kp, owner, p).1 == RandomShareWithParty(c, 0, m, kd, owner, d).1
  {
    var secret := Draw(c, m, owner, d.cur[owner]);
    var pc := if i == owner then Bump(p.cur, i, 1) else p.cur;
    SecretInStep(c, m, i, kd, kp, secret, d.ch.party, p.ch.party, Bump(d.cur, owner, 1), pc);
  }

  // ---- what the dealer deals is a sharing ----------------------------------------------------

  /** The parties' parts of a dealer's record. */
  function Parts(t: TP): (js: seq<Auth>)
    requires TPOk(t, |t.values|)
    ensures |js| == |t.values| && forall i :: 0 <= i < |js| ==> js[i] == PartOf(t, i)
  {
    seq(|t.values|, i requires 0 <= i < |t.values| => PartOf(t, i))
  }

  /** A dealer's record of a good sharing of s. */
  ghost predicate Dealt(m: nat, k: Keys, t: TP, s: int)
    requires m > 0
  {
    TPOk(t, |k.sh|) && t.keySh == k.sh && t.key == k.key && Shares(m, Parts(t), k.sh, k.key, s)
  }

  lemma ClosingSum(m: nat, total: int, parts: seq<int>)
    requires m > 0
    ensures Cong(m, Sum(parts + [Closing(m, total, parts)]), total)
  {
    var x := Closing(m, total, parts);
    SumAppend(parts, x);
    SumModIsSum(m, parts);
    CongMod(m, total - SumMod(m, parts));
    CongAdd(m, Sum(parts), SumMod(m, parts), x, total - SumMod(m, parts));
  }

  lemma DealtFrom(m: nat, k: Keys, values: seq<int>, tags: seq<int>, s: int)
    requires m > 0 && |k.sh| == |values| == |tags| > 1 && values[0] == 0 && tags[0] == 0
    requires Cong(m, Sum(values), s) && Cong(m, Sum(tags), k.key * s)
    ensures Dealt(m, k, DealerPart(k, values, tags).tp, s)
  {
    var t := DealerPart(k, values, tags).tp;
    assert Values(Parts(t)) == values;
    assert Tags(Parts(t)) == tags;
  }

  lemma RandomShareDealt(c: Config, m: nat, k: Keys, st: St)
    requires m > 0 && StOk(c, 0, k, st)
    ensures Dealt(m, k, RandomShare(c, 0, m, k, st).0.tp, TPSecret(m, RandomShare(c, 0, m, k, st).0.tp))
  {
    var values := Drawn(c, m, st.cur, 0, c.nP + 1);
    var tags := Drawn(c, m, st.cur, 1, c.nP);
    var s := SumMod(m, values);
    SumModIsSum(m, values);
    ClosingSum(m, Mul(m, k.key, s), tags);
    CongMod(m, k.key * s);
    DealtFrom(m, k, values, tags + [Closing(m, Mul(m, k.key, s), tags)], s);
  }

  lemma DealSecretDealt(c: Config, m: nat, k: Keys, secret: int, cur: seq<nat>)
    requires m > 0 && c.nP > 0 && |cur| == c.nP + 1 == |k.sh|
    ensures Dealt(m, k, DealSecret(c, m, k, secret, cur).0.tp, secret)
  {
    var values := Drawn(c, m, cur, 0, c.nP);
    var tags := Drawn(c, m, cur, 1, c.nP);
    ClosingSum(m, secret, values);
    ClosingSum(m, Mul(m, k.key, secret), tags);
    CongMod(m, k.key * secret);
    DealtFrom(m, k, values + [Closing(m, secret, values)], tags + [Closing(m, Mul(m, k.key, secret), tags)], secret);
  }
}
