/** The receiver's requests for missing fragments. */
module BusNack {
  import opened BusFrames
  import opened BusReceiver
  import opened BusDelivery

  // ---- finding what is missing ----------------------------------------------------------------

  /** A gap is recorded once, with the time it was noticed. */
  function Record(nack: map<Key, NackRec>, k: Key, now: nat): map<Key, NackRec> {
    if k in nack then nack else nack[k := NackRec(0, now)]
  }

  /** The blank ones among the first n slots of message s. */
  function MissingSlots(nack: map<Key, NackRec>, s: nat, p: Partial, n: nat, now: nat): map<Key, NackRec>
    requires n <= |p.frags|
  {
    if n == 0 then nack else
      var before := MissingSlots(nack, s, p, n - 1, now);
      if p.frags[n - 1] == [] then Record(before, (s, n - 1), now) else before
  }

  function MissingOf(r: Rx, nack: map<Key, NackRec>, s: nat, now: nat): map<Key, NackRec> {
    if s !in r.pending then Record(nack, (s, 0), now)
    else if r.pending[s].total == 0 then nack
    else
      var p := r.pending[s];
      MissingSlots(nack, s, p, if p.total <= |p.frags| then p.total else 0, now)
  }

  /** All gaps among the first n messages from `next` on. */
  function MissingFirst(r: Rx, n: nat, now: nat): map<Key, NackRec> {
    if n == 0 then r.nack else MissingOf(r, MissingFirst(r, n - 1, now), r.next + n - 1, now)
  }

  /** How many messages lie between the next one and the highest one seen. */
  function Span(r: Rx): nat {
    if r.anySeen && r.next <= r.maxSeen then r.maxSeen - r.next + 1 else 0
  }

  function ComputeMissing(r: Rx, now: nat): Rx {
    r.(nack := MissingFirst(r, Span(r), now))
  }

  // ---- asking for it -------------------------------------------------------------------------------

  predicate Satisfied(r: Rx, k: Key) {
    k.0 < r.next || Held(r, k)
  }

  predicate Due(rec: NackRec, now: nat, cycle: nat) {
    rec.last == 0 || now >= rec.last + cycle
  }

  /** One tick over the recorded gaps in the given order: the requests to send, and whether
      the pipe gives up.  Giving up ends the tick. */
  datatype Tick = Tick(nack: map<Key, NackRec>, due: seq<Key>, poison: bool)

  function Visit(r: Rx, t: Tick, k: Key, now: nat, cycle: nat, cap: nat): Tick {
    if t.poison || k !in t.nack then t
    else if Satisfied(r, k) then t.(nack := t.nack - {k})
    else if !Due(t.nack[k], now, cycle) then t
    else if t.nack[k].attempts >= cap then t.(poison := true)
    else Tick(t.nack[k := NackRec(t.nack[k].attempts + 1, now)], t.due + [k], false)
  }

  function VisitAll(r: Rx, nack: map<Key, NackRec>, order: seq<Key>, now: nat, cycle: nat, cap: nat): Tick {
    if order == [] then Tick(nack, [], false)
    else Visit(r, VisitAll(r, nack, order[..|order| - 1], now, cycle, cap), order[|order| - 1], now, cycle, cap)
  }

  /** The order visits no gap twice. */
  ghost predicate Once(order: seq<Key>) {
    forall i, j :: 0 <= i < j < |order| ==> order[i] != order[j]
  }

  /** A drain of the receiver's state: find gaps, then ask. */
  function DrainNack(r: Rx, order: seq<Key>, now: nat, cycle: nat, cap: nat): (t: (Rx, seq<Key>, bool)) {
    var r1 := ComputeMissing(r, now);
    var t := VisitAll(r1, r1.nack, order, now, cycle, cap);
    (r1.(nack := t.nack), t.due, t.poison)
  }

  // ---- exactly what is missing is recorded ------------------------------------------------------------

  /** A fragment to look for: frame 0 of a message of which nothing has come, or a slot of
      another that is blank. */
  predicate Lacks(r: Rx, k: Key) {
    if k.0 !in r.pending then k.1 == 0
    else k.1 < r.pending[k.0].total <= |r.pending[k.0].frags| && r.pending[k.0].frags[k.1] == []
  }

  /** One that the receiver knows of: its message is the next, the highest seen or between. */
  predicate Gap(r: Rx, k: Key) {
    r.anySeen && r.next <= k.0 <= r.maxSeen && Lacks(r, k)
  }

  lemma {:induction false} SlotsIff(nack: map<Key, NackRec>, s: nat, p: Partial, n: nat, at: nat, k: Key)
    requires n <= |p.frags|
    ensures var m := MissingSlots(nack, s, p, n, at);
      && (k in m <==> k in nack || (k.0 == s && k.1 < n && p.frags[k.1] == []))
      && (k in m ==> m[k] == if k in nack then nack[k] else NackRec(0, at))
  {
    if n > 0 {
      SlotsIff(nack, s, p, n - 1, at, k);
    }
  }

  lemma {:induction false} FirstIff(r: Rx, n: nat, at: nat, k: Key)
    ensures var m := MissingFirst(r, n, at);
      && (k in m <==> k in r.nack || (r.next <= k.0 < r.next + n && Lacks(r, k)))
      && (k in m ==> m[k] == if k in r.nack then r.nack[k] else NackRec(0, at))
  {
    if n > 0 {
      FirstIff(r, n - 1, at, k);
      var nack, s := MissingFirst(r, n - 1, at), r.next + n - 1;
      if s in r.pending && r.pending[s].total > 0 {
        var p := r.pending[s];
        SlotsIff(nack, s, p, if p.total <= |p.frags| then p.total else 0, at, k);
      }
    }
  }

  /** Looking for gaps records exactly the gaps: those recorded before stay as they are, and
      every other one is entered, unasked for, at the present time. */
  lemma MissingIff(r: Rx, at: nat, k: Key)
    ensures var m := ComputeMissing(r, at).nack;
      && (k in m <==> k in r.nack || Gap(r, k))
      && (k in m ==> m[k] == if k in r.nack then r.nack[k] else NackRec(0, at))
  {
    hide MissingFirst;
    FirstIff(r, Span(r), at, k);
  }

  /** A fragment that was delivered or is held is never put back on the list; of all others
      the first fragment is, or every one if some fragment of the message is held. */
  lemma MissingExact(sent: seq<Bytes>, out: Bytes, arrived: set<Key>, r: Rx, now: nat)
    requires Exact(sent, out, arrived, r)
    ensures Exact(sent, out, arrived, ComputeMissing(r, now))
    ensures forall k :: k in ComputeMissing(r, now).nack <==> k in r.nack || Gap(r, k)
    ensures forall k :: k in ComputeMissing(r, now).nack && k !in r.nack ==>
      ComputeMissing(r, now).nack[k] == NackRec(0, now) && IsFragment(sent, k)
    ensures forall k :: k in r.nack ==> k in ComputeMissing(r, now).nack && ComputeMissing(r, now).nack[k] == r.nack[k]
    ensures forall k: Key ::
      (IsFragment(sent, k) && r.anySeen && k.0 <= r.maxSeen && k !in arrived && (k.1 == 0 || k.0 in r.pending))
      ==> k in ComputeMissing(r, now).nack
  {
    hide Total, Fragment, Concat, Queued, Filled, MissingFirst, Fits;
    var r1 := ComputeMissing(r, now);
    forall k: Key
      ensures k in r1.nack <==> k in r.nack || Gap(r, k)
      ensures k in r1.nack ==> r1.nack[k] == if k in r.nack then r.nack[k] else NackRec(0, now)
      ensures Gap(r, k) ==> IsFragment(sent, k) && k !in arrived
      ensures (IsFragment(sent, k) && r.anySeen && k.0 <= r.maxSeen && k !in arrived && (k.1 == 0 || k.0 in r.pending))
        ==> Gap(r, k)
    {
      MissingIff(r, now, k);
      if k.0 in r.pending && k.0 >= r.next {
        assert PartialOk(sent[k.0], r.pending[k.0]);
      }
    }
  }

  // ---- a tick -------------------------------------------------------------------------------------------

  /** A gap that ends the pipe: asked for `cap` times and due again. */
  predicate Hopeless(r: Rx, nack: map<Key, NackRec>, k: Key, now: nat, cycle: nat, cap: nat) {
    k in nack && !Satisfied(r, k) && Due(nack[k], now, cycle) && nack[k].attempts >= cap
  }

  ghost predicate AllHopeful(r: Rx, nack: map<Key, NackRec>, order: seq<Key>, now: nat, cycle: nat, cap: nat) {
    forall j :: 0 <= j < |order| ==> !Hopeless(r, nack, order[j], now, cycle, cap)
  }

  /** The tick gets to gap k: it comes in the order, and before any that ends the pipe. */
  ghost predicate Visited(r: Rx, nack: map<Key, NackRec>, order: seq<Key>, k: Key, now: nat, cycle: nat, cap: nat) {
    exists i :: 0 <= i < |order| && order[i] == k && AllHopeful(r, nack, order[..i + 1], now, cycle, cap)
  }

  ghost predicate Untouched(nack: map<Key, NackRec>, t: Tick, k: Key) {
    k !in t.due && (k in t.nack <==> k in nack) && (k in nack ==> t.nack[k] == nack[k])
  }

  /** One gap over a whole tick.  Visited, it is dropped if it is no longer missing, asked
      for exactly once if it is due, and otherwise left alone, as are those not visited. */
  ghost predicate TickFor(r: Rx, nack: map<Key, NackRec>, t: Tick, k: Key, visited: bool, now: nat, cycle: nat) {
    if !visited || k !in nack then Untouched(nack, t, k)
    else if Satisfied(r, k) then k !in t.due && k !in t.nack
    else if !Due(nack[k], now, cycle) then Untouched(nack, t, k)
    else multiset(t.due)[k] == 1 && k in t.nack && t.nack[k] == NackRec(nack[k].attempts + 1, now)
  }

  /** What a tick does to one gap it has not visited. */
  lemma {:induction false} Unvisited(r: Rx, nack: map<Key, NackRec>, order: seq<Key>, now: nat, cycle: nat, cap: nat,
                                     k: Key)
    requires k !in order
    ensures Untouched(nack, VisitAll(r, nack, order, now, cycle, cap), k)
  {
    if order != [] {
      Unvisited(r, nack, order[..|order| - 1], now, cycle, cap, k);
    }
  }

  lemma VisitOther(r: Rx, nack: map<Key, NackRec>, t: Tick, x: Key, k: Key, visited: bool, now: nat, cycle: nat,
                   cap: nat)
    requires k != x && TickFor(r, nack, t, k, visited, now, cycle)
    ensures TickFor(r, nack, Visit(r, t, x, now, cycle, cap), k, visited, now, cycle)
  {
    hide Satisfied, Due;
    CountPush(t.due, x, k);
  }

  lemma VisitOwn(r: Rx, nack: map<Key, NackRec>, t: Tick, k: Key, now: nat, cycle: nat, cap: nat)
    requires Untouched(nack, t, k)
    ensures var t' := Visit(r, t, k, now, cycle, cap);
      && TickFor(r, nack, t', k, !t.poison && !Hopeless(r, nack, k, now, cycle, cap), now, cycle)
      && (t'.poison <==> t.poison || Hopeless(r, nack, k, now, cycle, cap))
  {
    hide Satisfied, Due;
    CountPush(t.due, k, k);
  }

  lemma HopefulNext(r: Rx, nack: map<Key, NackRec>, order: seq<Key>, now: nat, cycle: nat, cap: nat)
    requires order != []
    ensures var n := |order| - 1;
      AllHopeful(r, nack, order, now, cycle, cap) <==>
        AllHopeful(r, nack, order[..n], now, cycle, cap) && !Hopeless(r, nack, order[n], now, cycle, cap)
  {
    hide Hopeless;
  }

  lemma VisitedNext(r: Rx, nack: map<Key, NackRec>, order: seq<Key>, k: Key, now: nat, cycle: nat, cap: nat)
    requires order != [] && Once(order)
    ensures var n := |order| - 1;
      Visited(r, nack, order, k, now, cycle, cap) <==>
        if k == order[n] then AllHopeful(r, nack, order, now, cycle, cap)
        else Visited(r, nack, order[..n], k, now, cycle, cap)
  {
    hide AllHopeful;
    var n := |order| - 1;
    assert order[..n + 1] == order;
    if Visited(r, nack, order, k, now, cycle, cap) && k != order[n] {
      var i :| 0 <= i < |order| && order[i] == k && AllHopeful(r, nack, order[..i + 1], now, cycle, cap);
      assert order[..n][i] == k && order[..n][..i + 1] == order[..i + 1];
    }
    if k != order[n] && Visited(r, nack, order[..n], k, now, cycle, cap) {
      var i :| 0 <= i < n && order[..n][i] == k && AllHopeful(r, nack, order[..n][..i + 1], now, cycle, cap);
      assert order[i] == k && order[..n][..i + 1] == order[..i + 1];
    }
  }

  /** The pipe is given up if and only if some recorded gap in the order ends it. */
  lemma {:induction false} PoisonIff(r: Rx, nack: map<Key, NackRec>, order: seq<Key>, now: nat, cycle: nat, cap: nat)
    requires Once(order)
    ensures VisitAll(r, nack, order, now, cycle, cap).poison <==> !AllHopeful(r, nack, order, now, cycle, cap)
  {
    hide Visit, Hopeless, AllHopeful;
    if order == [] {
      HopefulNone(r, nack, now, cycle, cap);
    } else {
      var n := |order| - 1;
      PoisonIff(r, nack, order[..n], now, cycle, cap);
      Unvisited(r, nack, order[..n], now, cycle, cap, order[n]);
      VisitOwn(r, nack, VisitAll(r, nack, order[..n], now, cycle, cap), order[n], now, cycle, cap);
      HopefulNext(r, nack, order, now, cycle, cap);
    }
  }

  lemma HopefulNone(r: Rx, nack: map<Key, NackRec>, now: nat, cycle: nat, cap: nat)
    ensures AllHopeful(r, nack, [], now, cycle, cap)
  {
  }

  /** What one tick does to each gap, exactly. */
  lemma {:induction false} TickIs(r: Rx, nack: map<Key, NackRec>, order: seq<Key>, now: nat, cycle: nat, cap: nat,
                                  k: Key)
    requires Once(order)
    ensures TickFor(r, nack, VisitAll(r, nack, order, now, cycle, cap), k,
                    Visited(r, nack, order, k, now, cycle, cap), now, cycle)
  {
    hide Visit, TickFor, AllHopeful, Hopeless, Visited, Untouched;
    if order == [] {
      VisitNone(r, nack, k, now, cycle, cap);
    } else {
      var n := |order| - 1;
      var before := VisitAll(r, nack, order[..n], now, cycle, cap);
      VisitedNext(r, nack, order, k, now, cycle, cap);
      if k == order[n] {
        Unvisited(r, nack, order[..n], now, cycle, cap, k);
        PoisonIff(r, nack, order[..n], now, cycle, cap);
        HopefulNext(r, nack, order, now, cycle, cap);
        VisitOwn(r, nack, before, k, now, cycle, cap);
      } else {
        TickIs(r, nack, order[..n], now, cycle, cap, k);
        VisitOther(r, nack, before, order[n], k, Visited(r, nack, order[..n], k, now, cycle, cap), now, cycle, cap);
      }
    }
  }

  lemma VisitNone(r: Rx, nack: map<Key, NackRec>, k: Key, now: nat, cycle: nat, cap: nat)
    ensures !Visited(r, nack, [], k, now, cycle, cap)
    ensures TickFor(r, nack, Tick(nack, [], false), k, false, now, cycle)
  {
  }

  lemma CountPush(s: seq<Key>, x: Key, k: Key)
    ensures multiset(s + [x])[k] == multiset(s)[k] + if x == k then 1 else 0
    ensures k !in s ==> multiset(s)[k] == 0
  {
  }

  /** A tick that goes through asks, once each, for exactly the recorded gaps that are still
      missing and due. */
  lemma TickAsks(r: Rx, nack: map<Key, NackRec>, order: seq<Key>, now: nat, cycle: nat, cap: nat, k: Key)
    requires Once(order) && (k in nack <==> k in order) && !VisitAll(r, nack, order, now, cycle, cap).poison
    ensures var t := VisitAll(r, nack, order, now, cycle, cap);
      multiset(t.due)[k] == if k in nack && !Satisfied(r, k) && Due(nack[k], now, cycle) then 1 else 0
  {
    hide VisitAll, Satisfied, Due;
    TickIs(r, nack, order, now, cycle, cap, k);
    PoisonIff(r, nack, order, now, cycle, cap);
    if k in order {
      var i :| 0 <= i < |order| && order[i] == k;
      assert AllHopeful(r, nack, order[..i + 1], now, cycle, cap);
    }
  }

  /** A tick that goes through drops exactly what is no longer missing: fragments of messages
      that were handed over, and fragments that are held. */
  lemma TickDrops(r: Rx, nack: map<Key, NackRec>, order: seq<Key>, now: nat, cycle: nat, cap: nat, k: Key)
    requires Once(order) && (k in nack <==> k in order) && !VisitAll(r, nack, order, now, cycle, cap).poison
    ensures k in VisitAll(r, nack, order, now, cycle, cap).nack <==>
      k in nack && k.0 >= r.next
      && !(k.0 in r.pending && k.1 < |r.pending[k.0].frags| && r.pending[k.0].frags[k.1] != [])
  {
    hide VisitAll, Due;
    TickIs(r, nack, order, now, cycle, cap, k);
    PoisonIff(r, nack, order, now, cycle, cap);
    if k in order {
      var i :| 0 <= i < |order| && order[i] == k;
      assert AllHopeful(r, nack, order[..i + 1], now, cycle, cap);
    }
  }

  /** The gap on which the pipe is given up. */
  lemma PoisonIs(r: Rx, nack: map<Key, NackRec>, order: seq<Key>, now: nat, cycle: nat, cap: nat) returns (k: Key)
    requires Once(order) && VisitAll(r, nack, order, now, cycle, cap).poison
    ensures k in order && Hopeless(r, nack, k, now, cycle, cap)
  {
    PoisonIff(r, nack, order, now, cycle, cap);
    var j :| 0 <= j < |order| && Hopeless(r, nack, order[j], now, cycle, cap);
    k := order[j];
  }
}
