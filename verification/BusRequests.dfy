/** How the sender counts requests for a fragment, and what the cap on them does. */
module BusRequests {
  import opened BusFrames
  import opened BusReceiver
  import opened BusNack
  import opened BusSender
  import opened BusSystem

  /** The event keeps fragment k, with a count of zero. */
  predicate Keeps(e: Event, s: Sys, k: Key) {
    (e.Emit? || e.Retry?) && CanEmit(s) && (Last(s), Cast16(s.idx)) == k
  }

  /** The requests for fragment k that arrived since it was last kept, up to the one on which the
      pipe was given up. */
  function Since(p: Params, es: seq<Event>, k: Key): nat {
    if es == [] then 0 else
      var n := |es| - 1;
      var s := After(p, es[..n]);
      if Keeps(es[n], s, k) then 0
      else Since(p, es[..n], k) + if es[n] == NackArrives(k) && !s.tx.poisoned then 1 else 0
  }

  /** The count of fragment k is n, and a count beyond the cap means that the pipe was given up. */
  ghost predicate CountedAs(p: Params, s: Sys, k: Key, n: nat) {
    k in s.tx.buf ==> s.tx.buf[k].nacks == n && (n > p.capSend ==> s.tx.poisoned)
  }

  lemma KeptCount(p: Params, s: Sys, k: Key, n: nat)
    requires CanEmit(s) && CountedAs(p, s, k, n)
    ensures CountedAs(p, Kept(p, s), k, if (Last(s), Cast16(s.idx)) == k then 0 else n)
  {
    hide Evict, Frame, Total;
    var k0: Key, d := (Last(s), Cast16(s.idx)), Current(p, s);
    EvictKeeps(s.tx.order + [k0.0], s.tx.buf[k0 := TxRecord(d.total, d.payload, 0)]);
  }

  lemma StepCount(p: Params, e: Event, s: Sys, k: Key, n: nat)
    requires Enabled(e, s) && CountedAs(p, s, k, n)
    ensures CountedAs(p, Apply(p, e, s), k,
                      if Keeps(e, s, k) then 0 else n + if e == NackArrives(k) && !s.tx.poisoned then 1 else 0)
  {
    hide HandleData, Ticked, Recv, Enumerates, Kept, CanEmit;
    match e
    case Emit => KeptCount(p, s, k, n);
    case Retry => KeptCount(p, s, k, n);
    case PumpTick(now, order) => TickTx(p, s, now, order);
    case _ =>
  }

  lemma TickTx(p: Params, s: Sys, now: nat, order: seq<Key>)
    ensures Ticked(p, s, now, order).tx == s.tx
  {
  }

  lemma {:induction false} RunCount(p: Params, es: seq<Event>, k: Key)
    requires Possible(p, es)
    ensures CountedAs(p, After(p, es), k, Since(p, es, k))
  {
    hide CountedAs, Apply, Enabled, Keeps;
    if es == [] {
      StartCount(p, k);
    } else {
      var n := |es| - 1;
      PossiblePrefix(p, es, n);
      RunCount(p, es[..n], k);
      StepCount(p, es[n], After(p, es[..n]), k, Since(p, es[..n], k));
    }
  }

  lemma StartCount(p: Params, k: Key)
    ensures CountedAs(p, START, k, 0)
  {
  }

  // ---- the results ----------------------------------------------------------------------------------

  /** In every run the sender's count of a fragment it keeps is the number of requests for it
      that arrived since it was last kept. */
  lemma CountIsSince(p: Params, es: seq<Event>, k: Key)
    requires Possible(p, es) && k in After(p, es).tx.buf
    ensures After(p, es).tx.buf[k].nacks == Since(p, es, k)
  {
    RunCount(p, es, k);
  }

  /** The cap acts: more requests than it allows, and the pipe has been given up. */
  lemma CapActs(p: Params, es: seq<Event>, k: Key)
    requires Possible(p, es) && k in After(p, es).tx.buf && Since(p, es, k) > p.capSend
    ensures After(p, es).tx.poisoned
  {
    RunCount(p, es, k);
  }

  /** The next request for a kept fragment is answered with it if and only if fewer than capSend
      have come since it was kept; otherwise it ends the pipe, and nothing goes out. */
  lemma NextRequest(p: Params, es: seq<Event>, k: Key)
    requires Possible(p, es + [NackArrives(k)]) && !After(p, es).tx.poisoned && k in After(p, es).tx.buf
    ensures Possible(p, es)
    ensures var s, s' := After(p, es), After(p, es + [NackArrives(k)]);
      if Since(p, es, k) < p.capSend then
        && !s'.tx.poisoned && s'.wire == s.wire + {Resent(k, s.tx.buf[k])}
        && Since(p, es + [NackArrives(k)], k) == Since(p, es, k) + 1
      else s'.tx.poisoned && s'.wire == s.wire
  {
    hide Enabled, After, Since, Keeps;
    var all := es + [NackArrives(k)];
    assert all[..|es|] == es;
    PossiblePrefix(p, all, |es|);
    CountIsSince(p, es, k);
    LastStep(p, es, k);
  }

  lemma LastStep(p: Params, es: seq<Event>, k: Key)
    ensures After(p, es + [NackArrives(k)]) == Apply(p, NackArrives(k), After(p, es))
    ensures Since(p, es + [NackArrives(k)], k) == Since(p, es, k) + if !After(p, es).tx.poisoned then 1 else 0
  {
    hide Apply;
    assert (es + [NackArrives(k)])[..|es|] == es;
  }

  lemma StepPoisoned(p: Params, e: Event, s: Sys)
    requires s.tx.poisoned && Enabled(e, s)
    ensures Apply(p, e, s).tx.poisoned
  {
    hide HandleData, Recv, Enumerates, Evict, Frame, ComputeMissing, DrainNack, Count, Births;
  }

  /** A pipe that was given up stays so, whatever follows ... */
  lemma {:induction false} PoisonLasts(p: Params, es: seq<Event>, n: nat)
    requires Possible(p, es) && n <= |es| && After(p, es[..n]).tx.poisoned
    ensures After(p, es).tx.poisoned
    decreases |es|
  {
    hide Apply, Enabled;
    if n == |es| {
      assert es[..n] == es;
    } else {
      var last := |es| - 1;
      assert es[..last][..n] == es[..n];
      PossiblePrefix(p, es, last);
      PoisonLasts(p, es[..last], n);
      StepPoisoned(p, es[last], After(p, es[..last]));
    }
  }

  /** ... and from then on requests get nothing and change nothing at the sender. */
  lemma NothingMore(p: Params, es: seq<Event>, n: nat, k: Key)
    requires Possible(p, es) && n <= |es| && After(p, es[..n]).tx.poisoned
    ensures HandleNack(After(p, es).tx, k, p.capSend) == (Nothing, After(p, es).tx)
    ensures Apply(p, NackArrives(k), After(p, es)).wire == After(p, es).wire
  {
    hide After;
    PoisonLasts(p, es, n);
  }
}
