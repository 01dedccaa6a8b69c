/** What holds in every run when messages are not empty: deliveries depend on the frames that
    arrived only, requests stay within their budget, and pipes are given up neither early
    nor without cause. */
module BusBudget {
  import opened BusFrames
  import opened BusReceiver
  import opened BusDelivery
  import opened BusNack
  import opened BusSender
  import opened BusSystem

  /** How many requests for a fragment the sender has counted. */
  function Counter(t: Tx, k: Key): nat {
    if k in t.buf then t.buf[k].nacks else 0
  }

  /** A recorded gap: requests were at least a cycle apart since it was noticed. */
  ghost predicate Paced(p: Params, rec: NackRec, born: nat, clock: nat) {
    && 0 < rec.last <= clock && rec.attempts <= p.capRecv
    && rec.last >= born + rec.attempts * p.cycle
  }

  ghost predicate KeyOk(p: Params, s: Sys, k: Key) {
    && Asked(s, k) <= p.capRecv
    && Counter(s.tx, k) + s.nacks[k] <= Asked(s, k) + s.copies
    && (k in s.rx.nack ==>
          && IsFragment(s.sent, k) && Asked(s, k) == s.rx.nack[k].attempts
          && k in s.born && Paced(p, s.rx.nack[k], s.born[k], s.clock))
    && (k !in s.rx.nack && k !in s.arrived ==> Asked(s, k) == 0)
    && (k in s.nacks || k in s.arrived ==> IsFragment(s.sent, k))
  }

  /** The sender gave up only if requests were copied too often or messages were evicted. */
  ghost predicate WithCause(p: Params, s: Sys) {
    s.tx.poisoned ==> p.capRecv + s.copies > p.capSend || |s.log| > CAP_STREAMS
  }

  ghost predicate Counted(p: Params, s: Sys) {
    Good(p, s) && Exact(s.sent, s.out, s.arrived, s.rx) && WithCause(p, s) && forall k: Key :: KeyOk(p, s, k)
  }

  /** Programs that send no empty messages and none of more than 65535 frames. */
  predicate NonEmpty(e: Event) {
    e.BeginSend? ==> |e.msg| > 0 && Fits(e.msg)
  }

  // ---- sending -----------------------------------------------------------------------------------

  lemma BeginExact(sent: seq<Bytes>, out: Bytes, arrived: set<Key>, r: Rx, msg: Bytes)
    requires Exact(sent, out, arrived, r) && |msg| > 0 && Fits(msg)
    requires forall k :: k in arrived ==> IsFragment(sent, k)
    ensures Exact(sent + [msg], out, arrived, r)
  {
    hide Total, Fragment, Concat, Queued, Filled, Fits;
    SendSafe(sent, out, r, msg);
    var sent' := sent + [msg];
    forall k: Key | IsFragment(sent', k) ensures k in arrived <==> k.0 < r.next || Held(r, k) {
      if k.0 < |sent| {
        assert IsFragment(sent, k);
      }
    }
  }

  lemma BeginCounted(p: Params, s: Sys, msg: Bytes)
    requires Counted(p, s) && Enabled(BeginSend(msg), s) && |msg| > 0 && Fits(msg)
    ensures Counted(p, Apply(p, BeginSend(msg), s))
  {
    hide Good, Exact, Total, Fits, Paced;
    var s' := Apply(p, BeginSend(msg), s);
    BeginGood(p, s, msg);
    assert forall k :: k in s.arrived ==> KeyOk(p, s, k);
    BeginExact(s.sent, s.out, s.arrived, s.rx, msg);
    forall k: Key ensures KeyOk(p, s', k) {
      assert KeyOk(p, s, k);
    }
  }

  lemma KeptCounted(p: Params, s: Sys)
    requires Counted(p, s) && CanEmit(s)
    ensures Counted(p, Kept(p, s))
  {
    hide Good, Exact, Total, Fits, Paced, Evict, Frame;
    var s' := Kept(p, s);
    KeptGood(p, s);
    var k0: Key, d := (Last(s), Cast16(s.idx)), Current(p, s);
    EvictKeeps(s.tx.order + [k0.0], s.tx.buf[k0 := TxRecord(d.total, d.payload, 0)]);
    forall k: Key ensures KeyOk(p, s', k) {
      assert KeyOk(p, s, k);
      assert Counter(s'.tx, k) <= Counter(s.tx, k);
    }
  }

  lemma EmitCounted(p: Params, s: Sys)
    requires Counted(p, s) && CanEmit(s)
    ensures Counted(p, Apply(p, Emit, s))
  {
    hide Good, Exact, Total, Fits, Paced, Evict, Frame, Kept;
    EmitGood(p, s);
    KeptCounted(p, s);
    var s1, s' := Kept(p, s), Apply(p, Emit, s);
    forall k: Key ensures KeyOk(p, s', k) {
      assert KeyOk(p, s1, k);
    }
  }

  lemma FinishCounted(p: Params, s: Sys)
    requires Counted(p, s) && Enabled(FinishSend, s)
    ensures Counted(p, Apply(p, FinishSend, s))
  {
    hide Good, Exact, Total, Paced;
    FinishGood(p, s);
    forall k: Key ensures KeyOk(p, Apply(p, FinishSend, s), k) {
      assert KeyOk(p, s, k);
    }
  }

  // ---- receiving -----------------------------------------------------------------------------------

  lemma {:induction false} DrainNackMap(r: Rx)
    ensures DrainPending(r).nack == r.nack
    decreases |r.pending|
  {
    if r.next in r.pending && r.pending[r.next].received == r.pending[r.next].total {
      DrainNackMap(PopNext(r));
    }
  }

  lemma ArriveCounted(p: Params, s: Sys, d: Datagram)
    requires Counted(p, s) && d in s.wire
    ensures Counted(p, Apply(p, Arrive(d), s))
  {
    hide Exact, Total, Paced, DrainPending, Frame, Plain, Safe, Retains, Fits, Fill;
    var s' := Apply(p, Arrive(d), s);
    ArriveGood(p, s, d);
    var k0: Key := (d.seqno, d.idx);
    assert IsFragment(s.sent, k0);
    HandleExact(p.pipe, s.sent, s.out, s.arrived, s.rx, d.seqno, d.idx);
    var r1 := Noted(s.rx, d);
    DrainNackMap(Deliver(r1, Plain(p.pipe, d)).(next := s.rx.next + 1));
    DrainNackMap(Stored(r1, d, Plain(p.pipe, d)));
    assert s'.rx.nack == s.rx.nack - {k0};
    forall k: Key ensures KeyOk(p, s', k) {
      assert KeyOk(p, s, k);
    }
  }

  lemma TakeExact(sent: seq<Bytes>, out: Bytes, arrived: set<Key>, r: Rx, n: nat)
    requires Exact(sent, out, arrived, r) && n <= r.bytes
    ensures n <= |Queued(r.queue)| && Exact(sent, out + Recv(r, n).0, arrived, Recv(r, n).1)
    ensures Recv(r, n).1.nack == r.nack
  {
    hide Total, Fragment, Concat, Filled, Fits, Take;
    RecvSafe(sent, out, r, n);
  }

  lemma TakeCounted(p: Params, s: Sys, n: nat)
    requires Counted(p, s) && n <= s.rx.bytes
    ensures Counted(p, Apply(p, TakeBytes(n), s))
  {
    hide Exact, Total, Paced, Good, Recv;
    TakeGood(p, s, n);
    TakeExact(s.sent, s.out, s.arrived, s.rx, n);
    forall k: Key ensures KeyOk(p, Apply(p, TakeBytes(n), s), k) {
      assert KeyOk(p, s, k);
    }
  }

  // ---- a tick ------------------------------------------------------------------------------------------

  lemma {:induction false} CountIs(asked: map<Key, nat>, due: seq<Key>, k: Key)
    ensures var c := Count(asked, due);
      (if k in c then c[k] else 0) == (if k in asked then asked[k] else 0) + multiset(due)[k]
  {
    if due != [] {
      var n := |due| - 1;
      CountIs(asked, due[..n], k);
      assert due == due[..n] + [due[n]];
      CountPush(due[..n], due[n], k);
    }
  }

  lemma SubExact(sent: seq<Bytes>, out: Bytes, arrived: set<Key>, r: Rx, nack: map<Key, NackRec>)
    requires Exact(sent, out, arrived, r) && forall k :: k in nack ==> k in r.nack
    ensures Exact(sent, out, arrived, r.(nack := nack))
  {
    hide Total, Fragment, Concat, Queued, Filled, Fits;
  }

  /** The gaps before a tick, after looking for new ones: old ones as they were, new ones
      noticed now. */
  ghost predicate Noticed(s: Sys, nack: map<Key, NackRec>, k: Key, now: nat) {
    && (k in s.rx.nack ==> k in nack && nack[k] == s.rx.nack[k])
    && (k in nack && k !in s.rx.nack ==> nack[k] == NackRec(0, now) && IsFragment(s.sent, k) && k !in s.arrived)
  }

  /** A tick leaves a gap alone, drops it because its fragment arrived, or asks once more. */
  lemma GapOk(p: Params, s: Sys, nack: map<Key, NackRec>, k: Key, now: nat, s': Sys, n: nat)
    requires KeyOk(p, s, k) && Noticed(s, nack, k, now) && now >= s.clock && now > 0
    requires s'.tx == s.tx && s'.copies == s.copies && s'.arrived == s.arrived && s'.sent == s.sent && s'.clock == now
    requires Asked(s', k) == Asked(s, k) + n && s'.nacks[k] == s.nacks[k] + n
    requires k in nack ==> k in s'.born && s'.born[k] == if k in s.rx.nack then s.born[k] else now
    requires || (n == 0 && k in nack && k in s'.rx.nack && s'.rx.nack[k] == nack[k])
             || (n == 0 && k !in s'.rx.nack && (k in nack ==> k in s.arrived))
             || (n == 1 && k in nack && k in s'.rx.nack && nack[k].attempts < p.capRecv
                 && (nack[k].last == 0 || now >= nack[k].last + p.cycle)
                 && s'.rx.nack[k] == NackRec(nack[k].attempts + 1, now))
    ensures KeyOk(p, s', k)
  {
    hide IsFragment;
    if n == 1 {
      NextPace(nack[k].last, s'.born[k], nack[k].attempts, p.cycle, now);
    }
  }

  lemma NoticedAll(p: Params, s: Sys, now: nat, k: Key)
    requires Counted(p, s)
    ensures Noticed(s, ComputeMissing(s.rx, now).nack, k, now)
    ensures Satisfied(ComputeMissing(s.rx, now), k) && IsFragment(s.sent, k) ==> k in s.arrived
    ensures k in ComputeMissing(s.rx, now).nack ==> IsFragment(s.sent, k)
  {
    hide Exact, Good, Total, MissingFirst, Satisfied, IsFragment;
    assert KeyOk(p, s, k);
    MissingExact(s.sent, s.out, s.arrived, s.rx, now);
    SatisfiedArrived(s.sent, s.out, s.arrived, ComputeMissing(s.rx, now), k);
  }

  /** One gap over a tick. */
  lemma TickKey(p: Params, s: Sys, now: nat, order: seq<Key>, k: Key)
    requires Counted(p, s) && Enabled(PumpTick(now, order), s)
    ensures KeyOk(p, Ticked(p, s, now, order), k)
    ensures k in Ticked(p, s, now, order).rx.nack ==> k in ComputeMissing(s.rx, now).nack
  {
    hide Exact, Good, Total, MissingFirst, VisitAll, Satisfied, Count, IsFragment, WithCause, KeyOk, Visited;
    assert KeyOk(p, s, k);
    var r1 := ComputeMissing(s.rx, now);
    NoticedAll(p, s, now, k);
    var t := VisitAll(r1, r1.nack, order, now, p.cycle, p.capRecv);
    TickIs(r1, r1.nack, order, now, p.cycle, p.capRecv, k);
    CountIs(s.asked, t.due, k);
    CountPush(t.due, k, k);
    BornOk(p, s, k);
    AskedBelow(r1, r1.nack, order, now, p.cycle, p.capRecv, k);
    GapOk(p, s, r1.nack, k, now, Ticked(p, s, now, order), multiset(t.due)[k]);
  }

  lemma AskedBelow(r: Rx, nack: map<Key, NackRec>, order: seq<Key>, now: nat, cycle: nat, cap: nat, k: Key)
    ensures k in nack && Visited(r, nack, order, k, now, cycle, cap) && !Satisfied(r, k) && Due(nack[k], now, cycle) ==>
      nack[k].attempts < cap
  {
  }

  lemma BornOk(p: Params, s: Sys, k: Key)
    requires KeyOk(p, s, k)
    ensures k in s.rx.nack ==> k in s.born
  {
  }

  lemma NextPace(last: nat, born: nat, attempts: nat, cycle: nat, now: nat)
    requires last >= born + attempts * cycle && now >= last + cycle
    ensures now >= born + (attempts + 1) * cycle
  {
    assert (attempts + 1) * cycle == attempts * cycle + cycle;
  }

  /** A gap that is no longer missing has arrived. */
  lemma SatisfiedArrived(sent: seq<Bytes>, out: Bytes, arrived: set<Key>, r: Rx, k: Key)
    requires Exact(sent, out, arrived, r)
    ensures IsFragment(sent, k) && Satisfied(r, k) ==> k in arrived
    ensures k in r.nack ==> k !in arrived
  {
    hide Total, Fragment, Concat, Queued, Filled, Fits, Safe;
  }

  lemma TickCounted(p: Params, s: Sys, now: nat, order: seq<Key>)
    requires Counted(p, s) && Enabled(PumpTick(now, order), s)
    ensures Counted(p, Ticked(p, s, now, order))
  {
    hide Exact, Good, Total, MissingFirst, VisitAll, KeyOk, Enabled;
    var s' := Ticked(p, s, now, order);
    TickGood(p, s, now, order);
    MissingExact(s.sent, s.out, s.arrived, s.rx, now);
    forall k: Key ensures KeyOk(p, s', k) && (k in s'.rx.nack ==> k in ComputeMissing(s.rx, now).nack) {
      TickKey(p, s, now, order, k);
    }
    SubExact(s.sent, s.out, s.arrived, ComputeMissing(s.rx, now), s'.rx.nack);
  }

  // ---- requests ------------------------------------------------------------------------------------------

  /** The sender gives up on a request only with cause. */
  lemma AnswerCause(p: Params, s: Sys, k: Key)
    requires Counted(p, s) && k in s.nacks
    ensures WithCause(p, Apply(p, NackArrives(k), s))
  {
    hide Exact, Total, Paced, Safe, LastOf, DroppedOf, Fits, Frame, IsSent;
    assert KeyOk(p, s, k);
    if k in s.inserted && !s.tx.poisoned {
      AnswerIs(p.pipe, s.sent, s.log, s.inserted, s.tx, k, p.capSend);
    }
  }

  lemma AnswerCounted(p: Params, s: Sys, k: Key)
    requires Counted(p, s) && k in s.nacks
    ensures Counted(p, Apply(p, NackArrives(k), s))
  {
    hide Good, Exact, Total, Paced, WithCause;
    var s' := Apply(p, NackArrives(k), s);
    AnswerGood(p, s, k);
    AnswerCause(p, s, k);
    forall j: Key ensures KeyOk(p, s', j) {
      assert KeyOk(p, s, j);
      if j != k {
        assert (s.nacks - multiset{k})[j] == s.nacks[j];
      }
    }
  }

  lemma LostCounted(p: Params, s: Sys, k: Key)
    requires Counted(p, s) && k in s.nacks
    ensures Counted(p, Apply(p, NackLost(k), s))
  {
    hide Good, Exact, Total, Paced;
    OtherGood(p, s, s.nacks - multiset{k}, s.copies, s.rxPoisoned);
    forall j: Key ensures KeyOk(p, Apply(p, NackLost(k), s), j) {
      assert KeyOk(p, s, j);
      assert (s.nacks - multiset{k})[j] <= s.nacks[j];
    }
  }

  lemma CopiedCounted(p: Params, s: Sys, k: Key)
    requires Counted(p, s) && k in s.nacks
    ensures Counted(p, Apply(p, NackCopied(k), s))
  {
    hide Good, Exact, Total, Paced;
    OtherGood(p, s, s.nacks + multiset{k}, s.copies + 1, s.rxPoisoned);
    assert KeyOk(p, s, k);
    forall j: Key ensures KeyOk(p, Apply(p, NackCopied(k), s), j) {
      assert KeyOk(p, s, j);
      assert (s.nacks + multiset{k})[j] <= s.nacks[j] + 1;
      assert j in s.nacks + multiset{k} ==> j in s.nacks || j == k;
    }
  }

  lemma PoisonCounted(p: Params, s: Sys)
    requires Counted(p, s)
    ensures Counted(p, Apply(p, PoisonArrives, s))
  {
    hide Good, Exact, Total, Paced;
    OtherGood(p, s, s.nacks, s.copies, true);
    forall j: Key ensures KeyOk(p, Apply(p, PoisonArrives, s), j) {
      assert KeyOk(p, s, j);
    }
  }

  lemma StepCounted(p: Params, e: Event, s: Sys)
    requires Counted(p, s) && Enabled(e, s) && NonEmpty(e)
    ensures Counted(p, Apply(p, e, s))
  {
    hide Counted, HandleData, HandleNack, Insert, Recv, CanEmit, Fits, Enumerates, Ticked;
    match e
    case BeginSend(msg) => BeginCounted(p, s, msg);
    case Emit => EmitCounted(p, s);
    case Retry => KeptCounted(p, s);
    case FinishSend => FinishCounted(p, s);
    case Arrive(d) => ArriveCounted(p, s, d);
    case TakeBytes(n) => TakeCounted(p, s, n);
    case PumpTick(now, order) => TickCounted(p, s, now, order);
    case NackArrives(k) => AnswerCounted(p, s, k);
    case NackLost(k) => LostCounted(p, s, k);
    case NackCopied(k) => CopiedCounted(p, s, k);
    case PoisonArrives => PoisonCounted(p, s);
  }

  lemma StartCounted(p: Params)
    ensures Counted(p, START)
  {
  }

  ghost predicate NonEmptyRun(p: Params, es: seq<Event>) {
    Possible(p, es) && forall i :: 0 <= i < |es| ==> NonEmpty(es[i])
  }

  lemma RunPrefix(p: Params, es: seq<Event>, n: nat)
    requires NonEmptyRun(p, es) && n <= |es|
    ensures NonEmptyRun(p, es[..n])
  {
    hide Enabled, After, NonEmpty;
    forall i | 0 <= i < n ensures Enabled(es[..n][i], After(p, es[..n][..i])) {
      assert es[..n][..i] == es[..i];
    }
  }

  lemma {:induction false} RunCounted(p: Params, es: seq<Event>)
    requires NonEmptyRun(p, es)
    ensures Counted(p, After(p, es))
  {
    hide Counted, Apply, Enabled, NonEmpty;
    if es == [] {
      StartCounted(p);
    } else {
      var n := |es| - 1;
      RunPrefix(p, es, n);
      RunCounted(p, es[..n]);
      StepCounted(p, es[n], After(p, es[..n]));
    }
  }

  // ---- the results ------------------------------------------------------------------------------------------

  /** Budget agreement.  A fragment is asked for at most capRecv times in its life; the sender
      counts no more requests than were made and copied; so with capRecv (plus copies) within
      capSend and nothing evicted, an honest receiver is never cut off. */
  lemma BudgetAgreement(p: Params, es: seq<Event>, k: Key)
    requires NonEmptyRun(p, es)
    ensures var s := After(p, es);
      && Counter(s.tx, k) + s.nacks[k] <= Asked(s, k) + s.copies
      && Asked(s, k) <= p.capRecv
      && (p.capRecv + s.copies <= p.capSend && |s.log| <= CAP_STREAMS ==> !s.tx.poisoned)
  {
    RunCounted(p, es);
    hide Good, Exact, Paced;
    assert KeyOk(p, After(p, es), k);
  }

  /** No request for what is there: a fragment that arrived is neither recorded as missing now
      nor ever again. */
  lemma NeverAskedAgain(p: Params, es: seq<Event>, k: Key)
    requires NonEmptyRun(p, es) && k in After(p, es).arrived
    ensures k !in After(p, es).rx.nack
  {
    RunCounted(p, es);
    hide Good, Paced, Holds, Seen, Stuck, Safe;
  }

  /** Order-independent delivery.  Two runs in which the same messages were begun and the same
      frames arrived have delivered the same bytes. */
  lemma RunsAgree(p: Params, es1: seq<Event>, es2: seq<Event>)
    requires NonEmptyRun(p, es1) && NonEmptyRun(p, es2)
    requires After(p, es1).sent == After(p, es2).sent && After(p, es1).arrived == After(p, es2).arrived
    ensures var s1, s2 := After(p, es1), After(p, es2);
      s1.rx.next == s2.rx.next && s1.out + Queued(s1.rx.queue) == s2.out + Queued(s2.rx.queue)
  {
    RunCounted(p, es1);
    RunCounted(p, es2);
    hide Good, Exact, Paced, KeyOk, WithCause;
    var s1, s2 := After(p, es1), After(p, es2);
    OrderDoesNotMatter(s1.sent, s1.arrived, s1.out, s1.rx, s2.out, s2.rx);
  }

  /** Completeness.  When every fragment of the first n messages has arrived, all are
      delivered; and what is delivered has arrived. */
  lemma RunComplete(p: Params, es: seq<Event>, n: nat)
    requires NonEmptyRun(p, es) && n <= |After(p, es).sent|
    ensures var s := After(p, es);
      (forall k: Key :: IsFragment(s.sent, k) && k.0 < n ==> k in s.arrived) <==> s.rx.next >= n
  {
    RunCounted(p, es);
    hide Good, Exact, Paced, KeyOk, WithCause, Total;
    var s := After(p, es);
    if s.rx.next >= n {
      forall k: Key | IsFragment(s.sent, k) && k.0 < n ensures k in s.arrived {
        Delivered(s.sent, s.out, s.arrived, s.rx, k);
      }
    } else if forall k: Key :: IsFragment(s.sent, k) && k.0 < n ==> k in s.arrived {
      Complete(s.sent, s.out, s.arrived, s.rx, n);
    }
  }

  /** The receiver asked for a fragment at least a cycle ago, or has yet to notice the gap. */
  predicate DueAt(p: Params, r: Rx, k: Key, now: nat) {
    if k in r.nack then r.nack[k].last == 0 || now >= r.nack[k].last + p.cycle else p.cycle == 0
  }

  lemma GapAsked(p: Params, s: Sys, now: nat, order: seq<Key>, k: Key)
    requires Counted(p, s) && Enabled(PumpTick(now, order), s) && !Ticked(p, s, now, order).rxPoisoned
    requires IsFragment(s.sent, k) && s.rx.anySeen && k.0 <= s.rx.maxSeen && (k.1 == 0 || k.0 in s.rx.pending)
    ensures Asked(Ticked(p, s, now, order), k) ==
      Asked(s, k) + if k !in s.arrived && DueAt(p, s.rx, k, now) then 1 else 0
  {
    hide Exact, Good, Total, MissingFirst, VisitAll, Satisfied, Count, IsFragment, WithCause, KeyOk;
    var r1 := ComputeMissing(s.rx, now);
    MissingExact(s.sent, s.out, s.arrived, s.rx, now);
    MissingIff(s.rx, now, k);
    NoticedAll(p, s, now, k);
    SatisfiedArrived(s.sent, s.out, s.arrived, r1, k);
    TickAsks(r1, r1.nack, order, now, p.cycle, p.capRecv, k);
    CountIs(s.asked, VisitAll(r1, r1.nack, order, now, p.cycle, p.capRecv).due, k);
  }

  /** Every gap is asked for.  A tick that does not give up the pipe asks once for every
      fragment that is known to be missing and due, and for nothing that arrived. */
  lemma GapsAreAsked(p: Params, es: seq<Event>, now: nat, order: seq<Key>, k: Key)
    requires NonEmptyRun(p, es) && Enabled(PumpTick(now, order), After(p, es))
    requires !Apply(p, PumpTick(now, order), After(p, es)).rxPoisoned
    requires var s := After(p, es);
      IsFragment(s.sent, k) && s.rx.anySeen && k.0 <= s.rx.maxSeen && (k.1 == 0 || k.0 in s.rx.pending)
    ensures var s, s' := After(p, es), Apply(p, PumpTick(now, order), After(p, es));
      Asked(s', k) == Asked(s, k) + if k !in s.arrived && DueAt(p, s.rx, k, now) then 1 else 0
  {
    hide After, Ticked, Counted, Enabled, IsFragment, DueAt;
    RunCounted(p, es);
    GapAsked(p, After(p, es), now, order, k);
  }

  lemma PoisonCause(p: Params, s: Sys, now: nat, order: seq<Key>) returns (k: Key)
    requires Counted(p, s) && Enabled(PumpTick(now, order), s) && Ticked(p, s, now, order).rxPoisoned
    ensures Asked(s, k) == p.capRecv
    ensures k in s.rx.nack ==> k in s.born && now >= s.born[k] + (p.capRecv + 1) * p.cycle
    ensures k !in s.rx.nack ==> p.capRecv == 0
  {
    hide Good, Exact, Total, MissingFirst, VisitAll, Satisfied, IsFragment, WithCause, Count, Births;
    var r1 := ComputeMissing(s.rx, now);
    k := PoisonIs(r1, r1.nack, order, now, p.cycle, p.capRecv);
    assert KeyOk(p, s, k);
    NoticedAll(p, s, now, k);
    if k in s.rx.nack {
      NextPace(s.rx.nack[k].last, s.born[k], p.capRecv, p.cycle, now);
    }
  }

  /** The receiver gives up no sooner than capRecv + 1 cycles after it noticed the gap, and
      only on a gap it asked for capRecv times. */
  lemma PoisonTiming(p: Params, es: seq<Event>, now: nat, order: seq<Key>) returns (k: Key)
    requires NonEmptyRun(p, es) && Enabled(PumpTick(now, order), After(p, es))
    requires Apply(p, PumpTick(now, order), After(p, es)).rxPoisoned
    ensures var s := After(p, es);
      && Asked(s, k) == p.capRecv
      && (k in s.rx.nack ==> k in s.born && now >= s.born[k] + (p.capRecv + 1) * p.cycle)
      && (k !in s.rx.nack ==> p.capRecv == 0)
  {
    hide After, Ticked, Counted, Enabled;
    RunCounted(p, es);
    k := PoisonCause(p, After(p, es), now, order);
  }

  // ---- retries ----------------------------------------------------------------------------------------------

  /** Without retries every message is entered once, in order, and has at least one frame
      out when it is. */
  ghost predicate InOrder(s: Sys) {
    && |s.log| <= |s.sent| && (!s.sending ==> |s.log| == |s.sent|) && (s.sending && s.idx > 0 ==> |s.log| == |s.sent|)
    && (s.sending && s.idx == 0 ==> |s.log| + 1 == |s.sent|)
    && forall i :: 0 <= i < |s.log| ==> s.log[i] == i
  }

  lemma StepInOrder(p: Params, e: Event, s: Sys)
    requires InOrder(s) && Enabled(e, s) && !e.Retry?
    ensures InOrder(Apply(p, e, s))
  {
    hide HandleData, HandleNack, Insert, Recv, Fits, Enumerates, Frame, ComputeMissing, DrainNack, Count, Births, Total;
    TotalPositive(s);
  }

  lemma TotalPositive(s: Sys)
    ensures |s.sent| > 0 ==> Total(|s.sent[Last(s)]|) > 0
  {
  }

  lemma {:induction false} RunInOrder(p: Params, es: seq<Event>)
    requires Possible(p, es) && forall i :: 0 <= i < |es| ==> !es[i].Retry?
    ensures InOrder(After(p, es))
  {
    hide InOrder, Apply, Enabled;
    if es == [] {
      StartInOrder();
    } else {
      var n := |es| - 1;
      forall i | 0 <= i < n ensures Enabled(es[..n][i], After(p, es[..n][..i])) {
        assert es[..n][..i] == es[..i];
      }
      RunInOrder(p, es[..n]);
      StepInOrder(p, es[n], After(p, es[..n]));
    }
  }

  lemma StartInOrder()
    ensures InOrder(START)
  {
  }

  /** Without retries, a request is refused as evicted only if at least CAP_STREAMS later
      messages have been entered. */
  lemma EvictedLongAgo(p: Params, es: seq<Event>, k: Key)
    requires FittingRun(p, es) && forall i :: 0 <= i < |es| ==> !es[i].Retry?
    requires var s := After(p, es);
      k in s.inserted && !s.tx.poisoned && HandleNack(s.tx, k, p.capSend).0.Poison? && Counter(s.tx, k) < p.capSend
    ensures k.0 + CAP_STREAMS < |After(p, es).log| <= |After(p, es).sent|
  {
    RunGood(p, es);
    RunInOrder(p, es);
    hide Safe, WireOk, AllFit, SenderOk, After, Frame, LastOf, DroppedOf, Total;
    var s := After(p, es);
    AnswerIs(p.pipe, s.sent, s.log, s.inserted, s.tx, k, p.capSend);
  }
}
