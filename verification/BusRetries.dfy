/** How long a fragment is kept when sends are refused and tried again: the list of streams
    then holds some of them many times over, and drops others early. */
module BusRetries {
  import opened BusFrames
  import opened BusReceiver
  import opened BusDelivery
  import opened BusSender
  import opened BusSystem
  import opened BusBudget
  import opened BusRequests

  /** A fragment is gone once an entry of its message is CAP_STREAMS entries back; but one that
      was kept after the message's last entry stays until the next message is entered. */
  ghost predicate Gone(log: seq<nat>, k: Key) {
    LongAgo(log, k.0) && (k.1 == 0 || log[|log| - 1] != k.0)
  }

  ghost predicate Sorted(log: seq<nat>) {
    forall i, j :: 0 <= i <= j < |log| ==> log[i] <= log[j]
  }

  /** The list grows message by message. */
  ghost predicate Entered(s: Sys) {
    && Sorted(s.log)
    && (forall i :: 0 <= i < |s.log| ==> s.log[i] < |s.sent|)
    && (forall k :: k in s.inserted ==> k.0 < |s.sent|)
    && (s.sending ==> |s.sent| > 0 && forall k :: k in s.inserted && k.0 == Last(s) ==> k.1 <= s.idx)
    && (s.sending && s.idx > 0 ==> s.log != [] && s.log[|s.log| - 1] == Last(s))
  }

  ghost predicate KeptIff(s: Sys) {
    forall k :: k in s.inserted ==> (k !in s.tx.buf <==> Gone(s.log, k))
  }

  ghost predicate Lasting(p: Params, s: Sys) {
    Good(p, s) && Entered(s) && KeptIff(s)
  }

  /** One more entry drops one old one. */
  lemma LongAgoNext(log: seq<nat>, s: nat, t: nat)
    ensures LongAgo(log + [s], t) <==>
      LongAgo(log, t) || (|log| >= CAP_STREAMS && (log + [s])[|log| - CAP_STREAMS] == t)
  {
    var log' := log + [s];
    if LongAgo(log, t) {
      var i :| 0 <= i < |log| && i + CAP_STREAMS < |log| && log[i] == t;
      assert log'[i] == t;
    }
    if LongAgo(log', t) {
      var i :| 0 <= i < |log'| && i + CAP_STREAMS < |log'| && log'[i] == t;
      assert i + CAP_STREAMS < |log| ==> log[i] == t;
    }
  }

  /** An old entry of a message that is still the last one: so are all entries between. */
  lemma BetweenSame(log: seq<nat>, s: nat)
    requires Sorted(log) && LongAgo(log, s) && forall i :: 0 <= i < |log| ==> log[i] <= s
    ensures |log| >= CAP_STREAMS && log[|log| - CAP_STREAMS] == s
  {
    var i :| 0 <= i < |log| && i + CAP_STREAMS < |log| && log[i] == s;
    assert log[i] <= log[|log| - CAP_STREAMS];
  }

  /** Keeping a first fragment. */
  lemma FirstKept(t: Tx, log: seq<nat>, inserted: set<Key>, s: nat, d: Datagram)
    requires t.order == LastOf(log) && Sorted(log) && forall i :: 0 <= i < |log| ==> log[i] <= s
    requires forall k :: k in inserted ==> k.0 <= s && (k.0 == s ==> k.1 == 0)
    requires forall k :: k in inserted ==> (k !in t.buf <==> Gone(log, k))
    ensures forall k :: k in inserted + {(s, 0)} ==> (k !in Insert(t, (s, 0), d, true).buf <==> Gone(log + [s], k))
  {
    hide LongAgo, LastOf, DroppedOf, Evict, Sorted;
    var buf := t.buf[(s, 0) := TxRecord(d.total, d.payload, 0)];
    EvictOne(log, s, buf);
    OldestEntry(log, s);
    forall k: Key | k in inserted + {(s, 0)} ensures k !in Insert(t, (s, 0), d, true).buf <==> Gone(log + [s], k) {
      LongAgoNext(log, s, k.0);
      if |log| < CAP_STREAMS {
        NotYetLong(log, k.0);
      } else if LongAgo(log, k.0) && (k.0 == s || (k.1 > 0 && log[|log| - 1] == k.0)) {
        if k.0 != s {
          LastLargest(log, k.0);
        }
        BetweenSame(log, k.0);
      }
    }
  }

  lemma NotYetLong(log: seq<nat>, s: nat)
    requires |log| < CAP_STREAMS
    ensures !LongAgo(log, s)
  {
  }

  lemma OldestEntry(log: seq<nat>, s: nat)
    ensures |log| >= CAP_STREAMS ==> (LastOf(log) + [s])[0] == (log + [s])[|log| - CAP_STREAMS]
  {
  }

  lemma LastLargest(log: seq<nat>, s: nat)
    requires Sorted(log) && log != [] && log[|log| - 1] == s
    ensures forall i :: 0 <= i < |log| ==> log[i] <= s
  {
  }

  /** Keeping a later fragment. */
  lemma LaterKept(t: Tx, log: seq<nat>, inserted: set<Key>, k0: Key, d: Datagram)
    requires k0.1 > 0 && log != [] && log[|log| - 1] == k0.0
    requires forall k :: k in inserted ==> (k !in t.buf <==> Gone(log, k))
    ensures forall k :: k in inserted + {k0} ==> (k !in Insert(t, k0, d, false).buf <==> Gone(log, k))
  {
    hide LongAgo;
  }

  lemma KeptLasts(p: Params, s: Sys)
    requires Lasting(p, s) && CanEmit(s)
    ensures var s' := Kept(p, s);
      Lasting(p, s') && s'.log != [] && s'.log[|s'.log| - 1] == Last(s)
      && s'.sent == s.sent && s'.idx == s.idx && s'.sending
  {
    hide Good, Gone, Total, Evict, Frame, LongAgo, Insert;
    KeptGood(p, s);
    OrderIs(p, s);
    var k: Key, d := (Last(s), s.idx), Current(p, s);
    if s.idx == 0 {
      assert forall k :: k in s.inserted ==> k.0 <= Last(s) && (k.0 == Last(s) ==> k.1 == 0);
      FirstKept(s.tx, s.log, s.inserted, Last(s), d);
    } else {
      LaterKept(s.tx, s.log, s.inserted, k, d);
    }
  }

  lemma OrderIs(p: Params, s: Sys)
    requires Good(p, s)
    ensures s.tx.order == LastOf(s.log)
  {
  }

  lemma EmitLasts(p: Params, s: Sys)
    requires Lasting(p, s) && CanEmit(s)
    ensures Lasting(p, Apply(p, Emit, s))
  {
    hide Good, Gone, Total, Frame, Kept, Sorted;
    EmitGood(p, s);
    KeptLasts(p, s);
  }

  lemma BeginLasts(p: Params, s: Sys, msg: Bytes)
    requires Lasting(p, s) && Enabled(BeginSend(msg), s) && Fits(msg)
    ensures Lasting(p, Apply(p, BeginSend(msg), s))
  {
    hide Good, Gone, Total, Fits, Sorted;
    BeginGood(p, s, msg);
  }

  lemma AnswerKeeps(t: Tx, k: Key, cap: nat)
    ensures forall j :: j in HandleNack(t, k, cap).1.buf <==> j in t.buf
  {
  }

  lemma AnswerLasts(p: Params, s: Sys, k: Key)
    requires Lasting(p, s)
    ensures Lasting(p, Apply(p, NackArrives(k), s))
  {
    hide Good, Gone, Total, Sorted, HandleNack;
    AnswerGood(p, s, k);
    AnswerKeeps(s.tx, k, p.capSend);
  }

  lemma SameLasts(p: Params, s: Sys, s': Sys)
    requires Lasting(p, s) && Good(p, s') && s'.sent == s.sent && s'.log == s.log && s'.inserted == s.inserted
    requires s'.tx.buf == s.tx.buf && s'.idx == s.idx && (s'.sending ==> s.sending)
    ensures Lasting(p, s')
  {
    hide Good, Gone, Sorted;
  }

  lemma StepLasts(p: Params, e: Event, s: Sys)
    requires Lasting(p, s) && Enabled(e, s) && Fitting(e)
    ensures Lasting(p, Apply(p, e, s))
  {
    hide Good, Entered, KeptIff, HandleData, HandleNack, Ticked, Insert, Recv, CanEmit, Enumerates;
    StepGood(p, e, s);
    match e
    case BeginSend(msg) => BeginLasts(p, s, msg);
    case Emit => EmitLasts(p, s);
    case Retry => KeptLasts(p, s);
    case NackArrives(k) => AnswerLasts(p, s, k);
    case PumpTick(now, order) =>
      TickSame(p, s, now, order);
      SameLasts(p, s, Apply(p, e, s));
    case _ => SameLasts(p, s, Apply(p, e, s));
  }

  lemma TickSame(p: Params, s: Sys, now: nat, order: seq<Key>)
    ensures var s' := Ticked(p, s, now, order);
      && s'.sent == s.sent && s'.log == s.log && s'.inserted == s.inserted && s'.tx == s.tx && s'.idx == s.idx
      && s'.sending == s.sending
  {
  }

  lemma StartLasts(p: Params)
    ensures Lasting(p, START)
  {
  }

  lemma {:induction false} RunLasts(p: Params, es: seq<Event>)
    requires FittingRun(p, es)
    ensures Lasting(p, After(p, es))
  {
    hide Lasting, Apply, Enabled, Fitting;
    if es == [] {
      StartLasts(p);
    } else {
      var n := |es| - 1;
      forall i | 0 <= i < n ensures Enabled(es[..n][i], After(p, es[..n][..i])) {
        assert es[..n][..i] == es[..i];
      }
      RunLasts(p, es[..n]);
      StepLasts(p, es[n], After(p, es[..n]));
    }
  }

  // ---- the results -----------------------------------------------------------------------------------

  /** Kept or gone, exactly.  In every run, whatever was refused and tried again, a first
      fragment is out of the buffer if and only if at least CAP_STREAMS entries of the list
      follow one of its message; and a later fragment if and only if, besides, some other
      message has been entered since. */
  lemma GoneIff(p: Params, es: seq<Event>, k: Key)
    requires FittingRun(p, es) && k in After(p, es).inserted
    ensures var s := After(p, es);
      k !in s.tx.buf <==> LongAgo(s.log, k.0) && (k.1 == 0 || s.log[|s.log| - 1] != k.0)
  {
    hide After, LongAgo, Good, Entered;
    RunLasts(p, es);
  }

  /** Every request is answered as its fragment's fate says.  A fragment once kept goes out
      again, as it was, while it is kept and fewer than capSend requests for it have come since
      it was; one that is gone, or asked for once more, ends the pipe, save that nothing is
      said about the message under way.  What was never sent is passed over while it may still
      come. */
  lemma AnsweredAs(p: Params, es: seq<Event>, k: Key)
    requires FittingRun(p, es) && !After(p, es).tx.poisoned
    ensures var s := After(p, es);
      var a, busy := HandleNack(s.tx, k, p.capSend).0, s.sending && k.0 + 1 == |s.sent|;
      if k in s.inserted && !Gone(s.log, k) then
        if Since(p, es, k) >= p.capSend then a == Poison
        else IsSent(s.sent, k) && a == Again(Frame(p.pipe, s.sent[k.0], k.0, k.1))
      else if busy || k.0 >= |s.sent| then a == Nothing
      else a == Poison
  {
    hide After, Gone, Entered, Frame, Total, Safe, LastOf, DroppedOf, WireOk, AllFit, Since;
    RunLasts(p, es);
    if k in After(p, es).tx.buf {
      CountIsSince(p, es, k);
    }
  }

  // ---- another message drops out ---------------------------------------------------------------------

  /** One message is sent; the first frame of the next one is refused n times. */
  function RetryRun(n: nat): seq<Event> {
    if n == 0 then [BeginSend([7]), Emit, FinishSend, BeginSend([8])] else RetryRun(n - 1) + [Retry]
  }

  function Ones(n: nat): (s: seq<nat>)
    ensures |s| == n && forall i :: 0 <= i < n ==> s[i] == 1
  {
    seq(n, _ => 1)
  }

  /** The sender after n refusals. */
  ghost predicate Tried(s: Sys, n: nat) {
    && s.sent == [[7], [8]] && s.sending && s.idx == 0 && s.log == [0] + Ones(n) && (0, 0) in s.inserted
    && !s.tx.poisoned
  }

  lemma TryOnce(p: Params, s: Sys, n: nat)
    requires Tried(s, n)
    ensures Enabled(Retry, s) && Enabled(Emit, s) && Tried(Apply(p, Retry, s), n + 1)
    ensures var s' := Apply(p, Emit, s);
      s'.sent == [[7], [8]] && s'.log == [0] + Ones(n + 1) && (0, 0) in s'.inserted && !s'.tx.poisoned
  {
    hide Frame, Evict;
    assert Total(1) == 1;
    assert [0] + Ones(n) + [1] == [0] + Ones(n + 1);
  }

  lemma {:induction false} RetryState(p: Params, n: nat)
    ensures Tried(After(p, RetryRun(n)), n) && FittingRun(p, RetryRun(n))
  {
    hide Tried, Apply, Enabled, FittingRun, After, CanEmit;
    if n == 0 {
      TwoMessages(p);
    } else {
      RetryState(p, n - 1);
      TryOnce(p, After(p, RetryRun(n - 1)), n - 1);
      MoreFitting(p, RetryRun(n - 1), Retry);
    }
  }

  lemma MoreFitting(p: Params, es: seq<Event>, e: Event)
    requires FittingRun(p, es) && Enabled(e, After(p, es)) && Fitting(e)
    ensures FittingRun(p, es + [e]) && After(p, es + [e]) == Apply(p, e, After(p, es))
  {
    hide Enabled, Apply, Possible, After;
    MorePossible(p, es, e);
  }

  lemma TwoMessages(p: Params)
    ensures var es := [BeginSend([7]), Emit, FinishSend, BeginSend([8])];
      Tried(After(p, es), 0) && FittingRun(p, es)
  {
    hide Apply, Enabled, FittingRun, After, Tried;
    var e1, e2 := [BeginSend([7])], [BeginSend([7]), Emit];
    var e3 := [BeginSend([7]), Emit, FinishSend];
    NoEvents(p);
    MoreFitting(p, [], BeginSend([7]));
    assert [] + [BeginSend([7])] == e1 && e1 + [Emit] == e2 && e2 + [FinishSend] == e3;
    assert e3 + [BeginSend([8])] == [BeginSend([7]), Emit, FinishSend, BeginSend([8])];
    FirstSteps(p);
    MoreFitting(p, e1, Emit);
    MoreFitting(p, e2, FinishSend);
    MoreFitting(p, e3, BeginSend([8]));
  }

  lemma NoEvents(p: Params)
    ensures FittingRun(p, []) && After(p, []) == START && Enabled(BeginSend([7]), START)
  {
  }

  lemma FirstSteps(p: Params)
    ensures var s1 := Apply(p, BeginSend([7]), START);
      var s2 := Apply(p, Emit, s1);
      var s3 := Apply(p, FinishSend, s2);
      && Enabled(Emit, s1) && Enabled(FinishSend, s2) && Enabled(BeginSend([8]), s3)
      && Tried(Apply(p, BeginSend([8]), s3), 0)
  {
    hide Frame;
    assert Total(1) == 1;
    assert [0] + Ones(0) == [0];
  }

  /** When the second message's first frame is refused 4095 times before it goes out, the first
      message is dropped: a request for it ends the pipe, although only one message has been
      begun since. */
  lemma RetriesEvict(p: Params)
    ensures var es := RetryRun(CAP_STREAMS - 1) + [Emit];
      var s := After(p, es);
      && Possible(p, es) && s.sent == [[7], [8]] && (0, 0) in s.inserted
      && HandleNack(s.tx, (0, 0), p.capSend).0 == Poison
  {
    hide Apply, Enabled, After, RetryRun, Possible, Tried, HandleNack, Since;
    var es := RetryRun(CAP_STREAMS - 1);
    RetryState(p, CAP_STREAMS - 1);
    TryOnce(p, After(p, es), CAP_STREAMS - 1);
    MoreFitting(p, es, Emit);
    var log := After(p, es + [Emit]).log;
    assert log[0] == 0 && |log| == CAP_STREAMS + 1;
    AnsweredAs(p, es + [Emit], (0, 0));
  }
}
