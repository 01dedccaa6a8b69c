/** Where the obvious claims about the bus stop: messages too long for 16-bit fields and empty
    messages that arrive early. */
module BusCaveats {
  import opened BusFrames
  import opened BusReceiver
  import opened BusDelivery
  import opened BusSender
  import opened BusSystem
  import opened BusNack
  import opened BusTurns
  import opened BusBudget

  // ---- length ------------------------------------------------------------------------------

  /** The receiver sets up as many slots as the 16-bit field says. */
  lemma SlotsSuffice(msg: Bytes)
    ensures Fits(msg) <==> |msg| <= Slots(msg) * MAX_PAYLOAD
  {
    SlotsHold(msg);
  }

  /** A message that does not fit is never delivered as it was sent, whatever arrives: in every
      run in which one has been handed over, bytes are missing from the stream. */
  lemma TooLongIsLost(p: Params, es: seq<Event>, m: nat)
    requires Possible(p, es) && m < After(p, es).rx.next <= |After(p, es).sent| && !Fits(After(p, es).sent[m])
    ensures var s := After(p, es);
      |s.out + Queued(s.rx.queue)| < |Concat(s.sent[..s.rx.next])|
  {
    hide After, TextOk, Fits, Queued, Concat, Possible;
    var texts := EachMessage(p, es);
    var s := After(p, es);
    var msgs := s.sent[..s.rx.next];
    forall j | 0 <= j < |texts|
      ensures |texts[j]| == |msgs[j]| ==> texts[j] == msgs[j] {
      TextIff(msgs[j], texts[j]);
    }
    assert texts[m] != msgs[m];
    ConcatShorter(texts, msgs);
  }

  /** A message whose frame count is a multiple of 65536 is skipped: its first frame to arrive
      in turn moves the stream past it without a byte. */
  lemma LongIsSkipped(p: Pipe, r: Rx, msg: Bytes, i: nat)
    requires Slots(msg) == 0 && i < Total(|msg|) && r.next !in r.pending && r.next + 1 !in r.pending
    ensures var r' := HandleData(p, r, Frame(p, msg, r.next, i));
      r'.next == r.next + 1 && r'.queue == r.queue && r'.bytes == r.bytes
  {
    hide Total, Frame, Plain, DrainPending;
    var d := Frame(p, msg, r.next, i);
    FrameParts(p, msg, r.next, i);
    assert Fill(Partial(0, 0, []), 0, d.idx, Plain(p, d)) == Partial(0, 0, []);
    var r1 := Stored(Noted(r, d), d, Plain(p, d));
    DrainOnce(r1);
    DrainOnce(PopNext(r1));
  }

  lemma DrainOnce(r: Rx)
    ensures DrainPending(r) ==
      if r.next in r.pending && r.pending[r.next].received == r.pending[r.next].total then DrainPending(PopNext(r))
      else r
  {
  }

  /** One with one frame more than that is cut: whichever of its frames arrives first in turn
      is handed over as if it were the whole message. */
  lemma LongIsCut(p: Pipe, r: Rx, msg: Bytes, i: nat)
    requires Slots(msg) == 1 && |msg| > 0 && i < Total(|msg|) && r.next + 1 !in r.pending
    ensures var r' := HandleData(p, r, Frame(p, msg, r.next, i));
      r'.next == r.next + 1 && r'.queue == r.queue + [Chunk(Fragment(msg, i), 0)]
  {
    hide Total, Frame, Plain, DrainPending, Fragment;
    var d := Frame(p, msg, r.next, i);
    FrameParts(p, msg, r.next, i);
    DrainOnce(Deliver(Noted(r, d), Plain(p, d)).(next := r.next + 1));
  }

  function Sevens(n: nat): (msg: Bytes)
    ensures |msg| == n
  {
    seq(n, _ => 7)
  }

  /** The shortest message that is skipped, and the shortest one that is cut, to 1400 bytes. */
  lemma LongExamples(p: Pipe)
    ensures var msg := Sevens(65535 * MAX_PAYLOAD + 1);
      Total(|msg|) == 65536 && HandleData(p, EMPTY_RX, Frame(p, msg, 0, 0)).next == 1
      && HandleData(p, EMPTY_RX, Frame(p, msg, 0, 0)).queue == []
    ensures var msg := Sevens(65536 * MAX_PAYLOAD + 1);
      Total(|msg|) == 65537 && HandleData(p, EMPTY_RX, Frame(p, msg, 0, 0)).next == 1
      && HandleData(p, EMPTY_RX, Frame(p, msg, 0, 0)).queue == [Chunk(msg[..MAX_PAYLOAD], 0)]
  {
    hide Frame, HandleData, Sevens;
    var skipped, cut := Sevens(65535 * MAX_PAYLOAD + 1), Sevens(65536 * MAX_PAYLOAD + 1);
    LongIsSkipped(p, EMPTY_RX, skipped, 0);
    LongIsCut(p, EMPTY_RX, cut, 0);
  }

  // ---- empty messages --------------------------------------------------------------------------

  /** An empty message whose turn has come is handed over if and only if its frame arrived at
      its turn, or arrived exactly once before. */
  lemma TurnComes(p: Params, es: seq<Event>, m: nat)
    requires Possible(p, es) && m < |After(p, es).sent| && |After(p, es).sent[m]| == 0
    ensures After(p, es).rx.next > m <==>
      After(p, es).rx.next >= m && (m in TallyOf(p, es).turn || Early(TallyOf(p, es), m) == 1)
  {
    hide After, TallyOf, Possible;
    HandedOverIff(p, es, m);
  }

  /** An empty message that arrives early, twice, is counted twice: the stream stops at it,
      although every frame has arrived.  The receiver asks for the frame, and a third copy
      sets the stream going again. */
  lemma EarlyEmptyTwice(p: Pipe, now: nat)
    ensures var d0, d1 := Frame(p, [7], 0, 0), Frame(p, [], 1, 0);
      var stuck := HandleData(p, HandleData(p, HandleData(p, EMPTY_RX, d1), d1), d0);
      && HandleData(p, HandleData(p, EMPTY_RX, d1), d0).next == 2
      && stuck.next == 1 && (1, 0) in ComputeMissing(stuck, now).nack && HandleData(p, stuck, d1).next == 2
  {
    var d0, d1 := Frame(p, [7], 0, 0), Frame(p, [], 1, 0);
    FrameIs(p, [7], 0, 0);
    FrameIs(p, [], 1, 0);
    assert Total(1) == 1 && Total(0) == 1;
    hide Frame, Crypt, Fragment, HandleData, Plain, ComputeMissing;
    EmptyOnce(p, d1);
    var r1 := HandleData(p, EMPTY_RX, d1);
    EmptyAgain(p, r1, d1);
    OnceThenNext(p, r1, d0);
    TwiceThenStuck(p, HandleData(p, r1, d1), d0, now);
    ThriceThenNext(p, HandleData(p, HandleData(p, r1, d1), d0), d1);
  }

  /** A stream that stands at an empty message of which frames have come is never lost: the
      frame came early at least twice, and is on the list of what to ask for. */
  lemma StuckIsAsked(p: Params, es: seq<Event>, now: nat)
    requires Possible(p, es)
    requires var s := After(p, es); s.rx.next < |s.sent| && |s.sent[s.rx.next]| == 0 && s.rx.next in s.rx.pending
    ensures var s := After(p, es);
      var k, r := (s.rx.next, 0), ComputeMissing(s.rx, now);
      Early(TallyOf(p, es), s.rx.next) >= 2 && k in r.nack && !Satisfied(r, k)
  {
    hide After, TallyOf, Possible, Account;
    var texts := RunTurned(p, es);
    var s := After(p, es);
    TurnedAt(p, s, texts, TallyOf(p, es), s.rx.next);
    assert Known(s.sent, s.rx, s.arrived, TallyOf(p, es));
    StuckAt(s.sent, s.rx, s.arrived, TallyOf(p, es));
    MissingIff(s.rx, now, (s.rx.next, 0));
  }

  lemma StuckAt(sent: seq<Bytes>, r: Rx, arrived: set<Key>, t: Tally)
    requires r.next < |sent| && |sent[r.next]| == 0 && r.next in r.pending
    requires Account(sent, r, r.next, arrived, t) && Stuck(r) && Known(sent, r, arrived, t)
    ensures r.pending[r.next] == Partial(1, Early(t, r.next), [[]]) && Early(t, r.next) >= 2
    ensures Some(arrived, r.next)
  {
    EmptySlots();
    var q := r.pending[r.next];
    assert SlotOk([], r.next, arrived, q.frags[0], 0);
    var j: nat :| (r.next, j) in arrived;
  }

  lemma {:induction false} DrainAdvances(r: Rx)
    ensures DrainPending(r).next >= r.next
    decreases |r.pending|
  {
    if r.next in r.pending && r.pending[r.next].received == r.pending[r.next].total {
      DrainAdvances(PopNext(r));
    }
  }

  lemma HandleAdvances(p: Pipe, r: Rx, d: Datagram)
    ensures HandleData(p, r, d).next >= r.next
  {
    hide Plain, DrainPending, Fill;
    DrainAdvances(Deliver(Noted(r, d), Plain(p, d)).(next := r.next + 1));
    DrainAdvances(Stored(Noted(r, d), d, Plain(p, d)));
  }

  /** Any frame of it sets the stream going again. */
  lemma ResentFrees(p: Params, es: seq<Event>, d: Datagram)
    requires Possible(p, es)
    requires var s := After(p, es);
      d in s.wire && d.seqno == s.rx.next < |s.sent| && Slots(s.sent[s.rx.next]) <= 1
    ensures Possible(p, es + [Arrive(d)]) && After(p, es + [Arrive(d)]).rx.next > After(p, es).rx.next
  {
    hide Possible, HandleData, Slots;
    var s, all := After(p, es), es + [Arrive(d)];
    assert all[..|es|] == es;
    HandleAdvances(p.pipe, s.rx, d);
    SomeOther(s.arrived, d.seqno, d.seqno, d.idx);
    MorePossible(p, es, Arrive(d));
    HandedOverIff(p, all, s.rx.next);
  }

  /** Recovery.  When the frame is due to be asked for, the tick does not give up the pipe, and
      the sender keeps the frame and has not answered too often, then a tick, the request
      and the answer take the stream past the message. */
  lemma Recovers(p: Params, es: seq<Event>, now: nat, order: seq<Key>) returns (d: Datagram)
    requires Possible(p, es) && Enabled(PumpTick(now, order), After(p, es))
    requires var s := After(p, es);
      && s.rx.next < |s.sent| && |s.sent[s.rx.next]| == 0 && s.rx.next in s.rx.pending
      && DueAt(p, s.rx, (s.rx.next, 0), now) && !Apply(p, PumpTick(now, order), s).rxPoisoned
      && !s.tx.poisoned && (s.rx.next, 0) in s.tx.buf && s.tx.buf[(s.rx.next, 0)].nacks < p.capSend
    ensures var s := After(p, es);
      var run := es + [PumpTick(now, order)] + [NackArrives((s.rx.next, 0))] + [Arrive(d)];
      Possible(p, run) && After(p, run).rx.next > s.rx.next
  {
    hide Possible, After, Apply, Enabled, Slots, DueAt;
    var s := After(p, es);
    var k: Key := (s.rx.next, 0);
    var es1 := es + [PumpTick(now, order)];
    var es2 := es1 + [NackArrives(k)];
    StuckIsAsked(p, es, now);
    TickAsksFor(p, s, now, order, k);
    MorePossible(p, es, PumpTick(now, order));
    d := AnswerAgain(p, After(p, es1), k);
    MorePossible(p, es1, NackArrives(k));
    EmptySlots();
    ResentFrees(p, es2, d);
  }

  lemma TickAsksFor(p: Params, s: Sys, now: nat, order: seq<Key>, k: Key)
    requires Enabled(PumpTick(now, order), s) && !Apply(p, PumpTick(now, order), s).rxPoisoned
    requires k in ComputeMissing(s.rx, now).nack && !Satisfied(ComputeMissing(s.rx, now), k) && DueAt(p, s.rx, k, now)
    ensures var s' := Apply(p, PumpTick(now, order), s);
      && k in s'.nacks && s'.tx == s.tx && s'.sent == s.sent && s'.rx.next == s.rx.next
  {
    hide Satisfied, VisitAll, MissingFirst;
    var r1 := ComputeMissing(s.rx, now);
    MissingIff(s.rx, now, k);
    TickAsks(r1, r1.nack, order, now, p.cycle, p.capRecv, k);
  }

  lemma AnswerAgain(p: Params, s: Sys, k: Key) returns (d: Datagram)
    requires k in s.nacks && !s.tx.poisoned && k in s.tx.buf && s.tx.buf[k].nacks < p.capSend
    ensures var s' := Apply(p, NackArrives(k), s);
      Enabled(NackArrives(k), s) && s'.rx == s.rx && s'.sent == s.sent && d in s'.wire && d.seqno == k.0
  {
    d := Resent(k, s.tx.buf[k]);
  }

  lemma EmptyOnce(p: Pipe, d: Datagram)
    requires d.seqno == 1 && d.idx == 0 && d.total == 1 && d.payload == []
    ensures var r := HandleData(p, EMPTY_RX, d);
      r.pending == map[1 := Partial(1, 1, [[]])] && r.next == 0 && r.anySeen && r.maxSeen == 1
  {
    assert Plain(p, d) == [];
    assert Blank(1) == [[]];
    assert Fill(Partial(0, 0, []), 1, 0, []) == Partial(1, 1, [[]]);
    var r := Stored(Noted(EMPTY_RX, d), d, []);
    assert DrainPending(r) == r;
  }

  lemma EmptyAgain(p: Pipe, r: Rx, d: Datagram)
    requires r.pending == map[1 := Partial(1, 1, [[]])] && r.next == 0 && r.anySeen && r.maxSeen == 1
    requires d.seqno == 1 && d.idx == 0 && d.total == 1 && d.payload == []
    ensures var r' := HandleData(p, r, d);
      r'.pending == map[1 := Partial(1, 2, [[]])] && r'.next == 0 && r'.anySeen && r'.maxSeen == 1
  {
    assert Plain(p, d) == [];
    assert Fill(Partial(1, 1, [[]]), 1, 0, []) == Partial(1, 2, [[]]);
    var r' := Stored(Noted(r, d), d, []);
    assert DrainPending(r') == r';
  }

  lemma OnceThenNext(p: Pipe, r: Rx, d: Datagram)
    requires r.pending == map[1 := Partial(1, 1, [[]])] && r.next == 0 && d.seqno == 0 && d.total == 1
    ensures HandleData(p, r, d).next == 2
  {
    var r2 := Deliver(Noted(r, d), Plain(p, d)).(next := 1);
    assert r2.pending[1].received == r2.pending[1].total;
    assert DrainPending(r2) == DrainPending(PopNext(r2));
    assert PopNext(r2).pending == map[] && PopNext(r2).next == 2;
  }

  lemma TwiceThenStuck(p: Pipe, r: Rx, d: Datagram, now: nat)
    requires r.pending == map[1 := Partial(1, 2, [[]])] && r.next == 0 && r.anySeen && r.maxSeen == 1
    requires d.seqno == 0 && d.total == 1
    ensures var r' := HandleData(p, r, d);
      r'.next == 1 && r'.pending == r.pending && (1, 0) in ComputeMissing(r', now).nack
  {
    hide ComputeMissing;
    var r2 := Deliver(Noted(r, d), Plain(p, d)).(next := 1);
    assert DrainPending(r2) == r2;
    MissingIff(r2, now, (1, 0));
  }

  lemma ThriceThenNext(p: Pipe, r: Rx, d: Datagram)
    requires r.pending == map[1 := Partial(1, 2, [[]])] && r.next == 1 && d.seqno == 1 && d.total == 1
    ensures HandleData(p, r, d).next == 2
  {
    var r2 := Deliver(Noted(r, d), Plain(p, d)).(next := 2);
    assert DrainPending(r2) == r2;
  }
}
