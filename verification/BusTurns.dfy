/** When a message is handed over, and as what: for all messages, empty ones and ones with
    more frames than their 16-bit fields can tell included, and every sequence of arrivals. */
module BusTurns {
  import opened BusFrames
  import opened BusReceiver
  import opened BusDelivery
  import opened BusNack
  import opened BusSender
  import opened BusSystem

  // ---- frames of any message -----------------------------------------------------------------

  /** How many slots the frames of a message announce. */
  function Slots(msg: Bytes): nat {
    Cast16(Total(|msg|))
  }

  ghost predicate FrameNo(p: Pipe, sent: seq<Bytes>, d: Datagram, i: nat) {
    d.seqno < |sent| && i < Total(|sent[d.seqno]|) && d == Frame(p, sent[d.seqno], d.seqno, i)
  }

  ghost predicate IsFrame(p: Pipe, sent: seq<Bytes>, d: Datagram) {
    exists i: nat :: FrameNo(p, sent, d, i)
  }

  /** Any frame carries its fragment; its number and its message's count are cut to 16 bits. */
  lemma FrameParts(p: Pipe, msg: Bytes, s: nat, i: nat)
    requires i < Total(|msg|)
    ensures var d := Frame(p, msg, s, i);
      d.seqno == s && d.idx == Cast16(i) && d.total == Slots(msg) && Plain(p, d) == Fragment(msg, i)
  {
    hide Fragment, Crypt, Nonce, Total;
    CryptTwice(p.ks, NonceOf(p, s, Cast16(i)), Fragment(msg, i));
  }

  lemma FrameGrows(p: Pipe, sent: seq<Bytes>, msg: Bytes, d: Datagram)
    requires IsFrame(p, sent, d)
    ensures IsFrame(p, sent + [msg], d)
  {
    hide Frame, Total;
    var i: nat :| FrameNo(p, sent, d, i);
    assert FrameNo(p, sent + [msg], d, i);
  }

  // ---- counting arrivals ---------------------------------------------------------------------------

  /** How often frame 0 of each message arrived before the message's turn, and the messages of
      which some frame arrived at their turn. */
  datatype Tally = Tally(early: map<nat, nat>, turn: set<nat>)

  function Early(t: Tally, m: nat): nat {
    if m in t.early then t.early[m] else 0
  }

  function Arrived(t: Tally, next: nat, d: Datagram): Tally {
    if d.seqno == next then t.(turn := t.turn + {d.seqno})
    else if next < d.seqno && d.idx == 0 then t.(early := t.early[d.seqno := Early(t, d.seqno) + 1])
    else t
  }

  /** The arrivals of a run. */
  function TallyOf(p: Params, es: seq<Event>): Tally {
    if es == [] then Tally(map[], {}) else
      var n := |es| - 1;
      if es[n].Arrive? then Arrived(TallyOf(p, es[..n]), After(p, es[..n]).rx.next, es[n].d) else TallyOf(p, es[..n])
  }

  ghost predicate Some(arrived: set<Key>, m: nat) {
    exists j: nat :: (m, j) in arrived
  }

  /** The arrivals that let message m be handed over when its turn comes. */
  ghost predicate Ready(msg: Bytes, m: nat, arrived: set<Key>, t: Tally) {
    if Slots(msg) == 0 then Some(arrived, m)
    else if Slots(msg) == 1 then m in t.turn || (if |msg| == 0 then Early(t, m) == 1 else Early(t, m) >= 1)
    else forall j: nat :: j < Slots(msg) ==> (m, j) in arrived
  }

  // ---- what is handed over -------------------------------------------------------------------------

  /** A fragment that a slot may hold. */
  ghost predicate Piece(msg: Bytes, j: nat, f: Bytes) {
    exists i: nat :: PieceNo(msg, j, f, i)
  }

  ghost predicate PieceNo(msg: Bytes, j: nat, f: Bytes, i: nat) {
    i < Total(|msg|) && Cast16(i) == j && f == Fragment(msg, i)
  }

  /** A fragment for each announced slot. */
  ghost predicate Spliced(msg: Bytes, fs: seq<Bytes>) {
    |fs| == Slots(msg) && forall j :: 0 <= j < |fs| ==> Piece(msg, j, fs[j])
  }

  /** What becomes of a message.  One that fits arrives as it is.  Of a longer one there are as
      many fragments as it announces: none at all, a single one, or one in each slot. */
  ghost predicate TextOk(msg: Bytes, text: Bytes) {
    && (Fits(msg) ==> text == msg)
    && |text| <= Slots(msg) * MAX_PAYLOAD
    && (Slots(msg) == 1 ==> exists i: nat :: i < Total(|msg|) && text == Fragment(msg, i))
    && (Slots(msg) != 1 ==> exists fs :: Spliced(msg, fs) && text == Concat(fs))
  }

  /** The bytes handed out and queued are the texts of the first `next` messages. */
  ghost predicate Told(sent: seq<Bytes>, texts: seq<Bytes>, out: Bytes, r: Rx) {
    && |texts| == r.next <= |sent|
    && out + Queued(r.queue) == Concat(texts) && r.bytes == |Queued(r.queue)|
    && forall m :: 0 <= m < |texts| ==> TextOk(sent[m], texts[m])
  }

  // ---- a message that waits ------------------------------------------------------------------------

  ghost predicate WaitOk(msg: Bytes, m: nat, arrived: set<Key>, q: Partial, early: nat) {
    && q.total == |q.frags| == Slots(msg)
    && (|msg| == 0 ==> q.received == early)
    && (|msg| > 0 ==> q.received == Filled(q.frags))
    && forall j :: 0 <= j < |q.frags| ==> SlotOk(msg, m, arrived, q.frags[j], j)
  }

  ghost predicate SlotOk(msg: Bytes, m: nat, arrived: set<Key>, f: Bytes, j: nat) {
    && (f == [] || Piece(msg, j, f))
    && (|msg| > 0 ==> (f != [] <==> (m, j) in arrived))
    && (|msg| == 0 ==> f == [])
  }

  /** A message of one announced slot has not had its turn, and every frame 0 of it came early. */
  ghost predicate Counts(msg: Bytes, m: nat, arrived: set<Key>, t: Tally) {
    && (Early(t, m) >= 1 ==> (m, 0) in arrived)
    && (Slots(msg) == 1 ==> m !in t.turn && ((m, 0) in arrived ==> Early(t, m) >= 1))
  }

  /** Message m against its arrivals. */
  ghost predicate Account(sent: seq<Bytes>, r: Rx, m: nat, arrived: set<Key>, t: Tally)
    requires m < |sent|
  {
    if m < r.next then Ready(sent[m], m, arrived, t)
    else
      && (m in r.pending <==> Some(arrived, m))
      && (m in r.pending ==> WaitOk(sent[m], m, arrived, r.pending[m], Early(t, m)))
      && Counts(sent[m], m, arrived, t)
  }

  ghost predicate Known(sent: seq<Bytes>, r: Rx, arrived: set<Key>, t: Tally) {
    && (forall m :: m in r.pending && m >= r.next ==> m < |sent|)
    && (forall k :: k in arrived ==> k.0 < |sent| && r.anySeen && k.0 <= r.maxSeen && (|sent[k.0]| == 0 ==> k.1 == 0))
    && (forall m :: m in t.early || m in t.turn ==> m < |sent|)
  }

  ghost predicate RxOk(sent: seq<Bytes>, texts: seq<Bytes>, out: Bytes, r: Rx, arrived: set<Key>, t: Tally) {
    && Told(sent, texts, out, r) && Known(sent, r, arrived, t)
    && forall m :: 0 <= m < |sent| ==> Account(sent, r, m, arrived, t)
  }

  /** The turn of a message that waits: the counts of the receiver and the arrivals agree. */
  lemma CompleteIff(msg: Bytes, m: nat, arrived: set<Key>, q: Partial, t: Tally)
    requires WaitOk(msg, m, arrived, q, Early(t, m)) && Some(arrived, m) && Counts(msg, m, arrived, t)
    ensures q.received == q.total <==> Ready(msg, m, arrived, t)
  {
    hide Total, Filled, Piece;
    FilledAll(q.frags);
    assert forall j :: 0 <= j < |q.frags| ==> SlotOk(msg, m, arrived, q.frags[j], j);
    if |msg| == 0 {
      EmptySlots();
    } else if Slots(msg) == 1 {
      assert SlotOk(msg, m, arrived, q.frags[0], 0);
    } else if Slots(msg) >= 2 && Ready(msg, m, arrived, t) {
      forall j | 0 <= j < |q.frags| ensures q.frags[j] != [] {
        assert (m, j) in arrived;
      }
    } else if Slots(msg) >= 2 && q.received == q.total {
      forall j: nat | j < Slots(msg) ensures (m, j) in arrived {
        assert SlotOk(msg, m, arrived, q.frags[j], j);
      }
    }
  }

  lemma EmptySlots()
    ensures Slots([]) == 1
  {
  }

  /** A message whose turn it is was handed over if and only if it was ready. */
  lemma TurnIff(sent: seq<Bytes>, r: Rx, m: nat, arrived: set<Key>, t: Tally)
    requires m < |sent| && Account(sent, r, m, arrived, t) && Stuck(r) && m <= r.next
    ensures m < r.next <==> Ready(sent[m], m, arrived, t)
  {
    hide WaitOk, Total, Slots;
    if m == r.next {
      if m in r.pending {
        CompleteIff(sent[m], m, arrived, r.pending[m], t);
      } else {
        NotReady(sent[m], m, arrived, t);
      }
    }
  }

  lemma NotReady(msg: Bytes, m: nat, arrived: set<Key>, t: Tally)
    requires !Some(arrived, m) && Counts(msg, m, arrived, t)
    ensures !Ready(msg, m, arrived, t)
  {
    hide Total;
    assert (m, 0) !in arrived;
  }

  // ---- handing over ----------------------------------------------------------------------------------

  /** What the slots of a complete message add up to. */
  lemma CompleteText(msg: Bytes, m: nat, arrived: set<Key>, q: Partial, early: nat)
    requires WaitOk(msg, m, arrived, q, early) && q.received == q.total
    ensures TextOk(msg, Concat(q.frags))
  {
    hide Fragment, Filled, Total;
    FilledAll(q.frags);
    forall j | 0 <= j < |q.frags| ensures |q.frags[j]| <= MAX_PAYLOAD {
      PieceLength(msg, m, arrived, q.frags[j], j);
    }
    ConcatLength(q.frags);
    if |msg| == 0 {
      EmptySlots();
      ConcatOne(q.frags);
      EmptyText();
    } else {
      FullText(msg, m, arrived, q);
    }
  }

  lemma PieceLength(msg: Bytes, m: nat, arrived: set<Key>, f: Bytes, j: nat)
    requires SlotOk(msg, m, arrived, f, j)
    ensures |f| <= MAX_PAYLOAD
  {
    hide Total;
  }

  lemma ConcatOne(fs: seq<Bytes>)
    ensures |fs| == 1 ==> Concat(fs) == fs[0]
  {
    if |fs| == 1 {
      assert fs[..0] == [];
      assert Concat(fs) == Concat(fs[..0]) + fs[0];
    }
  }

  lemma EmptyText()
    ensures Total(0) == 1 && Fragment([], 0) == []
  {
  }

  lemma FullText(msg: Bytes, m: nat, arrived: set<Key>, q: Partial)
    requires |msg| > 0 && |q.frags| == Slots(msg)
    requires forall j :: 0 <= j < |q.frags| ==> SlotOk(msg, m, arrived, q.frags[j], j) && q.frags[j] != []
    ensures Fits(msg) ==> Concat(q.frags) == msg
    ensures Slots(msg) == 1 ==> exists i: nat :: i < Total(|msg|) && Concat(q.frags) == Fragment(msg, i)
    ensures Spliced(msg, q.frags)
  {
    hide Fragment, Total, Fits;
    forall j | 0 <= j < |q.frags| ensures Piece(msg, j, q.frags[j]) {
      assert SlotOk(msg, m, arrived, q.frags[j], j);
    }
    if Fits(msg) {
      FitsTotal(msg);
      forall j | 0 <= j < |q.frags| ensures q.frags[j] == Fragment(msg, j) {
        assert SlotOk(msg, m, arrived, q.frags[j], j);
        var i: nat :| PieceNo(msg, j, q.frags[j], i);
      }
      assert q.frags == Fragments(msg);
      Reassemble(msg);
    }
    if Slots(msg) == 1 {
      ConcatOne(q.frags);
      assert SlotOk(msg, m, arrived, q.frags[0], 0);
      var i: nat :| PieceNo(msg, 0, q.frags[0], i);
    }
  }

  /** Handing over the next message as `text`. */
  lemma DeliverTold(sent: seq<Bytes>, texts: seq<Bytes>, out: Bytes, r: Rx, text: Bytes, pending: map<nat, Partial>)
    requires Told(sent, texts, out, r) && r.next < |sent| && TextOk(sent[r.next], text)
    ensures Told(sent, texts + [text], out, Deliver(r, text).(pending := pending, next := r.next + 1))
  {
    hide TextOk, Rest;
    QueuedPush(r.queue, text);
    assert (texts + [text])[..|texts|] == texts;
    assert Concat(texts + [text]) == Concat(texts) + text;
    assert out + (Queued(r.queue) + text) == out + Queued(r.queue) + text;
  }

  /** The next message is complete. */
  lemma PopOk(sent: seq<Bytes>, texts: seq<Bytes>, out: Bytes, r: Rx, arrived: set<Key>, t: Tally)
    requires RxOk(sent, texts, out, r, arrived, t)
    requires r.next in r.pending && r.pending[r.next].received == r.pending[r.next].total
    ensures RxOk(sent, texts + [Concat(r.pending[r.next].frags)], out, PopNext(r), arrived, t)
  {
    hide Told, TextOk, Queued, Concat, Total, WaitOk, Ready;
    var m := r.next;
    assert m < |sent| && Account(sent, r, m, arrived, t);
    CompleteIff(sent[m], m, arrived, r.pending[m], t);
    CompleteText(sent[m], m, arrived, r.pending[m], Early(t, m));
    ToldNext(sent, texts, out, r);
    DeliverTold(sent, texts, out, r, Concat(r.pending[m].frags), r.pending - {m});
    forall n | 0 <= n < |sent| ensures Account(sent, PopNext(r), n, arrived, t) {
      assert Account(sent, r, n, arrived, t);
    }
  }

  lemma ToldNext(sent: seq<Bytes>, texts: seq<Bytes>, out: Bytes, r: Rx)
    requires Told(sent, texts, out, r)
    ensures |texts| == r.next <= |sent|
  {
  }

  lemma {:induction false} DrainOk(sent: seq<Bytes>, texts: seq<Bytes>, out: Bytes, r: Rx, arrived: set<Key>, t: Tally)
    returns (texts': seq<Bytes>)
    requires RxOk(sent, texts, out, r, arrived, t)
    ensures RxOk(sent, texts', out, DrainPending(r), arrived, t) && Stuck(DrainPending(r))
    decreases |r.pending|
  {
    hide RxOk, PopNext;
    if r.next in r.pending && r.pending[r.next].received == r.pending[r.next].total {
      PopOk(sent, texts, out, r, arrived, t);
      texts' := DrainOk(sent, texts + [Concat(r.pending[r.next].frags)], out, PopNext(r), arrived, t);
    } else {
      texts' := texts;
    }
  }

  // ---- one more frame --------------------------------------------------------------------------------

  /** Frame i of message m goes to its slot. */
  lemma FillOnce(msg: Bytes, m: nat, arrived: set<Key>, q: Partial, early: nat, i: nat, first: bool)
    requires i < Total(|msg|)
    requires if first then q == Partial(0, 0, []) && early == 0 && !Some(arrived, m)
      else WaitOk(msg, m, arrived, q, early)
    ensures WaitOk(msg, m, arrived + {(m, Cast16(i))}, Fill(q, Slots(msg), Cast16(i), Fragment(msg, i)),
                   early + if Cast16(i) == 0 then 1 else 0)
  {
    hide Fragment, Total, Filled, Piece;
    var q0 := if q.total == 0 then Partial(Slots(msg), q.received, Blank(Slots(msg))) else q;
    BlankOk(msg, m, arrived, q, early, first);
    assert WaitOk(msg, m, arrived, q0, early);
    var idx, f := Cast16(i), Fragment(msg, i);
    assert Fill(q, Slots(msg), idx, f) == Fill(q0, Slots(msg), idx, f) by {
      FilledBlank(0);
    }
    FillSlot(msg, m, arrived, q0, early, i);
  }

  lemma BlankOk(msg: Bytes, m: nat, arrived: set<Key>, q: Partial, early: nat, first: bool)
    requires if first then q == Partial(0, 0, []) && early == 0 && !Some(arrived, m)
      else WaitOk(msg, m, arrived, q, early)
    ensures q.total == 0 ==> WaitOk(msg, m, arrived, Partial(Slots(msg), q.received, Blank(Slots(msg))), early)
  {
    hide Total, Filled, Piece;
    FilledBlank(Slots(msg));
    FilledAll(q.frags);
    if first {
      assert forall j: nat :: (m, j) !in arrived;
    }
  }

  lemma FillSlot(msg: Bytes, m: nat, arrived: set<Key>, q: Partial, early: nat, i: nat)
    requires i < Total(|msg|) && WaitOk(msg, m, arrived, q, early)
    ensures WaitOk(msg, m, arrived + {(m, Cast16(i))}, Fill(q, Slots(msg), Cast16(i), Fragment(msg, i)),
                   early + if Cast16(i) == 0 then 1 else 0)
  {
    hide Total, Filled, Fragment;
    var idx, f := Cast16(i), Fragment(msg, i);
    var arrived', q' := arrived + {(m, idx)}, Fill(q, Slots(msg), idx, f);
    assert PieceNo(msg, idx, f, i);
    if |msg| == 0 {
      EmptySlots();
      EmptyFirst(i);
    } else if idx < |q.frags| && q.frags[idx] == [] {
      FilledSet(q.frags, idx, f);
    }
    forall j | 0 <= j < |q'.frags| ensures SlotOk(msg, m, arrived', q'.frags[j], j) {
      assert j < |q.frags| ==> SlotOk(msg, m, arrived, q.frags[j], j);
    }
  }

  lemma EmptyFirst(i: nat)
    ensures i < Total(0) ==> i == 0 && Fragment([], i) == []
  {
  }

  lemma WaitEarly(msg: Bytes, m: nat, arrived: set<Key>, q: Partial, e1: nat, e2: nat)
    requires WaitOk(msg, m, arrived, q, e1) && (|msg| == 0 ==> e1 == e2)
    ensures WaitOk(msg, m, arrived, q, e2)
  {
  }

  /** Messages whose frame it is not. */
  lemma AccountOther(sent: seq<Bytes>, r: Rx, r': Rx, m: nat, s: nat, j: nat, arrived: set<Key>, t: Tally, t': Tally)
    requires m < |sent| && m != s && Account(sent, r, m, arrived, t)
    requires (m < r.next <==> m < r'.next) && (m in r.pending <==> m in r'.pending)
    requires m in r.pending ==> r'.pending[m] == r.pending[m]
    requires Early(t', m) == Early(t, m) && (m in t'.turn <==> m in t.turn)
    ensures Account(sent, r', m, arrived + {(s, j)}, t')
  {
    hide Total, Slots, Filled, Piece;
    SomeOther(arrived, m, s, j);
    if m >= r.next && m in r.pending {
      WaitOther(sent[m], m, arrived, r.pending[m], Early(t, m), s, j);
    }
  }

  lemma SomeOther(arrived: set<Key>, m: nat, s: nat, j: nat)
    ensures m != s ==> (Some(arrived + {(s, j)}, m) <==> Some(arrived, m))
    ensures Some(arrived + {(s, j)}, s)
  {
    if m != s && Some(arrived + {(s, j)}, m) {
      var i: nat :| (m, i) in arrived + {(s, j)};
      assert (m, i) in arrived;
    }
    if m != s && Some(arrived, m) {
      var i: nat :| (m, i) in arrived;
      assert (m, i) in arrived + {(s, j)};
    }
    assert (s, j) in arrived + {(s, j)};
  }

  lemma WaitOther(msg: Bytes, m: nat, arrived: set<Key>, q: Partial, early: nat, s: nat, j: nat)
    requires m != s && WaitOk(msg, m, arrived, q, early)
    ensures WaitOk(msg, m, arrived + {(s, j)}, q, early)
  {
    hide Piece, Slots, Filled;
    forall i | 0 <= i < |q.frags| ensures SlotOk(msg, m, arrived + {(s, j)}, q.frags[i], i) {
      assert SlotOk(msg, m, arrived, q.frags[i], i);
    }
  }

  /** More arrivals do not undo that a message was ready. */
  lemma ReadyGrows(msg: Bytes, m: nat, arrived: set<Key>, k: Key, t: Tally)
    requires Ready(msg, m, arrived, t)
    ensures Ready(msg, m, arrived + {k}, t)
  {
    hide Slots;
    if Some(arrived, m) {
      var i: nat :| (m, i) in arrived;
      assert (m, i) in arrived + {k};
    }
  }

  lemma NotedTold(sent: seq<Bytes>, texts: seq<Bytes>, out: Bytes, r: Rx, arrived: set<Key>, t: Tally, d: Datagram)
    requires RxOk(sent, texts, out, r, arrived, t) && d.seqno < |sent| && (|sent[d.seqno]| == 0 ==> d.idx == 0)
    ensures Told(sent, texts, out, Noted(r, d))
    ensures Known(sent, Noted(r, d), arrived + {(d.seqno, d.idx)}, Arrived(t, r.next, d))
  {
    hide TextOk, Account, Queued, Concat;
  }

  lemma LateOk(sent: seq<Bytes>, texts: seq<Bytes>, out: Bytes, r: Rx, arrived: set<Key>, t: Tally, d: Datagram)
    requires RxOk(sent, texts, out, r, arrived, t) && d.seqno < r.next
    requires d.seqno < |sent| && (|sent[d.seqno]| == 0 ==> d.idx == 0)
    ensures RxOk(sent, texts, out, Noted(r, d), arrived + {(d.seqno, d.idx)}, Arrived(t, r.next, d))
  {
    hide TextOk, Queued, Concat, WaitOk, Counts, Ready;
    NotedTold(sent, texts, out, r, arrived, t, d);
    forall m | 0 <= m < |sent| ensures Account(sent, Noted(r, d), m, arrived + {(d.seqno, d.idx)}, t) {
      assert Account(sent, r, m, arrived, t);
      if m == d.seqno {
        ReadyGrows(sent[m], m, arrived, (d.seqno, d.idx), t);
      } else {
        AccountOther(sent, r, Noted(r, d), m, d.seqno, d.idx, arrived, t, t);
      }
    }
  }

  /** A frame that announces one slot, at its message's turn: its payload is the message. */
  lemma DirectOk(p: Pipe, sent: seq<Bytes>, texts: seq<Bytes>, out: Bytes, r: Rx, arrived: set<Key>, t: Tally, i: nat)
    requires RxOk(sent, texts, out, r, arrived, t) && r.next < |sent| && i < Total(|sent[r.next]|)
    requires Slots(sent[r.next]) == 1
    ensures var d := Frame(p, sent[r.next], r.next, i);
      RxOk(sent, texts + [Plain(p, d)], out, Deliver(Noted(r, d), Plain(p, d)).(next := r.next + 1),
           arrived + {(d.seqno, d.idx)}, Arrived(t, r.next, d))
  {
    hide TextOk, Queued, Concat, WaitOk, Counts, Frame, Plain, Total, Account, Slots;
    var s := r.next;
    var d := Frame(p, sent[s], s, i);
    FrameParts(p, sent[s], s, i);
    EmptyFirst(i);
    NotedTold(sent, texts, out, r, arrived, t, d);
    DirectText(sent[s], i);
    var r1, text := Noted(r, d), Plain(p, d);
    DeliverTold(sent, texts, out, r1, text, r1.pending);
    var r2, t' := Deliver(r1, text).(next := s + 1), Arrived(t, s, d);
    forall m | 0 <= m < |sent| ensures Account(sent, r2, m, arrived + {(d.seqno, d.idx)}, t') {
      assert Account(sent, r, m, arrived, t);
      if m == s {
        TurnReady(sent, r2, m, arrived + {(d.seqno, d.idx)}, t');
      } else {
        AccountOther(sent, r, r2, m, s, d.idx, arrived, t, t');
      }
    }
  }

  lemma TurnReady(sent: seq<Bytes>, r: Rx, m: nat, arrived: set<Key>, t: Tally)
    requires m < |sent| && m < r.next && m in t.turn && Slots(sent[m]) == 1
    ensures Account(sent, r, m, arrived, t)
  {
  }

  lemma DirectText(msg: Bytes, i: nat)
    requires i < Total(|msg|) && Slots(msg) == 1
    ensures TextOk(msg, Fragment(msg, i))
  {
    if Fits(msg) {
      FitsTotal(msg);
      OneFragment(msg);
    }
  }

  /** A frame that is stored. */
  lemma StoreOk(p: Pipe, sent: seq<Bytes>, texts: seq<Bytes>, out: Bytes, r: Rx, arrived: set<Key>, t: Tally, s: nat,
                i: nat)
    requires RxOk(sent, texts, out, r, arrived, t) && r.next <= s < |sent| && i < Total(|sent[s]|)
    requires Slots(sent[s]) != 1 || s != r.next
    ensures var d := Frame(p, sent[s], s, i);
      RxOk(sent, texts, out, Stored(Noted(r, d), d, Plain(p, d)), arrived + {(d.seqno, d.idx)}, Arrived(t, r.next, d))
  {
    hide TextOk, Queued, Concat, WaitOk, Frame, Plain, Total, Account, Slots, Fill;
    var d := Frame(p, sent[s], s, i);
    FrameParts(p, sent[s], s, i);
    EmptyFirst(i);
    NotedTold(sent, texts, out, r, arrived, t, d);
    var r2, t' := Stored(Noted(r, d), d, Plain(p, d)), Arrived(t, r.next, d);
    forall m | 0 <= m < |sent| ensures Account(sent, r2, m, arrived + {(d.seqno, d.idx)}, t') {
      assert Account(sent, r, m, arrived, t);
      if m == s {
        StoredAccount(sent, r, r2, s, i, arrived, t, t');
      } else {
        AccountOther(sent, r, r2, m, s, d.idx, arrived, t, t');
      }
    }
  }

  lemma StoredAccount(sent: seq<Bytes>, r: Rx, r2: Rx, s: nat, i: nat, arrived: set<Key>, t: Tally, t': Tally)
    requires s < |sent| && Account(sent, r, s, arrived, t) && r.next <= s && r2.next == r.next && i < Total(|sent[s]|)
    requires Slots(sent[s]) != 1 || s != r.next
    requires var was := if s in r.pending then r.pending[s] else Partial(0, 0, []);
      s in r2.pending && r2.pending[s] == Fill(was, Slots(sent[s]), Cast16(i), Fragment(sent[s], i))
    requires t' == if s == r.next then t.(turn := t.turn + {s})
                   else if Cast16(i) == 0 then t.(early := t.early[s := Early(t, s) + 1]) else t
    ensures Account(sent, r2, s, arrived + {(s, Cast16(i))}, t')
  {
    hide WaitOk, Total, Slots, Fill, Fragment;
    var msg, first := sent[s], s !in r.pending;
    var was := if first then Partial(0, 0, []) else r.pending[s];
    if first {
      NoEarly(arrived, s, t);
    }
    FillOnce(msg, s, arrived, was, Early(t, s), i, first);
    SomeOther(arrived, s, s, Cast16(i));
    OnlyEmptyOne(msg);
    var early := Early(t, s) + if Cast16(i) == 0 then 1 else 0;
    WaitEarly(msg, s, arrived + {(s, Cast16(i))}, r2.pending[s], early, Early(t', s));
  }

  lemma NoEarly(arrived: set<Key>, m: nat, t: Tally)
    requires !Some(arrived, m) && (Early(t, m) >= 1 ==> (m, 0) in arrived)
    ensures Early(t, m) == 0
  {
    assert (m, 0) !in arrived;
  }

  lemma OnlyEmptyOne(msg: Bytes)
    ensures |msg| == 0 ==> Slots(msg) == 1
  {
  }

  /** A frame of any message, at any time. */
  lemma HandleOk(p: Pipe, sent: seq<Bytes>, texts: seq<Bytes>, out: Bytes, r: Rx, arrived: set<Key>, t: Tally, s: nat,
                 i: nat)
    returns (texts': seq<Bytes>)
    requires RxOk(sent, texts, out, r, arrived, t) && Stuck(r) && s < |sent| && i < Total(|sent[s]|)
    ensures var d := Frame(p, sent[s], s, i);
      && RxOk(sent, texts', out, HandleData(p, r, d), arrived + {(d.seqno, d.idx)}, Arrived(t, r.next, d))
      && Stuck(HandleData(p, r, d))
  {
    hide RxOk, Frame, Plain, Total, Slots, Fill, DrainPending, Arrived;
    var d := Frame(p, sent[s], s, i);
    FrameParts(p, sent[s], s, i);
    EmptyFirst(i);
    if s < r.next {
      LateOk(sent, texts, out, r, arrived, t, d);
      texts' := texts;
    } else if d.total == 1 && s == r.next {
      DirectOk(p, sent, texts, out, r, arrived, t, i);
      texts' := DrainOk(sent, texts + [Plain(p, d)], out, Deliver(Noted(r, d), Plain(p, d)).(next := r.next + 1),
                        arrived + {(d.seqno, d.idx)}, Arrived(t, r.next, d));
    } else {
      StoreOk(p, sent, texts, out, r, arrived, t, s, i);
      texts' := DrainOk(sent, texts, out, Stored(Noted(r, d), d, Plain(p, d)), arrived + {(d.seqno, d.idx)},
                        Arrived(t, r.next, d));
    }
  }

  // ---- every run -------------------------------------------------------------------------------------

  /** Whatever was kept or sent is a frame of a message begun. */
  ghost predicate FramesOnly(p: Pipe, s: Sys) {
    && (forall d :: d in s.wire ==> IsFrame(p, s.sent, d))
    && (forall k :: k in s.tx.buf ==> IsFrame(p, s.sent, Resent(k, s.tx.buf[k])))
  }

  /** The state of a run, as its arrivals say. */
  ghost predicate Turned(p: Params, s: Sys, texts: seq<Bytes>, t: Tally) {
    FramesOnly(p.pipe, s) && Stuck(s.rx) && RxOk(s.sent, texts, s.out, s.rx, s.arrived, t)
  }

  /** Nothing is known of a message that has just been begun. */
  lemma BeginRx(sent: seq<Bytes>, texts: seq<Bytes>, out: Bytes, r: Rx, arrived: set<Key>, t: Tally, msg: Bytes)
    requires RxOk(sent, texts, out, r, arrived, t)
    ensures RxOk(sent + [msg], texts, out, r, arrived, t)
  {
    hide TextOk, Queued, Concat, WaitOk, Ready, Slots;
    var sent', n := sent + [msg], |sent|;
    forall m | 0 <= m < |sent'| ensures Account(sent', r, m, arrived, t) {
      if m < n {
        assert Account(sent, r, m, arrived, t);
      } else {
        assert !Some(arrived, n);
        assert (n, 0) !in arrived;
      }
    }
  }

  lemma BeginTurned(p: Params, s: Sys, msg: Bytes, texts: seq<Bytes>, t: Tally)
    requires Turned(p, s, texts, t)
    ensures Turned(p, Apply(p, BeginSend(msg), s), texts, t)
  {
    hide RxOk, IsFrame, Stuck;
    BeginRx(s.sent, texts, s.out, s.rx, s.arrived, t, msg);
    forall d | d in s.wire ensures IsFrame(p.pipe, s.sent + [msg], d) {
      FrameGrows(p.pipe, s.sent, msg, d);
    }
    forall k | k in s.tx.buf ensures IsFrame(p.pipe, s.sent + [msg], Resent(k, s.tx.buf[k])) {
      FrameGrows(p.pipe, s.sent, msg, Resent(k, s.tx.buf[k]));
    }
  }

  lemma CurrentIsFrame(p: Params, s: Sys)
    requires CanEmit(s)
    ensures var d := Current(p, s);
      IsFrame(p.pipe, s.sent, d) && d == Datagram(Last(s), Cast16(s.idx), d.total, d.payload)
  {
    hide Total, Fragment, Crypt, Nonce;
    assert FrameNo(p.pipe, s.sent, Current(p, s), s.idx);
  }

  lemma KeptTurned(p: Params, s: Sys, texts: seq<Bytes>, t: Tally)
    requires Turned(p, s, texts, t) && CanEmit(s)
    ensures Turned(p, Kept(p, s), texts, t) && IsFrame(p.pipe, s.sent, Current(p, s))
  {
    hide RxOk, IsFrame, Stuck, Evict, Current, CanEmit;
    CurrentIsFrame(p, s);
    var k: Key, d := (Last(s), Cast16(s.idx)), Current(p, s);
    EvictKeeps(s.tx.order + [k.0], s.tx.buf[k := TxRecord(d.total, d.payload, 0)]);
  }

  lemma EmitTurned(p: Params, s: Sys, texts: seq<Bytes>, t: Tally)
    requires Turned(p, s, texts, t) && CanEmit(s)
    ensures Turned(p, Apply(p, Emit, s), texts, t)
  {
    hide RxOk, IsFrame, Stuck, Insert, Current;
    KeptTurned(p, s, texts, t);
  }

  lemma AnswerTurned(p: Params, s: Sys, k: Key, texts: seq<Bytes>, t: Tally)
    requires Turned(p, s, texts, t)
    ensures Turned(p, Apply(p, NackArrives(k), s), texts, t)
  {
    hide RxOk, IsFrame, Stuck;
  }

  lemma TakeTold(sent: seq<Bytes>, texts: seq<Bytes>, out: Bytes, r: Rx, n: nat)
    requires Told(sent, texts, out, r) && n <= r.bytes
    ensures n <= |Queued(r.queue)| && Told(sent, texts, out + Recv(r, n).0, Recv(r, n).1)
  {
    hide TextOk, Concat, Take, Queued;
    TakeIs(r.queue, n);
    var q := Queued(r.queue);
    assert out + q[..n] + q[n..] == out + q;
  }

  lemma TakeTurned(p: Params, s: Sys, n: nat, texts: seq<Bytes>, t: Tally)
    requires Turned(p, s, texts, t) && n <= s.rx.bytes
    ensures Turned(p, Apply(p, TakeBytes(n), s), texts, t)
  {
    hide IsFrame, Account, TextOk, Concat, Take, Queued, Told;
    TakeTold(s.sent, texts, s.out, s.rx, n);
    SameAccount(s.sent, s.rx, Recv(s.rx, n).1, s.arrived, t);
  }

  lemma SameAccount(sent: seq<Bytes>, r: Rx, r': Rx, arrived: set<Key>, t: Tally)
    requires r'.next == r.next && r'.pending == r.pending
    ensures forall m :: 0 <= m < |sent| && Account(sent, r, m, arrived, t) ==> Account(sent, r', m, arrived, t)
  {
    hide WaitOk, Ready, Counts;
  }

  lemma TickTurned(p: Params, s: Sys, now: nat, order: seq<Key>, texts: seq<Bytes>, t: Tally)
    requires Turned(p, s, texts, t)
    ensures Turned(p, Apply(p, PumpTick(now, order), s), texts, t)
  {
    hide IsFrame, Account, TextOk, Concat, Queued, VisitAll, MissingFirst;
    var s' := Apply(p, PumpTick(now, order), s);
    SameAccount(s.sent, s.rx, s'.rx, s.arrived, t);
    assert s'.rx == s.rx.(nack := s'.rx.nack);
  }

  lemma ArriveTurned(p: Params, s: Sys, d: Datagram, texts: seq<Bytes>, t: Tally) returns (texts': seq<Bytes>)
    requires Turned(p, s, texts, t) && d in s.wire
    ensures Turned(p, Apply(p, Arrive(d), s), texts', Arrived(t, s.rx.next, d))
  {
    hide RxOk, Stuck, Frame, Arrived, HandleData;
    assert IsFrame(p.pipe, s.sent, d);
    var i: nat :| FrameNo(p.pipe, s.sent, d, i);
    texts' := HandleOk(p.pipe, s.sent, texts, s.out, s.rx, s.arrived, t, d.seqno, i);
  }

  lemma SameTurned(p: Params, s: Sys, s': Sys, texts: seq<Bytes>, t: Tally)
    requires Turned(p, s, texts, t) && s'.sent == s.sent && s'.wire == s.wire && s'.tx.buf == s.tx.buf
    requires s'.rx == s.rx && s'.out == s.out && s'.arrived == s.arrived
    ensures Turned(p, s', texts, t)
  {
    hide RxOk, IsFrame, Stuck;
  }

  /** One event. */
  lemma StepTurned(p: Params, e: Event, s: Sys, texts: seq<Bytes>, t: Tally) returns (texts': seq<Bytes>)
    requires Turned(p, s, texts, t) && Enabled(e, s)
    ensures Turned(p, Apply(p, e, s), texts', if e.Arrive? then Arrived(t, s.rx.next, e.d) else t)
  {
    hide Turned, HandleData, HandleNack, Ticked, Insert, Recv, CanEmit, Enumerates, Arrived;
    texts' := texts;
    match e
    case BeginSend(msg) => BeginTurned(p, s, msg, texts, t);
    case Emit => EmitTurned(p, s, texts, t);
    case Retry => KeptTurned(p, s, texts, t);
    case FinishSend => SameTurned(p, s, Apply(p, e, s), texts, t);
    case Arrive(d) => texts' := ArriveTurned(p, s, d, texts, t);
    case TakeBytes(n) => TakeTurned(p, s, n, texts, t);
    case PumpTick(now, order) => TickTurned(p, s, now, order, texts, t);
    case NackArrives(k) => AnswerTurned(p, s, k, texts, t);
    case NackLost(k) => SameTurned(p, s, Apply(p, e, s), texts, t);
    case NackCopied(k) => SameTurned(p, s, Apply(p, e, s), texts, t);
    case PoisonArrives => SameTurned(p, s, Apply(p, e, s), texts, t);
  }

  lemma StartTurned(p: Params)
    ensures Turned(p, START, [], Tally(map[], {}))
  {
  }

  lemma {:induction false} RunTurned(p: Params, es: seq<Event>) returns (texts: seq<Bytes>)
    requires Possible(p, es)
    ensures Turned(p, After(p, es), texts, TallyOf(p, es))
  {
    hide Turned, Apply, Enabled, Arrived;
    if es == [] {
      StartTurned(p);
      texts := [];
    } else {
      var n := |es| - 1;
      PossiblePrefix(p, es, n);
      texts := RunTurned(p, es[..n]);
      assert es[..n] == es[..|es| - 1];
      texts := StepTurned(p, es[n], After(p, es[..n]), texts, TallyOf(p, es[..n]));
    }
  }

  // ---- the results -----------------------------------------------------------------------------------

  lemma TurnedAt(p: Params, s: Sys, texts: seq<Bytes>, t: Tally, m: nat)
    requires Turned(p, s, texts, t) && m < |s.sent|
    ensures Account(s.sent, s.rx, m, s.arrived, t) && Stuck(s.rx) && s.rx.next <= |s.sent|
  {
    hide Account, TextOk, Queued, Concat, FramesOnly;
  }

  /** In its turn and not before.  In every run, whatever was sent, message m has been handed
      over if and only if all messages before it have and its arrivals made it ready.  For an
      empty message that is: its frame arrived at the message's turn, or exactly once before. */
  lemma HandedOverIff(p: Params, es: seq<Event>, m: nat)
    requires Possible(p, es) && m < |After(p, es).sent|
    ensures var s := After(p, es);
      s.rx.next > m <==> s.rx.next >= m && Ready(s.sent[m], m, s.arrived, TallyOf(p, es))
  {
    hide Account, After, TallyOf, Ready, Turned;
    var texts := RunTurned(p, es);
    var s := After(p, es);
    TurnedAt(p, s, texts, TallyOf(p, es), m);
    BeforeReady(s.sent, s.rx, m, s.arrived, TallyOf(p, es));
    if m == s.rx.next {
      TurnIff(s.sent, s.rx, m, s.arrived, TallyOf(p, es));
    }
  }

  lemma BeforeReady(sent: seq<Bytes>, r: Rx, m: nat, arrived: set<Key>, t: Tally)
    requires m < |sent| && Account(sent, r, m, arrived, t)
    ensures m < r.next ==> Ready(sent[m], m, arrived, t)
  {
  }

  /** The first n messages have been handed over if and only if each of them is ready. */
  lemma FirstReady(p: Params, es: seq<Event>, n: nat)
    requires Possible(p, es) && n <= |After(p, es).sent|
    ensures var s := After(p, es);
      s.rx.next >= n <==> forall m: nat :: m < n ==> Ready(s.sent[m], m, s.arrived, TallyOf(p, es))
  {
    hide After, TallyOf, Ready, Possible;
    var s := After(p, es);
    forall m: nat | m < n ensures s.rx.next > m ==> Ready(s.sent[m], m, s.arrived, TallyOf(p, es)) {
      HandedOverIff(p, es, m);
    }
    if s.rx.next < n {
      HandedOverIff(p, es, s.rx.next);
    }
  }

  // ---- as what ----------------------------------------------------------------------------------------

  /** In every run the bytes handed out and queued are one text for each message handed over:
      the message itself if it fits, and otherwise something shorter. */
  lemma EachMessage(p: Params, es: seq<Event>) returns (texts: seq<Bytes>)
    requires Possible(p, es)
    ensures var s := After(p, es);
      && |texts| == s.rx.next <= |s.sent| && s.out + Queued(s.rx.queue) == Concat(texts)
      && forall m :: 0 <= m < |texts| ==>
        TextOk(s.sent[m], texts[m]) && (texts[m] == s.sent[m] <==> Fits(s.sent[m]))
        && |texts[m]| <= |s.sent[m]|
  {
    hide After, TallyOf, Account, TextOk, Fits, Queued, Concat, FramesOnly, Possible;
    texts := RunTurned(p, es);
    var s := After(p, es);
    forall m | 0 <= m < |texts|
      ensures TextOk(s.sent[m], texts[m]) && (texts[m] == s.sent[m] <==> Fits(s.sent[m])) && |texts[m]| <= |s.sent[m]|
    {
      TextIff(s.sent[m], texts[m]);
    }
  }

  /** The slots hold the message if and only if their number fits its field. */
  lemma SlotsHold(msg: Bytes)
    ensures Fits(msg) <==> |msg| <= Slots(msg) * MAX_PAYLOAD
  {
    var t := Total(|msg|);
    if t > 65535 {
      assert Cast16(t) <= 65535;
    }
  }

  lemma TextIff(msg: Bytes, text: Bytes)
    requires TextOk(msg, text)
    ensures text == msg <==> Fits(msg)
    ensures |text| <= |msg| && (!Fits(msg) ==> |text| < |msg|)
  {
    hide Slots, Total, Fragment, Fits;
    SlotsHold(msg);
  }

  lemma {:induction false} ConcatShorter(texts: seq<Bytes>, msgs: seq<Bytes>)
    requires |texts| == |msgs|
    requires forall m :: 0 <= m < |texts| ==>
      |texts[m]| <= |msgs[m]| && (|texts[m]| == |msgs[m]| ==> texts[m] == msgs[m])
    ensures |Concat(texts)| <= |Concat(msgs)|
    ensures Concat(texts) == Concat(msgs) <==> texts == msgs
    ensures texts != msgs ==> |Concat(texts)| < |Concat(msgs)|
  {
    if texts != [] {
      var n := |texts| - 1;
      ConcatShorter(texts[..n], msgs[..n]);
      assert texts == texts[..n] + [texts[n]] && msgs == msgs[..n] + [msgs[n]];
    }
  }

  /** The stream is right if and only if everything handed over fits: one message of more than
      65535 frames among them, and bytes are missing. */
  lemma StreamIff(p: Params, es: seq<Event>)
    requires Possible(p, es)
    ensures var s := After(p, es);
      && s.rx.next <= |s.sent|
      && (s.out + Queued(s.rx.queue) == Concat(s.sent[..s.rx.next]) <==> AllFit(s.sent[..s.rx.next]))
  {
    hide After, TextOk, Fits, Queued, Concat, Possible;
    var texts := EachMessage(p, es);
    var s := After(p, es);
    var msgs := s.sent[..s.rx.next];
    forall m | 0 <= m < |texts|
      ensures |texts[m]| == |msgs[m]| ==> texts[m] == msgs[m] {
      TextIff(msgs[m], texts[m]);
    }
    ConcatShorter(texts, msgs);
  }

  /** Once every frame of a non-empty message has arrived and its turn has come, it is handed
      over, and as it was sent if and only if it fits. */
  lemma AllArrived(p: Params, es: seq<Event>, m: nat) returns (texts: seq<Bytes>)
    requires Possible(p, es)
    requires var s := After(p, es);
      && m < |s.sent| && |s.sent[m]| > 0 && s.rx.next >= m
      && forall i: nat :: i < Total(|s.sent[m]|) ==> (m, Cast16(i)) in s.arrived
    ensures var s := After(p, es);
      && s.rx.next > m && |texts| == s.rx.next <= |s.sent|
      && s.out + Queued(s.rx.queue) == Concat(texts)
      && (forall j :: 0 <= j < |texts| ==> TextOk(s.sent[j], texts[j]))
      && (texts[m] == s.sent[m] <==> Fits(s.sent[m]))
  {
    hide After, TallyOf, TextOk, Fits, Queued, Concat, Possible, Total, Ready, Turned, Account;
    var s := After(p, es);
    texts := RunTurned(p, es);
    TurnedAt(p, s, texts, TallyOf(p, es), m);
    if m == s.rx.next {
      FramesReady(s.sent, s.rx, m, s.arrived, TallyOf(p, es));
      HandedOverIff(p, es, m);
    }
    texts := EachMessage(p, es);
  }

  lemma FramesReady(sent: seq<Bytes>, r: Rx, m: nat, arrived: set<Key>, t: Tally)
    requires m < |sent| && m >= r.next && Account(sent, r, m, arrived, t) && |sent[m]| > 0
    requires forall i: nat :: i < Total(|sent[m]|) ==> (m, Cast16(i)) in arrived
    ensures Ready(sent[m], m, arrived, t)
  {
    hide WaitOk, Total;
    assert (m, Cast16(0)) in arrived;
    forall j: nat | j < Slots(sent[m]) ensures (m, j) in arrived {
      assert (m, Cast16(j)) in arrived;
    }
  }
}
