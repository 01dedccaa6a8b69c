/** The two ends of a stream as the objects the program keeps per peer.  Their methods are
    the operations of the stream's state machine. */
module BusState {
  import opened BusFrames
  import opened BusReceiver
  import opened BusDelivery
  import opened BusNack
  import opened BusSender

  class RxState {
    var nextRxSeq: nat
    var maxSeenSeq: nat
    var anySeen: bool
    var pending: map<nat, Partial>
    var rx: seq<Chunk>
    var rxBytes: nat
    var nackState: map<Key, NackRec>
    var poisoned: bool

    function State(): Rx
      reads this
    {
      Rx(nextRxSeq, maxSeenSeq, anySeen, pending, rx, rxBytes, nackState)
    }

    constructor ()
      ensures State() == EMPTY_RX && !poisoned
    {
      nextRxSeq, maxSeenSeq, anySeen, pending := 0, 0, false, map[];
      rx, rxBytes, nackState, poisoned := [], 0, map[], false;
    }

    /** Queues text for the application. */
    method PushChunk(text: Bytes)
      modifies this`rx, this`rxBytes
      ensures State() == Deliver(old(State()), text)
    {
      if |text| > 0 {
        rxBytes := rxBytes + |text|;
        rx := rx + [Chunk(text, 0)];
      }
    }

    method DrainPendingLocked()
      modifies this
      ensures State() == DrainPending(old(State())) && poisoned == old(poisoned)
    {
      while nextRxSeq in pending && pending[nextRxSeq].received == pending[nextRxSeq].total
        invariant DrainPending(State()) == DrainPending(old(State())) && poisoned == old(poisoned)
        decreases |pending|
      {
        var text := JoinParts(pending[nextRxSeq].frags);
        RemoveShrinks(pending, nextRxSeq);
        PushChunk(text);
        pending := pending - {nextRxSeq};
        nextRxSeq := nextRxSeq + 1;
      }
    }

    /** A data frame for this receiver. */
    method Handle(p: Pipe, d: Datagram)
      modifies this
      ensures State() == HandleData(p, old(State()), d) && poisoned == old(poisoned)
    {
      hide DrainPending, Fill, Plain;
      var text := Decrypt(p, d);
      if !anySeen || d.seqno > maxSeenSeq {
        maxSeenSeq := d.seqno;
        anySeen := true;
      }
      nackState := nackState - {(d.seqno, d.idx)};
      if d.seqno < nextRxSeq {
        return;
      }
      if d.total == 1 && d.seqno == nextRxSeq {
        PushChunk(text);
        nextRxSeq := nextRxSeq + 1;
      } else {
        var part := if d.seqno in pending then pending[d.seqno] else Partial(0, 0, []);
        pending := pending[d.seqno := Fill(part, d.total, d.idx, text)];
      }
      DrainPendingLocked();
    }

    /** Hands out n bytes; the caller waited until so many are queued. */
    method Recv(n: nat) returns (out: Bytes)
      requires n <= |Queued(rx)| && n <= rxBytes
      modifies this
      ensures (out, State()) == BusReceiver.Recv(old(State()), n) && poisoned == old(poisoned)
    {
      hide Take, Rest;
      out := [];
      var remaining: nat := n;
      PrependNothing(rx, n);
      while remaining > 0 && rx != []
        invariant remaining <= n && remaining <= |Queued(rx)|
        invariant rxBytes == old(rxBytes) - (n - remaining) && old(rxBytes) >= n
        invariant State() == old(State()).(queue := rx, bytes := rxBytes) && poisoned == old(poisoned)
        invariant Take(old(rx), n) == Prepend(out, Take(rx, remaining))
        decreases |rx|, remaining
      {
        var avail := Rest(rx[0]);
        TakeFront(out, rx, remaining);
        if remaining < |avail| {
          out := out + avail[..remaining];
          rxBytes := rxBytes - remaining;
          rx := [Chunk(rx[0].bytes, rx[0].offset + remaining)] + rx[1..];
          remaining := 0;
        } else {
          out := out + avail;
          rxBytes := rxBytes - |avail|;
          remaining := remaining - |avail|;
          rx := rx[1..];
        }
      }
      TakeNothing(out, rx);
    }

    /** Records every gap between the next message and the highest one seen. */
    method ComputeMissingLocked(now: nat)
      modifies this`nackState
      ensures State() == ComputeMissing(old(State()), now)
    {
      hide Record;
      if !anySeen {
        return;
      }
      ghost var r := State();
      var s := nextRxSeq;
      while s <= maxSeenSeq
        invariant nextRxSeq <= s && (if nextRxSeq <= maxSeenSeq then s <= maxSeenSeq + 1 else s == nextRxSeq)
        invariant nackState == MissingFirst(r, s - nextRxSeq, now) && State() == r.(nack := nackState)
      {
        if s !in pending {
          RecordGap((s, 0), now);
        } else if pending[s].total != 0 && pending[s].total <= |pending[s].frags| {
          ghost var before := nackState;
          for i := 0 to pending[s].total
            invariant nackState == MissingSlots(before, s, pending[s], i, now) && State() == r.(nack := nackState)
          {
            if pending[s].frags[i] == [] {
              RecordGap((s, i), now);
            }
          }
        }
        s := s + 1;
      }
    }

    method RecordGap(k: Key, now: nat)
      modifies this`nackState
      ensures nackState == Record(old(nackState), k, now)
    {
      if k !in nackState {
        nackState := nackState[k := NackRec(0, now)];
      }
    }

    /** One tick of the pump: the requests to send, in the order of the gaps. */
    method DrainNackState(now: nat, cycle: nat, cap: nat) returns (due: seq<Key>, ghost order: seq<Key>)
      requires !poisoned
      modifies this
      ensures Ascending(order) && EnumeratesGaps(order, ComputeMissing(old(State()), now).nack)
      ensures (State(), due, poisoned) == DrainNack(old(State()), order, now, cycle, cap)
    {
      hide MissingFirst, Satisfied, Due;
      ComputeMissingLocked(now);
      ghost var r := State();
      var gaps := KeysInOrder(nackState);
      order := gaps;
      due := [];
      ghost var t := Tick(nackState, [], false);
      for i := 0 to |gaps|
        invariant t == VisitAll(r, r.nack, gaps[..i], now, cycle, cap)
        invariant State() == r.(nack := t.nack) && due == t.due && poisoned == t.poison
      {
        assert gaps[..i + 1][..i] == gaps[..i];
        var k := gaps[i];
        t := Visit(r, t, k, now, cycle, cap);
        if !poisoned && k in nackState {
          var rec := nackState[k];
          var done := IsSatisfied(k);
          SameSatisfied(r, State(), k);
          if done {
            nackState := nackState - {k};
          } else if rec.last == 0 || now >= rec.last + cycle {
            assert Due(rec, now, cycle) by {
              DueIs(rec, now, cycle);
            }
            if rec.attempts >= cap {
              poisoned := true;
            } else {
              due := due + [k];
              nackState := nackState[k := NackRec(rec.attempts + 1, now)];
            }
          } else {
            DueIs(rec, now, cycle);
          }
        }
      }
      assert gaps[..|gaps|] == gaps;
    }

    method IsSatisfied(k: Key) returns (done: bool)
      ensures done == Satisfied(State(), k)
    {
      done := k.0 < nextRxSeq
           || (k.0 in pending && k.1 < |pending[k.0].frags| && pending[k.0].frags[k.1] != []);
    }
  }

  lemma TakeNothing(out: Bytes, queue: seq<Chunk>)
    ensures Prepend(out, Take(queue, 0)) == (out, queue)
  {
    assert out + [] == out;
  }

  lemma DueIs(rec: NackRec, now: nat, cycle: nat)
    ensures Due(rec, now, cycle) <==> rec.last == 0 || now >= rec.last + cycle
  {
  }

  lemma SameSatisfied(r: Rx, s: Rx, k: Key)
    requires s == r.(nack := s.nack)
    ensures Satisfied(s, k) == Satisfied(r, k)
  {
  }

  // ---- the order of the gaps -----------------------------------------------------------------

  predicate NotAfter(a: Key, b: Key) {
    a.0 < b.0 || (a.0 == b.0 && a.1 <= b.1)
  }

  ghost predicate Ascending(order: seq<Key>) {
    forall i, j :: 0 <= i < j < |order| ==> NotAfter(order[i], order[j])
  }

  ghost predicate EnumeratesGaps(order: seq<Key>, nack: map<Key, NackRec>) {
    Once(order) && forall k :: k in nack <==> k in order
  }

  lemma LeastExists(rest: set<Key>) returns (least: Key)
    requires rest != {}
    ensures least in rest && forall k :: k in rest ==> NotAfter(least, k)
  {
    var x :| x in rest;
    if rest == {x} {
      least := x;
    } else {
      var y := LeastExists(rest - {x});
      least := if NotAfter(x, y) then x else y;
      assert forall k :: k in rest ==> k == x || k in rest - {x};
    }
  }

  /** The keys of a map in ascending order. */
  method KeysInOrder(nack: map<Key, NackRec>) returns (order: seq<Key>)
    ensures Ascending(order) && EnumeratesGaps(order, nack)
  {
    order := [];
    var rest := nack.Keys;
    while rest != {}
      invariant rest <= nack.Keys && Ascending(order) && Once(order)
      invariant forall k :: k in nack.Keys <==> k in rest || k in order
      invariant forall k :: k in order ==> k !in rest
      invariant forall i, k :: 0 <= i < |order| && k in rest ==> NotAfter(order[i], k)
      decreases rest
    {
      ghost var least := LeastExists(rest);
      var k :| k in rest && forall j :: j in rest ==> NotAfter(k, j);
      order := order + [k];
      rest := rest - {k};
    }
  }

  function Prepend(out: Bytes, t: (Bytes, seq<Chunk>)): (Bytes, seq<Chunk>) {
    (out + t.0, t.1)
  }

  lemma PrependNothing(queue: seq<Chunk>, n: nat)
    requires n <= |Queued(queue)|
    ensures Take(queue, n) == Prepend([], Take(queue, n))
  {
    hide Take;
    assert [] + Take(queue, n).0 == Take(queue, n).0;
  }

  /** Taking bytes from the front chunk. */
  lemma TakeFront(out: Bytes, queue: seq<Chunk>, n: nat)
    requires 0 < n <= |Queued(queue)| && queue != []
    ensures var avail := Rest(queue[0]);
      if n < |avail| then
        Prepend(out, Take(queue, n))
          == Prepend(out + avail[..n], Take([Chunk(queue[0].bytes, queue[0].offset + n)] + queue[1..], 0))
      else
        n - |avail| <= |Queued(queue[1..])|
        && Prepend(out, Take(queue, n)) == Prepend(out + avail, Take(queue[1..], n - |avail|))
  {
    hide Rest;
    var avail := Rest(queue[0]);
    assert Queued(queue) == avail + Queued(queue[1..]);
    if n >= |avail| {
      hide Queued;
      var t := Take(queue[1..], n - |avail|);
      assert Take(queue, n) == (avail + t.0, t.1);
      assert out + (avail + t.0) == out + avail + t.0;
    } else {
      hide Queued;
      var rest := [Chunk(queue[0].bytes, queue[0].offset + n)] + queue[1..];
      assert Take(queue, n) == (avail[..n], rest);
      assert Take(rest, 0) == ([], rest);
      assert out + avail[..n] + [] == out + avail[..n];
    }
  }

  /** The concatenation of the fragments. */
  method JoinParts(parts: seq<Bytes>) returns (text: Bytes)
    ensures text == Concat(parts)
  {
    text := [];
    for i := 0 to |parts|
      invariant text == Concat(parts[..i])
    {
      assert parts[..i + 1][..i] == parts[..i];
      text := text + parts[i];
    }
    assert parts[..|parts|] == parts;
  }

  method Decrypt(p: Pipe, d: Datagram) returns (text: Bytes)
    ensures text == Plain(p, d)
  {
    var nonce := NonceOf(p, d.seqno, d.idx);
    text := [];
    for i := 0 to |d.payload|
      invariant |text| == i && forall k :: 0 <= k < i ==> text[k] == d.payload[k] ^ p.ks(nonce, k)
    {
      text := text + [d.payload[i] ^ p.ks(nonce, i)];
    }
  }

  // ---- the sender ------------------------------------------------------------------------------

  /** How often the network refuses each fragment of a message before it takes it. */
  type Refusals = nat -> nat

  /** The state after fragment i of message s was kept r times: once for each attempt. */
  function Attempted(p: Pipe, t: Tx, msg: Bytes, s: nat, i: nat, r: nat): Tx
    requires i < Total(|msg|)
  {
    if r == 0 then t else Insert(Attempted(p, t, msg, s, i, r - 1), (s, Cast16(i)), Frame(p, msg, s, i), i == 0)
  }

  /** The state after the first n fragments of message s went out. */
  function Sent(p: Pipe, t: Tx, msg: Bytes, s: nat, refused: Refusals, n: nat): Tx
    requires n <= Total(|msg|)
  {
    if n == 0 then t else Attempted(p, Sent(p, t, msg, s, refused, n - 1), msg, s, n - 1, refused(n - 1) + 1)
  }

  function Frames(p: Pipe, msg: Bytes, s: nat, n: nat): (fs: seq<Datagram>)
    requires n <= Total(|msg|)
    ensures |fs| == n && forall i :: 0 <= i < n ==> fs[i] == Frame(p, msg, s, i)
  {
    seq(n, i requires 0 <= i < n => Frame(p, msg, s, i))
  }

  class TxState {
    var localSeq: nat
    var txBuf: map<Key, TxRecord>
    var txBufOrder: seq<nat>
    var streamsInFlight: set<nat>
    var poisoned: bool

    function State(): Tx
      reads this
    {
      Tx(localSeq, txBuf, txBufOrder, streamsInFlight, poisoned)
    }

    constructor ()
      ensures State() == EMPTY_TX
    {
      localSeq, txBuf, txBufOrder, streamsInFlight, poisoned := 0, map[], [], {}, false;
    }

    /** Keeps a fragment; the first one of a message may push the oldest message out. */
    method Keep(k: Key, d: Datagram, first: bool)
      modifies this
      ensures State() == Insert(old(State()), k, d, first)
    {
      txBuf := txBuf[k := TxRecord(d.total, d.payload, 0)];
      if first {
        txBufOrder := txBufOrder + [k.0];
        ghost var order0, buf0 := txBufOrder, txBuf;
        while |txBufOrder| > CAP_STREAMS
          invariant Evict(txBufOrder, txBuf) == Evict(order0, buf0)
          invariant State() == old(State()).(buf := txBuf, order := txBufOrder)
          decreases |txBufOrder|
        {
          txBuf := Forget(txBuf, txBufOrder[0]);
          txBufOrder := txBufOrder[1..];
        }
      }
    }

    /** Sends a message; a fragment that is refused is kept again and tried again.  On a pipe
        that was given up nothing happens. */
    method Send(p: Pipe, msg: Bytes, refused: Refusals) returns (ok: bool, frames: seq<Datagram>)
      modifies this
      ensures ok == !old(poisoned)
      ensures !ok ==> frames == [] && State() == old(State())
      ensures ok ==> frames == Frames(p, msg, old(localSeq), Total(|msg|))
      ensures ok ==>
        State() == Finish(Sent(p, Begin(old(State())), msg, old(localSeq), refused, Total(|msg|)), old(localSeq))
    {
      hide Insert, Frame, Fragment, Total;
      ok, frames := !poisoned, [];
      if poisoned {
        return;
      }
      var s := localSeq;
      localSeq := localSeq + 1;
      streamsInFlight := streamsInFlight + {s};
      ghost var t := State();
      var i, tries := 0, 0;
      while i < Total(|msg|)
        invariant i <= Total(|msg|) && frames == Frames(p, msg, s, i) && tries <= refused(i)
        invariant i == Total(|msg|) ==> tries == 0 && State() == Sent(p, t, msg, s, refused, i)
        invariant i < Total(|msg|) ==> State() == Attempted(p, Sent(p, t, msg, s, refused, i), msg, s, i, tries)
        decreases Total(|msg|) - i, refused(i) - tries
      {
        var d := Frame(p, msg, s, i);
        Keep((s, Cast16(i)), d, i == 0);
        if tries < refused(i) {
          tries := tries + 1;
          continue;
        }
        frames := frames + [d];
        i, tries := i + 1, 0;
      }
      streamsInFlight := streamsInFlight - {s};
    }

    /** The answer to a request. */
    method HandleNack(k: Key, cap: nat) returns (a: Answer)
      modifies this
      ensures (a, State()) == BusSender.HandleNack(old(State()), k, cap)
    {
      a := Nothing;
      if poisoned {
        return;
      }
      if k in txBuf {
        var rec := txBuf[k].(nacks := txBuf[k].nacks + 1);
        txBuf := txBuf[k := rec];
        if rec.nacks > cap {
          poisoned := true;
          a := Poison;
        } else {
          a := Again(Resent(k, rec));
        }
      } else if k.0 < localSeq && k.0 !in streamsInFlight {
        poisoned := true;
        a := Poison;
      }
    }
  }

  /** The entries of one message: one for each attempt to send its first frame. */
  function Repeated(s: nat, n: nat): (log: seq<nat>)
    ensures |log| == n
  {
    seq(n, _ => s)
  }

  lemma {:induction false} AttemptedRetains(p: Pipe, sent: seq<Bytes>, log: seq<nat>, inserted: set<Key>, t: Tx,
                                            s: nat, i: nat, r: nat)
    requires s < |sent| && Fits(sent[s]) && i < Total(|sent[s]|) && Retains(p, sent, log, inserted, t)
    ensures Retains(p, sent, if i == 0 then log + Repeated(s, r) else log,
                    if r > 0 then inserted + {(s, i)} else inserted,
                    Attempted(p, t, sent[s], s, i, r))
  {
    hide Retains, Frame, Total, Insert;
    if r > 0 {
      AttemptedRetains(p, sent, log, inserted, t, s, i, r - 1);
      FitsTotal(sent[s]);
      var before := if r > 1 then inserted + {(s, i)} else inserted;
      InsertRetains(p, sent, if i == 0 then log + Repeated(s, r - 1) else log, before,
                    Attempted(p, t, sent[s], s, i, r - 1), (s, i), i == 0);
      assert before + {(s, i)} == inserted + {(s, i)};
      assert log + Repeated(s, r - 1) + [s] == log + Repeated(s, r);
    } else {
      assert log + Repeated(s, 0) == log;
    }
  }

  /** What is kept after a message was sent whole, whatever was refused on the way: all its
      frames, as they went out, with an entry in the list for each attempt at the first. */
  lemma {:induction false} SentRetains(p: Pipe, sent: seq<Bytes>, log: seq<nat>, inserted: set<Key>, t: Tx, s: nat,
                                       refused: Refusals, n: nat)
    requires s < |sent| && Fits(sent[s]) && n <= Total(|sent[s]|) && Retains(p, sent, log, inserted, t)
    ensures Retains(p, sent, if n > 0 then log + Repeated(s, refused(0) + 1) else log, inserted + FragmentKeys(s, n),
                    Sent(p, t, sent[s], s, refused, n))
  {
    hide Retains, Frame, Total, Attempted;
    if n > 0 {
      SentRetains(p, sent, log, inserted, t, s, refused, n - 1);
      FragmentKeysPush(s, n);
      var before := inserted + FragmentKeys(s, n - 1);
      AttemptedRetains(p, sent, if n > 1 then log + Repeated(s, refused(0) + 1) else log, before,
                       Sent(p, t, sent[s], s, refused, n - 1), s, n - 1, refused(n - 1) + 1);
      assert before + {(s, n - 1)} == inserted + FragmentKeys(s, n);
    } else {
      assert inserted + FragmentKeys(s, 0) == inserted;
    }
  }

  function FragmentKeys(s: nat, n: nat): set<Key> {
    set i: nat | i < n :: (s, i)
  }

  lemma FragmentKeysPush(s: nat, n: nat)
    requires n > 0
    ensures FragmentKeys(s, n) == FragmentKeys(s, n - 1) + {(s, n - 1)}
  {
    forall k: Key ensures k in FragmentKeys(s, n) <==> k in FragmentKeys(s, n - 1) + {(s, n - 1)} {
      if k in FragmentKeys(s, n) {
        assert k == (s, n - 1) || (k.0 == s && k.1 < n - 1);
      }
    }
  }
}
