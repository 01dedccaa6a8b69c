/** One stream of the bus as a state machine: the sending program, the sender's state, the
    network, the receiver's pump and the receiving program.  Frames may be lost, repeated
    and reordered at will; requests may be lost and repeated. */
module BusSystem {
  import opened BusFrames
  import opened BusReceiver
  import opened BusDelivery
  import opened BusNack
  import opened BusSender

  datatype Params = Params(pipe: Pipe, capSend: nat, capRecv: nat, cycle: nat)

  /** `sent`: messages begun; the last one is being sent while `sending`, `idx` of its frames
      are out.  `wire`: frames ever put on the network.  `nacks`: requests under way.
      The rest is history: fragments kept, entries made in the sender's list, fragments
      arrived, requests made and copied, and when each gap was first noticed. */
  datatype Sys = Sys(
    tx: Tx, rx: Rx, sent: seq<Bytes>, sending: bool, idx: nat, out: Bytes, wire: set<Datagram>, nacks: multiset<Key>,
    rxPoisoned: bool, clock: nat,
    inserted: set<Key>, log: seq<nat>, arrived: set<Key>, asked: map<Key, nat>, copies: nat, born: map<Key, nat>)

  const START := Sys(EMPTY_TX, EMPTY_RX, [], false, 0, [], {}, multiset{}, false, 0, {}, [], {}, map[], 0, map[])

  datatype Event =
    | BeginSend(msg: Bytes)
    | Emit
    | Retry
    | FinishSend
    | Arrive(d: Datagram)
    | TakeBytes(n: nat)
    | PumpTick(now: nat, order: seq<Key>)
    | NackArrives(k: Key)
    | NackLost(k: Key)
    | NackCopied(k: Key)
    | PoisonArrives

  function Last(s: Sys): nat
    requires |s.sent| > 0
  {
    |s.sent| - 1
  }

  predicate CanEmit(s: Sys) {
    s.sending && |s.sent| > 0 && s.idx < Total(|s.sent[Last(s)]|)
  }

  /** The order of a pump tick runs over exactly the recorded gaps. */
  ghost predicate Enumerates(order: seq<Key>, nack: map<Key, NackRec>) {
    Once(order) && forall k :: k in nack <==> k in order
  }

  ghost predicate Enabled(e: Event, s: Sys) {
    match e
    case BeginSend(msg) => !s.sending && !s.tx.poisoned
    case Emit => CanEmit(s)
    case Retry => CanEmit(s)
    case FinishSend => s.sending && !CanEmit(s)
    case Arrive(d) => d in s.wire
    case TakeBytes(n) => n <= s.rx.bytes && !s.rxPoisoned
    case PumpTick(now, order) =>
      now >= s.clock && now > 0 && !s.rxPoisoned && Enumerates(order, ComputeMissing(s.rx, now).nack)
    case NackArrives(k) => k in s.nacks
    case NackLost(k) => k in s.nacks
    case NackCopied(k) => k in s.nacks
    case PoisonArrives => s.tx.poisoned
  }

  function Asked(s: Sys, k: Key): nat {
    if k in s.asked then s.asked[k] else 0
  }

  /** The frame under way. */
  function Current(p: Params, s: Sys): Datagram
    requires CanEmit(s)
  {
    Frame(p.pipe, s.sent[Last(s)], Last(s), s.idx)
  }

  function Kept(p: Params, s: Sys): Sys
    requires CanEmit(s)
  {
    var k := (Last(s), Cast16(s.idx));
    s.(tx := Insert(s.tx, k, Current(p, s), s.idx == 0), inserted := s.inserted + {k},
       log := if s.idx == 0 then s.log + [Last(s)] else s.log)
  }

  /** Requests counted one by one. */
  function Count(asked: map<Key, nat>, due: seq<Key>): map<Key, nat> {
    if due == [] then asked else
      var n := |due| - 1;
      var before := Count(asked, due[..n]);
      before[due[n] := (if due[n] in before then before[due[n]] else 0) + 1]
  }

  /** When each recorded gap was noticed. */
  function Births(born: map<Key, nat>, was: map<Key, NackRec>, nack: map<Key, NackRec>, now: nat): map<Key, nat> {
    map k | k in nack :: if k in was && k in born then born[k] else now
  }

  function Ticked(p: Params, s: Sys, now: nat, order: seq<Key>): Sys {
    var r1 := ComputeMissing(s.rx, now);
    var (r, due, poison) := DrainNack(s.rx, order, now, p.cycle, p.capRecv);
    s.(rx := r, nacks := s.nacks + multiset(due), rxPoisoned := poison, clock := now, asked := Count(s.asked, due),
       born := Births(s.born, s.rx.nack, r1.nack, now))
  }

  function Answered(p: Params, s: Sys, k: Key): Sys {
    var (a, tx) := HandleNack(s.tx, k, p.capSend);
    s.(tx := tx, nacks := s.nacks - multiset{k}, wire := if a.Again? then s.wire + {a.d} else s.wire)
  }

  function Apply(p: Params, e: Event, s: Sys): Sys {
    match e
    case BeginSend(msg) => s.(tx := BusSender.Begin(s.tx), sent := s.sent + [msg], sending := true, idx := 0)
    case Emit => if CanEmit(s) then Kept(p, s).(wire := s.wire + {Current(p, s)}, idx := s.idx + 1) else s
    case Retry => if CanEmit(s) then Kept(p, s) else s
    case FinishSend => if |s.sent| > 0 then s.(tx := Finish(s.tx, Last(s)), sending := false) else s
    case Arrive(d) => s.(rx := HandleData(p.pipe, s.rx, d), arrived := s.arrived + {(d.seqno, d.idx)})
    case TakeBytes(n) =>
      if n <= |Queued(s.rx.queue)| && n <= s.rx.bytes then
        var (text, rx) := Recv(s.rx, n);
        s.(rx := rx, out := s.out + text)
      else s
    case PumpTick(now, order) => Ticked(p, s, now, order)
    case NackArrives(k) => Answered(p, s, k)
    case NackLost(k) => s.(nacks := s.nacks - multiset{k})
    case NackCopied(k) => s.(nacks := s.nacks + multiset{k}, copies := s.copies + 1)
    case PoisonArrives => s.(rxPoisoned := true)
  }

  /** A run: a sequence of events, each enabled when it happens. */
  ghost predicate Possible(p: Params, es: seq<Event>) {
    forall i :: 0 <= i < |es| ==> Enabled(es[i], After(p, es[..i]))
  }

  function After(p: Params, es: seq<Event>): Sys {
    if es == [] then START else Apply(p, es[|es| - 1], After(p, es[..|es| - 1]))
  }

  lemma MorePossible(p: Params, es: seq<Event>, e: Event)
    requires Possible(p, es) && Enabled(e, After(p, es))
    ensures Possible(p, es + [e]) && After(p, es + [e]) == Apply(p, e, After(p, es))
  {
    hide Apply, Enabled;
    var all := es + [e];
    assert all[..|es|] == es;
    forall i | 0 <= i < |all| ensures Enabled(all[i], After(p, all[..i])) {
      if i < |es| {
        assert all[..i] == es[..i];
      }
    }
  }

  lemma PossiblePrefix(p: Params, es: seq<Event>, n: nat)
    requires Possible(p, es) && n <= |es|
    ensures Possible(p, es[..n])
  {
    hide Enabled, After;
    forall i | 0 <= i < n ensures Enabled(es[..n][i], After(p, es[..n][..i])) {
      assert es[..n][..i] == es[..i];
    }
  }

  /** Programs that send no message of more than 65535 frames. */
  predicate Fitting(e: Event) {
    e.BeginSend? ==> Fits(e.msg)
  }

  ghost predicate FittingRun(p: Params, es: seq<Event>) {
    Possible(p, es) && forall i :: 0 <= i < |es| ==> Fitting(es[i])
  }

  // ---- what every run keeps -------------------------------------------------------------------------

  ghost predicate AllFit(sent: seq<Bytes>) {
    forall i :: 0 <= i < |sent| ==> Fits(sent[i])
  }

  /** Everything on the wire is a frame of a message begun. */
  ghost predicate WireOk(p: Params, s: Sys) {
    forall d :: d in s.wire ==> IsSent(s.sent, (d.seqno, d.idx)) && d == Frame(p.pipe, s.sent[d.seqno], d.seqno, d.idx)
  }

  /** The sender's own bookkeeping. */
  ghost predicate SenderOk(s: Sys) {
    && s.tx.localSeq == |s.sent|
    && (s.sending ==> |s.sent| > 0 && s.tx.inFlight == {Last(s)})
    && (!s.sending ==> s.tx.inFlight == {})
    && forall k: Key :: IsFragment(s.sent, k) && k !in s.inserted ==> s.sending && k.0 == Last(s) && k.1 >= s.idx
  }

  ghost predicate Good(p: Params, s: Sys) {
    && AllFit(s.sent) && WireOk(p, s) && SenderOk(s)
    && Safe(s.sent, s.out, s.rx)
    && Retains(p.pipe, s.sent, s.log, s.inserted, s.tx)
  }

  lemma GrowSent(p: Params, s: Sys, msg: Bytes)
    requires Good(p, s) && Fits(msg)
    ensures AllFit(s.sent + [msg]) && Retains(p.pipe, s.sent + [msg], s.log, s.inserted, s.tx)
    ensures forall d :: d in s.wire ==>
      && IsSent(s.sent + [msg], (d.seqno, d.idx))
      && d == Frame(p.pipe, (s.sent + [msg])[d.seqno], d.seqno, d.idx)
  {
    hide Frame, Total, Fits, LastOf, DroppedOf;
  }

  lemma BeginGood(p: Params, s: Sys, msg: Bytes)
    requires Good(p, s) && Enabled(BeginSend(msg), s) && Fits(msg)
    ensures Good(p, Apply(p, BeginSend(msg), s))
  {
    hide Frame, Total, Fits, Retains, Safe;
    GrowSent(p, s, msg);
    SendSafe(s.sent, s.out, s.rx, msg);
    BeginRetains(p, s, s.sent + [msg]);
  }

  lemma BeginRetains(p: Params, s: Sys, sent: seq<Bytes>)
    requires Retains(p.pipe, sent, s.log, s.inserted, s.tx)
    ensures Retains(p.pipe, sent, s.log, s.inserted, BusSender.Begin(s.tx))
    ensures forall k: nat :: Retains(p.pipe, sent, s.log, s.inserted, Finish(s.tx, k))
  {
  }

  lemma KeptGood(p: Params, s: Sys)
    requires Good(p, s) && CanEmit(s)
    ensures Good(p, Kept(p, s)) && Cast16(s.idx) == s.idx && IsSent(s.sent, (Last(s), s.idx))
    ensures (Last(s), s.idx) in Kept(p, s).inserted
  {
    hide Frame, Total, Fits, Retains, Safe, Insert;
    FitsTotal(s.sent[Last(s)]);
    InsertRetains(p.pipe, s.sent, s.log, s.inserted, s.tx, (Last(s), s.idx), s.idx == 0);
    InsertKeeps(s.tx, (Last(s), s.idx), Current(p, s), s.idx == 0);
  }

  lemma InsertKeeps(t: Tx, k: Key, d: Datagram, first: bool)
    ensures var t' := Insert(t, k, d, first);
      t'.localSeq == t.localSeq && t'.inFlight == t.inFlight && t'.poisoned == t.poisoned
  {
  }

  lemma EmitGood(p: Params, s: Sys)
    requires Good(p, s) && CanEmit(s)
    ensures Good(p, Apply(p, Emit, s))
  {
    hide Total, Fits, Retains, Safe, Insert;
    KeptGood(p, s);
    FrameFields(p.pipe, s.sent[Last(s)], Last(s), s.idx);
  }

  lemma FinishGood(p: Params, s: Sys)
    requires Good(p, s) && Enabled(FinishSend, s)
    ensures Good(p, Apply(p, FinishSend, s))
  {
    hide Frame, Total, Fits, Retains, Safe;
    BeginRetains(p, s, s.sent);
  }

  lemma ArriveGood(p: Params, s: Sys, d: Datagram)
    requires Good(p, s) && d in s.wire
    ensures Good(p, Apply(p, Arrive(d), s))
  {
    hide Frame, Total, Retains, Safe, HandleData;
    HandleSafe(p.pipe, s.sent, s.out, s.rx, d.seqno, d.idx);
  }

  lemma TakeGood(p: Params, s: Sys, n: nat)
    requires Good(p, s) && n <= s.rx.bytes
    ensures Good(p, Apply(p, TakeBytes(n), s))
  {
    hide Frame, Total, Retains;
    RecvSafe(s.sent, s.out, s.rx, n);
  }

  lemma TickGood(p: Params, s: Sys, now: nat, order: seq<Key>)
    requires Good(p, s)
    ensures Good(p, Apply(p, PumpTick(now, order), s))
  {
    hide Frame, Total, Retains, VisitAll, MissingFirst;
  }

  lemma AnswerGood(p: Params, s: Sys, k: Key)
    requires Good(p, s)
    ensures Good(p, Apply(p, NackArrives(k), s))
  {
    hide Total, Safe, Retains, Fits, HandleNack, Frame, IsSent;
    NackRetains(p.pipe, s.sent, s.log, s.inserted, s.tx, k, p.capSend);
  }

  lemma OtherGood(p: Params, s: Sys, nacks: multiset<Key>, copies: nat, poisoned: bool)
    requires Good(p, s)
    ensures Good(p, s.(nacks := nacks, copies := copies, rxPoisoned := poisoned))
  {
    hide Frame, Total, Retains, Safe, Fits;
  }

  lemma StepGood(p: Params, e: Event, s: Sys)
    requires Good(p, s) && Enabled(e, s) && Fitting(e)
    ensures Good(p, Apply(p, e, s))
  {
    hide Good, HandleData, HandleNack, Ticked, Insert, Recv, CanEmit, Fits, Enumerates;
    match e
    case BeginSend(msg) => BeginGood(p, s, msg);
    case Emit => EmitGood(p, s);
    case Retry => KeptGood(p, s);
    case FinishSend => FinishGood(p, s);
    case Arrive(d) => ArriveGood(p, s, d);
    case TakeBytes(n) => TakeGood(p, s, n);
    case PumpTick(now, order) => TickGood(p, s, now, order);
    case NackArrives(k) => AnswerGood(p, s, k);
    case NackLost(k) => OtherGood(p, s, s.nacks - multiset{k}, s.copies, s.rxPoisoned);
    case NackCopied(k) => OtherGood(p, s, s.nacks + multiset{k}, s.copies + 1, s.rxPoisoned);
    case PoisonArrives => OtherGood(p, s, s.nacks, s.copies, true);
  }

  lemma StartGood(p: Params)
    ensures Good(p, START)
  {
  }

  lemma {:induction false} RunGood(p: Params, es: seq<Event>)
    requires FittingRun(p, es)
    ensures Good(p, After(p, es))
  {
    hide Good, Apply, Enabled, Fitting;
    if es == [] {
      StartGood(p);
    } else {
      var n := |es| - 1;
      forall i | 0 <= i < n ensures Enabled(es[..n][i], After(p, es[..n][..i])) {
        assert es[..n][..i] == es[..i];
      }
      RunGood(p, es[..n]);
      StepGood(p, es[n], After(p, es[..n]));
    }
  }

  /** Stream safety.  In every run, what the receiving program got, followed by what is queued
      for it, is the concatenation of the first messages sent: nothing lost in between,
      nothing twice, nothing out of order; and the byte counter is the length of the queue. */
  lemma StreamSafety(p: Params, es: seq<Event>)
    requires FittingRun(p, es)
    ensures var s := After(p, es);
      && s.rx.next <= |s.sent|
      && s.out + Queued(s.rx.queue) == Concat(s.sent[..s.rx.next])
      && s.rx.bytes == |Queued(s.rx.queue)|
  {
    RunGood(p, es);
  }

  /** Retention.  At most CAP_STREAMS entries are kept; every frame that ever reaches the wire,
      first or again, is the original frame of its fragment. */
  lemma Retention(p: Params, es: seq<Event>)
    requires FittingRun(p, es)
    ensures var s := After(p, es);
      && |s.tx.order| <= 4096
      && forall d :: d in s.wire ==>
        IsSent(s.sent, (d.seqno, d.idx)) && d == Frame(p.pipe, s.sent[d.seqno], d.seqno, d.idx)
  {
    RunGood(p, es);
    var s := After(p, es);
    RetainsFew(p.pipe, s.sent, s.log, s.inserted, s.tx);
  }
}
