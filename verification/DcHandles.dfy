/** How long the data of a request stays in the receive ring after its batch has been processed. */
module DcHandles {
  import opened Prelude
  import opened RingPos
  import opened DcBatch
  import opened DcEndpointSpec
  import opened DcReceive
  import opened DcStream
  import opened DcNet
  import opened DcRuns
  import opened DcEmptyBatch
  import opened DcLanding

  /** The end of the last of the `k` batches that have landed, for a receiver at `pos`. */
  function LandedTo(pos: nat, w: seq<Batch>, k: nat): nat {
    if 0 < k <= |w| then w[k - 1].start + |w[k - 1].bytes| else pos
  }

  /** The position up to which batches have landed in the ring of `a`. */
  function LandedEnd(s: Wire): nat {
    LandedTo(s.net.a.ep.lastRecv, s.net.ba, s.atA)
  }

  /** The next batch to land starts where the last one ended. */
  lemma {:induction false} ChainAdjoins(w: seq<Batch>, from: nat, to: nat, size: nat, i: nat)
    requires size > 0 && Chain(w, from, to, size) && i < |w|
    ensures w[i].start == if i == 0 then from else w[i - 1].start + |w[i - 1].bytes|
    decreases |w|
  {
    if i > 0 {
      ChainAdjoins(w[1..], from + |w[0].bytes|, to, size, i - 1);
    }
  }

  lemma LandedBetween(w: seq<Batch>, from: nat, to: nat, size: nat, k: nat)
    requires size > 0 && Chain(w, from, to, size) && k <= |w|
    ensures from <= LandedTo(from, w, k) <= to
  {
    ChainForward(w, from, to, size);
    if k > 0 {
      ChainMember(w, from, to, size, k - 1);
    }
  }

  lemma LandedWithinSent(s: Wire, n: Net)
    requires Inv(s, n)
    ensures s.net.a.ep.lastRecv <= LandedEnd(s) <= s.net.b.ep.flushStart
  {
    LandedBetween(n.ba, n.a.ep.lastRecv, n.b.ep.flushStart, |n.b.ep.sendRing|, s.atA);
  }

  // One action.

  /** A batch that `a` has processed and that is still in its ring. */
  predicate Keeps(s: Wire, b: Batch) {
    b.start + |b.bytes| <= s.net.a.ep.lastRecv && Intact(s.net.a.ep.recvRing, b)
  }

  /** The next batch lands behind the last one. */
  lemma LandMoves(s: Wire, n: Net)
    requires Inv(s, n) && CanAct(s, LandNext)
    ensures var s', w := Act(s, LandNext), s.net.ba[s.atA];
            && FitsRing(s.net.a.ep.recvRing, w) && w.start == LandedEnd(s) >= s.net.a.ep.lastRecv
            && LandedEnd(s') == w.start + |w.bytes| && s'.net.a.ep.lastRecv == s.net.a.ep.lastRecv
            && s'.net.a.ep.recvRing ==
               WriteAt(s.net.a.ep.recvRing, Offset(w.start, |s.net.a.ep.recvRing|), w.bytes)
  {
    NextLanding(n.ba, n.a.ep.lastRecv, n.b.ep.flushStart, |n.b.ep.sendRing|, s.atA);
  }

  lemma NextLanding(w: seq<Batch>, from: nat, to: nat, size: nat, k: nat)
    requires size > 0 && Chain(w, from, to, size) && k < |w|
    ensures from <= w[k].start == LandedTo(from, w, k) && LandedTo(from, w, k + 1) == w[k].start + |w[k].bytes|
  {
    ChainAdjoins(w, from, to, size, k);
    ChainMember(w, from, to, size, k);
  }

  /** It stays if the batch that lands ends within a ring of its start. */
  lemma LandKeepsProcessed(s: Wire, n: Net, b: Batch)
    requires Inv(s, n) && CanAct(s, LandNext) && Keeps(s, b)
    requires LandedEnd(Act(s, LandNext)) <= b.start + |s.net.a.ep.recvRing|
    ensures Keeps(Act(s, LandNext), b)
  {
    LandMoves(s, n);
    LandSpares(s.net.a.ep.recvRing, b, s.net.ba[s.atA]);
  }

  /**
   * And no longer: the first batch that ends beyond that is written over it, since it holds the
   * position one ring after its start.
   */
  lemma LandingReusesPlace(s: Wire, n: Net, b: Batch)
    requires Inv(s, n) && CanAct(s, LandNext)
    requires LandedEnd(s) <= b.start + |s.net.a.ep.recvRing| < LandedEnd(Act(s, LandNext))
    ensures var w, ring, size := s.net.ba[s.atA], Act(s, LandNext).net.a.ep.recvRing, |s.net.a.ep.recvRing|;
            && |ring| == size > 0 && w.start <= b.start + size < w.start + |w.bytes|
            && ring[Offset(b.start, size)] == w.bytes[b.start + size - w.start]
  {
    LandMoves(s, n);
    PlaceReused(s.net.a.ep.recvRing, s.net.ba[s.atA], b.start);
  }

  lemma WrittenByte(ring: Bytes, off: nat, bytes: Bytes, i: nat)
    requires off + |bytes| <= |ring| && i < |bytes|
    ensures WriteAt(ring, off, bytes)[off + i] == bytes[i]
  {
    var ring' := WriteAt(ring, off, bytes);
    assert ring'[off..off + |bytes|][i] == ring'[off + i];
  }

  lemma PlaceAfterRing(p: nat, start: nat, size: nat)
    requires size > 0 && start <= p + size && Offset(start, size) + (p + size - start) < size
    ensures Offset(p, size) == Offset(start, size) + (p + size - start)
  {
    OffsetPeriodic(p, size);
    OffsetAdd(start, p + size - start, size);
  }

  lemma PlaceReused(ring: Bytes, w: Batch, p: nat)
    requires FitsRing(ring, w) && w.start <= p + |ring| < w.start + |w.bytes|
    ensures WriteAt(ring, Offset(w.start, |ring|), w.bytes)[Offset(p, |ring|)] == w.bytes[p + |ring| - w.start]
  {
    var i, off := p + |ring| - w.start, Offset(w.start, |ring|);
    PlaceAfterRing(p, w.start, |ring|);
    WrittenByte(ring, off, w.bytes, i);
  }

  lemma ArriveLanded(w: seq<Batch>, k: nat)
    requires 0 < k <= |w|
    ensures LandedTo(w[0].start + |w[0].bytes|, w[1..], k - 1) == LandedTo(w[0].start, w, k)
  {
  }

  /** What an arrival does to `a`, apart from its inbox. */
  lemma ArriveMoves(s: Wire, n: Net)
    requires Inv(s, n) && CanAct(s, Do(ArriveEvent))
    ensures var s' := Act(s, Do(ArriveEvent));
            && s'.net.a.ep.recvRing == s.net.a.ep.recvRing && s'.net.ba == s.net.ba[1..] && s'.atA == s.atA - 1
            && s'.net.a.ep.lastRecv == s.net.ba[0].start + |s.net.ba[0].bytes|
            && s.net.ba[0].start == s.net.a.ep.lastRecv && 0 < s.atA <= |s.net.ba|
  {
    ArriveFollows(s, n);
    DeliverNext(n.b, n.ba, n.a);
  }

  lemma ArriveKeepsProcessed(s: Wire, n: Net, b: Batch)
    requires Inv(s, n) && CanAct(s, Do(ArriveEvent)) && Keeps(s, b)
    ensures Keeps(Act(s, Do(ArriveEvent)), b) && LandedEnd(Act(s, Do(ArriveEvent))) == LandedEnd(s)
  {
    ArriveMoves(s, n);
    ArriveLanded(s.net.ba, s.atA);
  }

  lemma SilentKeepsProcessed(s: Wire, n: Net, ev: Event, b: Batch)
    requires Inv(s, n) && !ev.ArriveEvent? && CanStep(s.net, ev) && Keeps(s, b)
    ensures Keeps(Act(s, Do(ev)), b) && LandedEnd(Act(s, Do(ev))) == LandedEnd(s)
  {
    SilentFollows(s, n, ev);
    LastRecvStays(n, ev);
  }

  lemma LastRecvStays(n: Net, ev: Event)
    requires EpInv(n.a.ep) && !ev.ArriveEvent? && CanStep(n, ev)
    ensures var n' := Step(n, ev);
            n'.a.ep.lastRecv == n.a.ep.lastRecv && n'.ba == n.ba && n'.b == n.b && n.ab <= n'.ab
  {
    match ev
    case CallEvent(_, _, _) =>
    case ReplyEvent(_, _) =>
    case FlushEvent(batch, wrap, credit) => FlushOnlyEmits(n.a, batch, wrap, credit);
  }

  lemma OwnActKeepsProcessed(s: Wire, n: Net, act: Action, b: Batch)
    requires Inv(s, n) && CanAct(s, act) && Keeps(s, b)
    requires LandedEnd(Act(s, act)) <= b.start + |s.net.a.ep.recvRing|
    ensures Keeps(Act(s, act), b)
  {
    match act
    case Do(ev) =>
      if ev.ArriveEvent? {
        ArriveKeepsProcessed(s, n, b);
      } else {
        SilentKeepsProcessed(s, n, ev, b);
      }
    case LandNext => LandKeepsProcessed(s, n, b);
  }

  // Actions of the other peer, which can only send.

  predicate OnlySends(s: Wire, s': Wire) {
    s'.net.a == s.net.a && s'.atA == s.atA && s.net.ba <= s'.net.ba
  }

  lemma PeerActSends(s: Wire, act: Action)
    requires CanAct(SwapWire(s), act)
    ensures OnlySends(s, SwapWire(Act(SwapWire(s), act)))
  {
    if act.Do? && !act.ev.ArriveEvent? {
      LastRecvStays(Swap(s.net), act.ev);
    }
  }

  lemma SendsKeepsProcessed(s: Wire, s': Wire, b: Batch)
    requires OnlySends(s, s') && Keeps(s, b) && s.atA <= |s.net.ba|
    ensures Keeps(s', b) && LandedEnd(s') == LandedEnd(s)
  {
  }

  // Runs.

  lemma MoveKeepsProcessed(s: Wire, n: Net, move: (bool, Action), b: Batch)
    requires Inv(s, n) && CanMoveWire(s, move) && Keeps(s, b)
    requires LandedEnd(MoveWire(s, move)) <= b.start + |s.net.a.ep.recvRing|
    ensures Keeps(MoveWire(s, move), b)
  {
    if move.0 {
      PeerActSends(s, move.1);
      SendsKeepsProcessed(s, MoveWire(s, move), b);
    } else {
      OwnActKeepsProcessed(s, n, move.1, b);
    }
  }

  /** What has landed only grows, and so does what has been processed. */
  lemma LandedGrows(s: Wire, n: Net, move: (bool, Action))
    requires Inv(s, n) && CanMoveWire(s, move)
    ensures LandedEnd(s) <= LandedEnd(MoveWire(s, move))
    ensures |MoveWire(s, move).net.a.ep.recvRing| == |s.net.a.ep.recvRing|
  {
    if move.0 {
      PeerActSends(s, move.1);
    } else if move.1.LandNext? {
      LandMoves(s, n);
    } else if move.1.ev.ArriveEvent? {
      ArriveMoves(s, n);
      ArriveLanded(s.net.ba, s.atA);
    } else {
      SilentFollows(s, n, move.1.ev);
      LastRecvStays(n, move.1.ev);
    }
  }

  /**
   * A batch that has been processed stays in the ring as it was sent for as long as no batch has
   * landed that ends more than a ring past its start.
   */
  lemma {:induction false} ProcessedStays(
      size: nat, run: seq<Wire>, acts: seq<(bool, Action)>, i: nat, j: nat, b: Batch)
    requires IsLandingRun(size, run, acts) && i <= j < |run| && AllWithin(run, acts, j)
    requires Keeps(run[i], b) && LandedEnd(run[j]) <= b.start + |run[j].net.a.ep.recvRing|
    ensures Keeps(run[j], b)
    decreases j
  {
    if i < j {
      var model, moves := Refines(size, run, acts, j - 1);
      LandedGrows(run[j - 1], model[|moves|], acts[j - 1]);
      ProcessedStays(size, run, acts, i, j - 1, b);
      MoveKeepsProcessed(run[j - 1], model[|moves|], acts[j - 1], b);
    }
  }

  // The requests of a batch.

  /** Data that lies in the part of the ring that an intact batch takes. */
  lemma DataStays(ring: Bytes, ring': Bytes, b: Batch, r: RecvMessage, m: Msg)
    requires |ring'| == |ring| && Intact(ring, b) && Intact(ring', b) && RefersTo(ring, r, m)
    requires Offset(b.start, |ring|) <= r.dataOffset
    requires r.dataOffset + r.dataLen <= Offset(b.start, |ring|) + |b.bytes|
    ensures RefersTo(ring', r, m)
  {
    var off := Offset(b.start, |ring|);
    var i, j := r.dataOffset - off, r.dataOffset + r.dataLen - off;
    SliceOfSlice(ring, off, off + |b.bytes|, i, j);
    SliceOfSlice(ring', off, off + |b.bytes|, i, j);
  }

  lemma PushesStay(ring: Bytes, ring': Bytes, b: Batch, more: seq<RecvMessage>, msgs: seq<Msg>)
    requires |ring'| == |ring| && Intact(ring, b) && Intact(ring', b) && Pushes(ring, more, msgs)
    requires PushedWithin(more, Offset(b.start, |ring|), Offset(b.start, |ring|) + |b.bytes|)
    ensures Pushes(ring', more, msgs)
  {
    forall k | 0 <= k < |more| ensures RefersTo(ring', more[k], RequestsOf(msgs)[k]) {
      DataStays(ring, ring', b, more[k], RequestsOf(msgs)[k]);
    }
  }

  /** The arrival at move `i`: its requests, and the batch behind it. */
  lemma ArrivalPushes(s: Wire, n: Net) returns (more: seq<RecvMessage>)
    requires Inv(s, n) && CanAct(s, Do(ArriveEvent))
    ensures var s', b, ring := Act(s, Do(ArriveEvent)), s.net.ba[0], s.net.a.ep.recvRing;
            && s'.net.a.inbox.requests == s.net.a.inbox.requests + more
            && Keeps(s', b) && s'.net.a.ep.recvRing == ring && Pushes(ring, more, b.msgs)
            && PushedWithin(more, Offset(b.start, |ring|), Offset(b.start, |ring|) + |b.bytes|)
  {
    ArriveMoves(s, n);
    ChainMember(n.ba, n.a.ep.lastRecv, n.b.ep.flushStart, |n.b.ep.sendRing|, 0);
    assert Intact(s.net.a.ep.recvRing, n.ba[0]);
    more := RequestsArePushed(s.net.a.ep, s.net.ba[0], s.net.a.inbox);
  }

  lemma {:induction false} RingSizeStays(size: nat, run: seq<Wire>, acts: seq<(bool, Action)>, k: nat)
    requires IsLandingRun(size, run, acts) && k < |run| && AllWithin(run, acts, k)
    ensures |run[k].net.a.ep.recvRing| == size
  {
    if k > 0 {
      RingSizeStays(size, run, acts, k - 1);
      var model, moves := Refines(size, run, acts, k - 1);
      LandedGrows(run[k - 1], model[|moves|], acts[k - 1]);
    }
  }

  /**
   * The requests that an arrival puts on the receive stack keep their data, in the ring, for as
   * long as no batch has landed that ends more than a ring past the start of theirs.
   */
  lemma RequestDataStays(size: nat, run: seq<Wire>, acts: seq<(bool, Action)>, i: nat, j: nat)
    returns (more: seq<RecvMessage>)
    requires IsLandingRun(size, run, acts) && i < j < |run| && AllWithin(run, acts, j)
    requires acts[i] == (false, Do(ArriveEvent)) && run[i].net.ba != []
    requires LandedEnd(run[j]) <= run[i].net.ba[0].start + size
    ensures run[i + 1].net.a.inbox.requests == run[i].net.a.inbox.requests + more
    ensures Pushes(run[j].net.a.ep.recvRing, more, run[i].net.ba[0].msgs)
  {
    var model, moves := Refines(size, run, acts, i);
    var b := run[i].net.ba[0];
    more := ArrivalPushes(run[i], model[|moves|]);
    RingSizeStays(size, run, acts, i);
    RingSizeStays(size, run, acts, j);
    ProcessedStays(size, run, acts, i + 1, j, b);
    PushesStay(run[i].net.a.ep.recvRing, run[j].net.a.ep.recvRing, b, more, b.msgs);
  }

  // Until the credit is returned.

  /** What has been sent ends within a ring of the credit that the sender has been given. */
  predicate WithinCredit(x: Peer) {
    x.ep.flushStart <= x.ep.remoteConsumer + |x.ep.sendRing|
  }

  lemma OpenEnds(x: Peer, submit: Submit)
    requires EpInv(x.ep)
    ensures var e := EmitOpen(x, submit).peer.ep;
            && |e.sendRing| == |x.ep.sendRing| && e.wrapPending == x.ep.wrapPending
            && (submit.Sent? ==> e.flushStart == e.metaPos == x.ep.sendProducer)
            && (!submit.Sent? ==> e.flushStart == x.ep.flushStart)
  {
  }

  lemma WrapEnds(x: Peer, submit: Submit)
    requires EpInv(x.ep)
    ensures var e := EmitWrapBatch(x, submit).peer.ep;
            e.flushStart == if submit.Sent? then x.ep.metaPos + (|x.ep.sendRing| - At(x.ep, x.ep.metaPos))
                            else x.ep.flushStart
  {
  }

  lemma CreditEnds(x: Peer, submit: Submit)
    requires EpInv(x.ep)
    ensures EmitCredit(x, submit).peer.ep.flushStart ==
            if submit.Sent? then x.ep.sendProducer else x.ep.flushStart
  {
  }

  /** Where a flush leaves the flush position. */
  lemma FlushEnds(x: Peer, batch: Submit, wrap: Submit, credit: Submit)
    requires EpInv(x.ep)
    ensures FlushPeer(x, batch, wrap, credit).peer.ep.flushStart ==
            if SendsEmpty(x.ep, batch, wrap, credit) then EmptyEnd(x.ep)
            else if x.ep.batchCount > 0 && batch.Sent? then x.ep.sendProducer else x.ep.flushStart
  {
    if x.ep.batchCount > 0 {
      OpenEnds(x, batch);
      if batch.Sent? {
        EmitAndPrepareKeeps(x.ep, x.ep.batchCount, batch);
        WrapEnds(EmitOpen(x, batch).peer, wrap);
      }
    } else if x.ep.wrapPending {
      WrapEnds(x, wrap);
    } else {
      CreditEnds(x, credit);
    }
  }

  lemma FlushWithinCredit(x: Peer, batch: Submit, wrap: Submit, credit: Submit)
    requires EpInv(x.ep) && WithinCredit(x)
    requires x.ep.batchCount > 0 ==> x.ep.sendProducer <= x.ep.remoteConsumer + |x.ep.sendRing|
    requires SendsEmpty(x.ep, batch, wrap, credit) ==> EmptyEnd(x.ep) <= x.ep.remoteConsumer + |x.ep.sendRing|
    ensures WithinCredit(FlushPeer(x, batch, wrap, credit).peer)
  {
    FlushEnds(x, batch, wrap, credit);
    FlushOnlyEmits(x, batch, wrap, credit);
  }

  lemma ArriveWithinCredit(s: Wire, n: Net)
    requires Inv(s, n) && CanAct(s, Do(ArriveEvent)) && WithinCredit(s.net.a)
    ensures WithinCredit(Act(s, Do(ArriveEvent)).net.a)
  {
    ArriveFollows(s, n);
    DeliverNext(n.b, n.ba, n.a);
  }

  lemma OwnActWithinCredit(s: Wire, n: Net, act: Action)
    requires Inv(s, n) && CanAct(s, act) && Guarded(s, act) && WithinCredit(s.net.a)
    ensures WithinCredit(Act(s, act).net.a)
  {
    match act
    case LandNext =>
    case Do(ev) =>
      match ev
      case CallEvent(data, userData, key) => CallWithinCredit(s.net.a, data, userData, key);
      case ReplyEvent(callId, data) => ReplyWithinCredit(s.net.a, callId, data);
      case FlushEvent(batch, wrap, credit) => FlushWithinCredit(s.net.a, batch, wrap, credit);
      case ArriveEvent => ArriveWithinCredit(s, n);
  }

  lemma CallWithinCredit(x: Peer, data: Bytes, userData: UserData, key: nat)
    requires EpInv(x.ep) && WithinCredit(x)
    ensures WithinCredit(CallPeer(x, data, userData, key))
  {
  }

  lemma ReplyWithinCredit(x: Peer, callId: nat, data: Bytes)
    requires EpInv(x.ep) && WithinCredit(x)
    ensures WithinCredit(ReplyPeer(x, callId, data))
  {
  }

  /** Both peers send batches without messages only within the credit they were given. */
  predicate AllGuarded(run: seq<Wire>, acts: seq<(bool, Action)>, k: nat)
    requires k <= |acts| < |run|
  {
    forall i :: 0 <= i < k ==> Guarded(WireSeenBy(acts[i].0, run[i]), acts[i].1)
  }

  lemma PeerStays(s: Wire, act: Action)
    requires CanAct(s, act)
    ensures Act(s, act).net.b == s.net.b
  {
    if act.Do? && !act.ev.ArriveEvent? {
      LastRecvStays(s.net, act.ev);
    }
  }

  lemma {:induction false} RunWithinCredit(size: nat, run: seq<Wire>, acts: seq<(bool, Action)>, k: nat)
    requires IsLandingRun(size, run, acts) && k < |run| && AllGuarded(run, acts, k)
    ensures WithinCredit(run[k].net.a) && WithinCredit(run[k].net.b)
  {
    if k > 0 {
      RunWithinCredit(size, run, acts, k - 1);
      GuardSuffices(size, run, acts, k - 1);
      var model, moves := Refines(size, run, acts, k - 1);
      var side, act := acts[k - 1].0, acts[k - 1].1;
      OwnActWithinCredit(WireSeenBy(side, run[k - 1]), SeenBy(side, model[|moves|]), act);
      PeerStays(WireSeenBy(side, run[k - 1]), act);
    }
  }

  /** As long as `a` has not returned the credit for a position, nothing lands a ring after it. */
  lemma UncreditedIsSafe(size: nat, run: seq<Wire>, acts: seq<(bool, Action)>, k: nat)
    requires IsLandingRun(size, run, acts) && k < |run| && AllGuarded(run, acts, k)
    ensures AllWithin(run, acts, k) && LandedEnd(run[k]) <= run[k].net.a.ep.lastNotified + size
  {
    GuardSuffices(size, run, acts, k);
    RunWithinCredit(size, run, acts, k);
    RingSizeStays(size, run, acts, k);
    var model, moves := Refines(size, run, acts, k);
    var n := model[|moves|];
    LandedWithinSent(run[k], n);
    CreditBehind(n.a, n.ab, n.b);
  }

  /**
   * Between peers that check their wraps and credit batches, the requests of a batch keep their
   * data until the receiver returns the credit for the batch.
   */
  lemma RequestDataStaysUntilCredited(size: nat, run: seq<Wire>, acts: seq<(bool, Action)>, i: nat, j: nat)
    returns (more: seq<RecvMessage>)
    requires IsLandingRun(size, run, acts) && i < j < |run| && AllGuarded(run, acts, j)
    requires acts[i] == (false, Do(ArriveEvent)) && run[i].net.ba != []
    requires run[j].net.a.ep.lastNotified <= run[i].net.ba[0].start
    ensures run[i + 1].net.a.inbox.requests == run[i].net.a.inbox.requests + more
    ensures Pushes(run[j].net.a.ep.recvRing, more, run[i].net.ba[0].msgs)
  {
    UncreditedIsSafe(size, run, acts, j);
    more := RequestDataStays(size, run, acts, i, j);
  }
}
