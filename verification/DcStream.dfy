/** Two connected DC endpoints and the batches in flight between them. */
module DcStream {
  import opened Prelude
  import opened RingPos
  import opened DcEncoding
  import opened DcBatch
  import opened DcEndpointSpec
  import opened DcReceive

  /**
   * One side. History: the messages of the open batch, all messages appended so far, and the
   * credit that was counted as returned in submissions that failed.
   */
  datatype Peer = Peer(ep: Ep, inbox: Inbox, open: seq<Msg>, sent: seq<Msg>, lost: nat)

  /** The open batch in the send ring holds the messages `open`. */
  predicate OpenOk(e: Ep, open: seq<Msg>) {
    && |open| == e.batchCount && EpInv(e)
    && Layout(e.sendRing, At(e, e.metaPos) + BATCH_HEADER_SIZE, open)
    && (open != [] ==> BATCH_HEADER_SIZE + MsgsSize(open) == e.sendProducer - e.metaPos)
  }

  // Appending.

  lemma WrittenMsgAt(ring: Bytes, off: nat, m: Msg)
    requires Encodable(m) && off + MsgSize(m) <= |ring|
    ensures MsgAt(WriteAt(ring, off, EncodeMsg(m)), off, m)
  {
  }

  lemma AppendLayout(e: Ep, open: seq<Msg>, m: Msg)
    requires OpenOk(e, open) && HasCycleRoomFor(e, MsgSize(m)) && Encodable(m)
    ensures At(e, e.sendProducer) + DC_HEADER_SIZE + |m.payload| <= |e.sendRing|
    ensures Layout(Append(e, m).sendRing, At(e, e.metaPos) + BATCH_HEADER_SIZE, open + [m])
    ensures MsgsSize(open + [m]) == MsgsSize(open) + MsgSize(m)
  {
    AppendFits(e, m);
    var ring := Append(e, m).sendRing;
    var off, first := At(e, e.sendProducer), At(e, e.metaPos) + BATCH_HEADER_SIZE;
    assert off == first + MsgsSize(open);
    WrittenMsgAt(e.sendRing, off, m);
    assert ring[first..off] == e.sendRing[first..off];
    LayoutFrame(e.sendRing, ring, first, off, open);
    LayoutAppend(ring, first, open, m);
  }

  lemma AppendOpen(e: Ep, open: seq<Msg>, m: Msg)
    requires OpenOk(e, open) && HasCycleRoomFor(e, MsgSize(m)) && Encodable(m)
    ensures At(e, e.sendProducer) + DC_HEADER_SIZE + |m.payload| <= |e.sendRing|
    ensures OpenOk(Append(e, m), open + [m])
  {
    AppendKeeps(e, m);
    AppendLayout(e, open, m);
  }

  function AppendPeer(x: Peer, ep: Ep, r: AppendResult, m: Msg): Peer {
    if r.Appended? then x.(ep := ep, open := x.open + [m], sent := x.sent + [m]) else x.(ep := ep)
  }

  function CallPeer(x: Peer, data: Bytes, userData: UserData, key: nat): Peer
    requires EpInv(x.ep)
  {
    var (ep, r) := Call(x.ep, data, userData, key);
    AppendPeer(x, ep, r, Msg(key, data))
  }

  function ReplyPeer(x: Peer, callId: nat, data: Bytes): Peer
    requires EpInv(x.ep)
  {
    var (ep, r) := Reply(x.ep, callId, data);
    AppendPeer(x, ep, r, Msg(ToResponseId(callId), data))
  }

  // Emitting.

  /** The batch that the card gets, with the history it carries. */
  function OpenBatch(e: Ep, count: nat, msgs: seq<Msg>): Batch
    requires Emittable(e)
  {
    Batch(e.flushStart, EmitBytes(e, count), EmitHeader(e, count), msgs)
  }

  lemma StampedHeader(e: Ep, count: nat)
    requires Emittable(e)
    ensures EmitBytes(e, count)[..BATCH_HEADER_SIZE] == EncodeBatchHeader(EmitHeader(e, count))
  {
  }

  lemma StampedLayout(e: Ep, count: nat, open: seq<Msg>)
    requires OpenOk(e, open) && open != []
    ensures Emittable(e) && Layout(EmitBytes(e, count), BATCH_HEADER_SIZE, open)
  {
    var off, delta := At(e, e.flushStart), e.sendProducer - e.flushStart;
    var ring, bytes := Stamp(e, count).sendRing, EmitBytes(e, count);
    var first := off + BATCH_HEADER_SIZE;
    assert ring[first..off + delta] == e.sendRing[first..off + delta];
    LayoutFrame(e.sendRing, ring, first, off + delta, open);
    assert bytes[0..delta] == bytes == ring[off..off + delta];
    LayoutMoves(ring, bytes, off, 0, delta, BATCH_HEADER_SIZE, open);
  }

  /** The open batch, emitted with its messages, is well formed. */
  lemma OpenBatchOk(e: Ep, open: seq<Msg>)
    requires OpenOk(e, open) && open != [] && e.lastRecv < U64
    ensures Emittable(e) && BatchOk(OpenBatch(e, e.batchCount, open))
  {
    StampedHeader(e, e.batchCount);
    StampedLayout(e, e.batchCount, open);
  }

  /** So is a header alone, and a wrap over the rest of the cycle. */
  lemma EmptyBatchOk(e: Ep, count: nat)
    requires Emittable(e) && e.lastRecv < U64
    requires count == WRAP_MESSAGE_COUNT || (count == 0 && e.sendProducer == e.metaPos + BATCH_HEADER_SIZE)
    ensures BatchOk(OpenBatch(e, count, []))
  {
  }

  // One direction of the connection.

  /** The batches in flight follow each other from the receiver's position to the sender's. */
  predicate Chain(w: seq<Batch>, from: nat, to: nat, size: nat)
    requires size > 0
    decreases |w|
  {
    if w == [] then from == to
    else
      && BatchOk(w[0]) && w[0].start == from && Offset(from, size) + |w[0].bytes| <= size
      && Chain(w[1..], from + |w[0].bytes|, to, size)
  }

  function Payloads(w: seq<Batch>): seq<Msg> {
    if w == [] then [] else w[0].msgs + Payloads(w[1..])
  }

  function CreditSum(w: seq<Batch>): nat {
    if w == [] then 0 else w[0].header.creditReturn + CreditSum(w[1..])
  }

  lemma {:induction false} ChainExtends(w: seq<Batch>, from: nat, to: nat, size: nat, b: Batch)
    requires size > 0 && Chain(w, from, to, size) && Chain([b], to, to + |b.bytes|, size)
    ensures Chain(w + [b], from, to + |b.bytes|, size)
    decreases |w|
  {
    if w == [] {
      assert w + [b] == [b];
    } else {
      assert (w + [b])[1..] == w[1..] + [b];
      ChainExtends(w[1..], from + |w[0].bytes|, to, size, b);
    }
  }

  lemma {:induction false} SumsExtend(w: seq<Batch>, b: Batch)
    ensures Payloads(w + [b]) == Payloads(w) + b.msgs
    ensures CreditSum(w + [b]) == CreditSum(w) + b.header.creditReturn
  {
    if w == [] {
      assert [b][1..] == [] && w + [b] == [b];
    } else {
      assert (w + [b])[1..] == w[1..] + [b];
      SumsExtend(w[1..], b);
    }
  }

  lemma ChainAppend(w: seq<Batch>, from: nat, to: nat, size: nat, b: Batch)
    requires size > 0 && Chain(w, from, to, size)
    requires BatchOk(b) && b.start == to && Offset(to, size) + |b.bytes| <= size
    ensures Chain(w + [b], from, to + |b.bytes|, size)
    ensures Payloads(w + [b]) == Payloads(w) + b.msgs
    ensures CreditSum(w + [b]) == CreditSum(w) + b.header.creditReturn
  {
    assert [b][1..] == [];
    ChainExtends(w, from, to, size, b);
    SumsExtend(w, b);
  }

  /** Sender `x`, batches in flight `w`, receiver `y`: positions, messages and credit agree. */
  predicate LinkInv(x: Peer, w: seq<Batch>, y: Peer) {
    && OpenOk(x.ep, x.open) && EpInv(y.ep) && |y.ep.sendRing| == |x.ep.sendRing|
    && Chain(w, y.ep.lastRecv, x.ep.flushStart, |x.ep.sendRing|)
    && y.ep.recvProducer == y.ep.lastRecv
    && x.sent == y.inbox.decoded + Payloads(w) + x.open
    && y.ep.remoteConsumer + CreditSum(w) + x.lost == x.ep.lastNotified
  }

  /** A batch with messages ends at least one reserve short of a full ring past `consumed`. */
  predicate EndsBefore(b: Batch, consumed: nat, size: nat) {
    b.msgs != [] ==> b.start + |b.bytes| + CREDIT_RETURN_RESERVE <= consumed + size
  }

  predicate NoOverwrite(x: Peer, w: seq<Batch>, y: Peer) {
    && (x.ep.batchCount > 0 ==>
          x.ep.sendProducer + CREDIT_RETURN_RESERVE <= x.ep.remoteConsumer + |x.ep.sendRing|)
    && (forall i :: 0 <= i < |w| ==> EndsBefore(w[i], y.ep.lastRecv, |x.ep.sendRing|))
  }

  /** A peer after a step, and the batches it has sent. */
  datatype Out = Out(peer: Peer, wires: seq<Batch>)

  function EmitOpen(x: Peer, submit: Submit): Out
    requires EpInv(x.ep)
  {
    var ep := EmitAndPrepare(x.ep, x.ep.batchCount, submit);
    if submit.Sent? then Out(x.(ep := ep, open := []), [OpenBatch(x.ep, x.ep.batchCount, x.open)])
    else Out(x.(ep := ep, lost := x.lost + (x.ep.lastRecv - x.ep.lastNotified)), [])
  }

  function EmitWrapBatch(x: Peer, submit: Submit): Out
    requires EpInv(x.ep)
  {
    WrapEmittable(x.ep);
    var ep := EmitWrap(x.ep, submit);
    if submit.Sent? then
      Out(x.(ep := ep.(wrapPending := false)), [OpenBatch(FillCycle(x.ep), WRAP_MESSAGE_COUNT, [])])
    else Out(x.(ep := ep, lost := x.lost + (x.ep.lastRecv - x.ep.lastNotified)), [])
  }

  function EmitCredit(x: Peer, submit: Submit): Out
    requires EpInv(x.ep)
  {
    var ep := EmitAndPrepare(x.ep, 0, submit);
    if submit.Sent? then Out(x.(ep := ep), [OpenBatch(x.ep, 0, [])])
    else Out(x.(ep := ep, lost := x.lost + (x.ep.lastRecv - x.ep.lastNotified)), [])
  }

  lemma FreshOpen(e: Ep)
    requires EpInv(e) && e.batchCount == 0
    ensures OpenOk(e, [])
  {
  }

  /** The sender has become `x'` by sending `b`, which carries its open messages and its credit. */
  lemma LinkSend(x: Peer, w: seq<Batch>, y: Peer, x': Peer, b: Batch)
    requires LinkInv(x, w, y) && OpenOk(x'.ep, []) && |x'.ep.sendRing| == |x.ep.sendRing|
    requires BatchOk(b) && b.start == x.ep.flushStart && Offset(b.start, |x.ep.sendRing|) + |b.bytes| <= |x.ep.sendRing|
    requires x'.ep.flushStart == b.start + |b.bytes|
    requires b.msgs == x.open && x'.open == [] && x'.sent == x.sent && x'.lost == x.lost
    requires b.header.creditReturn == x.ep.lastRecv - x.ep.lastNotified && x'.ep.lastNotified == x.ep.lastRecv
    ensures LinkInv(x', w + [b], y)
  {
    var decoded := y.inbox.decoded;
    ChainAppend(w, y.ep.lastRecv, x.ep.flushStart, |x.ep.sendRing|, b);
    ConcatShift(decoded, Payloads(w), x.open);
  }

  lemma ConcatShift(a: seq<Msg>, b: seq<Msg>, c: seq<Msg>)
    ensures a + b + c == a + (b + c) + []
  {
  }

  /** The sender has become `x'` by a failed submission, which loses its credit. */
  lemma LinkFail(x: Peer, w: seq<Batch>, y: Peer, x': Peer)
    requires LinkInv(x, w, y) && OpenOk(x'.ep, x.open) && |x'.ep.sendRing| == |x.ep.sendRing|
    requires x'.ep.flushStart == x.ep.flushStart && x'.open == x.open && x'.sent == x.sent
    requires x'.lost == x.lost + (x.ep.lastRecv - x.ep.lastNotified) && x'.ep.lastNotified == x.ep.lastRecv
    ensures LinkInv(x', w + [], y)
  {
    assert w + [] == w;
  }

  lemma LinkEmitOpen(x: Peer, w: seq<Batch>, y: Peer, submit: Submit)
    requires LinkInv(x, w, y) && x.ep.batchCount > 0 && x.ep.lastRecv < U64
    ensures LinkInv(EmitOpen(x, submit).peer, w + EmitOpen(x, submit).wires, y)
  {
    var out := EmitOpen(x, submit);
    EmitAndPrepareKeeps(x.ep, x.ep.batchCount, submit);
    if submit.Sent? {
      OpenBatchOk(x.ep, x.open);
      FreshOpen(out.peer.ep);
      LinkSend(x, w, y, out.peer, out.wires[0]);
    } else {
      StampKeepsOpen(x.ep, x.ep.batchCount, x.open);
      LinkFail(x, w, y, out.peer);
    }
  }

  /** A failed submission leaves the messages of the open batch in place. */
  lemma StampKeepsOpen(e: Ep, count: nat, open: seq<Msg>)
    requires OpenOk(e, open)
    ensures OpenOk(Stamp(e, count), open)
  {
    var e' := Stamp(e, count);
    var first, end := At(e, e.metaPos) + BATCH_HEADER_SIZE, BatchEnd(e);
    if open != [] {
      assert e'.sendRing[first..end] == e.sendRing[first..end];
      LayoutFrame(e.sendRing, e'.sendRing, first, end, open);
    }
  }

  lemma LinkEmitCredit(x: Peer, w: seq<Batch>, y: Peer, submit: Submit)
    requires LinkInv(x, w, y) && x.ep.batchCount == 0 && !x.ep.wrapPending && x.ep.lastRecv < U64
    ensures LinkInv(EmitCredit(x, submit).peer, w + EmitCredit(x, submit).wires, y)
  {
    var out := EmitCredit(x, submit);
    EmitAndPrepareKeeps(x.ep, 0, submit);
    FreshOpen(out.peer.ep);
    if submit.Sent? {
      EmptyBatchOk(x.ep, 0);
      LinkSend(x, w, y, out.peer, out.wires[0]);
    } else {
      LinkFail(x, w, y, out.peer);
    }
  }

  lemma LinkEmitWrap(x: Peer, w: seq<Batch>, y: Peer, submit: Submit)
    requires LinkInv(x, w, y) && x.ep.batchCount == 0 && x.ep.wrapPending && x.ep.lastRecv < U64
    ensures LinkInv(EmitWrapBatch(x, submit).peer, w + EmitWrapBatch(x, submit).wires, y)
  {
    var out := EmitWrapBatch(x, submit);
    WrapEmittable(x.ep);
    EmitWrapKeeps(x.ep, submit);
    if submit.Sent? {
      ClearWrap(EmitWrap(x.ep, submit));
      FreshOpen(out.peer.ep);
      EmptyBatchOk(FillCycle(x.ep), WRAP_MESSAGE_COUNT);
      LinkSend(x, w, y, out.peer, out.wires[0]);
    } else {
      FreshOpen(out.peer.ep);
      LinkFail(x, w, y, out.peer);
    }
  }
}
