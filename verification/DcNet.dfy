/** Every run of two connected DC endpoints. */
module DcNet {
  import opened Prelude
  import opened RingPos
  import opened DcEncoding
  import opened DcBatch
  import opened DcEndpointSpec
  import opened DcReceive
  import opened DcStream

  /** `emit_pending` of one peer. */
  function FlushPeer(x: Peer, batch: Submit, wrap: Submit, credit: Submit): Out
    requires EpInv(x.ep)
  {
    var o1 := if x.ep.batchCount > 0 then EmitOpen(x, batch) else Out(x, []);
    if x.ep.batchCount > 0 && !batch.Sent? then o1
    else if o1.peer.ep.wrapPending then
      EmitAndPrepareKeeps(x.ep, x.ep.batchCount, batch);
      var o2 := EmitWrapBatch(o1.peer, wrap);
      Out(o2.peer, o1.wires + o2.wires)
    else if x.ep.batchCount == 0 && x.ep.lastRecv > x.ep.lastNotified then EmitCredit(x, credit)
    else o1
  }

  function Writes(w: seq<Batch>): seq<(nat, Bytes)> {
    seq(|w|, i requires 0 <= i < |w| => (w[i].start, w[i].bytes))
  }

  /** The peer's endpoint goes through the operation of the endpoint itself, with the same writes. */
  lemma FlushPeerIsEmitPending(x: Peer, batch: Submit, wrap: Submit, credit: Submit)
    requires EpInv(x.ep)
    ensures FlushPeer(x, batch, wrap, credit).peer.ep == EmitPending(x.ep, batch, wrap, credit).0
    ensures Writes(FlushPeer(x, batch, wrap, credit).wires) == PendingWrites(x.ep, batch, wrap, credit)
  {
    if x.ep.batchCount > 0 {
      EmitAndPrepareKeeps(x.ep, x.ep.batchCount, batch);
    }
  }

  lemma LinkFlushOpen(x: Peer, w: seq<Batch>, y: Peer, batch: Submit, wrap: Submit)
    requires LinkInv(x, w, y) && x.ep.lastRecv < U64 && x.ep.batchCount > 0
    ensures var out := FlushPeer(x, batch, wrap, Sent);
            LinkInv(out.peer, w + out.wires, y)
  {
    LinkEmitOpen(x, w, y, batch);
    var o1 := EmitOpen(x, batch);
    if batch.Sent? && o1.peer.ep.wrapPending {
      LinkEmitWrap(o1.peer, w + o1.wires, y, wrap);
      WiresAssoc(w, o1.wires, EmitWrapBatch(o1.peer, wrap).wires);
    }
  }

  lemma WiresAssoc(a: seq<Batch>, b: seq<Batch>, c: seq<Batch>)
    ensures (a + b) + c == a + (b + c) && a + [] == a && [] + c == c
  {
  }

  lemma LinkFlush(x: Peer, w: seq<Batch>, y: Peer, batch: Submit, wrap: Submit, credit: Submit)
    requires LinkInv(x, w, y) && x.ep.lastRecv < U64
    ensures var out := FlushPeer(x, batch, wrap, credit);
            LinkInv(out.peer, w + out.wires, y)
  {
    if x.ep.batchCount > 0 {
      LinkFlushOpen(x, w, y, batch, wrap);
    } else if x.ep.wrapPending {
      LinkEmitWrap(x, w, y, wrap);
      WiresAssoc(w, [], EmitWrapBatch(x, wrap).wires);
    } else if x.ep.lastRecv > x.ep.lastNotified {
      LinkEmitCredit(x, w, y, credit);
    } else {
      WiresAssoc(w, [], []);
    }
  }

  // Arrival.

  /** The card writes the bytes where the sender's position points. */
  function Land(e: Ep, b: Batch): Ep
    requires |e.recvRing| > 0 && Offset(b.start, |e.recvRing|) + |b.bytes| <= |e.recvRing|
  {
    e.(recvRing := WriteAt(e.recvRing, Offset(b.start, |e.recvRing|), b.bytes))
  }

  predicate CanDeliver(y: Peer, b: Batch) {
    && |y.ep.recvRing| > 0 && Offset(b.start, |y.ep.recvRing|) + |b.bytes| <= |y.ep.recvRing|
    && Receivable(Land(y.ep, b), y.inbox)
  }

  function DeliverPeer(y: Peer, b: Batch): Peer
    requires CanDeliver(y, b)
  {
    var (ep, inbox) := Receive(Land(y.ep, b), y.inbox);
    y.(ep := ep, inbox := inbox)
  }

  lemma LandStands(y: Peer, b: Batch)
    requires EpInv(y.ep) && BatchOk(b) && b.start == y.ep.lastRecv
    requires Offset(b.start, |y.ep.recvRing|) + |b.bytes| <= |y.ep.recvRing|
    ensures Stands(Land(y.ep, b), b)
  {
  }

  /** The next batch in flight can always be processed, and is processed as it was sent. */
  lemma DeliverNext(x: Peer, w: seq<Batch>, y: Peer)
    requires LinkInv(x, w, y) && w != []
    ensures CanDeliver(y, w[0])
    ensures var y' := DeliverPeer(y, w[0]);
            && y'.ep == AfterBatch(Land(y.ep, w[0]), w[0], y'.ep.pending)
            && y' == y.(ep := y'.ep, inbox := y'.inbox)
            && y'.inbox.decoded == y.inbox.decoded + w[0].msgs
            && y'.inbox == Opened(Land(y.ep, w[0]), w[0], y.inbox)
  {
    LandStands(y, w[0]);
    ReceiveIntactBatch(Land(y.ep, w[0]), w[0], y.inbox);
  }

  lemma LinkDeliver(x: Peer, w: seq<Batch>, y: Peer)
    requires LinkInv(x, w, y) && w != []
    ensures CanDeliver(y, w[0]) && LinkInv(x, w[1..], DeliverPeer(y, w[0]))
  {
    DeliverNext(x, w, y);
    var y' := DeliverPeer(y, w[0]);
    ConcatAssoc(y.inbox.decoded, w[0].msgs, Payloads(w[1..]), x.open);
  }

  lemma ConcatAssoc(a: seq<Msg>, b: seq<Msg>, c: seq<Msg>, d: seq<Msg>)
    ensures a + (b + c) + d == (a + b) + c + d
  {
  }

  /** Receiving does not disturb the other direction. */
  lemma LinkReceives(y: Peer, w: seq<Batch>, x: Peer, y': Peer)
    requires LinkInv(y, w, x)
    requires y' == y.(ep := y'.ep, inbox := y'.inbox)
    requires y'.ep == y.ep.(recvRing := y'.ep.recvRing, recvProducer := y'.ep.recvProducer,
                            remoteConsumer := y'.ep.remoteConsumer, lastRecv := y'.ep.lastRecv,
                            pending := y'.ep.pending)
    requires |y'.ep.recvRing| == |y.ep.recvRing| && y.ep.lastRecv <= y'.ep.lastRecv
    ensures LinkInv(y', w, x)
  {
  }

  // Appending, seen from both directions.

  /** What a call or a reply leaves alone. */
  predicate OnlyAppends(x: Peer, x': Peer) {
    && x'.inbox == x.inbox && x'.lost == x.lost
    && x'.ep.recvRing == x.ep.recvRing && x'.ep.recvProducer == x.ep.recvProducer
    && x'.ep.lastRecv == x.ep.lastRecv && x'.ep.lastNotified == x.ep.lastNotified
    && x'.ep.remoteConsumer == x.ep.remoteConsumer && x'.ep.flushStart == x.ep.flushStart
    && |x'.ep.sendRing| == |x.ep.sendRing| && x'.ep.metaPos == x.ep.metaPos
  }

  /** Either nothing is appended, or exactly the message `m`. */
  predicate Records(x: Peer, x': Peer, m: Msg) {
    || (x'.open == x.open && x'.sent == x.sent)
    || (x'.open == x.open + [m] && x'.sent == x.sent + [m])
  }

  lemma CallOpen(x: Peer, data: Bytes, userData: UserData, key: nat)
    requires OpenOk(x.ep, x.open) && |data| < U32 && key < RESPONSE_FLAG
    ensures var x' := CallPeer(x, data, userData, key);
            && OpenOk(x'.ep, x'.open) && OnlyAppends(x, x')
            && Records(x, x', Msg(key, data))
  {
    if TryAppend(x.ep, |data|).Appended? {
      var m := Msg(key, data);
      AppendOpen(x.ep, x.open, m);
      PendingIrrelevant(Append(x.ep, m), x.open + [m], x.ep.pending[key := userData]);
    }
  }

  lemma PendingIrrelevant(e: Ep, open: seq<Msg>, pending: map<nat, UserData>)
    requires OpenOk(e, open)
    ensures OpenOk(e.(pending := pending), open)
  {
  }

  lemma ReplyOpen(x: Peer, callId: nat, data: Bytes)
    requires OpenOk(x.ep, x.open) && |data| < U32 && callId < RESPONSE_FLAG
    ensures var x', m := ReplyPeer(x, callId, data), Msg(ToResponseId(callId), data);
            && OpenOk(x'.ep, x'.open) && OnlyAppends(x, x')
            && Records(x, x', m)
  {
    if TryAppend(x.ep, |data|).Appended? {
      ResponseIdRoundTrip(callId);
      AppendOpen(x.ep, x.open, Msg(ToResponseId(callId), data));
    }
  }

  lemma LinkAppends(x: Peer, w: seq<Batch>, y: Peer, x': Peer, m: Msg)
    requires LinkInv(x, w, y) && OpenOk(x'.ep, x'.open) && OnlyAppends(x, x')
    requires Records(x, x', m)
    ensures LinkInv(x', w, y)
  {
  }

  lemma LinkPeerAppends(y: Peer, w: seq<Batch>, x: Peer, x': Peer)
    requires LinkInv(y, w, x) && EpInv(x'.ep) && OnlyAppends(x, x')
    ensures LinkInv(y, w, x')
  {
  }

  /** Emitting does not disturb the other direction either. */
  predicate OnlyEmits(x: Peer, x': Peer) {
    && x'.inbox == x.inbox && x'.sent == x.sent && x'.ep.pending == x.ep.pending
    && x'.ep.recvProducer == x.ep.recvProducer
    && x'.ep.lastRecv == x.ep.lastRecv && x'.ep.remoteConsumer == x.ep.remoteConsumer
    && |x'.ep.sendRing| == |x.ep.sendRing|
  }

  lemma OpenOnlyEmits(x: Peer, submit: Submit)
    requires EpInv(x.ep)
    ensures var x' := EmitOpen(x, submit).peer;
            EpInv(x'.ep) && OnlyEmits(x, x')
  {
    EmitAndPrepareKeeps(x.ep, x.ep.batchCount, submit);
  }

  lemma WrapOnlyEmits(x: Peer, submit: Submit)
    requires EpInv(x.ep) && x.ep.wrapPending && x.ep.batchCount == 0
    ensures var x' := EmitWrapBatch(x, submit).peer;
            EpInv(x'.ep) && OnlyEmits(x, x')
  {
    EmitWrapKeeps(x.ep, submit);
  }

  lemma CreditOnlyEmits(x: Peer, submit: Submit)
    requires EpInv(x.ep)
    ensures var x' := EmitCredit(x, submit).peer;
            EpInv(x'.ep) && OnlyEmits(x, x')
  {
    EmitAndPrepareKeeps(x.ep, 0, submit);
  }

  lemma FlushOnlyEmits(x: Peer, batch: Submit, wrap: Submit, credit: Submit)
    requires EpInv(x.ep)
    ensures var x' := FlushPeer(x, batch, wrap, credit).peer;
            EpInv(x'.ep) && OnlyEmits(x, x')
  {
    OpenOnlyEmits(x, batch);
    var x1 := if x.ep.batchCount > 0 then EmitOpen(x, batch).peer else x;
    if x1.ep.wrapPending && x1.ep.batchCount == 0 {
      WrapOnlyEmits(x1, wrap);
    }
    CreditOnlyEmits(x, credit);
  }

  lemma LinkPeerEmits(y: Peer, w: seq<Batch>, x: Peer, x': Peer)
    requires LinkInv(y, w, x) && EpInv(x'.ep) && OnlyEmits(x, x')
    ensures LinkInv(y, w, x')
  {
  }

  // The credit bound.

  lemma BoundCall(x: Peer, w: seq<Batch>, y: Peer, data: Bytes, userData: UserData, key: nat)
    requires EpInv(x.ep) && NoOverwrite(x, w, y)
    ensures NoOverwrite(CallPeer(x, data, userData, key), w, y)
  {
  }

  lemma BoundReply(x: Peer, w: seq<Batch>, y: Peer, callId: nat, data: Bytes)
    requires EpInv(x.ep) && NoOverwrite(x, w, y)
    ensures NoOverwrite(ReplyPeer(x, callId, data), w, y)
  {
  }

  /** Of the batches of a flush, only the open one has messages. */
  lemma FlushWires(x: Peer, batch: Submit, wrap: Submit, credit: Submit)
    requires EpInv(x.ep)
    ensures var wires := FlushPeer(x, batch, wrap, credit).wires;
            && |wires| <= 2 && (|wires| == 2 ==> wires[1].msgs == [])
            && (|wires| > 0 && wires[0].msgs != [] ==>
                  x.ep.batchCount > 0 && Emittable(x.ep) && wires[0] == OpenBatch(x.ep, x.ep.batchCount, x.open))
  {
  }

  /** Its messages passed the credit check. */
  lemma FlushedBounded(x: Peer, y: Peer, batch: Submit, wrap: Submit, credit: Submit, i: nat)
    requires OpenOk(x.ep, x.open) && NoOverwrite(x, [], y) && x.ep.remoteConsumer <= y.ep.lastRecv
    requires i < |FlushPeer(x, batch, wrap, credit).wires|
    ensures EndsBefore(FlushPeer(x, batch, wrap, credit).wires[i], y.ep.lastRecv, |x.ep.sendRing|)
  {
    FlushWires(x, batch, wrap, credit);
  }

  lemma EndsBeforeConcat(w: seq<Batch>, v: seq<Batch>, consumed: nat, size: nat)
    requires forall i :: 0 <= i < |w| ==> EndsBefore(w[i], consumed, size)
    requires forall i :: 0 <= i < |v| ==> EndsBefore(v[i], consumed, size)
    ensures forall i :: 0 <= i < |w + v| ==> EndsBefore((w + v)[i], consumed, size)
  {
  }

  lemma BoundFlush(x: Peer, w: seq<Batch>, y: Peer, batch: Submit, wrap: Submit, credit: Submit)
    requires OpenOk(x.ep, x.open) && NoOverwrite(x, w, y) && x.ep.remoteConsumer <= y.ep.lastRecv
    ensures var out := FlushPeer(x, batch, wrap, credit);
            NoOverwrite(out.peer, w + out.wires, y)
  {
    var out := FlushPeer(x, batch, wrap, credit);
    forall i | 0 <= i < |out.wires| ensures EndsBefore(out.wires[i], y.ep.lastRecv, |x.ep.sendRing|) {
      FlushedBounded(x, y, batch, wrap, credit, i);
    }
    EndsBeforeConcat(w, out.wires, y.ep.lastRecv, |x.ep.sendRing|);
    FlushOpens(x, batch, wrap, credit);
  }

  /** Messages that are still in the open batch have been there before. */
  lemma FlushOpens(x: Peer, batch: Submit, wrap: Submit, credit: Submit)
    requires EpInv(x.ep)
    ensures var e := FlushPeer(x, batch, wrap, credit).peer.ep;
            && |e.sendRing| == |x.ep.sendRing| && e.remoteConsumer == x.ep.remoteConsumer
            && (e.batchCount > 0 ==> x.ep.batchCount > 0 && e.sendProducer == x.ep.sendProducer)
  {
    FlushOnlyEmits(x, batch, wrap, credit);
  }
}
