/** Batches without messages, which are not credit checked: where they end, and what they may hit. */
module DcEmptyBatch {
  import opened RingPos
  import opened DcEndpointSpec
  import opened DcStream
  import opened DcNet
  import opened DcRuns

  /** A flush with these answers of the card sends a wrap or a credit batch. */
  predicate SendsEmpty(e: Ep, batch: Submit, wrap: Submit, credit: Submit) {
    if e.wrapPending then (e.batchCount > 0 ==> batch.Sent?) && wrap.Sent?
    else e.batchCount == 0 && e.lastRecv > e.lastNotified && credit.Sent?
  }

  /** Behind the open batch if that has messages, and in its place otherwise. */
  function EmptyStart(e: Ep): nat {
    if e.batchCount > 0 then e.sendProducer else e.metaPos
  }

  /** A wrap takes the rest of the ring cycle, a credit batch one header. */
  function EmptyEnd(e: Ep): nat
    requires |e.sendRing| > 0
  {
    if e.wrapPending then EmptyStart(e) + (|e.sendRing| - At(e, EmptyStart(e))) else e.sendProducer
  }

  /** The batch without messages is the last one that a flush sends. */
  lemma EmptyBatchIsLast(x: Peer, batch: Submit, wrap: Submit, credit: Submit)
    requires OpenOk(x.ep, x.open)
    ensures var wires := FlushPeer(x, batch, wrap, credit).wires;
            && (SendsEmpty(x.ep, batch, wrap, credit) ==>
                  && wires != [] && wires[|wires| - 1].msgs == []
                  && wires[|wires| - 1].start == EmptyStart(x.ep)
                  && wires[|wires| - 1].start + |wires[|wires| - 1].bytes| == EmptyEnd(x.ep))
            && (forall i :: 0 <= i < |wires| && wires[i].msgs == [] ==>
                  i == |wires| - 1 && SendsEmpty(x.ep, batch, wrap, credit))
  {
    if x.ep.batchCount > 0 {
      EmitAndPrepareKeeps(x.ep, x.ep.batchCount, batch);
    }
  }

  lemma EmptySpan(e: Ep)
    requires EpInv(e) && (e.wrapPending || e.batchCount == 0)
    ensures e.flushStart <= EmptyStart(e) < EmptyEnd(e) <= EmptyStart(e) + |e.sendRing|
  {
  }

  /**
   * Such a batch lands on bytes that its receiver has yet to process exactly when it ends more
   * than a full ring past what the receiver has processed. The sender sees only the credit it has
   * been given, which lags behind; staying within a ring of that is enough.
   */
  lemma EmptyBatchClashesExactly(n: Net, batch: Submit, wrap: Submit, credit: Submit)
    requires NetInv(n) && SendsEmpty(n.a.ep, batch, wrap, credit)
    ensures var wires, size, end := FlushPeer(n.a, batch, wrap, credit).wires, |n.a.ep.sendRing|, EmptyEnd(n.a.ep);
            && wires != [] && wires[|wires| - 1].msgs == []
            && wires[|wires| - 1].start + |wires[|wires| - 1].bytes| == end
            && (Clashes(n.b.ep.lastRecv, wires[|wires| - 1].start, end, size) <==> end > n.b.ep.lastRecv + size)
            && (end <= n.a.ep.remoteConsumer + size ==> end <= n.b.ep.lastRecv + size)
  {
    var e, received := n.a.ep, n.b.ep.lastRecv;
    EmptyBatchIsLast(n.a, batch, wrap, credit);
    EmptySpan(e);
    ChainForward(n.ab, received, e.flushStart, |e.sendRing|);
    CreditBehind(n.b, n.ba, n.a);
    if received < EmptyStart(e) {
      ClashesExactly(received, EmptyStart(e), EmptyEnd(e), |e.sendRing|);
    }
  }
}
