/** The DC endpoint as a value: what each operation makes of it, and what every operation keeps. */
module DcEndpointSpec {
  import opened Prelude
  import opened RingPos
  import opened DcEncoding
  import opened DcBatch

  /** Ring memory that a zero-message credit batch may always use. */
  const CREDIT_RETURN_RESERVE: nat := BATCH_HEADER_SIZE

  /** What the application attaches to a call and gets back with its response. */
  type UserData = nat

  /** The answer of the network card to one work request. */
  datatype Submit = Sent | SqFull | IoError

  datatype Ep = Ep(
    sendRing: Bytes, recvRing: Bytes, remoteSize: Option<nat>,
    sendProducer: nat, recvProducer: nat, lastRecv: nat, lastNotified: nat, remoteConsumer: nat,
    pending: map<nat, UserData>,
    flushStart: nat, metaPos: nat, batchCount: nat, wrapPending: bool)

  /** The offset in the send ring. */
  function At(e: Ep, pos: nat): (off: nat)
    requires |e.sendRing| > 0
    ensures off < |e.sendRing|
  {
    Offset(pos, |e.sendRing|)
  }

  /** Both peers use rings of one size, a multiple of the alignment, and `e` is connected. */
  predicate Sized(e: Ep) {
    && 64 <= |e.sendRing| < U32 && |e.sendRing| % ALIGNMENT == 0
    && |e.recvRing| == |e.sendRing|
    && e.remoteSize == Some(|e.sendRing|)
  }

  /** The space from the start of the open batch to the producer, counted from its ring cycle. */
  function BatchEnd(e: Ep): int
    requires |e.sendRing| > 0
  {
    At(e, e.metaPos) + (e.sendProducer - e.metaPos)
  }

  /** Batch containment, with the alignment and the counters it rests on. */
  predicate EpInv(e: Ep) {
    && Sized(e)
    && e.metaPos % ALIGNMENT == 0 && e.sendProducer % ALIGNMENT == 0
    && e.flushStart == e.metaPos
    && BATCH_HEADER_SIZE + ALIGNMENT * e.batchCount <= e.sendProducer - e.metaPos
    && BatchEnd(e) <= |e.sendRing|
    && (e.batchCount > 0 ==> BatchEnd(e) < |e.sendRing|)
    && (e.batchCount == 0 ==>
          || e.sendProducer == e.metaPos + BATCH_HEADER_SIZE
          || (e.wrapPending && BatchEnd(e) == |e.sendRing|))
    && e.lastNotified <= e.lastRecv
  }

  /** An endpoint that is not connected yet refuses calls and replies. */
  predicate Usable(e: Ep) {
    e.remoteSize.Some? ==> EpInv(e)
  }

  // Appending a message to the open batch.

  predicate HasCycleRoomFor(e: Ep, size: nat)
    requires |e.sendRing| > 0
  {
    BatchEnd(e) + size < |e.sendRing|
  }

  function Available(e: Ep, remoteSize: nat): nat {
    SaturatingSub(remoteSize, SaturatingSub(e.sendProducer, e.remoteConsumer) + CREDIT_RETURN_RESERVE)
  }

  function Append(e: Ep, m: Msg): Ep
    requires |e.sendRing| > 0 && At(e, e.sendProducer) + DC_HEADER_SIZE + |m.payload| <= |e.sendRing|
  {
    e.(sendRing := WriteAt(e.sendRing, At(e, e.sendProducer), EncodeMsg(m)),
       sendProducer := e.sendProducer + MsgSize(m),
       batchCount := e.batchCount + 1)
  }

  datatype AppendResult = Appended | NoCycleRoom | NoCredit | NotConnected

  function TryAppend(e: Ep, len: nat): AppendResult
    requires e.remoteSize.Some? ==> |e.sendRing| > 0
  {
    if e.remoteSize.None? then NotConnected
    else if !HasCycleRoomFor(e, PaddedMessageSize(len)) then NoCycleRoom
    else if Available(e, e.remoteSize.value) < PaddedMessageSize(len) then NoCredit
    else Appended
  }

  /** The end of the open batch is where the next message goes. */
  lemma ProducerOffset(e: Ep, size: nat)
    requires EpInv(e) && HasCycleRoomFor(e, size)
    ensures At(e, e.sendProducer) == BatchEnd(e)
  {
    OffsetAdd(e.metaPos, e.sendProducer - e.metaPos, |e.sendRing|);
  }

  /** A message that passes the room check is written inside the ring. */
  lemma AppendFits(e: Ep, m: Msg)
    requires EpInv(e) && HasCycleRoomFor(e, MsgSize(m))
    ensures At(e, e.sendProducer) == BatchEnd(e)
    ensures At(e, e.sendProducer) + DC_HEADER_SIZE + |m.payload| <= |e.sendRing|
  {
    ProducerOffset(e, MsgSize(m));
  }

  lemma AppendKeeps(e: Ep, m: Msg)
    requires EpInv(e) && HasCycleRoomFor(e, MsgSize(m))
    ensures At(e, e.sendProducer) + DC_HEADER_SIZE + |m.payload| <= |e.sendRing|
    ensures EpInv(Append(e, m))
  {
    AppendFits(e, m);
    var e' := Append(e, m);
    assert |e'.sendRing| == |e.sendRing| && e'.metaPos == e.metaPos;
    assert BatchEnd(e') == BatchEnd(e) + MsgSize(m);
    AlignedSum(e.sendProducer, MsgSize(m));
  }

  /** `call` of the endpoint; `key` is the vacant slab entry that the call occupies. */
  function Call(e: Ep, data: Bytes, userData: UserData, key: nat): (Ep, AppendResult)
    requires Usable(e)
  {
    var r := TryAppend(e, |data|);
    if r.Appended? then
      AppendFits(e, Msg(key, data));
      (Append(e, Msg(key, data)).(pending := e.pending[key := userData]), r)
    else
      (if r.NoCycleRoom? then e.(wrapPending := true) else e, r)
  }

  /** `reply` to the request with the given call id. */
  function Reply(e: Ep, callId: nat, data: Bytes): (Ep, AppendResult)
    requires Usable(e)
  {
    var r := TryAppend(e, |data|);
    if r.Appended? then
      AppendFits(e, Msg(ToResponseId(callId), data));
      (Append(e, Msg(ToResponseId(callId), data)), r)
    else
      (if r.NoCycleRoom? then e.(wrapPending := true) else e, r)
  }

  lemma CallKeeps(e: Ep, data: Bytes, userData: UserData, key: nat)
    requires Usable(e)
    ensures Usable(Call(e, data, userData, key).0)
    ensures EpInv(e) ==> EpInv(Call(e, data, userData, key).0)
    ensures e.remoteSize.None? ==> Call(e, data, userData, key) == (e, NotConnected)
  {
    if TryAppend(e, |data|).Appended? {
      AppendKeeps(e, Msg(key, data));
    }
  }

  lemma ReplyKeeps(e: Ep, callId: nat, data: Bytes)
    requires Usable(e)
    ensures Usable(Reply(e, callId, data).0)
    ensures EpInv(e) ==> EpInv(Reply(e, callId, data).0)
    ensures e.remoteSize.None? ==> Reply(e, callId, data) == (e, NotConnected)
  {
    if TryAppend(e, |data|).Appended? {
      AppendKeeps(e, Msg(ToResponseId(callId), data));
    }
  }

  // Emitting batches.

  function PrepareNextBatch(e: Ep): Ep {
    e.(metaPos := e.sendProducer, batchCount := 0, sendProducer := e.sendProducer + BATCH_HEADER_SIZE)
  }

  /** What `emit_batch` needs: the batch starts in the ring and has room for its header. */
  predicate Emittable(e: Ep) {
    && Sized(e) && e.flushStart == e.metaPos && e.lastNotified <= e.lastRecv
    && BATCH_HEADER_SIZE <= e.sendProducer - e.metaPos
    && BatchEnd(e) <= |e.sendRing|
  }

  function EmitHeader(e: Ep, count: nat): BatchHeader
    requires Emittable(e)
  {
    BatchHeader(e.sendProducer - e.flushStart, e.lastRecv - e.lastNotified, count)
  }

  /** The header is written and the credit counted as returned, whatever the card answers. */
  function Stamp(e: Ep, count: nat): Ep
    requires Emittable(e)
  {
    e.(lastNotified := e.lastRecv,
       sendRing := WriteAt(e.sendRing, At(e, e.flushStart), EncodeBatchHeader(EmitHeader(e, count))))
  }

  /** The bytes handed to the card. */
  function EmitBytes(e: Ep, count: nat): (b: Bytes)
    requires Emittable(e)
    ensures |b| == e.sendProducer - e.flushStart
  {
    Stamp(e, count).sendRing[At(e, e.flushStart)..At(e, e.flushStart) + (e.sendProducer - e.flushStart)]
  }

  function EmitBatch(e: Ep, count: nat, submit: Submit): Ep
    requires Emittable(e)
  {
    var e1 := Stamp(e, count);
    if submit.Sent? then e1.(flushStart := e.sendProducer) else e1
  }

  /** The open batch is given up and the producer moves to the end of the cycle. */
  function FillCycle(e: Ep): Ep
    requires |e.sendRing| > 0
  {
    e.(sendProducer := e.metaPos + (|e.sendRing| - At(e, e.metaPos)))
  }

  lemma WrapEmittable(e: Ep)
    requires EpInv(e)
    ensures Emittable(FillCycle(e)) && BatchEnd(FillCycle(e)) == |e.sendRing|
    ensures FillCycle(e).sendProducer % ALIGNMENT == 0
    ensures Offset(FillCycle(e).sendProducer, |e.sendRing|) == 0
  {
    var size, off := |e.sendRing|, At(e, e.metaPos);
    OffsetAligned(e.metaPos, size);
    OffsetWraps(e.metaPos, size - off, size);
    AlignedFill(e.metaPos, off, size);
  }

  lemma AlignedFill(pos: nat, off: nat, size: nat)
    requires pos % ALIGNMENT == 0 && off % ALIGNMENT == 0 && size % ALIGNMENT == 0 && off < size
    ensures (pos + (size - off)) % ALIGNMENT == 0 && size - off >= ALIGNMENT
  {
  }

  function EmitWrap(e: Ep, submit: Submit): Ep
    requires EpInv(e)
  {
    WrapEmittable(e);
    var e1 := EmitBatch(FillCycle(e), WRAP_MESSAGE_COUNT, submit);
    if submit.Sent? then PrepareNextBatch(e1) else e1
  }

  function EmitAndPrepare(e: Ep, count: nat, submit: Submit): Ep
    requires Emittable(e)
  {
    var e1 := EmitBatch(e, count, submit);
    if submit.Sent? then PrepareNextBatch(e1) else e1
  }

  /** After a batch has been emitted the next header fits, in this cycle or in the next. */
  lemma PrepareKeeps(e: Ep)
    requires Sized(e) && e.flushStart == e.sendProducer && e.sendProducer % ALIGNMENT == 0
    requires e.lastNotified <= e.lastRecv
    ensures EpInv(PrepareNextBatch(e))
  {
    OffsetAligned(e.sendProducer, |e.sendRing|);
  }

  lemma EmitAndPrepareKeeps(e: Ep, count: nat, submit: Submit)
    requires EpInv(e)
    ensures EpInv(EmitAndPrepare(e, count, submit))
  {
    if submit.Sent? {
      PrepareKeeps(EmitBatch(e, count, submit));
    }
  }

  /** A failed wrap leaves the producer at the end of the cycle, where no message has room. */
  lemma EmitWrapKeeps(e: Ep, submit: Submit)
    requires EpInv(e) && e.wrapPending && e.batchCount == 0
    ensures EpInv(EmitWrap(e, submit))
    ensures !submit.Sent? ==> forall size: nat :: !HasCycleRoomFor(EmitWrap(e, submit), size)
  {
    WrapEmittable(e);
    OffsetAligned(e.metaPos, |e.sendRing|);
    if submit.Sent? {
      PrepareKeeps(EmitBatch(FillCycle(e), WRAP_MESSAGE_COUNT, submit));
    }
  }

  datatype FlushResult = Flushed(emitted: bool) | FlushFull | FlushIo

  function Failure(submit: Submit): FlushResult {
    if submit.SqFull? then FlushFull else FlushIo
  }

  /** `emit_pending` behind the open batch: the wrap, or else a credit batch. */
  function EmitRest(e: Ep, emitted: bool, wrap: Submit, credit: Submit): (Ep, FlushResult)
    requires EpInv(e) && e.batchCount == 0
  {
    if e.wrapPending then
      var e1 := EmitWrap(e, wrap);
      if wrap.Sent? then (e1.(wrapPending := false), Flushed(true))
      else (e1, if emitted then Flushed(true) else Failure(wrap))
    else if !emitted && e.lastRecv > e.lastNotified then
      (EmitAndPrepare(e, 0, credit), if credit.Sent? then Flushed(true) else Failure(credit))
    else (e, Flushed(emitted))
  }

  /** `emit_pending`: the open batch first. */
  function EmitPending(e: Ep, batch: Submit, wrap: Submit, credit: Submit): (Ep, FlushResult)
    requires EpInv(e)
  {
    if e.batchCount == 0 then EmitRest(e, false, wrap, credit)
    else
      EmitAndPrepareKeeps(e, e.batchCount, batch);
      var e1 := EmitAndPrepare(e, e.batchCount, batch);
      if batch.Sent? then EmitRest(e1, true, wrap, credit) else (e1, Failure(batch))
  }

  /** The writes that `emit_pending` hands to the card, as position and bytes. */
  function RestWrites(e: Ep, emitted: bool, wrap: Submit, credit: Submit): seq<(nat, Bytes)>
    requires EpInv(e) && e.batchCount == 0
  {
    if e.wrapPending then
      WrapEmittable(e);
      if wrap.Sent? then [(e.flushStart, EmitBytes(FillCycle(e), WRAP_MESSAGE_COUNT))] else []
    else if !emitted && e.lastRecv > e.lastNotified && credit.Sent? then [(e.flushStart, EmitBytes(e, 0))]
    else []
  }

  function PendingWrites(e: Ep, batch: Submit, wrap: Submit, credit: Submit): seq<(nat, Bytes)>
    requires EpInv(e)
  {
    if e.batchCount == 0 then RestWrites(e, false, wrap, credit)
    else if !batch.Sent? then []
    else
      EmitAndPrepareKeeps(e, e.batchCount, batch);
      [(e.flushStart, EmitBytes(e, e.batchCount))]
      + RestWrites(EmitAndPrepare(e, e.batchCount, batch), true, wrap, credit)
  }

  predicate HasPendingFlush(e: Ep) {
    e.wrapPending || e.batchCount > 0
  }

  lemma EmitRestKeeps(e: Ep, emitted: bool, wrap: Submit, credit: Submit)
    requires EpInv(e) && e.batchCount == 0
    ensures EpInv(EmitRest(e, emitted, wrap, credit).0)
  {
    if e.wrapPending {
      EmitWrapKeeps(e, wrap);
      if wrap.Sent? {
        ClearWrap(EmitWrap(e, wrap));
      }
    } else {
      EmitAndPrepareKeeps(e, 0, credit);
    }
  }

  lemma EmitPendingKeeps(e: Ep, batch: Submit, wrap: Submit, credit: Submit)
    requires EpInv(e)
    ensures EpInv(EmitPending(e, batch, wrap, credit).0)
  {
    if e.batchCount == 0 {
      EmitRestKeeps(e, false, wrap, credit);
    } else {
      EmitAndPrepareKeeps(e, e.batchCount, batch);
      if batch.Sent? {
        EmitRestKeeps(EmitAndPrepare(e, e.batchCount, batch), true, wrap, credit);
      }
    }
  }

  lemma ClearWrap(e: Ep)
    requires EpInv(e) && e.batchCount == 0 && e.sendProducer == e.metaPos + BATCH_HEADER_SIZE
    ensures EpInv(e.(wrapPending := false))
  {
  }

  /** The two boundary assertions of `emit_batch`: the write stays in either ring. */
  lemma EmitStaysInRing(e: Ep, remoteSize: nat)
    requires EpInv(e) && e.remoteSize == Some(remoteSize)
    ensures At(e, e.flushStart) + (e.sendProducer - e.flushStart) <= |e.sendRing|
    ensures e.flushStart == e.metaPos
    ensures Offset(e.flushStart, remoteSize) + (e.sendProducer - e.flushStart) <= remoteSize
  {
  }
}
