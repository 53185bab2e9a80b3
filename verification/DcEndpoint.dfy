/** The DC endpoint with its rings and counters, each operation proved against its specification. */
module DcEndpoint {
  import opened Prelude
  import opened RingPos
  import opened DcEncoding
  import opened DcBatch
  import Spec = DcEndpointSpec
  import opened DcReceive

  /** Copy into ring memory. */
  method CopyInto(dst: array<Byte>, off: nat, src: Bytes)
    requires off + |src| <= dst.Length
    modifies dst
    ensures dst[..] == WriteAt(old(dst[..]), off, src)
  {
    var i := 0;
    while i < |src|
      invariant 0 <= i <= |src|
      invariant dst[..] == WriteAt(old(dst[..]), off, src[..i])
    {
      dst[off + i] := src[i];
      i := i + 1;
      WriteAtStep(old(dst[..]), off, src, i);
    }
    assert src[..|src|] == src;
  }

  lemma WriteAtStep(ring: Bytes, off: nat, src: Bytes, i: nat)
    requires off + |src| <= |ring| && 0 < i <= |src|
    ensures WriteAt(ring, off, src[..i]) == WriteAt(ring, off, src[..i - 1])[off + i - 1 := src[i - 1]]
  {
    assert src[..i] == src[..i - 1] + [src[i - 1]];
  }

  class Endpoint {
    const sendRing: array<Byte>
    const recvRing: array<Byte>
    var remoteSize: Option<nat>
    var sendProducer: nat
    var recvProducer: nat
    var lastRecv: nat
    var lastNotified: nat
    var remoteConsumer: nat
    var pendingCalls: map<nat, Spec.UserData>
    var flushStart: nat
    var metaPos: nat
    var batchCount: nat
    var wrapPending: bool

    ghost function State(): Spec.Ep
      reads this, sendRing, recvRing
    {
      Spec.Ep(sendRing[..], recvRing[..], remoteSize, sendProducer, recvProducer, lastRecv, lastNotified,
              remoteConsumer, pendingCalls, flushStart, metaPos, batchCount, wrapPending)
    }

    ghost predicate Valid()
      reads this, sendRing, recvRing
    {
      sendRing != recvRing && Spec.EpInv(State())
    }

    /** Connected, or not yet; calls and replies are then refused. */
    ghost predicate Usable()
      reads this, sendRing, recvRing
    {
      sendRing != recvRing && Spec.Usable(State())
    }

    /** Creates an endpoint with rings of `size` bytes, not yet connected. */
    constructor (size: nat)
      ensures fresh(sendRing) && fresh(recvRing) && sendRing != recvRing
      ensures State() == Spec.Ep(Zeros(size), Zeros(size), None, 0, 0, 0, 0, 0, map[], 0, 0, 0, false)
      ensures Usable()
    {
      sendRing := new Byte[size](_ => 0);
      recvRing := new Byte[size](_ => 0);
      remoteSize := None;
      sendProducer, recvProducer, lastRecv, lastNotified, remoteConsumer := 0, 0, 0, 0, 0;
      pendingCalls := map[];
      flushStart, metaPos, batchCount, wrapPending := 0, 0, 0, false;
      new;
      assert sendRing[..] == Zeros(size) && recvRing[..] == Zeros(size);
    }

    method PrepareNextBatch()
      modifies this
      ensures State() == Spec.PrepareNextBatch(old(State()))
    {
      var producer := sendProducer;
      metaPos := producer;
      batchCount := 0;
      sendProducer := producer + BATCH_HEADER_SIZE;
    }

    /** Connects to a peer whose receive ring has `size` bytes. */
    method Connect(size: nat)
      modifies this
      ensures State() == Spec.PrepareNextBatch(old(State()).(remoteSize := Some(size), remoteConsumer := 0))
    {
      remoteSize := Some(size);
      remoteConsumer := 0;
      PrepareNextBatch();
    }

    method HasCycleRoomFor(size: nat) returns (room: bool)
      requires Valid()
      ensures room == Spec.HasCycleRoomFor(State(), size)
    {
      var ringSize := sendRing.Length;
      var metaOffset := Offset(metaPos, ringSize);
      var batchEnd := sendProducer + size - metaPos;
      room := metaOffset + batchEnd < ringSize;
    }

    /** The checks common to `call` and `reply`; a message without room asks for a wrap. */
    method TryAppend(len: nat) returns (r: Spec.AppendResult)
      requires Usable()
      modifies this
      ensures Usable() && r == Spec.TryAppend(old(State()), len)
      ensures State() == (if r.NoCycleRoom? then old(State()).(wrapPending := true) else old(State()))
    {
      if remoteSize.None? {
        return Spec.NotConnected;
      }
      var size := PaddedMessageSize(len);
      var room := HasCycleRoomFor(size);
      if !room {
        wrapPending := true;
        return Spec.NoCycleRoom;
      }
      var inFlight := if sendProducer >= remoteConsumer then sendProducer - remoteConsumer else 0;
      var reserved := inFlight + Spec.CREDIT_RETURN_RESERVE;
      var available := if remoteSize.value >= reserved then remoteSize.value - reserved else 0;
      if available < size {
        return Spec.NoCredit;
      }
      r := Spec.Appended;
    }

    /** Writes a message, for which there is room, behind the open batch. */
    method Append(callId: nat, data: Bytes)
      requires Valid() && Spec.HasCycleRoomFor(State(), PaddedMessageSize(|data|))
      modifies this, sendRing
      ensures Valid()
      ensures Spec.At(old(State()), old(sendProducer)) + DC_HEADER_SIZE + |data| <= sendRing.Length
      ensures State() == Spec.Append(old(State()), Msg(callId, data))
    {
      ghost var m := Msg(callId, data);
      Spec.AppendFits(State(), m);
      Spec.AppendKeeps(State(), m);
      var sendOffset := Offset(sendProducer, sendRing.Length);
      CopyInto(sendRing, sendOffset, EncodeHeader(callId, |data|) + data);
      sendProducer := sendProducer + PaddedMessageSize(|data|);
      batchCount := batchCount + 1;
    }

    method Call(data: Bytes, userData: Spec.UserData, key: nat) returns (r: Spec.AppendResult)
      requires Usable() && key !in pendingCalls
      modifies this, sendRing
      ensures Usable() && (old(Valid()) ==> Valid())
      ensures (State(), r) == Spec.Call(old(State()), data, userData, key)
    {
      Spec.CallKeeps(State(), data, userData, key);
      r := TryAppend(|data|);
      if r.Appended? {
        Append(key, data);
        pendingCalls := pendingCalls[key := userData];
      }
    }

    method Reply(callId: nat, data: Bytes) returns (r: Spec.AppendResult)
      requires Usable()
      modifies this, sendRing
      ensures Usable() && (old(Valid()) ==> Valid())
      ensures (State(), r) == Spec.Reply(old(State()), callId, data)
    {
      Spec.ReplyKeeps(State(), callId, data);
      r := TryAppend(|data|);
      if r.Appended? {
        Append(ToResponseId(callId), data);
      }
    }

    method PutHeader(off: nat, header: BatchHeader)
      requires sendRing != recvRing && off + BATCH_HEADER_SIZE <= sendRing.Length
      modifies sendRing
      ensures sendRing[..] == WriteAt(old(sendRing[..]), off, EncodeBatchHeader(header))
      ensures recvRing[..] == old(recvRing[..])
    {
      CopyInto(sendRing, off, EncodeBatchHeader(header));
    }

    /** Writes the header of the open batch, and counts the credit in it as returned. */
    method WriteMetadata(messageCount: nat)
      requires sendRing != recvRing && Spec.Emittable(State())
      modifies this`lastNotified, sendRing
      ensures State() == Spec.Stamp(old(State()), messageCount)
    {
      ghost var e := State();
      var delta := sendProducer - flushStart;
      var ringCreditReturn := lastRecv - lastNotified;
      lastNotified := lastRecv;
      var header := BatchHeader(delta, ringCreditReturn, messageCount);
      PutHeader(Offset(flushStart, sendRing.Length), header);
      assert header == Spec.EmitHeader(e, messageCount);
      assert sendRing[..] == WriteAt(e.sendRing, Spec.At(e, e.flushStart), EncodeBatchHeader(header));
    }

    /** Stamps the header of the open batch and hands it to the card, which answers `submit`. */
    method EmitBatch(messageCount: nat, submit: Spec.Submit) returns (start: nat, bytes: Bytes)
      requires sendRing != recvRing && Spec.Emittable(State())
      modifies this, sendRing
      ensures State() == Spec.EmitBatch(old(State()), messageCount, submit)
      ensures start == old(flushStart) && bytes == Spec.EmitBytes(old(State()), messageCount)
    {
      start := flushStart;
      var end := sendProducer;
      WriteMetadata(messageCount);
      var startOffset := Offset(start, sendRing.Length);
      bytes := sendRing[..][startOffset..startOffset + (end - start)];
      if submit.Sent? {
        flushStart := end;
      }
    }

    method EmitAndPrepare(messageCount: nat, submit: Spec.Submit) returns (start: nat, bytes: Bytes)
      requires Valid()
      modifies this, sendRing
      ensures Valid() && State() == Spec.EmitAndPrepare(old(State()), messageCount, submit)
      ensures start == old(flushStart) && bytes == Spec.EmitBytes(old(State()), messageCount)
    {
      Spec.EmitAndPrepareKeeps(State(), messageCount, submit);
      start, bytes := EmitBatch(messageCount, submit);
      if submit.Sent? {
        PrepareNextBatch();
      }
    }

    /** Takes the placeholder back and moves the producer to the end of the cycle. */
    method FillCycle()
      requires Valid()
      modifies this`sendProducer
      ensures State() == Spec.FillCycle(old(State()))
    {
      sendProducer := metaPos;
      var offset := Offset(metaPos, sendRing.Length);
      var remaining := sendRing.Length - offset;
      sendProducer := metaPos + remaining;
    }

    method EmitWrap(submit: Spec.Submit) returns (start: nat, bytes: Bytes)
      requires Valid() && wrapPending && batchCount == 0
      modifies this, sendRing
      ensures Valid() && State() == Spec.EmitWrap(old(State()), submit)
      ensures start == old(flushStart) && Spec.Emittable(Spec.FillCycle(old(State())))
      ensures bytes == Spec.EmitBytes(Spec.FillCycle(old(State())), WRAP_MESSAGE_COUNT)
    {
      Spec.WrapEmittable(State());
      Spec.EmitWrapKeeps(State(), submit);
      FillCycle();
      start, bytes := EmitBatch(WRAP_MESSAGE_COUNT, submit);
      if submit.Sent? {
        PrepareNextBatch();
      }
    }

    /** The wrap that is due, or else a credit batch. */
    method EmitRest(emitted: bool, wrap: Spec.Submit, credit: Spec.Submit)
      returns (r: Spec.FlushResult, writes: seq<(nat, Bytes)>)
      requires Valid() && batchCount == 0
      modifies this, sendRing
      ensures Valid()
      ensures (State(), r) == Spec.EmitRest(old(State()), emitted, wrap, credit)
      ensures writes == Spec.RestWrites(old(State()), emitted, wrap, credit)
    {
      Spec.EmitRestKeeps(State(), emitted, wrap, credit);
      if wrapPending {
        var start, bytes := EmitWrap(wrap);
        if wrap.Sent? {
          wrapPending := false;
          return Spec.Flushed(true), [(start, bytes)];
        }
        return if emitted then Spec.Flushed(true) else Spec.Failure(wrap), [];
      }
      if !emitted && lastRecv - lastNotified > 0 {
        var start, bytes := EmitAndPrepare(0, credit);
        if credit.Sent? {
          return Spec.Flushed(true), [(start, bytes)];
        }
        return Spec.Failure(credit), [];
      }
      return Spec.Flushed(emitted), [];
    }

    /** Flushes what is pending; returns the outcome and the writes that were submitted. */
    method EmitPending(batch: Spec.Submit, wrap: Spec.Submit, credit: Spec.Submit)
      returns (r: Spec.FlushResult, writes: seq<(nat, Bytes)>)
      requires Valid()
      modifies this, sendRing
      ensures Valid()
      ensures (State(), r) == Spec.EmitPending(old(State()), batch, wrap, credit)
      ensures writes == Spec.PendingWrites(old(State()), batch, wrap, credit)
    {
      if batchCount == 0 {
        r, writes := EmitRest(false, wrap, credit);
        return;
      }
      var start, bytes := EmitAndPrepare(batchCount, batch);
      if !batch.Sent? {
        return Spec.Failure(batch), [];
      }
      r, writes := EmitRest(true, wrap, credit);
      writes := [(start, bytes)] + writes;
    }

    method HasPendingFlush() returns (pending: bool)
      ensures pending == Spec.HasPendingFlush(State())
    {
      pending := wrapPending || batchCount > 0;
    }

    /** Decodes the message at the last received position. */
    method ReadOne() returns (m: Msg, headerOffset: nat)
      requires ReadableMsg(recvRing[..], lastRecv)
      ensures m == ReadMsg(recvRing[..], lastRecv) && headerOffset == Offset(lastRecv, recvRing.Length)
    {
      headerOffset := Offset(lastRecv, recvRing.Length);
      var dataOffset := headerOffset + DC_HEADER_SIZE;
      assert recvRing[headerOffset..dataOffset] == recvRing[..][headerOffset..dataOffset];
      var (callId, payloadLen) := DecodeHeader(recvRing[headerOffset..dataOffset]);
      m := Msg(callId, recvRing[dataOffset..dataOffset + payloadLen]);
    }

    /** Decodes one message, before `rest` others; `goal` is what all of them lead to. */
    method TakeOne(inbox: Inbox, ghost ring: Bytes, ghost rest: nat, ghost goal: Option<(nat, Inbox)>)
      returns (inbox': Inbox)
      requires recvRing[..] == ring && pendingCalls == inbox.pending
      requires goal.Some? && ReceiveLoop(ring, lastRecv, rest + 1, inbox) == goal
      modifies this`lastRecv, this`pendingCalls
      ensures ReceiveLoop(ring, lastRecv, rest, inbox') == goal
      ensures pendingCalls == inbox'.pending
    {
      var m, headerOffset := ReadOne();
      lastRecv := lastRecv + PaddedMessageSize(|m.payload|);
      inbox' := Deliver(inbox, m, headerOffset);
      pendingCalls := inbox'.pending;
    }

    /** Decodes `count` messages from the last received position on. */
    method TakeMessages(count: nat, inbox: Inbox) returns (inbox': Inbox)
      requires HasMessages(State(), count, inbox)
      modifies this`lastRecv, this`pendingCalls
      ensures (State(), inbox') == DcReceive.TakeMessages(old(State()), count, inbox)
    {
      inbox' := inbox.(pending := pendingCalls);
      ghost var ring := recvRing[..];
      ghost var goal := ReceiveLoop(ring, lastRecv, count, inbox');
      var left := count;
      while left > 0
        invariant pendingCalls == inbox'.pending
        invariant ReceiveLoop(ring, lastRecv, left, inbox') == goal
      {
        left := left - 1;
        inbox' := TakeOne(inbox', ring, left, goal);
      }
    }

    /** Processes the batch at the last received position. */
    method ProcessCqe(inbox: Inbox) returns (inbox': Inbox)
      requires Receivable(State(), inbox)
      modifies this
      ensures (State(), inbox') == Receive(old(State()), inbox)
    {
      var pos := lastRecv;
      var metaOffset := Offset(pos, recvRing.Length);
      assert recvRing[metaOffset..metaOffset + BATCH_HEADER_SIZE] ==
             State().recvRing[metaOffset..metaOffset + BATCH_HEADER_SIZE];
      var header := DecodeBatchHeader(recvRing[metaOffset..metaOffset + BATCH_HEADER_SIZE]);
      recvProducer := recvProducer + header.delta;
      remoteConsumer := remoteConsumer + header.creditReturn;
      lastRecv := pos + BATCH_HEADER_SIZE;
      assert State() == TakeHeader(old(State()), header);
      if header.messageCount == WRAP_MESSAGE_COUNT {
        lastRecv := lastRecv + (header.delta - BATCH_HEADER_SIZE);
        return inbox;
      }
      inbox' := TakeMessages(header.messageCount, inbox);
    }
  }
}
