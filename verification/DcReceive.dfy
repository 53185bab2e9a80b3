/** Processing of one arrived batch by a DC endpoint. */
module DcReceive {
  import opened Prelude
  import opened RingPos
  import opened DcEncoding
  import opened DcBatch
  import opened DcEndpointSpec

  /** A request on the receive stack refers to its data in the receive ring. */
  datatype RecvMessage = RecvMessage(callId: nat, dataOffset: nat, dataLen: nat)

  /**
   * What arrives for the application: calls still pending, responses handed to the callback,
   * requests pushed on the receive stack. `decoded` is history: all messages in order.
   */
  datatype Inbox = Inbox(
    pending: map<nat, UserData>, responses: seq<(UserData, Bytes)>, requests: seq<RecvMessage>, decoded: seq<Msg>)

  predicate ReadableMsg(ring: Bytes, pos: nat) {
    && |ring| > 0
    && Offset(pos, |ring|) + DC_HEADER_SIZE <= |ring|
    && var off := Offset(pos, |ring|);
    && off + DC_HEADER_SIZE + DecodeHeader(ring[off..off + DC_HEADER_SIZE]).1 <= |ring|
  }

  function ReadMsg(ring: Bytes, pos: nat): Msg
    requires ReadableMsg(ring, pos)
  {
    var off := Offset(pos, |ring|);
    var (callId, len) := DecodeHeader(ring[off..off + DC_HEADER_SIZE]);
    Msg(callId, ring[off + DC_HEADER_SIZE..off + DC_HEADER_SIZE + len])
  }

  /** One message, whose header stands at `off`, reaches the callback or the receive stack. */
  function Deliver(inbox: Inbox, m: Msg, off: nat): Inbox {
    var decoded := inbox.decoded + [m];
    if IsResponse(m.callId) then
      var key := FromResponseId(m.callId);
      if key in inbox.pending then
        inbox.(pending := inbox.pending - {key},
               responses := inbox.responses + [(inbox.pending[key], m.payload)], decoded := decoded)
      else
        inbox.(decoded := decoded)
    else
      inbox.(requests := inbox.requests + [RecvMessage(m.callId, off + DC_HEADER_SIZE, |m.payload|)],
             decoded := decoded)
  }

  /** `count` messages from `pos` on, if they all lie in the ring. */
  function ReceiveLoop(ring: Bytes, pos: nat, count: nat, inbox: Inbox): Option<(nat, Inbox)>
    decreases count
  {
    if count == 0 then Some((pos, inbox))
    else if !ReadableMsg(ring, pos) then None
    else
      var m := ReadMsg(ring, pos);
      ReceiveLoop(ring, pos + MsgSize(m), count - 1, Deliver(inbox, m, Offset(pos, |ring|)))
  }

  function ReadBatchHeader(e: Ep): BatchHeader
    requires |e.recvRing| > 0 && Offset(e.lastRecv, |e.recvRing|) + BATCH_HEADER_SIZE <= |e.recvRing|
  {
    var off := Offset(e.lastRecv, |e.recvRing|);
    DecodeBatchHeader(e.recvRing[off..off + BATCH_HEADER_SIZE])
  }

  predicate Receivable(e: Ep, inbox: Inbox) {
    && |e.recvRing| > 0 && Offset(e.lastRecv, |e.recvRing|) + BATCH_HEADER_SIZE <= |e.recvRing|
    && var h := ReadBatchHeader(e);
    && (h.messageCount == WRAP_MESSAGE_COUNT ==> h.delta >= BATCH_HEADER_SIZE)
    && (h.messageCount != WRAP_MESSAGE_COUNT ==>
          HasMessages(TakeHeader(e, h), h.messageCount, inbox))
  }

  /** The header's positions and credit. */
  function TakeHeader(e: Ep, h: BatchHeader): Ep {
    e.(recvProducer := e.recvProducer + h.delta,
       remoteConsumer := e.remoteConsumer + h.creditReturn,
       lastRecv := e.lastRecv + BATCH_HEADER_SIZE)
  }

  /** The messages behind the header. */
  predicate HasMessages(e: Ep, count: nat, inbox: Inbox) {
    ReceiveLoop(e.recvRing, e.lastRecv, count, inbox.(pending := e.pending)).Some?
  }

  function TakeMessages(e: Ep, count: nat, inbox: Inbox): (Ep, Inbox)
    requires HasMessages(e, count, inbox)
  {
    var (pos, inbox') := ReceiveLoop(e.recvRing, e.lastRecv, count, inbox.(pending := e.pending)).value;
    (e.(lastRecv := pos, pending := inbox'.pending), inbox')
  }

  /** `process_cqe_static`: everything is read from the receive ring at the last position. */
  function Receive(e: Ep, inbox: Inbox): (Ep, Inbox)
    requires Receivable(e, inbox)
  {
    var h := ReadBatchHeader(e);
    var e1 := TakeHeader(e, h);
    if h.messageCount == WRAP_MESSAGE_COUNT then
      (e1.(lastRecv := e1.lastRecv + (h.delta - BATCH_HEADER_SIZE)), inbox)
    else
      TakeMessages(e1, h.messageCount, inbox)
  }

  // Decoding inverts encoding.

  lemma ReadMsgAt(ring: Bytes, pos: nat, m: Msg)
    requires |ring| > 0 && MsgAt(ring, Offset(pos, |ring|), m)
    ensures ReadableMsg(ring, pos) && ReadMsg(ring, pos) == m
  {
    var off, len := Offset(pos, |ring|), |m.payload|;
    var b := ring[off..off + DC_HEADER_SIZE + len];
    SliceOfSlice(ring, off, off + DC_HEADER_SIZE + len, 0, DC_HEADER_SIZE);
    SliceOfSlice(ring, off, off + DC_HEADER_SIZE + len, DC_HEADER_SIZE, DC_HEADER_SIZE + len);
    assert b[..DC_HEADER_SIZE] == EncodeHeader(m.callId, len);
    assert b[DC_HEADER_SIZE..DC_HEADER_SIZE + len] == m.payload;
    HeaderRoundTrip(m.callId, len);
  }

  /** The messages of a layout, delivered one after the other. */
  function DeliverAll(inbox: Inbox, off: nat, msgs: seq<Msg>): Inbox
    decreases |msgs|
  {
    if msgs == [] then inbox
    else DeliverAll(Deliver(inbox, msgs[0], off), off + MsgSize(msgs[0]), msgs[1..])
  }

  /** The offset of the message after `m`, if there is one before the end of the ring. */
  lemma NextOffset(ring: Bytes, pos: nat, off: nat, m: Msg, rest: seq<Msg>)
    requires |ring| > 0 && Offset(pos, |ring|) == off && off + MsgSize(m) + MsgsSize(rest) <= |ring|
    ensures rest == [] || Offset(pos + MsgSize(m), |ring|) == off + MsgSize(m)
  {
    if rest != [] {
      OffsetAdd(pos, MsgSize(m), |ring|);
    }
  }

  lemma {:induction false} ReceiveLayout(ring: Bytes, pos: nat, off: nat, msgs: seq<Msg>, inbox: Inbox)
    requires |ring| > 0 && (msgs == [] || Offset(pos, |ring|) == off)
    requires Layout(ring, off, msgs) && off + MsgsSize(msgs) <= |ring|
    ensures ReceiveLoop(ring, pos, |msgs|, inbox) == Some((pos + MsgsSize(msgs), DeliverAll(inbox, off, msgs)))
    decreases |msgs|
  {
    if msgs != [] {
      var m, rest := msgs[0], msgs[1..];
      ReadMsgAt(ring, pos, m);
      NextOffset(ring, pos, off, m, rest);
      ReceiveLayout(ring, pos + MsgSize(m), off + MsgSize(m), rest, Deliver(inbox, m, off));
    }
  }

  lemma {:induction false} DeliverAllDecodes(inbox: Inbox, off: nat, msgs: seq<Msg>)
    ensures DeliverAll(inbox, off, msgs).decoded == inbox.decoded + msgs
    decreases |msgs|
  {
    if msgs != [] {
      DeliverAllDecodes(Deliver(inbox, msgs[0], off), off + MsgSize(msgs[0]), msgs[1..]);
      assert inbox.decoded + msgs == (inbox.decoded + [msgs[0]]) + msgs[1..];
    }
  }

  /** A request on the receive stack refers to the payload of `m` in the ring. */
  predicate RefersTo(ring: Bytes, r: RecvMessage, m: Msg) {
    && r.callId == m.callId && r.dataOffset + r.dataLen <= |ring|
    && ring[r.dataOffset..r.dataOffset + r.dataLen] == m.payload
  }

  function RequestsOf(msgs: seq<Msg>): seq<Msg> {
    if msgs == [] then [] else (if IsResponse(msgs[0].callId) then [] else [msgs[0]]) + RequestsOf(msgs[1..])
  }

  /** `more` are the requests that delivering `msgs` pushes, each with the payload of its message. */
  predicate Pushes(ring: Bytes, more: seq<RecvMessage>, msgs: seq<Msg>) {
    |more| == |RequestsOf(msgs)| && forall i :: 0 <= i < |more| ==> RefersTo(ring, more[i], RequestsOf(msgs)[i])
  }

  /** The data that they refer to lies between two offsets of the ring. */
  predicate PushedWithin(more: seq<RecvMessage>, first: nat, end: nat) {
    forall i :: 0 <= i < |more| ==> first <= more[i].dataOffset && more[i].dataOffset + more[i].dataLen <= end
  }

  lemma MessageRefers(ring: Bytes, off: nat, m: Msg)
    requires MsgAt(ring, off, m)
    ensures RefersTo(ring, RecvMessage(m.callId, off + DC_HEADER_SIZE, |m.payload|), m)
  {
    var len := DC_HEADER_SIZE + |m.payload|;
    SliceOfSlice(ring, off, off + len, DC_HEADER_SIZE, len);
    assert EncodeMsg(m)[DC_HEADER_SIZE..len] == m.payload;
  }

  /** What the message at `off` pushes. */
  function PushedBy(m: Msg, off: nat): seq<RecvMessage> {
    if IsResponse(m.callId) then [] else [RecvMessage(m.callId, off + DC_HEADER_SIZE, |m.payload|)]
  }

  function Pushed(msgs: seq<Msg>, off: nat): seq<RecvMessage>
    decreases |msgs|
  {
    if msgs == [] then [] else PushedBy(msgs[0], off) + Pushed(msgs[1..], off + MsgSize(msgs[0]))
  }

  lemma DeliverPushes(inbox: Inbox, m: Msg, off: nat)
    ensures Deliver(inbox, m, off).requests == inbox.requests + PushedBy(m, off)
  {
  }

  lemma {:induction false} DeliverAllPushes(inbox: Inbox, off: nat, msgs: seq<Msg>)
    ensures DeliverAll(inbox, off, msgs).requests == inbox.requests + Pushed(msgs, off)
    decreases |msgs|
  {
    if msgs != [] {
      var rest := Pushed(msgs[1..], off + MsgSize(msgs[0]));
      DeliverPushes(inbox, msgs[0], off);
      DeliverAllPushes(Deliver(inbox, msgs[0], off), off + MsgSize(msgs[0]), msgs[1..]);
      assert (inbox.requests + PushedBy(msgs[0], off)) + rest == inbox.requests + (PushedBy(msgs[0], off) + rest);
    }
  }

  lemma PushesFirst(ring: Bytes, off: nat, msgs: seq<Msg>, more: seq<RecvMessage>)
    requires msgs != [] && MsgAt(ring, off, msgs[0]) && Pushes(ring, more, msgs[1..])
    ensures Pushes(ring, PushedBy(msgs[0], off) + more, msgs)
  {
    MessageRefers(ring, off, msgs[0]);
    if IsResponse(msgs[0].callId) {
      assert PushedBy(msgs[0], off) + more == more && RequestsOf(msgs) == RequestsOf(msgs[1..]);
    } else {
      assert RequestsOf(msgs) == [msgs[0]] + RequestsOf(msgs[1..]);
    }
  }

  lemma {:induction false} PushedRefers(ring: Bytes, off: nat, msgs: seq<Msg>)
    requires Layout(ring, off, msgs)
    ensures Pushes(ring, Pushed(msgs, off), msgs) && PushedWithin(Pushed(msgs, off), off, off + MsgsSize(msgs))
    decreases |msgs|
  {
    if msgs != [] {
      var rest := Pushed(msgs[1..], off + MsgSize(msgs[0]));
      PushedRefers(ring, off + MsgSize(msgs[0]), msgs[1..]);
      PushesFirst(ring, off, msgs, rest);
    }
  }

  /** Batch `b` stands intact at the receiver's position. */
  predicate Stands(e: Ep, b: Batch) {
    && |e.recvRing| > 0 && BatchOk(b)
    && Offset(e.lastRecv, |e.recvRing|) + |b.bytes| <= |e.recvRing|
    && e.recvRing[Offset(e.lastRecv, |e.recvRing|)..Offset(e.lastRecv, |e.recvRing|) + |b.bytes|] == b.bytes
  }

  function AfterBatch(e: Ep, b: Batch, pending: map<nat, UserData>): Ep {
    e.(recvProducer := e.recvProducer + |b.bytes|,
       remoteConsumer := e.remoteConsumer + b.header.creditReturn,
       lastRecv := e.lastRecv + |b.bytes|,
       pending := pending)
  }

  lemma StandingHeader(e: Ep, b: Batch)
    requires Stands(e, b)
    ensures ReadBatchHeader(e) == b.header
  {
    var off := Offset(e.lastRecv, |e.recvRing|);
    SliceOfSlice(e.recvRing, off, off + |b.bytes|, 0, BATCH_HEADER_SIZE);
    BatchHeaderRoundTrip(b.header);
  }

  lemma StandingMessages(e: Ep, b: Batch, inbox: Inbox)
    requires Stands(e, b) && !IsWrap(b)
    ensures var off := Offset(e.lastRecv, |e.recvRing|);
            ReceiveLoop(e.recvRing, e.lastRecv + BATCH_HEADER_SIZE, |b.msgs|, inbox)
            == Some((e.lastRecv + |b.bytes|, DeliverAll(inbox, off + BATCH_HEADER_SIZE, b.msgs)))
  {
    var size, off := |e.recvRing|, Offset(e.lastRecv, |e.recvRing|);
    if b.msgs != [] {
      OffsetAdd(e.lastRecv, BATCH_HEADER_SIZE, size);
    }
    StandingLayout(e, b);
    ReceiveLayout(e.recvRing, e.lastRecv + BATCH_HEADER_SIZE, off + BATCH_HEADER_SIZE, b.msgs, inbox);
  }

  lemma ReceiveWrap(e: Ep, b: Batch, inbox: Inbox)
    requires Stands(e, b) && IsWrap(b)
    ensures Receivable(e, inbox) && Receive(e, inbox) == (AfterBatch(e, b, e.pending), inbox)
  {
    StandingHeader(e, b);
    var h := b.header;
    assert ReadBatchHeader(e) == h && h.messageCount == WRAP_MESSAGE_COUNT && h.delta == |b.bytes|;
  }

  /** What the application sees of the messages of `b`. */
  function Opened(e: Ep, b: Batch, inbox: Inbox): Inbox
    requires |e.recvRing| > 0
  {
    if IsWrap(b) then inbox
    else DeliverAll(inbox.(pending := e.pending), Offset(e.lastRecv, |e.recvRing|) + BATCH_HEADER_SIZE, b.msgs)
  }

  /** Header and messages together take the receiver to the end of the batch. */
  lemma TakenIsAfter(e: Ep, b: Batch, pending: map<nat, UserData>)
    requires BatchOk(b)
    ensures TakeHeader(e, b.header).(lastRecv := e.lastRecv + |b.bytes|, pending := pending)
            == AfterBatch(e, b, pending)
  {
  }

  lemma TakeStandingMessages(e: Ep, b: Batch, inbox: Inbox)
    requires Stands(e, b) && !IsWrap(b)
    ensures HasMessages(TakeHeader(e, b.header), b.header.messageCount, inbox)
    ensures TakeMessages(TakeHeader(e, b.header), b.header.messageCount, inbox)
         == (AfterBatch(e, b, Opened(e, b, inbox).pending), Opened(e, b, inbox))
  {
    var e1, inbox1 := TakeHeader(e, b.header), Opened(e, b, inbox);
    StandingMessages(e, b, inbox.(pending := e.pending));
    assert ReceiveLoop(e1.recvRing, e1.lastRecv, b.header.messageCount, inbox.(pending := e1.pending))
        == Some((e.lastRecv + |b.bytes|, inbox1));
    TakenIsAfter(e, b, inbox1.pending);
  }

  lemma ReceiveMessages(e: Ep, b: Batch, inbox: Inbox)
    requires Stands(e, b) && !IsWrap(b)
    ensures Receivable(e, inbox)
    ensures Receive(e, inbox) == (AfterBatch(e, b, Opened(e, b, inbox).pending), Opened(e, b, inbox))
  {
    StandingHeader(e, b);
    TakeStandingMessages(e, b, inbox);
  }

  /**
   * Processing an intact batch moves both positions to its end, takes in its credit, and
   * decodes exactly its messages; a wrap batch, also one that is only a header, decodes nothing.
   */
  lemma ReceiveIntactBatch(e: Ep, b: Batch, inbox: Inbox)
    requires Stands(e, b)
    ensures Receivable(e, inbox)
    ensures Receive(e, inbox).0 == AfterBatch(e, b, Receive(e, inbox).0.pending)
    ensures Receive(e, inbox).1 == Opened(e, b, inbox)
    ensures Receive(e, inbox).1.decoded == inbox.decoded + b.msgs
  {
    if IsWrap(b) {
      ReceiveWrap(e, b, inbox);
    } else {
      ReceiveMessages(e, b, inbox);
      DeliverAllDecodes(inbox.(pending := e.pending), Offset(e.lastRecv, |e.recvRing|) + BATCH_HEADER_SIZE, b.msgs);
    }
  }

  /** Where the messages of `b` stand in the ring. */
  lemma StandingLayout(e: Ep, b: Batch)
    requires Stands(e, b) && !IsWrap(b)
    ensures Layout(e.recvRing, Offset(e.lastRecv, |e.recvRing|) + BATCH_HEADER_SIZE, b.msgs)
  {
    assert b.bytes[0..|b.bytes|] == b.bytes;
    LayoutMoves(b.bytes, e.recvRing, 0, Offset(e.lastRecv, |e.recvRing|), |b.bytes|, BATCH_HEADER_SIZE, b.msgs);
  }

  /**
   * Every request of an intact batch goes on the receive stack, with its payload in the part of
   * the ring that the batch takes.
   */
  lemma RequestsArePushed(e: Ep, b: Batch, inbox: Inbox) returns (more: seq<RecvMessage>)
    requires Stands(e, b)
    ensures Receivable(e, inbox)
    ensures Receive(e, inbox).1.requests == inbox.requests + more && Pushes(e.recvRing, more, b.msgs)
    ensures PushedWithin(more, Offset(e.lastRecv, |e.recvRing|), Offset(e.lastRecv, |e.recvRing|) + |b.bytes|)
  {
    more := [];
    if IsWrap(b) {
      ReceiveWrap(e, b, inbox);
    } else {
      var first := Offset(e.lastRecv, |e.recvRing|) + BATCH_HEADER_SIZE;
      more := Pushed(b.msgs, first);
      ReceiveMessages(e, b, inbox);
      StandingLayout(e, b);
      PushedRefers(e.recvRing, first, b.msgs);
      DeliverAllPushes(inbox.(pending := e.pending), first, b.msgs);
    }
  }
}
