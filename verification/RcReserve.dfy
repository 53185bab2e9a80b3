/** The room that an RC endpoint keeps in the remote ring for responses: when it is there. */
module RcReserve {
  import opened Prelude
  import opened RingPos
  import opened DcEncoding
  import opened RcEndpointSpec

  function InFlight(e: Ep): nat {
    SaturatingSub(e.producer, e.remoteConsumer)
  }

  /** What is in flight up to `producer`, and `reservation` twice, fit the remote ring. */
  predicate Fits(e: Ep, producer: nat, reservation: nat) {
    e.remoteSize.Some? && SaturatingSub(producer, e.remoteConsumer) + 2 * reservation <= e.remoteSize.value
  }

  predicate HasReserve(e: Ep) {
    Fits(e, e.producer, e.reservation)
  }

  // What an operation does to producer and reservation, told from the state before it.

  /** The message fits the ring cycle of the open batch. */
  predicate HasRoom(e: Ep, size: nat)
    requires e.sendSize > 0
  {
    Offset(e.metaPos, e.sendSize) + (e.producer - e.metaPos) + size < e.sendSize
  }

  /** A message for which there is no room leads to a wrap, unless the open batch cannot be sent. */
  predicate Wraps(e: Ep, size: nat, batchSent: bool)
    requires e.sendSize > 0
  {
    !HasRoom(e, size) && (e.batchCount == 0 || batchSent)
  }

  /** Where a wrap starts: behind the open batch, or at its placeholder if it is empty. */
  function WrapStart(e: Ep): nat {
    if e.batchCount > 0 then e.producer else e.metaPos
  }

  function WrapEnd(e: Ep): nat
    requires e.sendSize > 0
  {
    WrapStart(e) + (e.sendSize - Offset(WrapStart(e), e.sendSize))
  }

  /** The reservation after the grant of the open batch, if there is one. */
  function BatchReservation(e: Ep): nat {
    e.reservation + if e.batchCount > 0 then CreditGrant(e) else 0
  }

  /** The grant of a wrap, behind that of the open batch. */
  function WrapGrant(e: Ep): nat {
    CreditGrant(e.(producer := WrapStart(e), reservation := BatchReservation(e)))
  }

  /** The reservation after both. */
  function WrapReservation(e: Ep): nat {
    BatchReservation(e) + WrapGrant(e)
  }

  /** The wrap of a batch without messages. */
  lemma EmitWrapEffect(e: Ep, sent: bool)
    requires EpInv(e) && e.batchCount == 0
    ensures var o := EmitWrap(e, sent);
            && o.ok == sent && o.ep.batchCount == 0 && o.ep.reservation == WrapReservation(e)
            && o.ep.metaPos == (if sent then WrapEnd(e) else WrapStart(e))
            && o.ep.producer == WrapEnd(e) + (if sent then FLOW_METADATA_SIZE else 0)
            && o.ep.remoteSize == e.remoteSize && o.ep.remoteConsumer == e.remoteConsumer
            && o.ep.sendSize == e.sendSize && o.ep.balance == e.balance
  {
  }

  /** Sending the open batch first leads to the same wrap. */
  lemma WrapBehindBatch(e: Ep)
    requires EpInv(e) && e.batchCount > 0
    ensures var e1 := EmitOpen(e, true).ep;
            && e1.batchCount == 0 && e1.sendSize == e.sendSize && WrapStart(e1) == WrapStart(e)
            && WrapReservation(e1) == WrapReservation(e)
            && e1.remoteSize == e.remoteSize && e1.remoteConsumer == e.remoteConsumer && e1.balance == e.balance
  {
  }

  lemma HandleWrapEffect(e: Ep, size: nat, sent: bool, wrapSent: bool)
    requires EpInv(e)
    ensures var o := HandleWrap(e, size, sent, wrapSent);
            && o.ep.remoteSize == e.remoteSize && o.ep.remoteConsumer == e.remoteConsumer
            && o.ep.sendSize == e.sendSize && o.ep.balance == e.balance
            && (HasRoom(e, size) ==> o.ok && o.ep == e)
            && (!HasRoom(e, size) && !Wraps(e, size, sent) ==> !o.ok && o.ep == EmitOpen(e, false).ep)
            && (Wraps(e, size, sent) ==>
                  && o.ok == wrapSent && o.ep.batchCount == 0 && o.ep.reservation == WrapReservation(e)
                  && o.ep.metaPos == (if wrapSent then WrapEnd(e) else WrapStart(e))
                  && o.ep.producer == WrapEnd(e) + (if wrapSent then FLOW_METADATA_SIZE else 0))
  {
    EmitOpenKeeps(e, sent);
    if e.batchCount > 0 {
      WrapBehindBatch(e);
    }
    var e1 := Flush(e, sent).ep;
    if e1.batchCount == 0 {
      EmitWrapEffect(e1, wrapSent);
    }
  }

  /** A failed submission leaves the reserve as it was: it grants only what there is room for. */
  lemma FailedBatchExactly(e: Ep)
    requires EpInv(e)
    ensures HasReserve(EmitOpen(e, false).ep) <==> HasReserve(e)
  {
  }

  // Exactly when the reserve is there after each operation.

  /** The next placeholder still fits, with the grant that the batch makes. */
  predicate FlushFits(e: Ep, sent: bool) {
    if e.batchCount > 0 && sent then Fits(e, e.producer + FLOW_METADATA_SIZE, e.reservation + CreditGrant(e))
    else HasReserve(e)
  }

  lemma FlushReserveExactly(e: Ep, sent: bool)
    requires EpInv(e)
    ensures HasReserve(Flush(e, sent).ep) <==> FlushFits(e, sent)
  {
    FailedBatchExactly(e);
  }

  /** What a call leaves behind: a request that fits, a flush, a failed batch, or a wrap. */
  predicate CallFits(e: Ep, len: nat, responseAllowance: nat, a: Answers)
    requires e.sendSize > 0
  {
    var size := PaddedSize(len);
    if e.balance < InternalAllowance(responseAllowance) then FlushFits(e, a.flush)
    else if HasRoom(e, size) then RequestFits(e, size) || FlushFits(e, a.flush)
    else if !Wraps(e, size, a.batch) then HasReserve(e)
    else Fits(e, WrapEnd(e) + (if a.wrap then FLOW_METADATA_SIZE else 0), WrapReservation(e))
  }

  /** The check that `call` makes. */
  predicate RequestFits(e: Ep, size: nat) {
    e.remoteSize.Some? && InFlight(e) + size + 2 * e.reservation <= e.remoteSize.value
  }

  /** With room in the cycle, a call is refused exactly if the request does not fit. */
  lemma WriteRequestReserve(o: Out, len: nat, allowance: nat, flush: bool)
    requires EpInv(o.ep) && o.ep.remoteSize.Some? && o.ep.balance >= allowance
    ensures var (o', r) := WriteRequest(o, len, allowance, flush);
            && (r.Called? <==> RequestFits(o.ep, PaddedSize(len)))
            && (HasReserve(o'.ep) <==> RequestFits(o.ep, PaddedSize(len)) || FlushFits(o.ep, flush))
  {
    FlushReserveExactly(o.ep, flush);
  }

  /** With room in the cycle. */
  lemma RoomyCallReserve(e: Ep, len: nat, responseAllowance: nat, a: Answers)
    requires EpInv(e) && e.remoteSize.Some? && e.balance >= InternalAllowance(responseAllowance)
    requires HasRoom(e, PaddedSize(len))
    ensures HasReserve(Call(e, len, responseAllowance, a).0.ep) <==> CallFits(e, len, responseAllowance, a)
  {
    WriteRequestReserve(Out(e, [], true), len, InternalAllowance(responseAllowance), a.flush);
  }

  /** Behind a wrap: a request that fits leaves the reserve, and so does the wrap alone if it fits. */
  lemma WrappingCallReserve(e: Ep, len: nat, responseAllowance: nat, a: Answers)
    requires EpInv(e) && e.remoteSize.Some? && e.balance >= InternalAllowance(responseAllowance)
    requires Wraps(e, PaddedSize(len), a.batch)
    ensures HasReserve(Call(e, len, responseAllowance, a).0.ep) <==> CallFits(e, len, responseAllowance, a)
  {
    var allowance, size := InternalAllowance(responseAllowance), PaddedSize(len);
    HandleWrapKeeps(e, size, a.batch, a.wrap);
    HandleWrapEffect(e, size, a.batch, a.wrap);
    if a.wrap {
      WriteRequestReserve(HandleWrap(e, size, a.batch, a.wrap), len, allowance, a.flush);
    }
  }

  lemma FundedCallReserve(e: Ep, len: nat, responseAllowance: nat, a: Answers)
    requires EpInv(e) && e.remoteSize.Some? && e.balance >= InternalAllowance(responseAllowance)
    ensures HasReserve(Call(e, len, responseAllowance, a).0.ep) <==> CallFits(e, len, responseAllowance, a)
  {
    if HasRoom(e, PaddedSize(len)) {
      RoomyCallReserve(e, len, responseAllowance, a);
    } else if Wraps(e, PaddedSize(len), a.batch) {
      WrappingCallReserve(e, len, responseAllowance, a);
    } else {
      HandleWrapEffect(e, PaddedSize(len), a.batch, a.wrap);
      FailedBatchExactly(e);
    }
  }

  lemma CallReserveExactly(e: Ep, len: nat, responseAllowance: nat, a: Answers)
    requires EpInv(e) && e.remoteSize.Some?
    ensures HasReserve(Call(e, len, responseAllowance, a).0.ep) <==> CallFits(e, len, responseAllowance, a)
  {
    if e.balance >= InternalAllowance(responseAllowance) {
      FundedCallReserve(e, len, responseAllowance, a);
    } else {
      FlushReserveExactly(e, a.flush);
    }
  }

  /** A call that succeeds leaves the reserve, whatever came before it. */
  lemma CalledHasReserve(e: Ep, len: nat, responseAllowance: nat, a: Answers)
    requires EpInv(e) && Call(e, len, responseAllowance, a).1.Called?
    ensures HasReserve(Call(e, len, responseAllowance, a).0.ep)
  {
    var allowance, size := InternalAllowance(responseAllowance), PaddedSize(len);
    HandleWrapKeeps(e, size, a.batch, a.wrap);
    HandleWrapEffect(e, size, a.batch, a.wrap);
    WriteRequestReserve(HandleWrap(e, size, a.batch, a.wrap), len, allowance, a.flush);
  }

  /** Where a reply leaves the producer, and with what reservation. */
  function ReplyEnd(e: Ep, len: nat, a: Answers): nat
    requires e.sendSize > 0
  {
    var size := PaddedSize(len);
    if HasRoom(e, size) then e.producer + size
    else if !Wraps(e, size, a.batch) then e.producer
    else WrapEnd(e) + (if a.wrap then FLOW_METADATA_SIZE + size else 0)
  }

  function ReplyReservation(e: Ep, len: nat, allowance: nat, a: Answers): nat
    requires e.sendSize > 0
  {
    var size := PaddedSize(len);
    if HasRoom(e, size) then SaturatingSub(e.reservation, allowance)
    else if !Wraps(e, size, a.batch) then e.reservation + CreditGrant(e)
    else if a.wrap then SaturatingSub(WrapReservation(e), allowance)
    else WrapReservation(e)
  }

  lemma ReplyEffect(e: Ep, len: nat, allowance: nat, a: Answers)
    requires EpInv(e) && e.remoteSize.Some?
    ensures var e' := Reply(e, len, allowance, a).0.ep;
            && e'.remoteSize == e.remoteSize && e'.remoteConsumer == e.remoteConsumer
            && e'.producer == ReplyEnd(e, len, a) && e'.reservation == ReplyReservation(e, len, allowance, a)
  {
    HandleWrapEffect(e, PaddedSize(len), a.batch, a.wrap);
  }

  /** The reserve after a reply, and whether the reply itself has found space in the remote ring. */
  lemma ReplyReserveExactly(e: Ep, len: nat, allowance: nat, a: Answers)
    requires EpInv(e) && e.remoteSize.Some?
    ensures var e' := Reply(e, len, allowance, a).0.ep;
            && (HasReserve(e') <==> Fits(e, ReplyEnd(e, len, a), ReplyReservation(e, len, allowance, a)))
            && (InFlight(e') <= e.remoteSize.value <==> Fits(e, ReplyEnd(e, len, a), 0))
  {
    ReplyEffect(e, len, allowance, a);
  }

  // How the reserve gets lost.

  /**
   * By a flush. A request that fits exactly leaves no room for the placeholder of the next batch:
   * on rings of 256 bytes, a first call with 84 bytes and the flush behind it.
   */
  lemma FlushBreaksReserve(credit: nat)
    requires credit >= InternalAllowance(0)
    ensures var e := Connect(Fresh(64, 256, 256), 256, credit);
            && EpInv(e)
            && var (o, r) := Call(e, 84, 0, Answers(true, true, true));
            && r.Called? && EpInv(o.ep) && HasReserve(o.ep)
            && var f := Flush(o.ep, true);
            && f.ok && InFlight(f.ep) == 160 && f.ep.reservation == 64 && !HasReserve(f.ep)
  {
    OffsetSmall(0, 256);
    assert PaddedSize(84) == 96;
  }

  /**
   * By a call that is refused, since `call` wraps before it checks for room: right after connecting,
   * a request that does not fit one ring cycle leaves more than a ring in flight.
   */
  lemma RefusedCallBreaksReserve(
    size: nat, configMax: nat, credit: nat, len: nat, responseAllowance: nat, a: Answers)
    requires size > 0 && size % ALIGNMENT == 0 && PaddedSize(len) + FLOW_METADATA_SIZE >= size
    requires InternalAllowance(responseAllowance) <= credit && a.wrap
    ensures var e := Connect(Fresh(configMax, size, size), size, credit);
            && EpInv(e) && (size >= 64 ==> HasReserve(e))
            && var (o, r) := Call(e, len, responseAllowance, a);
            && r.RingFull? && InFlight(o.ep) == size + FLOW_METADATA_SIZE && !HasReserve(o.ep)
  {
    var e := Connect(Fresh(configMax, size, size), size, credit);
    OffsetSmall(0, size);
    HandleWrapKeeps(e, PaddedSize(len), a.batch, a.wrap);
  }

  // What a reply can rely on.

  /**
   * The reserve is short of at most the placeholder of an empty batch. The peer has returned no
   * more than it was sent, and the open batch lies within its ring cycle.
   */
  predicate Snug(e: Ep) {
    && e.sendSize > 0 && e.remoteSize == Some(e.sendSize) && e.remoteConsumer <= e.metaPos <= e.producer
    && (e.batchCount == 0 ==> e.producer == e.metaPos + FLOW_METADATA_SIZE)
    && (e.batchCount > 0 ==> Offset(e.metaPos, e.sendSize) + (e.producer - e.metaPos) < e.sendSize)
    && (e.producer - e.remoteConsumer) + 2 * e.reservation
       <= e.sendSize + (if e.batchCount == 0 then FLOW_METADATA_SIZE else 0)
  }

  lemma FlushSnug(e: Ep, sent: bool)
    requires EpInv(e) && Snug(e)
    ensures Snug(Flush(e, sent).ep)
  {
  }

  /** A wrap skips no more than the message for which there was no room. */
  lemma WrapEndNear(e: Ep, size: nat)
    requires EpInv(e) && Snug(e) && !HasRoom(e, size)
    ensures WrapStart(e) + FLOW_METADATA_SIZE <= WrapEnd(e) <= e.producer + size
  {
    OffsetAligned(WrapStart(e), e.sendSize);
    AlignedSum(e.sendSize, Offset(WrapStart(e), e.sendSize));
    if e.batchCount > 0 {
      OffsetAdd(e.metaPos, e.producer - e.metaPos, e.sendSize);
    }
  }

  /** The grants on the way to a wrap stay within what is in flight where it starts. */
  lemma WrapGrantsFit(e: Ep)
    requires EpInv(e) && Snug(e)
    ensures (WrapStart(e) - e.remoteConsumer) + 2 * WrapReservation(e) <= e.sendSize
    ensures WrapReservation(e) >= e.reservation
  {
  }

  /** The bytes that a wrap skips fit beside what is in flight and the reservation. */
  predicate SkipFits(e: Ep)
    requires e.sendSize > 0
  {
    (WrapEnd(e) - e.remoteConsumer) + 2 * WrapReservation(e) <= e.sendSize
  }

  /**
   * The one thing that a call must not do: wrap without room for the wrap. A wrap that fails must
   * have been a bare header, which leaves everything in place.
   */
  predicate CallTame(e: Ep, len: nat, responseAllowance: nat, a: Answers)
    requires e.sendSize > 0
  {
    e.balance >= InternalAllowance(responseAllowance) && Wraps(e, PaddedSize(len), a.batch) ==>
      if a.wrap then SkipFits(e) else WrapEnd(e) == WrapStart(e) + FLOW_METADATA_SIZE
  }

  lemma WriteRequestSnug(o: Out, len: nat, allowance: nat, flush: bool)
    requires EpInv(o.ep) && Snug(o.ep) && o.ep.balance >= allowance
    requires HasRoom(o.ep, PaddedSize(len)) || (o.ep.batchCount == 0 && Offset(o.ep.metaPos, o.ep.sendSize) == 0)
    requires o.ep.batchCount == 0 && !HasRoom(o.ep, PaddedSize(len)) ==> o.ep.remoteConsumer < o.ep.metaPos
    ensures Snug(WriteRequest(o, len, allowance, flush).0.ep)
  {
    FlushSnug(o.ep, flush);
  }

  /** A call that does not wrap keeps the reserve. */
  lemma CallInCycleSnug(e: Ep, len: nat, responseAllowance: nat, a: Answers)
    requires EpInv(e) && Snug(e)
    requires e.balance < InternalAllowance(responseAllowance) || !Wraps(e, PaddedSize(len), a.batch)
    ensures Snug(Call(e, len, responseAllowance, a).0.ep)
  {
    var allowance, size := InternalAllowance(responseAllowance), PaddedSize(len);
    FlushSnug(e, a.flush);
    FlushSnug(e, false);
    if e.balance >= allowance {
      HandleWrapEffect(e, size, a.batch, a.wrap);
      if HasRoom(e, size) {
        WriteRequestSnug(HandleWrap(e, size, a.batch, a.wrap), len, allowance, a.flush);
      }
    }
  }

  /** Behind a wrap: the request is written only if it fits, and then so does the wrap. */
  lemma WrappedRequestSnug(e: Ep, o: Out, len: nat, allowance: nat, flush: bool)
    requires EpInv(e) && Snug(e) && !HasRoom(e, PaddedSize(len)) && EpInv(o.ep) && o.ep.balance >= allowance
    requires o.ep.remoteSize == e.remoteSize && o.ep.remoteConsumer == e.remoteConsumer && o.ep.sendSize == e.sendSize
    requires o.ep.batchCount == 0 && o.ep.reservation == WrapReservation(e) && o.ep.metaPos == WrapEnd(e)
    requires o.ep.producer == WrapEnd(e) + FLOW_METADATA_SIZE
    ensures Snug(WriteRequest(o, len, allowance, flush).0.ep) <==> SkipFits(e)
  {
    WrapEndNear(e, PaddedSize(len));
    OffsetWraps(WrapStart(e), WrapEnd(e) - WrapStart(e), e.sendSize);
    if SkipFits(e) {
      WriteRequestSnug(o, len, allowance, flush);
    } else {
      WriteRequestReserve(o, len, allowance, flush);
    }
  }

  lemma CallWrapSnug(e: Ep, len: nat, responseAllowance: nat, a: Answers)
    requires EpInv(e) && Snug(e)
    requires e.balance >= InternalAllowance(responseAllowance) && Wraps(e, PaddedSize(len), a.batch)
    ensures Snug(Call(e, len, responseAllowance, a).0.ep) <==> CallTame(e, len, responseAllowance, a)
  {
    var allowance, size := InternalAllowance(responseAllowance), PaddedSize(len);
    HandleWrapKeeps(e, size, a.batch, a.wrap);
    HandleWrapEffect(e, size, a.batch, a.wrap);
    WrapGrantsFit(e);
    var o := HandleWrap(e, size, a.batch, a.wrap);
    if a.wrap {
      WrappedRequestSnug(e, o, len, allowance, a.flush);
    }
  }

  /** Exactly the tame calls keep the reserve that replies rely on. */
  lemma CallSnugExactly(e: Ep, len: nat, responseAllowance: nat, a: Answers)
    requires EpInv(e) && Snug(e)
    ensures Snug(Call(e, len, responseAllowance, a).0.ep) <==> CallTame(e, len, responseAllowance, a)
  {
    if e.balance < InternalAllowance(responseAllowance) || !Wraps(e, PaddedSize(len), a.batch) {
      CallInCycleSnug(e, len, responseAllowance, a);
    } else {
      CallWrapSnug(e, len, responseAllowance, a);
    }
  }

  /** A reply stays within the allowance of its request. */
  predicate WithinAllowance(len: nat, allowance: nat) {
    PaddedSize(len) + FLOW_METADATA_SIZE <= allowance
  }

  /** A response no longer than the caller allowed does. */
  lemma AllowedIsWithin(len: nat, responseAllowance: nat)
    requires len % U32 <= responseAllowance % U32
    ensures WithinAllowance(len, InternalAllowance(responseAllowance))
  {
  }

  lemma ReplyInCycleSnug(e: Ep, len: nat, allowance: nat, a: Answers)
    requires EpInv(e) && Snug(e) && allowance <= e.reservation && WithinAllowance(len, allowance)
    requires !Wraps(e, PaddedSize(len), a.batch)
    ensures var e' := Reply(e, len, allowance, a).0.ep;
            Snug(e') && InFlight(e') <= e.sendSize
  {
    FlushSnug(e, false);
    HandleWrapEffect(e, PaddedSize(len), a.batch, a.wrap);
  }

  predicate ReplyTame(e: Ep, len: nat, a: Answers)
    requires e.sendSize > 0
  {
    Wraps(e, PaddedSize(len), a.batch) ==> a.wrap || WrapEnd(e) == WrapStart(e) + FLOW_METADATA_SIZE
  }

  /** A wrap that fails leaves the gap up to the end of the cycle, if there is one. */
  lemma ReplyFailedWrapSnug(e: Ep, len: nat, allowance: nat, a: Answers)
    requires EpInv(e) && Snug(e) && allowance <= e.reservation && WithinAllowance(len, allowance)
    requires Wraps(e, PaddedSize(len), a.batch) && !a.wrap
    ensures var e' := Reply(e, len, allowance, a).0.ep;
            (Snug(e') <==> ReplyTame(e, len, a)) && InFlight(e') <= e.sendSize
  {
    ReplyEffect(e, len, allowance, a);
    HandleWrapEffect(e, PaddedSize(len), a.batch, false);
    WrapEndNear(e, PaddedSize(len));
    WrapGrantsFit(e);
  }

  lemma ReplyWrapSnug(e: Ep, len: nat, allowance: nat, a: Answers)
    requires EpInv(e) && Snug(e) && allowance <= e.reservation && WithinAllowance(len, allowance)
    requires Wraps(e, PaddedSize(len), a.batch) && a.wrap
    ensures var e' := Reply(e, len, allowance, a).0.ep;
            Snug(e') && InFlight(e') <= e.sendSize
  {
    HandleWrapEffect(e, PaddedSize(len), a.batch, true);
    WrapEndNear(e, PaddedSize(len));
    WrapGrantsFit(e);
    WrapEndOffset(e);
  }

  lemma WrapEndOffset(e: Ep)
    requires e.sendSize > 0
    ensures Offset(WrapEnd(e), e.sendSize) == 0
  {
    OffsetWraps(WrapStart(e), WrapEnd(e) - WrapStart(e), e.sendSize);
  }

  /**
   * A reply within the allowance of a request that the reservation covers has space in the remote
   * ring, wrap included; and it keeps the reserve for the replies behind it exactly if its wrap, if
   * it needs one, does not fail.
   */
  lemma ReplySnugExactly(e: Ep, len: nat, allowance: nat, a: Answers)
    requires EpInv(e) && Snug(e) && allowance <= e.reservation && WithinAllowance(len, allowance)
    ensures var e' := Reply(e, len, allowance, a).0.ep;
            (Snug(e') <==> ReplyTame(e, len, a)) && InFlight(e') <= e.sendSize
  {
    if Wraps(e, PaddedSize(len), a.batch) {
      if a.wrap {
        ReplyWrapSnug(e, len, allowance, a);
      } else {
        ReplyFailedWrapSnug(e, len, allowance, a);
      }
    } else {
      ReplyInCycleSnug(e, len, allowance, a);
    }
  }
}
