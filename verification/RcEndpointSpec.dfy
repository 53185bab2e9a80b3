/**
 * The RC transport, whose callers may only ask for responses that the callee has promised room
 * for. Batches are modelled by the fields of their flow metadata and of their message headers.
 */
module RcEndpointSpec {
  import opened Prelude
  import opened RingPos
  import opened DcEncoding

  const RC_HEADER_SIZE: nat := 12
  const FLOW_METADATA_SIZE: nat := 32

  /** Sizes are 32-bit words, padded to the alignment. */
  function PaddedSize(len: nat): (r: nat)
    ensures r % ALIGNMENT == 0 && r >= RC_HEADER_SIZE + len % U32
  {
    (RC_HEADER_SIZE + len % U32 + ALIGNMENT - 1) / ALIGNMENT * ALIGNMENT
  }

  /** What a call sets aside for its response: the padded message and one batch header. */
  function InternalAllowance(responseAllowance: nat): (r: nat)
    ensures r % ALIGNMENT == 0 && r > 0
  {
    (PaddedSize(responseAllowance) + FLOW_METADATA_SIZE + ALIGNMENT - 1) / ALIGNMENT * ALIGNMENT
  }

  /** The header field of a request counts the allowance in blocks. */
  function Blocks(allowance: nat): nat {
    allowance / ALIGNMENT % U32
  }

  lemma BlocksRoundTrip(responseAllowance: nat)
    ensures Blocks(InternalAllowance(responseAllowance)) * ALIGNMENT == InternalAllowance(responseAllowance)
  {
  }

  datatype Item = Request(blocks: nat, len: nat) | Response(len: nat)

  /** A batch on the wire. */
  datatype Wire = Wire(delta: nat, creditReturn: nat, grant: nat, wrap: bool, items: seq<Item>)

  /** `open` is history: the messages of the open batch. `lost` is history: grants never sent. */
  datatype Ep = Ep(
    maxReservation: nat, sendSize: nat, recvSize: nat, remoteSize: Option<nat>,
    producer: nat, flushStart: nat, metaPos: nat, batchCount: nat,
    recvProducer: nat, lastRecv: nat, lastNotified: nat, remoteConsumer: nat,
    reservation: nat, balance: nat,
    open: seq<Item>, lost: nat)

  predicate EpInv(e: Ep) {
    && e.sendSize > 0 && e.recvSize > 0 && e.sendSize % ALIGNMENT == 0
    && e.metaPos % ALIGNMENT == 0 && e.producer % ALIGNMENT == 0
    && e.flushStart == e.metaPos && e.metaPos + FLOW_METADATA_SIZE <= e.producer
    && |e.open| == e.batchCount && e.lastNotified <= e.lastRecv
    && e.reservation <= e.maxReservation
  }

  // Before and at connection.

  function Fresh(configMax: nat, sendSize: nat, recvSize: nat): Ep {
    Ep(Min(configMax, sendSize / 4), sendSize, recvSize, None, 0, 0, 0, 0, 0, 0, 0, 0, 0, 0, [], 0)
  }

  /** The credit that `local_info` announces to the remote side. */
  function AnnouncedCredit(e: Ep): nat {
    Min(e.maxReservation, e.sendSize / 4)
  }

  function PrepareNextBatch(e: Ep): Ep {
    e.(metaPos := e.producer, batchCount := 0, open := [], producer := e.producer + FLOW_METADATA_SIZE)
  }

  function Connect(e: Ep, remoteSize: nat, remoteCredit: nat): Ep {
    PrepareNextBatch(e.(remoteSize := Some(remoteSize),
                        reservation := Min(e.maxReservation, remoteSize / 4),
                        balance := remoteCredit))
  }

  // Granting and emitting.

  function Grant(remoteSize: Option<nat>, inFlight: nat, reservation: nat, maxReservation: nat): (g: nat)
    ensures g > 0 ==> remoteSize.Some? && inFlight + 2 * (reservation + g) <= remoteSize.value
    ensures reservation <= maxReservation ==> reservation + g <= maxReservation
    ensures g % ALIGNMENT == 0
  {
    if remoteSize.None? then 0
    else
      var byInvariant := SaturatingSub(SaturatingSub(remoteSize.value, inFlight) / 2, reservation);
      var byPolicy := SaturatingSub(maxReservation, reservation);
      Min(byInvariant, byPolicy) / ALIGNMENT * ALIGNMENT
  }

  /** The grant of a batch keeps twice the reservation free, within the policy limit. */
  function CreditGrant(e: Ep): (g: nat)
    ensures g > 0 ==> e.remoteSize.Some?
                      && SaturatingSub(e.producer, e.remoteConsumer) + 2 * (e.reservation + g) <= e.remoteSize.value
    ensures e.reservation <= e.maxReservation ==> e.reservation + g <= e.maxReservation
    ensures g % ALIGNMENT == 0
  {
    Grant(e.remoteSize, SaturatingSub(e.producer, e.remoteConsumer), e.reservation, e.maxReservation)
  }

  /** The metadata of a batch takes in the grant, whether or not the batch then gets sent. */
  function Fill(e: Ep): Ep {
    e.(lastNotified := e.lastRecv, reservation := e.reservation + CreditGrant(e))
  }

  /** An endpoint after a step, the batches it has sent, and whether its submissions succeeded. */
  datatype Out = Out(ep: Ep, wires: seq<Wire>, ok: bool)

  /** The open batch is handed to the card; `sent` is the card's answer. */
  function EmitOpen(e: Ep, sent: bool): Out
    requires EpInv(e)
  {
    var grant, e1 := CreditGrant(e), Fill(e);
    if sent then
      Out(PrepareNextBatch(e1.(flushStart := e.producer)),
          [Wire(e.producer - e.flushStart, e.lastRecv - e.lastNotified, grant, false, e.open)], true)
    else Out(e1.(lost := e.lost + grant), [], false)
  }

  lemma EmitOpenKeeps(e: Ep, sent: bool)
    requires EpInv(e)
    ensures EpInv(EmitOpen(e, sent).ep)
  {
    AlignedSum(e.producer, FLOW_METADATA_SIZE);
  }

  function Flush(e: Ep, sent: bool): Out
    requires EpInv(e)
  {
    if e.batchCount == 0 then Out(e, [], true) else EmitOpen(e, sent)
  }

  /** The placeholder of the open batch becomes a wrap marker up to the end of the cycle. */
  function EmitWrap(e: Ep, sent: bool): Out
    requires EpInv(e)
  {
    var reclaimed := e.(producer := e.metaPos);
    var grant := CreditGrant(reclaimed);
    var end := e.metaPos + (e.sendSize - Offset(e.metaPos, e.sendSize));
    var e1 := Fill(reclaimed).(producer := end);
    if sent then
      Out(PrepareNextBatch(e1.(flushStart := end)),
          [Wire(end - e.flushStart, e.lastRecv - e.lastNotified, grant, true, [])], true)
    else Out(e1.(lost := e.lost + grant), [], false)
  }

  /** The end of the ring cycle of `pos`, and a header behind it. */
  lemma CycleEndAligned(pos: nat, size: nat)
    requires size > 0 && pos % ALIGNMENT == 0 && size % ALIGNMENT == 0
    ensures var end := pos + (size - Offset(pos, size));
            && end % ALIGNMENT == 0 && (end + FLOW_METADATA_SIZE) % ALIGNMENT == 0 && pos + FLOW_METADATA_SIZE <= end
  {
    var off := Offset(pos, size);
    OffsetAligned(pos, size);
    AlignedSum(size, off);
    AlignedSum(pos, size - off);
  }

  lemma EmitWrapKeeps(e: Ep, sent: bool)
    requires EpInv(e) && e.batchCount == 0
    ensures EpInv(EmitWrap(e, sent).ep)
  {
    CycleEndAligned(e.metaPos, e.sendSize);
  }

  /** Makes room for `size` more bytes in the ring cycle of the open batch. */
  function HandleWrap(e: Ep, size: nat, sent: bool, wrapSent: bool): Out
    requires EpInv(e)
  {
    if Offset(e.metaPos, e.sendSize) + (e.producer - e.metaPos) + size < e.sendSize then Out(e, [], true)
    else
      EmitOpenKeeps(e, sent);
      var o1 := Flush(e, sent);
      if !o1.ok then o1
      else
        var o2 := EmitWrap(o1.ep, wrapSent);
        Out(o2.ep, o1.wires + o2.wires, o2.ok)
  }

  /** Only the reservation, not the balance, changes on the way. */
  lemma HandleWrapKeeps(e: Ep, size: nat, sent: bool, wrapSent: bool)
    requires EpInv(e)
    ensures var e' := HandleWrap(e, size, sent, wrapSent).ep;
            EpInv(e') && e'.balance == e.balance && e'.remoteSize == e.remoteSize && e'.lastRecv == e.lastRecv
            && e'.recvProducer == e.recvProducer && e'.remoteConsumer == e.remoteConsumer
  {
    EmitOpenKeeps(e, sent);
    var e1 := Flush(e, sent).ep;
    if e1.batchCount == 0 {
      EmitWrapKeeps(e1, wrapSent);
    }
  }

  function Append(e: Ep, item: Item, size: nat): Ep {
    e.(producer := e.producer + size, batchCount := e.batchCount + 1, open := e.open + [item])
  }

  /** The card's answers to the submissions that one operation may make. */
  datatype Answers = Answers(batch: bool, wrap: bool, flush: bool)

  datatype CallResult = Called | InsufficientCredit | RingFull | NotConnected | SubmitFailed

  function FlushOr(o: Out, sent: bool, r: CallResult): (Out, CallResult)
    requires EpInv(o.ep)
  {
    var f := Flush(o.ep, sent);
    (Out(f.ep, o.wires + f.wires, f.ok), if f.ok then r else SubmitFailed)
  }

  /** The second half of `call`, with room in the ring cycle: the request is written if credit allows. */
  function WriteRequest(o: Out, len: nat, allowance: nat, flush: bool): (Out, CallResult)
    requires EpInv(o.ep) && o.ep.remoteSize.Some? && o.ep.balance >= allowance
  {
    var e, size := o.ep, PaddedSize(len);
    var available := SaturatingSub(e.remoteSize.value, SaturatingSub(e.producer, e.remoteConsumer));
    if available < size + 2 * e.reservation then FlushOr(o, flush, RingFull)
    else
      var e' := Append(e, Request(Blocks(allowance), len % U32), size);
      (Out(e'.(balance := e.balance - allowance), o.wires, true), Called)
  }

  /** `call` with a request of `len` bytes that allows `responseAllowance` bytes of response. */
  function Call(e: Ep, len: nat, responseAllowance: nat, a: Answers): (Out, CallResult)
    requires EpInv(e)
  {
    var allowance := InternalAllowance(responseAllowance);
    if e.remoteSize.None? then (Out(e, [], true), NotConnected)
    else if e.balance < allowance then FlushOr(Out(e, [], true), a.flush, InsufficientCredit)
    else
      HandleWrapKeeps(e, PaddedSize(len), a.batch, a.wrap);
      var o := HandleWrap(e, PaddedSize(len), a.batch, a.wrap);
      if !o.ok then (o, SubmitFailed) else WriteRequest(o, len, allowance, a.flush)
  }

  /** `reply` with `len` bytes through a handle of the given allowance. */
  function Reply(e: Ep, len: nat, allowance: nat, a: Answers): (Out, CallResult)
    requires EpInv(e)
  {
    if e.remoteSize.None? then (Out(e, [], true), NotConnected)
    else
      var o := HandleWrap(e, PaddedSize(len), a.batch, a.wrap);
      if !o.ok then (o, SubmitFailed)
      else
        var e' := Append(o.ep, Response(len % U32), PaddedSize(len));
        (Out(e'.(reservation := SaturatingSub(o.ep.reservation, allowance)), o.wires, true), Called)
  }

  lemma WriteRequestKeeps(o: Out, len: nat, allowance: nat, flush: bool)
    requires EpInv(o.ep) && o.ep.remoteSize.Some? && o.ep.balance >= allowance
    ensures EpInv(WriteRequest(o, len, allowance, flush).0.ep)
  {
    AlignedSum(o.ep.producer, PaddedSize(len));
    EmitOpenKeeps(o.ep, flush);
  }

  lemma CallKeeps(e: Ep, len: nat, responseAllowance: nat, a: Answers)
    requires EpInv(e)
    ensures EpInv(Call(e, len, responseAllowance, a).0.ep)
  {
    var allowance := InternalAllowance(responseAllowance);
    if e.balance < allowance {
      EmitOpenKeeps(e, a.flush);
    } else if e.remoteSize.Some? {
      HandleWrapKeeps(e, PaddedSize(len), a.batch, a.wrap);
      WriteRequestKeeps(HandleWrap(e, PaddedSize(len), a.batch, a.wrap), len, allowance, a.flush);
    }
  }

  lemma ReplyKeeps(e: Ep, len: nat, allowance: nat, a: Answers)
    requires EpInv(e)
    ensures EpInv(Reply(e, len, allowance, a).0.ep)
  {
    HandleWrapKeeps(e, PaddedSize(len), a.batch, a.wrap);
    AlignedSum(HandleWrap(e, PaddedSize(len), a.batch, a.wrap).ep.producer, PaddedSize(len));
  }

  // Receiving.

  function ItemsSize(items: seq<Item>): nat {
    if items == [] then 0 else PaddedSize(items[0].len) + ItemsSize(items[1..])
  }

  /** The allowances of the requests among `items`, as their receiver decodes them. */
  function Allowances(items: seq<Item>): seq<nat> {
    if items == [] then []
    else (if items[0].Request? then [items[0].blocks * ALIGNMENT] else []) + Allowances(items[1..])
  }

  /** What a batch adds to the receive stack. */
  function Requests(w: Wire): seq<nat> {
    if w.wrap then [] else Allowances(w.items)
  }

  function Receive(e: Ep, w: Wire): Ep
    requires e.recvSize > 0
  {
    var pos := e.lastRecv + FLOW_METADATA_SIZE;
    e.(recvProducer := e.recvProducer + w.delta,
       remoteConsumer := e.remoteConsumer + w.creditReturn,
       balance := e.balance + w.grant,
       lastRecv := if w.wrap then pos + (e.recvSize - Offset(pos, e.recvSize)) else pos + ItemsSize(w.items))
  }
}
