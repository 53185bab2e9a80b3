/** The RC endpoint, updated in place. */
module RcEndpoint {
  import opened Prelude
  import opened RingPos
  import opened DcEncoding
  import opened RcEndpointSpec
  import Spec = RcEndpointSpec

  class Endpoint {
    const maxReservation: nat
    const sendSize: nat
    const recvSize: nat
    var remoteSize: Option<nat>
    var producer: nat
    var flushStart: nat
    var metaPos: nat
    var batchCount: nat
    var recvProducer: nat
    var lastRecv: nat
    var lastNotified: nat
    var remoteConsumer: nat
    var reservation: nat
    var balance: nat
    /** The messages of the open batch, which the ring holds. */
    var open: seq<Item>
    /** History: grants in submissions that failed. */
    ghost var lost: nat

    ghost function State(): Ep
      reads this
    {
      Ep(maxReservation, sendSize, recvSize, remoteSize, producer, flushStart, metaPos, batchCount,
         recvProducer, lastRecv, lastNotified, remoteConsumer, reservation, balance, open, lost)
    }

    constructor (configMax: nat, sendSize: nat, recvSize: nat)
      ensures State() == Fresh(configMax, sendSize, recvSize)
    {
      maxReservation := Min(configMax, sendSize / 4);
      this.sendSize, this.recvSize, remoteSize := sendSize, recvSize, None;
      producer, flushStart, metaPos, batchCount := 0, 0, 0, 0;
      recvProducer, lastRecv, lastNotified, remoteConsumer := 0, 0, 0, 0;
      reservation, balance, open, lost := 0, 0, [], 0;
    }

    method PrepareNextBatch()
      modifies this
      ensures State() == Spec.PrepareNextBatch(old(State()))
    {
      metaPos := producer;
      batchCount, open := 0, [];
      producer := producer + FLOW_METADATA_SIZE;
    }

    method Connect(size: nat, remoteCredit: nat)
      modifies this
      ensures State() == Spec.Connect(old(State()), size, remoteCredit)
    {
      remoteSize := Some(size);
      reservation := Min(maxReservation, size / 4);
      balance := remoteCredit;
      PrepareNextBatch();
    }

    method ComputeCreditGrant() returns (grant: nat)
      ensures grant == CreditGrant(State())
    {
      if remoteSize.None? {
        return 0;
      }
      var inFlight := SaturatingSub(producer, remoteConsumer);
      var maxByInvariant := SaturatingSub(SaturatingSub(remoteSize.value, inFlight) / 2, reservation);
      var maxByPolicy := SaturatingSub(maxReservation, reservation);
      grant := Min(maxByInvariant, maxByPolicy);
      grant := grant / ALIGNMENT * ALIGNMENT;
    }

    /** The return and the grant that go into the metadata. */
    method FillMetadata() returns (creditReturn: nat, grant: nat)
      requires lastNotified <= lastRecv
      modifies this`lastNotified, this`reservation
      ensures State() == Fill(old(State()))
      ensures creditReturn == old(lastRecv - lastNotified) && grant == CreditGrant(old(State()))
    {
      creditReturn := lastRecv - lastNotified;
      lastNotified := lastRecv;
      grant := ComputeCreditGrant();
      reservation := reservation + grant;
    }

    /** Hands the bytes from the flush position to the producer to the card. */
    method EmitRaw(creditReturn: nat, grant: nat, wrap: bool, items: seq<Item>, sent: bool) returns (wires: seq<Wire>)
      requires flushStart < producer
      modifies this`flushStart, this`lost
      ensures sent ==> flushStart == producer && lost == old(lost)
                       && wires == [Wire(producer - old(flushStart), creditReturn, grant, wrap, items)]
      ensures !sent ==> flushStart == old(flushStart) && lost == old(lost) + grant && wires == []
    {
      if sent {
        wires := [Wire(producer - flushStart, creditReturn, grant, wrap, items)];
        flushStart := producer;
      } else {
        wires, lost := [], lost + grant;
      }
    }

    method Flush(sent: bool) returns (wires: seq<Wire>, ok: bool)
      requires EpInv(State())
      modifies this
      ensures EpInv(State()) && Out(State(), wires, ok) == Spec.Flush(old(State()), sent)
    {
      EmitOpenKeeps(State(), sent);
      if batchCount == 0 {
        return [], true;
      }
      var creditReturn, grant := FillMetadata();
      wires := EmitRaw(creditReturn, grant, false, open, sent);
      if sent {
        PrepareNextBatch();
      }
      ok := sent;
    }

    method EmitWrap(sent: bool) returns (wires: seq<Wire>, ok: bool)
      requires EpInv(State()) && batchCount == 0
      modifies this
      ensures EpInv(State()) && Out(State(), wires, ok) == Spec.EmitWrap(old(State()), sent)
    {
      EmitWrapKeeps(State(), sent);
      producer := metaPos;
      var remaining := sendSize - Offset(metaPos, sendSize);
      var creditReturn, grant := FillMetadata();
      producer := metaPos + remaining;
      wires := EmitRaw(creditReturn, grant, true, [], sent);
      if sent {
        PrepareNextBatch();
      }
      ok := sent;
    }

    method HandleWrapIfNeeded(size: nat, sent: bool, wrapSent: bool) returns (wires: seq<Wire>, ok: bool)
      requires EpInv(State())
      modifies this
      ensures EpInv(State()) && Out(State(), wires, ok) == Spec.HandleWrap(old(State()), size, sent, wrapSent)
    {
      var metaOffset := Offset(metaPos, sendSize);
      var batchSpan := producer - metaPos + size;
      if metaOffset + batchSpan < sendSize {
        return [], true;
      }
      wires, ok := Flush(sent);
      if ok {
        var wrap;
        wrap, ok := EmitWrap(wrapSent);
        wires := wires + wrap;
      }
    }

    /** The second half of `call`; `before` went out in the first half. */
    method WriteRequest(len: nat, allowance: nat, flush: bool, before: seq<Wire>)
      returns (wires: seq<Wire>, ok: bool, r: CallResult)
      requires EpInv(State()) && remoteSize.Some? && balance >= allowance
      modifies this
      ensures (Out(State(), wires, ok), r) == Spec.WriteRequest(Out(old(State()), before, true), len, allowance, flush)
    {
      var available := SaturatingSub(remoteSize.value, SaturatingSub(producer, remoteConsumer));
      if available < PaddedSize(len) + 2 * reservation {
        wires, ok := Flush(flush);
        return before + wires, ok, if ok then RingFull else SubmitFailed;
      }
      open := open + [Request(Blocks(allowance), len % U32)];
      producer := producer + PaddedSize(len);
      batchCount := batchCount + 1;
      balance := balance - allowance;
      return before, true, Called;
    }

    method Call(len: nat, responseAllowance: nat, answers: Answers) returns (wires: seq<Wire>, ok: bool, r: CallResult)
      requires EpInv(State())
      modifies this
      ensures EpInv(State()) && (Out(State(), wires, ok), r) == Spec.Call(old(State()), len, responseAllowance, answers)
    {
      CallKeeps(State(), len, responseAllowance, answers);
      if remoteSize.None? {
        return [], true, NotConnected;
      }
      var allowance := InternalAllowance(responseAllowance);
      if balance < allowance {
        wires, ok := Flush(answers.flush);
        return [] + wires, ok, if ok then InsufficientCredit else SubmitFailed;
      }
      HandleWrapKeeps(State(), PaddedSize(len), answers.batch, answers.wrap);
      wires, ok := HandleWrapIfNeeded(PaddedSize(len), answers.batch, answers.wrap);
      if !ok {
        return wires, ok, SubmitFailed;
      }
      wires, ok, r := WriteRequest(len, allowance, answers.flush, wires);
    }

    method Reply(len: nat, allowance: nat, answers: Answers) returns (wires: seq<Wire>, ok: bool, r: CallResult)
      requires EpInv(State())
      modifies this
      ensures EpInv(State()) && (Out(State(), wires, ok), r) == Spec.Reply(old(State()), len, allowance, answers)
    {
      ReplyKeeps(State(), len, allowance, answers);
      if remoteSize.None? {
        return [], true, NotConnected;
      }
      wires, ok := HandleWrapIfNeeded(PaddedSize(len), answers.batch, answers.wrap);
      if !ok {
        return wires, ok, SubmitFailed;
      }
      reservation := SaturatingSub(reservation, allowance);
      open := open + [Response(len % U32)];
      producer := producer + PaddedSize(len);
      batchCount := batchCount + 1;
      return wires, true, Called;
    }

    /** Walks over the messages of a batch. */
    method ReadItems(items: seq<Item>) returns (handles: seq<nat>)
      modifies this`lastRecv
      ensures lastRecv == old(lastRecv) + ItemsSize(items) && handles == Allowances(items)
    {
      handles := [];
      var i := 0;
      while i < |items|
        invariant 0 <= i <= |items|
        invariant lastRecv + ItemsSize(items[i..]) == old(lastRecv) + ItemsSize(items)
        invariant handles + Allowances(items[i..]) == Allowances(items)
      {
        var item := items[i];
        assert items[i..][1..] == items[i + 1..];
        lastRecv := lastRecv + PaddedSize(item.len);
        if item.Request? {
          handles := handles + [item.blocks * ALIGNMENT];
        }
        i := i + 1;
      }
    }

    /** Processes an arrived batch; the result is what it adds to the receive stack. */
    method ProcessCqe(w: Wire) returns (handles: seq<nat>)
      requires recvSize > 0
      modifies this
      ensures State() == Receive(old(State()), w) && handles == Requests(w)
    {
      recvProducer := recvProducer + w.delta;
      remoteConsumer := remoteConsumer + w.creditReturn;
      balance := balance + w.grant;
      lastRecv := lastRecv + FLOW_METADATA_SIZE;
      if w.wrap {
        lastRecv := lastRecv + (recvSize - Offset(lastRecv, recvSize));
        return [];
      }
      handles := ReadItems(w.items);
    }
  }
}
