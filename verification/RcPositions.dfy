/** Where the two sides of an RC connection stand, and how much credit the receiver returns. */
module RcPositions {
  import opened Prelude
  import opened RingPos
  import opened DcEncoding
  import opened RcEndpointSpec
  import opened RcReserve
  import opened RcCredit

  /** A wrap that is nothing but its metadata, at the very end of the ring. */
  predicate HeaderOnly(w: Wire) {
    w.wrap && w.delta == FLOW_METADATA_SIZE
  }

  function Deltas(w: seq<Wire>): nat {
    if w == [] then 0 else w[0].delta + Deltas(w[1..])
  }

  /** The ring credit on its way. */
  function Returns(w: seq<Wire>): nat {
    if w == [] then 0 else w[0].creditReturn + Returns(w[1..])
  }

  lemma {:induction false} TotalsConcat(s: seq<Wire>, t: seq<Wire>)
    ensures Deltas(s + t) == Deltas(s) + Deltas(t) && Returns(s + t) == Returns(s) + Returns(t)
  {
    if s == [] {
      assert s + t == t;
    } else {
      assert (s + t)[1..] == s[1..] + t;
      TotalsConcat(s[1..], t);
    }
  }

  /** What a batch sent from position `pos` occupies. */
  predicate WireOk(w: Wire, pos: nat, size: nat)
    requires size > 0
  {
    && pos % ALIGNMENT == 0
    && w.delta == if w.wrap then size - Offset(pos, size) else FLOW_METADATA_SIZE + ItemsSize(w.items)
  }

  predicate Chained(w: seq<Wire>, pos: nat, size: nat)
    requires size > 0
    decreases |w|
  {
    w == [] || (WireOk(w[0], pos, size) && Chained(w[1..], pos + w[0].delta, size))
  }

  lemma {:induction false} ChainedConcat(s: seq<Wire>, t: seq<Wire>, pos: nat, size: nat)
    requires size > 0 && Chained(s, pos, size) && Chained(t, pos + Deltas(s), size)
    ensures Chained(s + t, pos, size)
    decreases |s|
  {
    if s == [] {
      assert s + t == t;
    } else {
      assert (s + t)[1..] == s[1..] + t;
      ChainedConcat(s[1..], t, pos + s[0].delta, size);
    }
  }

  // The sender.

  /** The open batch is its metadata and its messages; after a failed wrap it fills the ring cycle. */
  predicate OpenSized(e: Ep) {
    || e.producer == e.metaPos + FLOW_METADATA_SIZE + ItemsSize(e.open)
    || (e.batchCount == 0 && e.sendSize > 0 && e.producer == e.metaPos + (e.sendSize - Offset(e.metaPos, e.sendSize)))
  }

  /** The sender has become `e'` by sending `wires`; `lost` credit was due in a submission that failed. */
  predicate Sends(e: Ep, e': Ep, wires: seq<Wire>, lost: nat) {
    && e.sendSize > 0 && e'.sendSize == e.sendSize && e'.recvSize == e.recvSize && e'.remoteSize == e.remoteSize
    && Chained(wires, e.flushStart, e.sendSize) && e.flushStart + Deltas(wires) == e'.flushStart
    && OpenSized(e') && e.lastNotified + Returns(wires) + lost == e'.lastNotified
    && e'.recvProducer == e.recvProducer && e'.lastRecv == e.lastRecv && e'.remoteConsumer == e.remoteConsumer
  }

  lemma SendsTwice(e: Ep, e1: Ep, e2: Ep, w1: seq<Wire>, w2: seq<Wire>, l1: nat, l2: nat)
    requires Sends(e, e1, w1, l1) && Sends(e1, e2, w2, l2)
    ensures Sends(e, e2, w1 + w2, l1 + l2)
  {
    TotalsConcat(w1, w2);
    ChainedConcat(w1, w2, e.flushStart, e.sendSize);
  }

  /** The credit that the next batch returns. */
  function Due(e: Ep): nat {
    SaturatingSub(e.lastRecv, e.lastNotified)
  }

  function FlushForfeit(e: Ep, sent: bool): nat {
    if e.batchCount > 0 && !sent then Due(e) else 0
  }

  lemma FlushSends(e: Ep, sent: bool)
    requires EpInv(e) && OpenSized(e)
    ensures var o := Flush(e, sent);
            Sends(e, o.ep, o.wires, FlushForfeit(e, sent))
  {
    var o := Flush(e, sent);
    assert |o.wires| == 1 ==> o.wires[1..] == [];
  }

  lemma EmitWrapSends(e: Ep, sent: bool)
    requires EpInv(e) && e.batchCount == 0
    ensures var o := EmitWrap(e, sent);
            Sends(e, o.ep, o.wires, if sent then 0 else Due(e))
  {
    var o := EmitWrap(e, sent);
    assert |o.wires| == 1 ==> o.wires[1..] == [];
  }

  /** Only the first submission on the way to a wrap carries credit. */
  function RoomForfeit(e: Ep, size: nat, sent: bool, wrapSent: bool): nat
    requires e.sendSize > 0
  {
    if HasRoom(e, size) || (if e.batchCount > 0 then sent else wrapSent) then 0 else Due(e)
  }

  lemma HandleWrapSends(e: Ep, size: nat, sent: bool, wrapSent: bool)
    requires EpInv(e) && OpenSized(e)
    ensures var o := HandleWrap(e, size, sent, wrapSent);
            Sends(e, o.ep, o.wires, RoomForfeit(e, size, sent, wrapSent))
  {
    if !HasRoom(e, size) {
      FlushSends(e, sent);
      EmitOpenKeeps(e, sent);
      var o1 := Flush(e, sent);
      if o1.ok {
        EmitWrapSends(o1.ep, wrapSent);
        var o2 := EmitWrap(o1.ep, wrapSent);
        SendsTwice(e, o1.ep, o2.ep, o1.wires, o2.wires, 0, if wrapSent then 0 else Due(o1.ep));
      }
    }
  }

  lemma {:induction false} ItemsAppend(items: seq<Item>, item: Item)
    ensures ItemsSize(items + [item]) == ItemsSize(items) + PaddedSize(item.len)
  {
    if items == [] {
      assert items + [item] == [item] && [item][1..] == [];
    } else {
      assert (items + [item])[1..] == items[1..] + [item];
      ItemsAppend(items[1..], item);
    }
  }

  lemma PaddedModulo(len: nat)
    ensures PaddedSize(len % U32) == PaddedSize(len)
  {
  }

  /** A message goes behind what the open batch holds, if that does not fill the cycle. */
  lemma AppendSends(e: Ep, o: Out, item: Item, size: nat, lost: nat)
    requires Sends(e, o.ep, o.wires, lost) && EpInv(o.ep) && size == PaddedSize(item.len)
    requires HasRoom(o.ep, 0) || o.ep.producer == o.ep.metaPos + FLOW_METADATA_SIZE
    ensures Sends(e, Append(o.ep, item, size), o.wires, lost)
  {
    ItemsAppend(o.ep.open, item);
  }

  /** When there has been room, or a wrap has made some, a message can be appended. */
  lemma RoomMade(e: Ep, size: nat, sent: bool, wrapSent: bool)
    requires EpInv(e)
    ensures var o := HandleWrap(e, size, sent, wrapSent);
            o.ok ==> HasRoom(o.ep, 0) || o.ep.producer == o.ep.metaPos + FLOW_METADATA_SIZE
  {
    HandleWrapEffect(e, size, sent, wrapSent);
  }

  lemma WriteRequestSends(e: Ep, o: Out, len: nat, allowance: nat, flush: bool, lost: nat)
    requires EpInv(o.ep) && o.ep.remoteSize.Some? && o.ep.balance >= allowance && Sends(e, o.ep, o.wires, lost)
    requires HasRoom(o.ep, 0) || o.ep.producer == o.ep.metaPos + FLOW_METADATA_SIZE
    ensures var r := WriteRequest(o, len, allowance, flush).0;
            Sends(e, r.ep, r.wires, lost + if RequestFits(o.ep, PaddedSize(len)) then 0 else FlushForfeit(o.ep, flush))
  {
    if RequestFits(o.ep, PaddedSize(len)) {
      PaddedModulo(len);
      AppendSends(e, o, Request(Blocks(allowance), len % U32), PaddedSize(len), lost);
    } else {
      FlushSends(o.ep, flush);
      var f := Flush(o.ep, flush);
      SendsTwice(e, o.ep, f.ep, o.wires, f.wires, lost, FlushForfeit(o.ep, flush));
    }
  }

  /** The credit that a call loses. */
  function CallForfeit(e: Ep, len: nat, responseAllowance: nat, a: Answers): nat
    requires e.sendSize > 0
  {
    var size := PaddedSize(len);
    if e.remoteSize.None? then 0
    else if e.balance < InternalAllowance(responseAllowance) then FlushForfeit(e, a.flush)
    else if !HasRoom(e, size) then RoomForfeit(e, size, a.batch, a.wrap)
    else if RequestFits(e, size) then 0 else FlushForfeit(e, a.flush)
  }

  lemma FundedCallSends(e: Ep, len: nat, responseAllowance: nat, a: Answers)
    requires EpInv(e) && OpenSized(e) && e.remoteSize.Some? && e.balance >= InternalAllowance(responseAllowance)
    ensures var o := Call(e, len, responseAllowance, a).0;
            Sends(e, o.ep, o.wires, CallForfeit(e, len, responseAllowance, a))
  {
    var allowance, size := InternalAllowance(responseAllowance), PaddedSize(len);
    var o, lost := HandleWrap(e, size, a.batch, a.wrap), RoomForfeit(e, size, a.batch, a.wrap);
    HandleWrapKeeps(e, size, a.batch, a.wrap);
    HandleWrapEffect(e, size, a.batch, a.wrap);
    HandleWrapSends(e, size, a.batch, a.wrap);
    if o.ok {
      RoomMade(e, size, a.batch, a.wrap);
      WriteRequestSends(e, o, len, allowance, a.flush, lost);
    }
  }

  lemma CallSends(e: Ep, len: nat, responseAllowance: nat, a: Answers)
    requires EpInv(e) && OpenSized(e)
    ensures var o := Call(e, len, responseAllowance, a).0;
            Sends(e, o.ep, o.wires, CallForfeit(e, len, responseAllowance, a))
  {
    if e.remoteSize.Some? {
      if e.balance < InternalAllowance(responseAllowance) {
        FlushSends(e, a.flush);
        assert [] + Flush(e, a.flush).wires == Flush(e, a.flush).wires;
      } else {
        FundedCallSends(e, len, responseAllowance, a);
      }
    }
  }

  function ReplyForfeit(e: Ep, len: nat, a: Answers): nat
    requires e.sendSize > 0
  {
    if e.remoteSize.None? then 0 else RoomForfeit(e, PaddedSize(len), a.batch, a.wrap)
  }

  lemma WriteReplySends(e: Ep, o: Out, len: nat, reservation: nat, lost: nat)
    requires EpInv(o.ep) && Sends(e, o.ep, o.wires, lost)
    requires HasRoom(o.ep, 0) || o.ep.producer == o.ep.metaPos + FLOW_METADATA_SIZE
    ensures Sends(e, Append(o.ep, Response(len % U32), PaddedSize(len)).(reservation := reservation), o.wires, lost)
  {
    PaddedModulo(len);
    AppendSends(e, o, Response(len % U32), PaddedSize(len), lost);
  }

  /** A connected endpoint replies, behind a wrap if there is no room. */
  lemma ConnectedReplySends(e: Ep, len: nat, allowance: nat, a: Answers)
    requires EpInv(e) && OpenSized(e) && e.remoteSize.Some?
    ensures var o := Reply(e, len, allowance, a).0;
            Sends(e, o.ep, o.wires, RoomForfeit(e, PaddedSize(len), a.batch, a.wrap))
  {
    var o, lost := HandleWrap(e, PaddedSize(len), a.batch, a.wrap), RoomForfeit(e, PaddedSize(len), a.batch, a.wrap);
    assert EpInv(o.ep) by {
      HandleWrapKeeps(e, PaddedSize(len), a.batch, a.wrap);
    }
    HandleWrapSends(e, PaddedSize(len), a.batch, a.wrap);
    if o.ok {
      RoomMade(e, PaddedSize(len), a.batch, a.wrap);
      WriteReplySends(e, o, len, SaturatingSub(o.ep.reservation, allowance), lost);
    }
  }

  lemma ReplySends(e: Ep, len: nat, allowance: nat, a: Answers)
    requires EpInv(e) && OpenSized(e)
    ensures var o := Reply(e, len, allowance, a).0;
            Sends(e, o.ep, o.wires, ReplyForfeit(e, len, a))
  {
    if e.remoteSize.Some? {
      ConnectedReplySends(e, len, allowance, a);
    }
  }

  // One direction of the connection.

  /** Sender `x`, batches `w` in flight, receiver `y`, which has processed `skips` header-only wraps. */
  predicate Link(x: Ep, w: seq<Wire>, y: Ep, skips: nat) {
    && x.sendSize > 0 && y.recvSize == x.sendSize && x.remoteSize == Some(x.sendSize) && OpenSized(x)
    && y.recvProducer + Deltas(w) == x.flushStart && Chained(w, y.recvProducer, x.sendSize)
    && y.lastRecv == y.recvProducer + skips * y.recvSize
  }

  /** The credit that `x` has been given, that is on its way to it, and that `y` has lost. */
  predicate Credited(x: Ep, yx: seq<Wire>, y: Ep, lost: nat) {
    x.remoteConsumer + Returns(yx) + lost == y.lastNotified
  }

  lemma LinkSends(x: Ep, w: seq<Wire>, y: Ep, skips: nat, x': Ep, wires: seq<Wire>, lost: nat)
    requires Link(x, w, y, skips) && Sends(x, x', wires, lost)
    ensures Link(x', w + wires, y, skips)
  {
    TotalsConcat(w, wires);
    ChainedConcat(w, wires, y.recvProducer, x.sendSize);
  }

  lemma {:induction false} OffsetRings(pos: nat, k: nat, size: nat)
    requires size > 0
    ensures Offset(pos + k * size, size) == Offset(pos, size)
  {
    if k > 0 {
      assert k * size == (k - 1) * size + size;
      OffsetRings(pos, k - 1, size);
      OffsetPeriodic(pos + (k - 1) * size, size);
    }
  }

  /** A wrap takes the receiver to the end of the ring, and a header-only one a ring beyond. */
  lemma WrapSkips(pos: nat, size: nat)
    requires size > 0 && size % ALIGNMENT == 0 && pos % ALIGNMENT == 0
    ensures var after, delta := pos + FLOW_METADATA_SIZE, size - Offset(pos, size);
            && delta >= FLOW_METADATA_SIZE
            && after + (size - Offset(after, size)) == pos + delta + if delta == FLOW_METADATA_SIZE then size else 0
  {
    OffsetAligned(pos, size);
    AlignedSum(size, Offset(pos, size));
    if Offset(pos, size) + FLOW_METADATA_SIZE < size {
      OffsetAdd(pos, FLOW_METADATA_SIZE, size);
    } else {
      OffsetWraps(pos, FLOW_METADATA_SIZE, size);
    }
  }

  lemma {:induction false} AlignedRings(pos: nat, k: nat, size: nat)
    requires pos % ALIGNMENT == 0 && size % ALIGNMENT == 0
    ensures (pos + k * size) % ALIGNMENT == 0
  {
    if k > 0 {
      assert k * size == (k - 1) * size + size;
      AlignedRings(pos, k - 1, size);
      AlignedSum(pos + (k - 1) * size, size);
    }
  }

  lemma ReceiveMoves(y: Ep, w: Wire, skips: nat)
    requires y.recvSize > 0 && y.recvSize % ALIGNMENT == 0 && WireOk(w, y.recvProducer, y.recvSize)
    requires y.lastRecv == y.recvProducer + skips * y.recvSize
    ensures var y' := Receive(y, w);
            y'.lastRecv == y'.recvProducer + (if HeaderOnly(w) then skips + 1 else skips) * y.recvSize
  {
    if w.wrap {
      OffsetRings(y.recvProducer, skips, y.recvSize);
      AlignedRings(y.recvProducer, skips, y.recvSize);
      WrapSkips(y.lastRecv, y.recvSize);
      assert (skips + 1) * y.recvSize == skips * y.recvSize + y.recvSize;
    }
  }

  lemma LinkReceives(x: Ep, w: seq<Wire>, y: Ep, skips: nat)
    requires Link(x, w, y, skips) && w != [] && y.recvSize % ALIGNMENT == 0
    ensures Link(x, w[1..], Receive(y, w[0]), if HeaderOnly(w[0]) then skips + 1 else skips)
  {
    ReceiveMoves(y, w[0], skips);
  }

  // Both directions.

  /** History: header-only wraps that either side has processed, and credit it has failed to return. */
  datatype Tally = Tally(skipsA: nat, skipsB: nat, lostA: nat, lostB: nat)

  function SwapTally(t: Tally): Tally {
    Tally(t.skipsB, t.skipsA, t.lostB, t.lostA)
  }

  function Forfeit(n: Net, ev: Event): nat
    requires CanStep(n, ev)
  {
    match ev
    case CallEvent(len, responseAllowance, a) => CallForfeit(n.a.ep, len, responseAllowance, a)
    case ReplyEvent(_, len, a) => ReplyForfeit(n.a.ep, len, a)
    case FlushEvent(sent) => FlushForfeit(n.a.ep, sent)
    case ArriveEvent => 0
  }

  /** The tally after a step of `a`. */
  function Count(n: Net, ev: Event, t: Tally): Tally
    requires CanStep(n, ev)
  {
    t.(skipsA := if ev.ArriveEvent? && HeaderOnly(n.ba[0]) then t.skipsA + 1 else t.skipsA,
       lostA := t.lostA + Forfeit(n, ev))
  }

  predicate Laws(n: Net, t: Tally) {
    && EpInv(n.a.ep) && EpInv(n.b.ep)
    && Link(n.a.ep, n.ab, n.b.ep, t.skipsB) && Credited(n.a.ep, n.ba, n.b.ep, t.lostB)
    && Link(n.b.ep, n.ba, n.a.ep, t.skipsA) && Credited(n.b.ep, n.ab, n.a.ep, t.lostA)
  }

  lemma SendKeepsLaws(n: Net, t: Tally, e: Ep, handles: seq<nat>, wires: seq<Wire>, lost: nat)
    requires Laws(n, t) && EpInv(e) && Sends(n.a.ep, e, wires, lost)
    ensures Laws(n.(a := Peer(e, handles), ab := n.ab + wires), t.(lostA := t.lostA + lost))
  {
    LinkSends(n.a.ep, n.ab, n.b.ep, t.skipsB, e, wires, lost);
    TotalsConcat(n.ab, wires);
  }

  lemma ArriveKeepsLaws(n: Net, t: Tally)
    requires Laws(n, t) && n.ba != []
    ensures Laws(Step(n, ArriveEvent), Count(n, ArriveEvent, t))
  {
    LinkReceives(n.b.ep, n.ba, n.a.ep, t.skipsA);
  }

  lemma StepKeepsLaws(n: Net, ev: Event, t: Tally)
    requires Laws(n, t) && CanStep(n, ev)
    ensures Laws(Step(n, ev), Count(n, ev, t))
  {
    var e := n.a.ep;
    match ev
    case CallEvent(len, responseAllowance, a) =>
      CallKeeps(e, len, responseAllowance, a);
      CallSends(e, len, responseAllowance, a);
      var o := Call(e, len, responseAllowance, a).0;
      SendKeepsLaws(n, t, o.ep, n.a.handles, o.wires, CallForfeit(e, len, responseAllowance, a));
    case ReplyEvent(i, len, a) =>
      ReplyKeeps(e, len, n.a.handles[i], a);
      ReplySends(e, len, n.a.handles[i], a);
      var (o, r) := Reply(e, len, n.a.handles[i], a);
      SendKeepsLaws(n, t, o.ep, Step(n, ev).a.handles, o.wires, ReplyForfeit(e, len, a));
    case FlushEvent(sent) =>
      EmitOpenKeeps(e, sent);
      FlushSends(e, sent);
      var o := Flush(e, sent);
      SendKeepsLaws(n, t, o.ep, n.a.handles, o.wires, FlushForfeit(e, sent));
    case ArriveEvent => ArriveKeepsLaws(n, t);
  }

  // Runs between rings of the same sizes.

  predicate EqualRings(x: Ep, y: Ep) {
    x.sendSize == y.recvSize && y.sendSize == x.recvSize
  }

  function CountMove(n: Net, move: (bool, Event), t: Tally): Tally
    requires CanMove(n, move)
  {
    if move.0 then SwapTally(Count(Swap(n), move.1, SwapTally(t))) else Count(n, move.1, t)
  }

  /** The history up to `k`. */
  function TallyAt(x: Ep, y: Ep, run: seq<Net>, moves: seq<(bool, Event)>, k: nat): Tally
    requires IsRun(x, y, run, moves) && k < |run|
    decreases k
  {
    if k == 0 then Tally(0, 0, 0, 0) else CountMove(run[k - 1], moves[k - 1], TallyAt(x, y, run, moves, k - 1))
  }

  lemma MoveKeepsLaws(n: Net, move: (bool, Event), t: Tally)
    requires Laws(n, t) && CanMove(n, move)
    ensures Laws(Move(n, move), CountMove(n, move, t))
  {
    if move.0 {
      StepKeepsLaws(Swap(n), move.1, SwapTally(t));
    } else {
      StepKeepsLaws(n, move.1, t);
    }
  }

  lemma {:induction false} RunLaws(x: Ep, y: Ep, run: seq<Net>, moves: seq<(bool, Event)>, k: nat)
    requires IsRun(x, y, run, moves) && EqualRings(x, y) && k < |run|
    ensures Laws(run[k], TallyAt(x, y, run, moves, k))
  {
    if k > 0 {
      RunLaws(x, y, run, moves, k - 1);
      MoveKeepsLaws(run[k - 1], moves[k - 1], TallyAt(x, y, run, moves, k - 1));
    }
  }

  /** One direction, in full. */
  predicate PositionLaw(x: Ep, xy: seq<Wire>, y: Ep, yx: seq<Wire>, skips: nat, lost: nat) {
    && y.recvProducer + Deltas(xy) == x.flushStart
    && y.lastRecv == y.recvProducer + skips * y.recvSize
    && x.remoteConsumer + Returns(yx) + lost == y.lastNotified <= y.lastRecv
  }

  /**
   * Position and credit law of RC, in every state of every run. What has been processed and what
   * is in flight add up to what was sent; the receiver counts a ring too much for every header-only
   * wrap it has processed; and what it has returned is what its peer has been given, with the
   * credit in flight and the credit lost.
   */
  lemma PositionLaws(x: Ep, y: Ep, run: seq<Net>, moves: seq<(bool, Event)>, k: nat)
    requires IsRun(x, y, run, moves) && EqualRings(x, y) && k < |run|
    ensures var n, t := run[k], TallyAt(x, y, run, moves, k);
            && PositionLaw(n.a.ep, n.ab, n.b.ep, n.ba, t.skipsB, t.lostB)
            && PositionLaw(n.b.ep, n.ba, n.a.ep, n.ab, t.skipsA, t.lostA)
  {
    RunLaws(x, y, run, moves, k);
  }

  /**
   * What `a` has in flight by the credit it was given, and what `b` has really yet to process,
   * differ by a ring for every header-only wrap and by the credit that has not come back.
   */
  lemma SpaceLaw(x: Ep, y: Ep, run: seq<Net>, moves: seq<(bool, Event)>, k: nat)
    requires IsRun(x, y, run, moves) && EqualRings(x, y) && k < |run|
    ensures var n, t := run[k], TallyAt(x, y, run, moves, k);
            (n.a.ep.producer - n.b.ep.recvProducer) + (Due(n.b.ep) + Returns(n.ba) + t.lostB)
            == (n.a.ep.producer - n.a.ep.remoteConsumer) + t.skipsB * n.b.ep.recvSize
  {
    RunLaws(x, y, run, moves, k);
  }

  /**
   * The receiver counts as processed, and will return, more than it has been sent exactly if it
   * has processed a header-only wrap. Otherwise the sender has been given credit for nothing
   * that is not processed.
   */
  lemma OverReturnedExactly(x: Ep, y: Ep, run: seq<Net>, moves: seq<(bool, Event)>, k: nat)
    requires IsRun(x, y, run, moves) && EqualRings(x, y) && k < |run|
    ensures var n, t := run[k], TallyAt(x, y, run, moves, k);
            && (n.b.ep.lastRecv > n.b.ep.recvProducer <==> t.skipsB > 0)
            && (t.skipsB == 0 ==> n.a.ep.remoteConsumer <= n.b.ep.recvProducer <= n.a.ep.flushStart)
  {
    RunLaws(x, y, run, moves, k);
    var t := TallyAt(x, y, run, moves, k);
    RingsPositive(t.skipsB, run[k].b.ep.recvSize);
  }

  lemma RingsPositive(skips: nat, size: nat)
    requires size > 0
    ensures skips * size > 0 <==> skips > 0
  {
  }
}
