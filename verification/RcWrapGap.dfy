/**
 * A run in which every submission succeeds and yet an RC endpoint sends more than a ring ahead of
 * its peer: the peer has returned a whole ring too much for a header-only wrap.
 */
module RcWrapGap {
  import opened Prelude
  import opened RingPos
  import opened RcEndpointSpec
  import opened RcReserve
  import opened RcCredit
  import Traces = RcTrace

  /** Rings of 256 bytes; `b` promises 64 bytes of response, `a` none. */
  const A_SIDE := Fresh(0, 256, 256)
  const B_SIDE := Fresh(64, 256, 256)

  /** The counters of an endpoint whose open batch starts at `meta` and holds `open`. */
  predicate Counters(e: Ep, producer: nat, meta: nat, open: seq<Item>, consumer: nat) {
    && e.sendSize == 256 && e.recvSize == 256 && e.remoteSize == Some(256)
    && e.producer == producer && e.metaPos == meta && e.flushStart == meta && e.open == open && e.batchCount == |open|
    && e.remoteConsumer == consumer
  }

  predicate Positions(e: Ep, recvProducer: nat, lastRecv: nat, notified: nat) {
    e.recvProducer == recvProducer && e.lastRecv == lastRecv && e.lastNotified == notified <= lastRecv
  }

  /** `a` has counted correctly throughout: what it receives has no wraps. */
  predicate IsA(e: Ep, producer: nat, meta: nat, open: seq<Item>, received: nat, notified: nat, consumer: nat,
                balance: nat) {
    && Counters(e, producer, meta, open, consumer) && Positions(e, received, received, notified)
    && e.maxReservation == 0 && e.reservation == 0 && e.balance == balance
  }

  predicate IsB(e: Ep, producer: nat, meta: nat, open: seq<Item>, recvProducer: nat, lastRecv: nat, notified: nat,
                consumer: nat, reservation: nat) {
    && Counters(e, producer, meta, open, consumer) && Positions(e, recvProducer, lastRecv, notified)
    && e.maxReservation == 64 && e.reservation == reservation && e.balance == 0
  }

  const LARGE := Request(2, 180)
  const SMALL := Request(2, 0)
  const ANSWER := Response(0)

  lemma Sizes()
    ensures PaddedSize(180) == 192 && PaddedSize(0) == 32 && InternalAllowance(0) == 64 && Blocks(64) == 2
  {
  }

  // What the operations of `a` do.

  lemma FirstCall(e: Ep)
    requires IsA(e, 32, 0, [], 0, 0, 0, 64)
    ensures EpInv(e)
    ensures var (o, r) := Call(e, 180, 0, Traces.SENT);
            IsA(o.ep, 224, 0, [LARGE], 0, 0, 0, 0) && o.wires == []
  {
    Sizes();
    OffsetSmall(0, 256);
    assert [] + [LARGE] == [LARGE];
  }

  lemma FirstFlush(e: Ep)
    requires IsA(e, 224, 0, [LARGE], 0, 0, 0, 0)
    ensures EpInv(e)
    ensures var o := Flush(e, true);
            IsA(o.ep, 256, 224, [], 0, 0, 0, 0) && o.wires == [Wire(224, 0, 0, false, [LARGE])]
  {
  }

  /** The placeholder at 224 becomes a wrap that is only its metadata. */
  lemma SmallWrap(e: Ep)
    requires IsA(e, 256, 224, [], 64, 0, 224, 64)
    ensures EpInv(e)
    ensures var o := HandleWrap(e, 32, true, true);
            o.ok && IsA(o.ep, 288, 256, [], 64, 64, 224, 64) && o.wires == [Wire(32, 64, 0, true, [])]
  {
    OffsetSmall(224, 256);
    assert [] + [Wire(32, 64, 0, true, [])] == [Wire(32, 64, 0, true, [])];
  }

  lemma SmallCall(e: Ep)
    requires IsA(e, 256, 224, [], 64, 0, 224, 64)
    ensures EpInv(e)
    ensures var (o, r) := Call(e, 0, 0, Traces.SENT);
            IsA(o.ep, 320, 256, [SMALL], 64, 64, 224, 0) && o.wires == [Wire(32, 64, 0, true, [])]
  {
    Sizes();
    SmallWrap(e);
    HandleWrapKeeps(e, 32, true, true);
    assert [] + [SMALL] == [SMALL];
  }

  lemma SmallFlush(e: Ep)
    requires IsA(e, 320, 256, [SMALL], 64, 64, 224, 0)
    ensures EpInv(e)
    ensures var o := Flush(e, true);
            IsA(o.ep, 352, 320, [], 64, 64, 224, 0) && o.wires == [Wire(64, 0, 0, false, [SMALL])]
  {
  }

  lemma LastWrap(e: Ep)
    requires IsA(e, 352, 320, [], 128, 64, 576, 64)
    ensures EpInv(e)
    ensures var o := HandleWrap(e, 192, true, true);
            o.ok && IsA(o.ep, 544, 512, [], 128, 128, 576, 64) && o.wires == [Wire(192, 64, 0, true, [])]
  {
    OffsetPeriodic(64, 256);
    OffsetSmall(64, 256);
    assert [] + [Wire(192, 64, 0, true, [])] == [Wire(192, 64, 0, true, [])];
  }

  /** `a` believes that nothing is in flight. */
  lemma LastCall(e: Ep)
    requires IsA(e, 352, 320, [], 128, 64, 576, 64)
    ensures EpInv(e)
    ensures var (o, r) := Call(e, 180, 0, Traces.SENT);
            IsA(o.ep, 736, 512, [LARGE], 128, 128, 576, 0)
  {
    Sizes();
    LastWrap(e);
    HandleWrapKeeps(e, 192, true, true);
    assert [] + [LARGE] == [LARGE];
  }

  lemma LastFlush(e: Ep)
    requires IsA(e, 736, 512, [LARGE], 128, 128, 576, 0)
    ensures EpInv(e)
    ensures IsA(Flush(e, true).ep, 768, 736, [], 128, 128, 576, 0)
  {
  }

  // What the operations of `b` do.

  lemma FirstReply(e: Ep)
    requires IsB(e, 32, 0, [], 224, 224, 0, 0, 64)
    ensures EpInv(e)
    ensures var (o, r) := Reply(e, 0, 64, Traces.SENT);
            r.Called? && IsB(o.ep, 64, 0, [ANSWER], 224, 224, 0, 0, 0) && o.wires == []
  {
    Sizes();
    OffsetSmall(0, 256);
    assert [] + [ANSWER] == [ANSWER];
  }

  lemma FirstReplyFlush(e: Ep)
    requires IsB(e, 64, 0, [ANSWER], 224, 224, 0, 0, 0)
    ensures EpInv(e)
    ensures var o := Flush(e, true);
            IsB(o.ep, 96, 64, [], 224, 224, 224, 0, 64) && o.wires == [Wire(64, 224, 64, false, [ANSWER])]
  {
  }

  lemma SecondReply(e: Ep)
    requires IsB(e, 96, 64, [], 320, 576, 224, 64, 64)
    ensures EpInv(e)
    ensures var (o, r) := Reply(e, 0, 64, Traces.SENT);
            r.Called? && IsB(o.ep, 128, 64, [ANSWER], 320, 576, 224, 64, 0) && o.wires == []
  {
    Sizes();
    OffsetSmall(64, 256);
    assert [] + [ANSWER] == [ANSWER];
  }

  lemma SecondReplyFlush(e: Ep)
    requires IsB(e, 128, 64, [ANSWER], 320, 576, 224, 64, 0)
    ensures EpInv(e)
    ensures var o := Flush(e, true);
            IsB(o.ep, 160, 128, [], 320, 576, 576, 64, 64) && o.wires == [Wire(64, 352, 64, false, [ANSWER])]
  {
  }

  // What they receive.

  lemma Received()
    ensures ItemsSize([LARGE]) == 192 && ItemsSize([SMALL]) == 32 && ItemsSize([ANSWER]) == 32
    ensures Allowances([LARGE]) == [64] && Allowances([SMALL]) == [64] && Allowances([ANSWER]) == []
  {
    Sizes();
    assert [LARGE][1..] == [] && [SMALL][1..] == [] && [ANSWER][1..] == [];
  }

  /** The wrap takes `b` from 224 to 512, where 256 was due. */
  lemma WrapArrives(e: Ep, w: Wire)
    requires IsB(e, 96, 64, [], 224, 224, 224, 0, 64) && w == Wire(32, 64, 0, true, [])
    ensures IsB(Receive(e, w), 96, 64, [], 256, 512, 224, 64, 64)
  {
    OffsetPeriodic(0, 256);
    OffsetSmall(0, 256);
  }

  // The run.

  type Trace = Traces.Trace

  /** All submissions have succeeded. */
  predicate Reaches(t: Trace, n: Net) {
    Traces.Reaches(A_SIDE, B_SIDE, t, n) && forall i :: 0 <= i < |t.moves| ==> Traces.Successful(t.moves[i].1)
  }

  lemma Extend(t: Trace, n: Net, move: (bool, Event)) returns (t': Trace, n': Net)
    requires Reaches(t, n) && CanMove(n, move) && Traces.Successful(move.1)
    ensures n' == Move(n, move) && Reaches(t', n') && |t'.moves| == |t.moves| + 1
  {
    t', n' := Traces.Extend(A_SIDE, B_SIDE, t, n, move);
  }

  /** What is on its way, and the handles that `b` holds. */
  predicate Flying(n: Net, ab: seq<Wire>, ba: seq<Wire>, handles: seq<nat>) {
    n.ab == ab && n.ba == ba && n.b.handles == handles
  }

  // Moves that send.

  lemma CallMove(t: Trace, n: Net, len: nat) returns (t': Trace, n': Net)
    requires Reaches(t, n) && EpInv(n.a.ep)
    ensures Reaches(t', n') && |t'.moves| == |t.moves| + 1
    ensures var o := Call(n.a.ep, len, 0, Traces.SENT).0;
            n' == n.(a := n.a.(ep := o.ep), ab := n.ab + o.wires)
  {
    t', n' := Extend(t, n, (false, CallEvent(len, 0, Traces.SENT)));
  }

  lemma FlushMoveA(t: Trace, n: Net) returns (t': Trace, n': Net)
    requires Reaches(t, n) && EpInv(n.a.ep)
    ensures Reaches(t', n') && |t'.moves| == |t.moves| + 1
    ensures var o := Flush(n.a.ep, true);
            n' == n.(a := n.a.(ep := o.ep), ab := n.ab + o.wires)
  {
    t', n' := Extend(t, n, (false, FlushEvent(true)));
  }

  lemma FlushMoveB(t: Trace, n: Net) returns (t': Trace, n': Net)
    requires Reaches(t, n) && EpInv(n.b.ep)
    ensures Reaches(t', n') && |t'.moves| == |t.moves| + 1
    ensures var o := Flush(n.b.ep, true);
            n' == n.(b := n.b.(ep := o.ep), ba := n.ba + o.wires)
  {
    t', n' := Extend(t, n, (true, FlushEvent(true)));
  }

  lemma ReplyMove(t: Trace, n: Net) returns (t': Trace, n': Net)
    requires Reaches(t, n) && EpInv(n.b.ep) && n.b.handles == [64] && Reply(n.b.ep, 0, 64, Traces.SENT).1.Called?
    ensures Reaches(t', n') && |t'.moves| == |t.moves| + 1
    ensures var o := Reply(n.b.ep, 0, 64, Traces.SENT).0;
            n' == n.(b := Peer(o.ep, []), ba := n.ba + o.wires)
  {
    assert n.b.handles[..0] + n.b.handles[1..] == [];
    t', n' := Extend(t, n, (true, ReplyEvent(0, 0, Traces.SENT)));
  }

  // Moves that receive.

  lemma ArriveMoveA(t: Trace, n: Net) returns (t': Trace, n': Net)
    requires Reaches(t, n) && EpInv(n.a.ep) && |n.ba| == 1 && Requests(n.ba[0]) == []
    ensures Reaches(t', n') && |t'.moves| == |t.moves| + 1
    ensures n' == n.(a := n.a.(ep := Receive(n.a.ep, n.ba[0])), ba := [])
  {
    assert n.ba[1..] == [] && n.a.handles + [] == n.a.handles;
    t', n' := Extend(t, n, (false, ArriveEvent));
  }

  lemma ArriveMoveB(t: Trace, n: Net) returns (t': Trace, n': Net)
    requires Reaches(t, n) && EpInv(n.b.ep) && n.ab != [] && n.b.handles == []
    ensures Reaches(t', n') && |t'.moves| == |t.moves| + 1
    ensures n' == n.(b := Peer(Receive(n.b.ep, n.ab[0]), Requests(n.ab[0])), ab := n.ab[1..])
  {
    assert [] + Requests(n.ab[0]) == Requests(n.ab[0]);
    t', n' := Extend(t, n, (true, ArriveEvent));
  }

  /** A large call up to 224. */
  lemma FirstRequest(t: Trace, n: Net) returns (t': Trace, n': Net)
    requires Reaches(t, n) && Flying(n, [], [], [])
    requires IsA(n.a.ep, 32, 0, [], 0, 0, 0, 64) && IsB(n.b.ep, 32, 0, [], 0, 0, 0, 0, 64)
    ensures Reaches(t', n') && |t'.moves| == |t.moves| + 3 && Flying(n', [], [], [64])
    ensures IsA(n'.a.ep, 256, 224, [], 0, 0, 0, 0) && IsB(n'.b.ep, 32, 0, [], 224, 224, 0, 0, 64)
  {
    FirstCall(n.a.ep);
    t', n' := CallMove(t, n, 180);
    FirstFlush(n'.a.ep);
    t', n' := FlushMoveA(t', n');
    Received();
    t', n' := ArriveMoveB(t', n');
  }

  /** It is answered and credited. */
  lemma FirstAnswer(t: Trace, n: Net) returns (t': Trace, n': Net)
    requires Reaches(t, n) && Flying(n, [], [], [64])
    requires IsA(n.a.ep, 256, 224, [], 0, 0, 0, 0) && IsB(n.b.ep, 32, 0, [], 224, 224, 0, 0, 64)
    ensures Reaches(t', n') && |t'.moves| == |t.moves| + 3 && Flying(n', [], [], [])
    ensures IsA(n'.a.ep, 256, 224, [], 64, 0, 224, 64) && IsB(n'.b.ep, 96, 64, [], 224, 224, 224, 0, 64)
  {
    FirstReply(n.b.ep);
    t', n' := ReplyMove(t, n);
    FirstReplyFlush(n'.b.ep);
    t', n' := FlushMoveB(t', n');
    Received();
    t', n' := ArriveMoveA(t', n');
  }

  /** A small call behind a header-only wrap. */
  lemma WrapSent(t: Trace, n: Net) returns (t': Trace, n': Net)
    requires Reaches(t, n) && Flying(n, [], [], [])
    requires IsA(n.a.ep, 256, 224, [], 64, 0, 224, 64) && IsB(n.b.ep, 96, 64, [], 224, 224, 224, 0, 64)
    ensures Reaches(t', n') && |t'.moves| == |t.moves| + 2
    ensures Flying(n', [Wire(32, 64, 0, true, []), Wire(64, 0, 0, false, [SMALL])], [], [])
    ensures IsA(n'.a.ep, 352, 320, [], 64, 64, 224, 0) && n'.b == n.b
  {
    SmallCall(n.a.ep);
    t', n' := CallMove(t, n, 0);
    SmallFlush(n'.a.ep);
    t', n' := FlushMoveA(t', n');
  }

  /** `b` processes both. */
  lemma WrapProcessed(t: Trace, n: Net) returns (t': Trace, n': Net)
    requires Reaches(t, n) && Flying(n, [Wire(32, 64, 0, true, []), Wire(64, 0, 0, false, [SMALL])], [], [])
    requires IsB(n.b.ep, 96, 64, [], 224, 224, 224, 0, 64)
    ensures Reaches(t', n') && |t'.moves| == |t.moves| + 2 && Flying(n', [], [], [64])
    ensures n'.a == n.a && IsB(n'.b.ep, 96, 64, [], 320, 576, 224, 64, 64)
  {
    WrapArrives(n.b.ep, n.ab[0]);
    t', n' := ArriveMoveB(t, n);
    Received();
    t', n' := ArriveMoveB(t', n');
  }

  /** The answer returns 352 bytes of credit, for 96 bytes. */
  lemma SecondAnswer(t: Trace, n: Net) returns (t': Trace, n': Net)
    requires Reaches(t, n) && Flying(n, [], [], [64])
    requires IsA(n.a.ep, 352, 320, [], 64, 64, 224, 0) && IsB(n.b.ep, 96, 64, [], 320, 576, 224, 64, 64)
    ensures Reaches(t', n') && |t'.moves| == |t.moves| + 3
    ensures IsA(n'.a.ep, 352, 320, [], 128, 64, 576, 64) && IsB(n'.b.ep, 160, 128, [], 320, 576, 576, 64, 64)
  {
    SecondReply(n.b.ep);
    t', n' := ReplyMove(t, n);
    SecondReplyFlush(n'.b.ep);
    t', n' := FlushMoveB(t', n');
    Received();
    t', n' := ArriveMoveA(t', n');
  }

  lemma Overrun(t: Trace, n: Net) returns (t': Trace, n': Net)
    requires Reaches(t, n) && IsA(n.a.ep, 352, 320, [], 128, 64, 576, 64)
    ensures Reaches(t', n') && |t'.moves| == |t.moves| + 2
    ensures IsA(n'.a.ep, 768, 736, [], 128, 128, 576, 0) && n'.b == n.b
  {
    LastCall(n.a.ep);
    t', n' := CallMove(t, n, 180);
    LastFlush(n'.a.ep);
    t', n' := FlushMoveA(t', n');
  }

  /**
   * A run of 15 moves after which `a` has its reserve, by the credit it was given, and has sent 416
   * bytes that `b` has yet to process, on a ring of 256 bytes: the last batch, from 512 on, covers
   * the wrap before it.
   */
  lemma HeaderOnlyWrapOverruns() returns (t: Trace, n: Net)
    ensures Reaches(t, n) && |t.moves| == 15
    ensures HasReserve(n.a.ep) && InFlight(n.a.ep) == 192
    ensures n.a.ep.flushStart == 736 && n.b.ep.recvProducer == 320 && n.b.ep.recvSize == 256
    ensures Clashes(320, 512, 736, 256)
  {
    n := Connected(A_SIDE, B_SIDE);
    t := Traces.Trace([n], []);
    t, n := FirstRequest(t, n);
    t, n := FirstAnswer(t, n);
    t, n := WrapSent(t, n);
    t, n := WrapProcessed(t, n);
    t, n := SecondAnswer(t, n);
    t, n := Overrun(t, n);
    ClashesExactly(320, 512, 736, 256);
  }
}
