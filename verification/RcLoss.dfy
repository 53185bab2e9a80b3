/** Credit that an RC endpoint counts as granted in submissions that fail. */
module RcLoss {
  import opened Prelude
  import opened RingPos
  import opened RcEndpointSpec
  import opened RcReserve
  import opened RcCredit
  import opened RcTrace

  // The grant that an operation loses, told from the state before it.

  function FlushLoss(e: Ep, sent: bool): nat {
    if e.batchCount > 0 && !sent then CreditGrant(e) else 0
  }

  function RoomLoss(e: Ep, size: nat, sent: bool, wrapSent: bool): nat
    requires e.sendSize > 0
  {
    if HasRoom(e, size) then 0
    else if !Wraps(e, size, sent) then CreditGrant(e)
    else if wrapSent then 0 else WrapGrant(e)
  }

  function CallLoss(e: Ep, len: nat, responseAllowance: nat, a: Answers): nat
    requires e.sendSize > 0
  {
    var size := PaddedSize(len);
    if e.balance < InternalAllowance(responseAllowance) then FlushLoss(e, a.flush)
    else if !HasRoom(e, size) then RoomLoss(e, size, a.batch, a.wrap)
    else if RequestFits(e, size) then 0 else FlushLoss(e, a.flush)
  }

  lemma RoomLoses(e: Ep, size: nat, sent: bool, wrapSent: bool)
    requires EpInv(e)
    ensures HandleWrap(e, size, sent, wrapSent).ep.lost == e.lost + RoomLoss(e, size, sent, wrapSent)
  {
    EmitOpenKeeps(e, sent);
    if e.batchCount > 0 {
      WrapBehindBatch(e);
    }
  }

  /** The endpoint has lost so much more, and is connected as before. */
  predicate Loses(e: Ep, e': Ep, loss: nat) {
    e'.lost == e.lost + loss && e'.remoteSize == e.remoteSize
  }

  lemma WrappingCallLoses(e: Ep, len: nat, responseAllowance: nat, a: Answers)
    requires EpInv(e) && e.remoteSize.Some? && e.balance >= InternalAllowance(responseAllowance)
    requires !HasRoom(e, PaddedSize(len))
    ensures Loses(e, Call(e, len, responseAllowance, a).0.ep, RoomLoss(e, PaddedSize(len), a.batch, a.wrap))
  {
    var size := PaddedSize(len);
    RoomLoses(e, size, a.batch, a.wrap);
    HandleWrapKeeps(e, size, a.batch, a.wrap);
    HandleWrapEffect(e, size, a.batch, a.wrap);
  }

  lemma CallLoses(e: Ep, len: nat, responseAllowance: nat, a: Answers)
    requires EpInv(e) && e.remoteSize.Some?
    ensures Loses(e, Call(e, len, responseAllowance, a).0.ep, CallLoss(e, len, responseAllowance, a))
  {
    if e.balance >= InternalAllowance(responseAllowance) && !HasRoom(e, PaddedSize(len)) {
      WrappingCallLoses(e, len, responseAllowance, a);
    }
  }

  lemma ReplyLoses(e: Ep, len: nat, allowance: nat, a: Answers)
    requires EpInv(e) && e.remoteSize.Some?
    ensures Loses(e, Reply(e, len, allowance, a).0.ep, RoomLoss(e, PaddedSize(len), a.batch, a.wrap))
  {
    RoomLoses(e, PaddedSize(len), a.batch, a.wrap);
    HandleWrapEffect(e, PaddedSize(len), a.batch, a.wrap);
  }

  /** What a move loses, at the side that makes it. */
  function Loss(n: Net, ev: Event): nat
    requires CanStep(n, ev)
  {
    match ev
    case CallEvent(len, responseAllowance, a) => CallLoss(n.a.ep, len, responseAllowance, a)
    case ReplyEvent(_, len, a) => RoomLoss(n.a.ep, PaddedSize(len), a.batch, a.wrap)
    case FlushEvent(sent) => FlushLoss(n.a.ep, sent)
    case ArriveEvent => 0
  }

  lemma StepLoses(n: Net, ev: Event)
    requires CanStep(n, ev) && n.a.ep.remoteSize.Some?
    ensures var n' := Step(n, ev);
            n'.a.ep.lost == n.a.ep.lost + Loss(n, ev) && n'.b == n.b && n'.a.ep.remoteSize == n.a.ep.remoteSize
  {
    match ev
    case CallEvent(len, responseAllowance, a) => CallLoses(n.a.ep, len, responseAllowance, a);
    case ReplyEvent(i, len, a) => ReplyLoses(n.a.ep, len, n.a.handles[i], a);
    case FlushEvent(_) =>
    case ArriveEvent =>
  }

  function MoveLoss(n: Net, move: (bool, Event)): nat
    requires CanMove(n, move)
  {
    Loss(if move.0 then Swap(n) else n, move.1)
  }

  lemma MoveLoses(n: Net, move: (bool, Event))
    requires CanMove(n, move) && n.a.ep.remoteSize.Some? && n.b.ep.remoteSize.Some?
    ensures var n' := Move(n, move);
            && n'.a.ep.lost + n'.b.ep.lost == n.a.ep.lost + n.b.ep.lost + MoveLoss(n, move)
            && n'.a.ep.remoteSize.Some? && n'.b.ep.remoteSize.Some?
  {
    StepLoses(if move.0 then Swap(n) else n, move.1);
  }

  function Lost(n: Net): nat {
    n.a.ep.lost + n.b.ep.lost
  }

  lemma {:induction false} StaysConnected(x: Ep, y: Ep, run: seq<Net>, moves: seq<(bool, Event)>, k: nat)
    requires IsRun(x, y, run, moves) && k < |run|
    ensures run[k].a.ep.remoteSize.Some? && run[k].b.ep.remoteSize.Some?
  {
    if k > 0 {
      StaysConnected(x, y, run, moves, k - 1);
      MoveLoses(run[k - 1], moves[k - 1]);
    }
  }

  lemma RunMoveLoses(x: Ep, y: Ep, run: seq<Net>, moves: seq<(bool, Event)>, k: nat)
    requires IsRun(x, y, run, moves) && k < |moves|
    ensures Lost(run[k + 1]) == Lost(run[k]) + MoveLoss(run[k], moves[k])
  {
    StaysConnected(x, y, run, moves, k);
    MoveLoses(run[k], moves[k]);
  }

  lemma LostOverRun(x: Ep, y: Ep, run: seq<Net>, moves: seq<(bool, Event)>, k: nat)
    requires IsRun(x, y, run, moves) && k < |run|
    ensures Lost(run[k]) == 0 <==> forall i :: 0 <= i < k ==> MoveLoss(run[i], moves[i]) == 0
  {
    var totals := seq(|run|, i requires 0 <= i < |run| => Lost(run[i]));
    var losses := seq(|moves|, i requires 0 <= i < |moves| && CanMove(run[i], moves[i]) => MoveLoss(run[i], moves[i]));
    forall i | 0 <= i < |losses| ensures totals[i + 1] == totals[i] + losses[i] {
      RunMoveLoses(x, y, run, moves, i);
    }
    SumIsZeroExactly(totals, losses, k);
    assert forall i :: 0 <= i < k ==> losses[i] == MoveLoss(run[i], moves[i]);
  }

  /**
   * No credit is lost exactly as long as every submission that failed carried no grant. In
   * particular none is lost while submissions succeed.
   */
  lemma NothingLostExactly(x: Ep, y: Ep, run: seq<Net>, moves: seq<(bool, Event)>, k: nat)
    requires IsRun(x, y, run, moves) && k < |run|
    ensures run[k].a.ep.lost == 0 && run[k].b.ep.lost == 0 <==>
              forall i :: 0 <= i < k ==> MoveLoss(run[i], moves[i]) == 0
    ensures forall i :: 0 <= i < k && Successful(moves[i].1) ==> MoveLoss(run[i], moves[i]) == 0
  {
    LostOverRun(x, y, run, moves, k);
  }

  // A run that loses credit.

  /** Two endpoints with rings of 1024 bytes that promise 256 bytes. */
  const SIDE := Fresh(256, 1024, 1024)

  /** The endpoint has 32 bytes for each of the messages in its first batch. */
  predicate Opens(e: Ep, open: seq<Item>, reservation: nat, balance: nat) {
    && EpInv(e) && e.sendSize == 1024 && e.recvSize == 1024 && e.remoteSize == Some(1024) && e.maxReservation == 256
    && e.metaPos == 0 && e.producer == 32 + 32 * |open| && e.open == open && e.batchCount == |open|
    && e.remoteConsumer == 0 && e.lastRecv == e.lastNotified
    && e.reservation == reservation && e.balance == balance && e.lost == 0
  }

  lemma Sizes()
    ensures PaddedSize(0) == 32 && InternalAllowance(0) == 64 && Blocks(64) == 2
  {
  }

  lemma FirstCall(e: Ep)
    requires Opens(e, [], 256, 256)
    ensures var (o, r) := Call(e, 0, 0, SENT);
            Opens(o.ep, [Request(2, 0)], 256, 192) && o.wires == []
  {
    Sizes();
    OffsetSmall(0, 1024);
    assert [] + [Request(2, 0)] == [Request(2, 0)];
  }

  lemma FirstFlush(e: Ep)
    requires Opens(e, [Request(2, 0)], 256, 192)
    ensures Flush(e, true).wires == [Wire(64, 0, 0, false, [Request(2, 0)])]
  {
  }

  lemma FirstArrival(e: Ep, w: Wire)
    requires Opens(e, [], 256, 256) && w == Wire(64, 0, 0, false, [Request(2, 0)])
    ensures Requests(w) == [64]
    ensures var e' := Receive(e, w);
            Opens(e'.(lastRecv := e.lastRecv), [], 256, 256) && e'.lastRecv >= e.lastRecv
  {
    assert [Request(2, 0)][1..] == [];
  }

  /** The credit of the arrival is due; it plays no part in the grant. */
  predicate Replies(e: Ep, open: seq<Item>, reservation: nat) {
    e.lastRecv >= e.lastNotified && Opens(e.(lastRecv := e.lastNotified), open, reservation, 256)
  }

  lemma FirstReply(e: Ep)
    requires Replies(e, [], 256)
    ensures EpInv(e)
    ensures var (o, r) := Reply(e, 0, 64, SENT);
            r.Called? && Replies(o.ep, [Response(0)], 192) && o.wires == []
  {
    Sizes();
    OffsetSmall(0, 1024);
    assert [] + [Response(0)] == [Response(0)];
  }

  lemma FailedFlush(e: Ep)
    requires Replies(e, [Response(0)], 192)
    ensures EpInv(e) && Flush(e, false).ep.lost == 64
  {
  }

  lemma RequestSent(t: Trace, n: Net) returns (t': Trace, n': Net)
    requires Reaches(SIDE, SIDE, t, n) && Opens(n.b.ep, [], 256, 256) && n.ba == []
    ensures Reaches(SIDE, SIDE, t', n') && |t'.moves| == |t.moves| + 2
    ensures n'.a == n.a && n'.ba == [Wire(64, 0, 0, false, [Request(2, 0)])]
  {
    FirstCall(n.b.ep);
    t', n' := Extend(SIDE, SIDE, t, n, (true, CallEvent(0, 0, SENT)));
    FirstFlush(n'.b.ep);
    t', n' := Extend(SIDE, SIDE, t', n', (true, FlushEvent(true)));
  }

  lemma RequestArrives(t: Trace, n: Net) returns (t': Trace, n': Net)
    requires Reaches(SIDE, SIDE, t, n) && Opens(n.a.ep, [], 256, 256) && n.a.handles == []
    requires n.ba == [Wire(64, 0, 0, false, [Request(2, 0)])]
    ensures Reaches(SIDE, SIDE, t', n') && |t'.moves| == |t.moves| + 1
    ensures Replies(n'.a.ep, [], 256) && n'.a.handles == [64]
  {
    FirstArrival(n.a.ep, n.ba[0]);
    t', n' := Extend(SIDE, SIDE, t, n, (false, ArriveEvent));
  }

  lemma ReplyFails(t: Trace, n: Net) returns (t': Trace, n': Net)
    requires Reaches(SIDE, SIDE, t, n) && Replies(n.a.ep, [], 256) && n.a.handles == [64]
    ensures Reaches(SIDE, SIDE, t', n') && |t'.moves| == |t.moves| + 2 && n'.a.ep.lost == 64
  {
    FirstReply(n.a.ep);
    t', n' := Extend(SIDE, SIDE, t, n, (false, ReplyEvent(0, 0, SENT)));
    FailedFlush(n'.a.ep);
    t', n' := Extend(SIDE, SIDE, t', n', (false, FlushEvent(false)));
  }

  /** `b` calls and sends, `a` receives and replies, and the batch of `a` fails with its grant of 64 bytes. */
  lemma FailedFlushLosesGrant() returns (t: Trace, n: Net)
    ensures Reaches(SIDE, SIDE, t, n) && |t.moves| == 5 && n.a.ep.lost == 64
  {
    n := Connected(SIDE, SIDE);
    t := Trace([n], []);
    t, n := RequestSent(t, n);
    t, n := RequestArrives(t, n);
    t, n := ReplyFails(t, n);
  }
}
