/** Stream agreement and the credit law of the DC transport, over every run. */
module DcRuns {
  import opened Prelude
  import opened RingPos
  import opened DcEncoding
  import opened DcBatch
  import opened DcEndpointSpec
  import opened DcReceive
  import opened DcStream
  import opened DcNet

  /** Peers `a` and `b`, with the batches in flight from each to the other. */
  datatype Net = Net(a: Peer, b: Peer, ab: seq<Batch>, ba: seq<Batch>)

  datatype Event =
    | CallEvent(data: Bytes, userData: UserData, key: nat)
    | ReplyEvent(callId: nat, data: Bytes)
    | FlushEvent(batch: Submit, wrap: Submit, credit: Submit)
    | ArriveEvent

  function Swap(n: Net): Net {
    Net(n.b, n.a, n.ba, n.ab)
  }

  /**
   * Peer `a` may act. Lengths and call ids fit their 32-bit fields, slab keys are vacant, and
   * virtual positions have not outgrown 64 bits.
   */
  predicate CanStep(n: Net, ev: Event) {
    && EpInv(n.a.ep)
    && match ev
       case CallEvent(data, _, key) => |data| < U32 && key < RESPONSE_FLAG && key !in n.a.ep.pending
       case ReplyEvent(callId, data) => |data| < U32 && callId < RESPONSE_FLAG
       case FlushEvent(_, _, _) => n.a.ep.lastRecv < U64
       case ArriveEvent => n.ba != [] && CanDeliver(n.a, n.ba[0])
  }

  /** Peer `a` acts. */
  function Step(n: Net, ev: Event): Net
    requires CanStep(n, ev)
  {
    match ev
    case CallEvent(data, userData, key) => n.(a := CallPeer(n.a, data, userData, key))
    case ReplyEvent(callId, data) => n.(a := ReplyPeer(n.a, callId, data))
    case FlushEvent(batch, wrap, credit) =>
      var out := FlushPeer(n.a, batch, wrap, credit);
      n.(a := out.peer, ab := n.ab + out.wires)
    case ArriveEvent => n.(a := DeliverPeer(n.a, n.ba[0]), ba := n.ba[1..])
  }

  predicate NetInv(n: Net) {
    && LinkInv(n.a, n.ab, n.b) && LinkInv(n.b, n.ba, n.a)
    && NoOverwrite(n.a, n.ab, n.b) && NoOverwrite(n.b, n.ba, n.a)
  }

  lemma CallStepKeeps(n: Net, data: Bytes, userData: UserData, key: nat)
    requires NetInv(n) && CanStep(n, CallEvent(data, userData, key))
    ensures NetInv(Step(n, CallEvent(data, userData, key)))
  {
    var a' := CallPeer(n.a, data, userData, key);
    CallOpen(n.a, data, userData, key);
    LinkAppends(n.a, n.ab, n.b, a', Msg(key, data));
    LinkPeerAppends(n.b, n.ba, n.a, a');
    BoundCall(n.a, n.ab, n.b, data, userData, key);
  }

  lemma ReplyStepKeeps(n: Net, callId: nat, data: Bytes)
    requires NetInv(n) && CanStep(n, ReplyEvent(callId, data))
    ensures NetInv(Step(n, ReplyEvent(callId, data)))
  {
    var a' := ReplyPeer(n.a, callId, data);
    ReplyOpen(n.a, callId, data);
    LinkAppends(n.a, n.ab, n.b, a', Msg(ToResponseId(callId), data));
    LinkPeerAppends(n.b, n.ba, n.a, a');
    BoundReply(n.a, n.ab, n.b, callId, data);
  }

  /** The position up to which `x` has been given credit lies behind what `y` has processed. */
  lemma CreditBehind(y: Peer, w: seq<Batch>, x: Peer)
    requires LinkInv(y, w, x)
    ensures x.ep.remoteConsumer + CreditSum(w) <= y.ep.lastNotified <= y.ep.lastRecv
  {
  }

  lemma FlushStepKeeps(n: Net, batch: Submit, wrap: Submit, credit: Submit)
    requires NetInv(n) && CanStep(n, FlushEvent(batch, wrap, credit))
    ensures NetInv(Step(n, FlushEvent(batch, wrap, credit)))
  {
    var out := FlushPeer(n.a, batch, wrap, credit);
    LinkFlush(n.a, n.ab, n.b, batch, wrap, credit);
    FlushOnlyEmits(n.a, batch, wrap, credit);
    LinkPeerEmits(n.b, n.ba, n.a, out.peer);
    CreditBehind(n.b, n.ba, n.a);
    BoundFlush(n.a, n.ab, n.b, batch, wrap, credit);
  }

  lemma ArriveStepKeeps(n: Net)
    requires NetInv(n) && n.ba != []
    ensures CanStep(n, ArriveEvent) && NetInv(Step(n, ArriveEvent))
  {
    DeliverNext(n.b, n.ba, n.a);
    var a' := DeliverPeer(n.a, n.ba[0]);
    LinkDeliver(n.b, n.ba, n.a);
    LinkReceives(n.a, n.ab, n.b, a');
    forall i | 0 <= i < |n.ba[1..]| ensures EndsBefore(n.ba[1..][i], a'.ep.lastRecv, |n.b.ep.sendRing|) {
      assert n.ba[1..][i] == n.ba[i + 1];
    }
  }

  lemma StepKeeps(n: Net, ev: Event)
    requires NetInv(n) && CanStep(n, ev)
    ensures NetInv(Step(n, ev))
  {
    match ev
    case CallEvent(data, userData, key) => CallStepKeeps(n, data, userData, key);
    case ReplyEvent(callId, data) => ReplyStepKeeps(n, callId, data);
    case FlushEvent(batch, wrap, credit) => FlushStepKeeps(n, batch, wrap, credit);
    case ArriveEvent => ArriveStepKeeps(n);
  }

  // Runs.

  function FreshPeer(size: nat): Peer
    requires size > 0
  {
    var ep := Ep(Zeros(size), Zeros(size), Some(size), 0, 0, 0, 0, 0, map[], 0, 0, 0, false);
    Peer(PrepareNextBatch(ep), Inbox(map[], [], [], []), [], [], 0)
  }

  /** Both peers have just connected, with rings of `size` bytes. */
  function Connected(size: nat): Net
    requires size > 0
  {
    Net(FreshPeer(size), FreshPeer(size), [], [])
  }

  /** The net as one of the peers sees it: that peer comes first. */
  function SeenBy(b: bool, n: Net): Net {
    if b then Swap(n) else n
  }

  /** A move: whether peer `b` acts instead of `a`, and what it does. */
  predicate CanMove(n: Net, move: (bool, Event)) {
    CanStep(SeenBy(move.0, n), move.1)
  }

  function Move(n: Net, move: (bool, Event)): Net
    requires CanMove(n, move)
  {
    SeenBy(move.0, Step(SeenBy(move.0, n), move.1))
  }

  predicate IsRun(size: nat, run: seq<Net>, moves: seq<(bool, Event)>) {
    && 64 <= size < U32 && size % ALIGNMENT == 0
    && |run| == |moves| + 1 && run[0] == Connected(size)
    && forall i :: 0 <= i < |moves| ==> CanMove(run[i], moves[i]) && run[i + 1] == Move(run[i], moves[i])
  }

  lemma ConnectedInv(size: nat)
    requires 64 <= size < U32 && size % ALIGNMENT == 0
    ensures NetInv(Connected(size))
  {
  }

  lemma MoveKeeps(n: Net, move: (bool, Event))
    requires NetInv(n) && CanMove(n, move)
    ensures NetInv(Move(n, move))
  {
    StepKeeps(SeenBy(move.0, n), move.1);
  }

  lemma {:induction false} RunInv(size: nat, run: seq<Net>, moves: seq<(bool, Event)>, k: nat)
    requires IsRun(size, run, moves) && k < |run|
    ensures NetInv(run[k])
  {
    if k == 0 {
      ConnectedInv(size);
    } else {
      RunInv(size, run, moves, k - 1);
      MoveKeeps(run[k - 1], moves[k - 1]);
    }
  }

  function SwapAll(run: seq<Net>): seq<Net> {
    seq(|run|, i requires 0 <= i < |run| => Swap(run[i]))
  }

  function FlipAll(moves: seq<(bool, Event)>): seq<(bool, Event)> {
    seq(|moves|, i requires 0 <= i < |moves| => (!moves[i].0, moves[i].1))
  }

  /** The peers are alike: with their roles exchanged, a run is a run again. */
  lemma SwapRun(size: nat, run: seq<Net>, moves: seq<(bool, Event)>)
    requires IsRun(size, run, moves)
    ensures IsRun(size, SwapAll(run), FlipAll(moves))
  {
    var run', moves' := SwapAll(run), FlipAll(moves);
    forall i | 0 <= i < |moves'| ensures CanMove(run'[i], moves'[i]) && run'[i + 1] == Move(run'[i], moves'[i]) {
      assert CanMove(run[i], moves[i]);
    }
  }

  /**
   * Stream agreement, where every batch is still as it was sent when its receiver processes it:
   * `Step` lets a batch land right before that. In every state of every run, through any number
   * of wraps, credit batches and failed submissions, the receiver has decoded a prefix of what
   * the sender appended, the rest is in flight or in the open batch, and the next batch starts
   * where the receiver is. DcLanding lets batches land earlier, and shows when this still holds.
   */
  lemma StreamAgreement(size: nat, run: seq<Net>, moves: seq<(bool, Event)>, k: nat)
    requires IsRun(size, run, moves) && k < |run|
    ensures var n := run[k];
            && n.a.sent == n.b.inbox.decoded + Payloads(n.ab) + n.a.open
            && n.b.sent == n.a.inbox.decoded + Payloads(n.ba) + n.b.open
            && n.b.ep.recvProducer == n.b.ep.lastRecv == (if n.ab == [] then n.a.ep.flushStart else n.ab[0].start)
            && n.a.ep.recvProducer == n.a.ep.lastRecv == (if n.ba == [] then n.b.ep.flushStart else n.ba[0].start)
  {
    RunInv(size, run, moves, k);
  }

  /** Either receiver can always process the next batch; that takes it to the end of that batch. */
  lemma ArrivalReachesBatchEnd(size: nat, run: seq<Net>, moves: seq<(bool, Event)>, k: nat, side: bool)
    requires IsRun(size, run, moves) && k < |run| && SeenBy(side, run[k]).ba != []
    ensures CanMove(run[k], (side, ArriveEvent))
    ensures var n, n' := SeenBy(side, run[k]), SeenBy(side, Move(run[k], (side, ArriveEvent)));
            var b := n.ba[0];
            && n'.a.ep.lastRecv == n'.a.ep.recvProducer == b.start + |b.bytes|
            && n'.a.inbox.decoded == n.a.inbox.decoded + b.msgs
  {
    RunInv(size, run, moves, k);
    var n := SeenBy(side, run[k]);
    ArriveStepKeeps(n);
    DeliverNext(n.b, n.ba, n.a);
  }

  /**
   * The credit law. The position to which a sender has been given credit, with the credit still
   * in flight and the credit lost in failed submissions, is what its peer has notified, and the
   * peer has processed at least that much.
   */
  lemma CreditLaw(size: nat, run: seq<Net>, moves: seq<(bool, Event)>, k: nat)
    requires IsRun(size, run, moves) && k < |run|
    ensures var n := run[k];
            && n.a.ep.remoteConsumer + CreditSum(n.ba) + n.b.lost == n.b.ep.lastNotified <= n.b.ep.lastRecv
            && n.b.ep.remoteConsumer + CreditSum(n.ab) + n.a.lost == n.a.ep.lastNotified <= n.a.ep.lastRecv
  {
    RunInv(size, run, moves, k);
  }

  /**
   * No overwrite. Every batch with messages, of either sender and from the moment it is emitted,
   * ends at least one reserve short of a full ring past the position its receiver has processed;
   * so none of its bytes lands on a byte that the receiver has yet to process.
   */
  lemma MessagesNeverOverwrite(size: nat, run: seq<Net>, moves: seq<(bool, Event)>, k: nat, side: bool, i: nat)
    requires IsRun(size, run, moves) && k < |run|
    requires i < |SeenBy(side, run[k]).ab| && SeenBy(side, run[k]).ab[i].msgs != []
    ensures var n := SeenBy(side, run[k]);
            var b := n.ab[i];
            && b.start + |b.bytes| + CREDIT_RETURN_RESERVE <= n.b.ep.lastRecv + |n.a.ep.sendRing|
            && |n.a.ep.sendRing| > 0 && |b.bytes| > 0
            && !Clashes(n.b.ep.lastRecv, b.start, b.start + |b.bytes|, |n.a.ep.sendRing|)
  {
    RunInv(size, run, moves, k);
    var n := SeenBy(side, run[k]);
    var b := n.ab[i];
    assert EndsBefore(b, n.b.ep.lastRecv, |n.a.ep.sendRing|);
    ChainMember(n.ab, n.b.ep.lastRecv, n.a.ep.flushStart, |n.a.ep.sendRing|, i);
    if n.b.ep.lastRecv < b.start {
      ClashesExactly(n.b.ep.lastRecv, b.start, b.start + |b.bytes|, |n.a.ep.sendRing|);
    }
  }

  lemma {:induction false} ChainMember(w: seq<Batch>, from: nat, to: nat, size: nat, i: nat)
    requires size > 0 && Chain(w, from, to, size) && i < |w|
    ensures BatchOk(w[i]) && from <= w[i].start && w[i].start + |w[i].bytes| <= to
    ensures Offset(w[i].start, size) + |w[i].bytes| <= size
    decreases |w|
  {
    ChainForward(w[1..], from + |w[0].bytes|, to, size);
    if i > 0 {
      ChainMember(w[1..], from + |w[0].bytes|, to, size, i - 1);
    }
  }

  lemma {:induction false} ChainForward(w: seq<Batch>, from: nat, to: nat, size: nat)
    requires size > 0 && Chain(w, from, to, size)
    ensures from <= to
    decreases |w|
  {
    if w != [] {
      ChainForward(w[1..], from + |w[0].bytes|, to, size);
    }
  }

  /**
   * Batch containment. In every reachable state, failed submissions included, positions are
   * aligned, the open batch starts at the flush position and lies within one ring cycle, and a
   * write of it stays inside both rings.
   */
  predicate Contained(e: Ep) {
    && e.metaPos % ALIGNMENT == 0 && e.sendProducer % ALIGNMENT == 0 && e.flushStart == e.metaPos
    && e.remoteSize.Some? && e.remoteSize.value > 0 && |e.sendRing| > 0
    && At(e, e.flushStart) + (e.sendProducer - e.flushStart) <= |e.sendRing|
    && Offset(e.flushStart, e.remoteSize.value) + (e.sendProducer - e.flushStart) <= e.remoteSize.value
    && (e.batchCount > 0 ==> BatchEnd(e) < |e.sendRing|)
  }

  lemma BatchContainment(size: nat, run: seq<Net>, moves: seq<(bool, Event)>, k: nat)
    requires IsRun(size, run, moves) && k < |run|
    ensures Contained(run[k].a.ep) && Contained(run[k].b.ep)
  {
    RunInv(size, run, moves, k);
  }
}
