/**
 * Runs in which a wrap or a credit batch lands on a batch that its receiver has yet to process,
 * as neither is credit checked and the reserve covers one header; and one that loses credit.
 */
module DcCreditGap {
  import opened RingPos
  import opened DcEncoding
  import opened DcBatch
  import opened DcEndpointSpec
  import opened DcStream
  import opened DcNet
  import opened DcRuns

  const SIZE: nat := 128

  /** The counters of a peer that decide what it may do next. */
  predicate Counters(x: Peer, producer: nat, meta: nat, count: nat, wrap: bool, received: nat) {
    && EpInv(x.ep) && |x.ep.sendRing| == SIZE
    && x.ep.sendProducer == producer && x.ep.metaPos == meta && x.ep.batchCount == count
    && x.ep.wrapPending == wrap && x.ep.lastRecv == received && x.ep.lastNotified == 0
    && x.ep.remoteConsumer == 0
  }

  /** Slab keys from `free` on are vacant. */
  predicate View(x: Peer, producer: nat, meta: nat, count: nat, wrap: bool, received: nat, free: nat) {
    Counters(x, producer, meta, count, wrap, received) && forall k :: k in x.ep.pending ==> k < free
  }

  lemma CallView(x: Peer, producer: nat, count: nat, free: nat)
    requires View(x, producer, 0, count, false, 0, free)
    ensures producer + 64 <= SIZE ==> View(CallPeer(x, [], 0, free), producer + 32, 0, count + 1, false, 0, free + 1)
    ensures producer + 32 == SIZE ==> View(CallPeer(x, [], 0, free), producer, 0, count, true, 0, free)
  {
    assert PaddedMessageSize(0) == 32 && Offset(0, SIZE) == 0;
    CallKeeps(x.ep, [], 0, free);
  }

  /** The open batch goes out, and the wrap if one is due. */
  lemma FlushOpenView(x: Peer, producer: nat, count: nat, wrap: bool, free: nat)
    requires View(x, producer, 0, count, wrap, 0, free) && count > 0 && producer < SIZE
    requires wrap ==> producer + 32 == SIZE
    ensures var out := FlushPeer(x, Sent, Sent, Sent);
            var end := if wrap then SIZE else producer;
            && View(out.peer, end + 32, end, 0, false, 0, free)
            && |out.wires| == (if wrap then 2 else 1) && out.wires[0].msgs == x.open
  {
    assert Offset(0, SIZE) == 0 && Offset(producer, SIZE) == producer;
    FlushOnlyEmits(x, Sent, Sent, Sent);
  }

  lemma FlushCreditView(x: Peer, producer: nat, meta: nat, received: nat)
    requires Counters(x, producer, meta, 0, false, received) && received > 0
    ensures var out := FlushPeer(x, Sent, Sent, Sent);
            |out.wires| == 1 && out.wires[0].start == meta && |out.wires[0].bytes| == producer - meta
            && out.wires[0].msgs == [] && !IsWrap(out.wires[0])
  {
  }

  lemma ArriveView(x: Peer, w: seq<Batch>, y: Peer, producer: nat, meta: nat)
    requires LinkInv(x, w, y) && |w| == 1 && Counters(y, producer, meta, 0, false, 0)
    requires x.ep.lastNotified == 0
    ensures CanDeliver(y, w[0])
    ensures Counters(DeliverPeer(y, w[0]), producer, meta, 0, false, x.ep.flushStart)
  {
    DeliverNext(x, w, y);
    assert w[1..] == [];
    assert Chain(w[1..], y.ep.lastRecv + |w[0].bytes|, x.ep.flushStart, |x.ep.sendRing|);
    assert CreditSum(w) == w[0].header.creditReturn + CreditSum(w[1..]);
  }

  const FLUSH := FlushEvent(Sent, Sent, Sent)

  function CallMove(b: bool, key: nat): (bool, Event) {
    (b, CallEvent([], 0, key))
  }

  lemma CallsA(n: Net, producer: nat, count: nat, free: nat)
    requires NetInv(n) && View(n.a, producer, 0, count, false, 0, free) && free < RESPONSE_FLAG
    ensures CanMove(n, CallMove(false, free))
    ensures var n' := Move(n, CallMove(false, free));
            && NetInv(n') && n' == n.(a := n'.a)
            && (producer + 64 <= SIZE ==> View(n'.a, producer + 32, 0, count + 1, false, 0, free + 1))
            && (producer + 32 == SIZE ==> View(n'.a, producer, 0, count, true, 0, free))
  {
    CallView(n.a, producer, count, free);
    MoveKeeps(n, CallMove(false, free));
  }

  lemma FlushesA(n: Net, producer: nat, count: nat, wrap: bool, free: nat)
    requires NetInv(n) && View(n.a, producer, 0, count, wrap, 0, free) && count > 0 && producer < SIZE
    requires wrap ==> producer + 32 == SIZE
    ensures CanMove(n, (false, FLUSH))
    ensures var n', end := Move(n, (false, FLUSH)), if wrap then SIZE else producer;
            && NetInv(n') && n' == n.(a := n'.a, ab := n'.ab)
            && View(n'.a, end + 32, end, 0, false, 0, free)
            && |n'.ab| == |n.ab| + (if wrap then 2 else 1)
            && n'.ab[|n.ab|].msgs != []
  {
    FlushOpenView(n.a, producer, count, wrap, free);
    MoveKeeps(n, (false, FLUSH));
  }

  /** A run, its moves and its last state. */
  datatype Trace = Trace(run: seq<Net>, moves: seq<(bool, Event)>)

  predicate Reaches(t: Trace, n: Net) {
    IsRun(SIZE, t.run, t.moves) && t.run[|t.moves|] == n
  }

  /** Nothing has been processed. */
  predicate NoArrival(t: Trace) {
    forall i :: 0 <= i < |t.moves| ==> !t.moves[i].1.ArriveEvent?
  }

  lemma Extend(t: Trace, n: Net, move: (bool, Event)) returns (t': Trace)
    requires Reaches(t, n) && CanMove(n, move)
    ensures Reaches(t', Move(n, move)) && t'.moves == t.moves + [move]
    ensures NoArrival(t) && !move.1.ArriveEvent? ==> NoArrival(t')
  {
    t' := Trace(t.run + [Move(n, move)], t.moves + [move]);
    forall i | 0 <= i < |t'.moves|
      ensures CanMove(t'.run[i], t'.moves[i]) && t'.run[i + 1] == Move(t'.run[i], t'.moves[i])
    {
      if i < |t.moves| {
        assert t'.run[i] == t.run[i] && t'.run[i + 1] == t.run[i + 1] && t'.moves[i] == t.moves[i];
      }
    }
  }

  /** `a` fills the ring: two calls, and a third that asks for a wrap. */
  lemma FillRing(t: Trace, n: Net) returns (t': Trace, n': Net)
    requires Reaches(t, n) && NetInv(n) && View(n.a, 32, 0, 0, false, 0, 0)
    ensures Reaches(t', n') && |t'.moves| == |t.moves| + 3 && (NoArrival(t) ==> NoArrival(t'))
    ensures NetInv(n') && View(n'.a, 96, 0, 2, true, 0, 2) && n' == n.(a := n'.a)
  {
    CallsA(n, 32, 0, 0);
    var n1 := Move(n, CallMove(false, 0));
    var t1 := Extend(t, n, CallMove(false, 0));
    CallsA(n1, 64, 1, 1);
    var n2 := Move(n1, CallMove(false, 1));
    var t2 := Extend(t1, n1, CallMove(false, 1));
    CallsA(n2, 96, 2, 2);
    n' := Move(n2, CallMove(false, 2));
    t' := Extend(t2, n2, CallMove(false, 2));
  }

  /** `b` makes a call and flushes it. */
  lemma SendCall(t: Trace, n: Net) returns (t': Trace, n': Net)
    requires Reaches(t, n) && NetInv(n) && View(n.b, 32, 0, 0, false, 0, 0) && n.ba == []
    ensures Reaches(t', n') && |t'.moves| == |t.moves| + 2 && NetInv(n')
    ensures n' == n.(b := n'.b, ba := n'.ba) && View(n'.b, 96, 64, 0, false, 0, 1) && |n'.ba| == 1
  {
    CallsA(Swap(n), 32, 0, 0);
    var n1 := Move(n, CallMove(true, 0));
    var t1 := Extend(t, n, CallMove(true, 0));
    FlushesA(Swap(n1), 64, 1, false, 1);
    n' := Move(n1, (true, FLUSH));
    t' := Extend(t1, n1, (true, FLUSH));
  }

  /** `a` flushes its batch and the wrap; then `b` sends a call. */
  lemma BothFlush(t: Trace, n: Net) returns (t': Trace, n': Net)
    requires Reaches(t, n) && NetInv(n) && View(n.a, 96, 0, 2, true, 0, 2) && View(n.b, 32, 0, 0, false, 0, 0)
    requires n.ab == [] && n.ba == []
    ensures Reaches(t', n') && |t'.moves| == |t.moves| + 3 && NetInv(n')
    ensures View(n'.a, SIZE + 32, SIZE, 0, false, 0, 2) && View(n'.b, 96, 64, 0, false, 0, 1)
    ensures |n'.ab| == 2 && |n'.ba| == 1 && n'.ab[0].msgs != []
  {
    FlushesA(n, 96, 2, true, 2);
    var n1 := Move(n, (false, FLUSH));
    var t1 := Extend(t, n, (false, FLUSH));
    t', n' := SendCall(t1, n1);
  }

  /** The call reaches `a`, which returns the credit for it, or tries to. */
  lemma ReturnCredit(t: Trace, n: Net) returns (t': Trace, n': Net)
    requires Reaches(t, n) && NetInv(n)
    requires View(n.a, SIZE + 32, SIZE, 0, false, 0, 2) && View(n.b, 96, 64, 0, false, 0, 1)
    requires |n.ab| == 2 && |n.ba| == 1 && n.ab[0].msgs != []
    ensures Reaches(t', n') && |t'.moves| == |t.moves| + 2
    ensures n'.b.ep.lastRecv == 0 && |n'.ab| == 3 && n'.ab[0].msgs != []
    ensures n'.ab[2].start == SIZE && |n'.ab[2].bytes| == 32 && n'.ab[2].msgs == [] && !IsWrap(n'.ab[2])
  {
    ArriveView(n.b, n.ba, n.a, SIZE + 32, SIZE);
    var n1 := Move(n, (false, ArriveEvent));
    var t1 := Extend(t, n, (false, ArriveEvent));
    FlushCreditView(n1.a, SIZE + 32, SIZE, 64);
    n' := Move(n1, (false, FLUSH));
    t' := Extend(t1, n1, (false, FLUSH));
  }

  /**
   * A reachable state in which a credit batch clashes with the first batch, which holds messages
   * and which the receiver has yet to process.
   */
  lemma CreditBatchMayOverwrite() returns (t: Trace, n: Net)
    ensures Reaches(t, n) && |t.moves| == 8
    ensures |n.ab| == 3 && n.b.ep.lastRecv == 0 && n.ab[0].msgs != [] && n.ab[2].msgs == [] && !IsWrap(n.ab[2])
    ensures Clashes(n.b.ep.lastRecv, n.ab[2].start, n.ab[2].start + |n.ab[2].bytes|, SIZE)
  {
    n := Connected(SIZE);
    t := Trace([n], []);
    ConnectedInv(SIZE);
    assert View(n.a, 32, 0, 0, false, 0, 0) && View(n.b, 32, 0, 0, false, 0, 0);
    t, n := FillRing(t, n);
    t, n := BothFlush(t, n);
    t, n := ReturnCredit(t, n);
    ClashesExactly(0, SIZE, SIZE + 32, SIZE);
  }

  // The same with a wrap.

  const LARGE_CALL := CallEvent(Zeros(80), 0, 2)

  /** A call of 80 bytes does not fit behind a header on a ring of 128 bytes. */
  lemma LargeCallView(x: Peer)
    requires View(x, SIZE + 32, SIZE, 0, false, 0, 2)
    ensures View(CallPeer(x, Zeros(80), 0, 2), SIZE + 32, SIZE, 0, true, 0, 2)
  {
    assert PaddedMessageSize(80) == 96 && Offset(SIZE, SIZE) == 0;
  }

  lemma FlushWrapView(x: Peer)
    requires View(x, SIZE + 32, SIZE, 0, true, 0, 2)
    ensures var wires := FlushPeer(x, Sent, Sent, Sent).wires;
            |wires| == 1 && wires[0].start == SIZE && |wires[0].bytes| == SIZE && IsWrap(wires[0])
  {
    assert Offset(SIZE, SIZE) == 0;
  }

  lemma WrapAgain(t: Trace, n: Net) returns (t': Trace, n': Net)
    requires Reaches(t, n) && NetInv(n) && View(n.a, SIZE + 32, SIZE, 0, false, 0, 2)
    requires |n.ab| == 2 && n.ab[0].msgs != []
    ensures Reaches(t', n') && |t'.moves| == |t.moves| + 2 && (NoArrival(t) ==> NoArrival(t')) && n'.b == n.b
    ensures |n'.ab| == 3 && n'.ab[0].msgs != []
    ensures n'.ab[2].start == SIZE && |n'.ab[2].bytes| == SIZE && IsWrap(n'.ab[2]) && |n'.a.ep.sendRing| == SIZE
  {
    LargeCallView(n.a);
    var n1 := Move(n, (false, LARGE_CALL));
    var t1 := Extend(t, n, (false, LARGE_CALL));
    FlushWrapView(n1.a);
    n' := Move(n1, (false, FLUSH));
    t' := Extend(t1, n1, (false, FLUSH));
  }

  /** A reachable state in which a wrap covers the first batch, which is yet to be processed. */
  lemma WrapMayOverwrite() returns (t: Trace, n: Net)
    ensures Reaches(t, n) && |t.moves| == 6 && NoArrival(t)
    ensures |n.ab| == 3 && n.b.ep.lastRecv == 0 && n.ab[2].start == SIZE && |n.ab[2].bytes| == SIZE
    ensures |n.a.ep.sendRing| == SIZE && n.ab[0].msgs != [] && IsWrap(n.ab[2])
    ensures Clashes(n.b.ep.lastRecv, n.ab[2].start, n.ab[2].start + |n.ab[2].bytes|, SIZE)
  {
    n := Connected(SIZE);
    t := Trace([n], []);
    ConnectedInv(SIZE);
    assert View(n.a, 32, 0, 0, false, 0, 0);
    t, n := FillRing(t, n);
    FlushesA(n, 96, 2, true, 2);
    var n1 := Move(n, (false, FLUSH));
    var t1 := Extend(t, n, (false, FLUSH));
    t, n := WrapAgain(t1, n1);
    ClashesExactly(0, SIZE, SIZE + SIZE, SIZE);
  }

  // A credit batch that fails.

  const FAILED := FlushEvent(Sent, Sent, SqFull)

  lemma FlushFailedView(x: Peer, received: nat)
    requires Counters(x, 32, 0, 0, false, received) && received > 0
    ensures FlushPeer(x, Sent, Sent, SqFull).peer.lost == x.lost + received
  {
  }

  /** A run of four moves: `b` calls, and the submission in which `a` returns the credit fails. */
  lemma FailedFlushLosesCredit() returns (t: Trace, n: Net)
    ensures Reaches(t, n) && |t.moves| == 4 && n.a.lost == 64
  {
    n := Connected(SIZE);
    t := Trace([n], []);
    ConnectedInv(SIZE);
    assert View(n.a, 32, 0, 0, false, 0, 0) && View(n.b, 32, 0, 0, false, 0, 0);
    var n2: Net;
    t, n2 := SendCall(t, n);
    ArriveView(n2.b, n2.ba, n2.a, 32, 0);
    var n3 := Move(n2, (false, ArriveEvent));
    t := Extend(t, n2, (false, ArriveEvent));
    FlushFailedView(n3.a, 64);
    n := Move(n3, (false, FAILED));
    t := Extend(t, n3, (false, FAILED));
  }
}
