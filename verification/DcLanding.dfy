/**
 * The DC transport with batches that land in the receive ring ahead of their processing, in
 * order, at any time after they were sent. As long as no batch without messages is sent too far
 * ahead, what has landed stays intact, and the runs are those of DcRuns.
 */
module DcLanding {
  import opened Prelude
  import opened RingPos
  import opened DcEncoding
  import opened DcBatch
  import opened DcEndpointSpec
  import opened DcReceive
  import opened DcStream
  import opened DcNet
  import opened DcRuns
  import opened DcEmptyBatch

  /** How many of the batches in flight to either peer stand in its ring, not processed yet. */
  datatype Wire = Wire(net: Net, atA: nat, atB: nat)

  datatype Action = Do(ev: Event) | LandNext

  function SwapWire(s: Wire): Wire {
    Wire(Swap(s.net), s.atB, s.atA)
  }

  predicate FitsRing(ring: Bytes, b: Batch) {
    |ring| > 0 && Offset(b.start, |ring|) + |b.bytes| <= |ring|
  }

  /** Peer `a` may act; it processes whatever stands in its ring, once a batch has landed. */
  predicate CanAct(s: Wire, act: Action) {
    match act
    case Do(ev) =>
      if ev.ArriveEvent? then s.atA > 0 && s.net.ba != [] && Receivable(s.net.a.ep, s.net.a.inbox)
      else CanStep(s.net, ev)
    case LandNext => s.atA < |s.net.ba| && FitsRing(s.net.a.ep.recvRing, s.net.ba[s.atA])
  }

  function Act(s: Wire, act: Action): Wire
    requires CanAct(s, act)
  {
    var a := s.net.a;
    match act
    case Do(ev) =>
      if ev.ArriveEvent? then
        var (ep, inbox) := Receive(a.ep, a.inbox);
        s.(net := s.net.(a := a.(ep := ep, inbox := inbox), ba := s.net.ba[1..]), atA := s.atA - 1)
      else s.(net := Step(s.net, ev))
    case LandNext => s.(net := s.net.(a := a.(ep := Land(a.ep, s.net.ba[s.atA]))), atA := s.atA + 1)
  }

  // The rest of a peer does not depend on its receive ring.

  function WithRing(x: Peer, ring: Bytes): Peer {
    x.(ep := x.ep.(recvRing := ring))
  }

  predicate Same(x: Peer, y: Peer) {
    |x.ep.recvRing| == |y.ep.recvRing| && x == WithRing(y, x.ep.recvRing)
  }

  lemma CallSame(y: Peer, ring: Bytes, data: Bytes, userData: UserData, key: nat)
    requires EpInv(y.ep) && |ring| == |y.ep.recvRing|
    ensures CallPeer(WithRing(y, ring), data, userData, key) == WithRing(CallPeer(y, data, userData, key), ring)
  {
    if TryAppend(y.ep, |data|).Appended? {
      AppendFits(y.ep, Msg(key, data));
    }
  }

  lemma ReplySame(y: Peer, ring: Bytes, callId: nat, data: Bytes)
    requires EpInv(y.ep) && |ring| == |y.ep.recvRing|
    ensures ReplyPeer(WithRing(y, ring), callId, data) == WithRing(ReplyPeer(y, callId, data), ring)
  {
    if TryAppend(y.ep, |data|).Appended? {
      AppendFits(y.ep, Msg(ToResponseId(callId), data));
    }
  }

  function OutWithRing(o: Out, ring: Bytes): Out {
    Out(WithRing(o.peer, ring), o.wires)
  }

  function EpWithRing(e: Ep, ring: Bytes): Ep {
    e.(recvRing := ring)
  }

  lemma EmitSame(e: Ep, ring: Bytes, count: nat, msgs: seq<Msg>, submit: Submit)
    requires Emittable(e) && |ring| == |e.recvRing|
    ensures Emittable(EpWithRing(e, ring))
    ensures OpenBatch(EpWithRing(e, ring), count, msgs) == OpenBatch(e, count, msgs)
    ensures EmitAndPrepare(EpWithRing(e, ring), count, submit) == EpWithRing(EmitAndPrepare(e, count, submit), ring)
    ensures EmitBatch(EpWithRing(e, ring), count, submit) == EpWithRing(EmitBatch(e, count, submit), ring)
  {
    var f := EpWithRing(e, ring);
    assert EmitHeader(f, count) == EmitHeader(e, count);
    assert Stamp(f, count) == EpWithRing(Stamp(e, count), ring);
  }

  lemma EmitOpenSame(y: Peer, ring: Bytes, submit: Submit)
    requires EpInv(y.ep) && |ring| == |y.ep.recvRing|
    ensures EmitOpen(WithRing(y, ring), submit) == OutWithRing(EmitOpen(y, submit), ring)
  {
    EmitSame(y.ep, ring, y.ep.batchCount, y.open, submit);
  }

  lemma EmitWrapSame(y: Peer, ring: Bytes, submit: Submit)
    requires EpInv(y.ep) && |ring| == |y.ep.recvRing|
    ensures EmitWrapBatch(WithRing(y, ring), submit) == OutWithRing(EmitWrapBatch(y, submit), ring)
  {
    WrapEmittable(y.ep);
    var full := FillCycle(y.ep);
    assert FillCycle(WithRing(y, ring).ep) == EpWithRing(full, ring);
    EmitSame(full, ring, WRAP_MESSAGE_COUNT, [], submit);
  }

  lemma EmitCreditSame(y: Peer, ring: Bytes, submit: Submit)
    requires EpInv(y.ep) && |ring| == |y.ep.recvRing|
    ensures EmitCredit(WithRing(y, ring), submit) == OutWithRing(EmitCredit(y, submit), ring)
  {
    EmitSame(y.ep, ring, 0, [], submit);
  }

  lemma FlushSame(y: Peer, ring: Bytes, batch: Submit, wrap: Submit, credit: Submit)
    requires EpInv(y.ep) && |ring| == |y.ep.recvRing|
    ensures FlushPeer(WithRing(y, ring), batch, wrap, credit) == OutWithRing(FlushPeer(y, batch, wrap, credit), ring)
  {
    if y.ep.batchCount > 0 {
      EmitOpenSame(y, ring, batch);
      if batch.Sent? {
        var y1 := EmitOpen(y, batch).peer;
        EmitAndPrepareKeeps(y.ep, y.ep.batchCount, batch);
        EmitWrapSame(y1, ring, wrap);
      }
    } else if y.ep.wrapPending {
      EmitWrapSame(y, ring, wrap);
    } else {
      EmitCreditSame(y, ring, credit);
    }
  }

  // What has landed stays.

  /** The batch stands in the ring as it was sent. */
  predicate Intact(ring: Bytes, b: Batch) {
    && FitsRing(ring, b)
    && ring[Offset(b.start, |ring|)..Offset(b.start, |ring|) + |b.bytes|] == b.bytes
  }

  predicate AllIntact(ring: Bytes, w: seq<Batch>, k: nat) {
    k <= |w| && forall i :: 0 <= i < k ==> Intact(ring, w[i])
  }

  /** No batch in flight ends more than a full ring past `received`. */
  predicate Within(w: seq<Batch>, received: nat, size: nat) {
    forall i :: 0 <= i < |w| ==> w[i].start + |w[i].bytes| <= received + size
  }

  lemma OffsetsApart(c: nat, k: nat, b: nat, j: nat, size: nat)
    requires size > 0 && Offset(c, size) + k < size && Offset(b, size) + j < size
    requires c + k < b + j < c + k + size
    ensures Offset(c, size) + k != Offset(b, size) + j
  {
    OffsetAdd(c, k, size);
    OffsetAdd(b, j, size);
    OffsetDistinct(c + k, b + j, size);
  }

  /** A batch that ends within a ring of the start of an earlier one does not touch it. */
  lemma LandSpares(ring: Bytes, c: Batch, b: Batch)
    requires Intact(ring, c) && FitsRing(ring, b)
    requires c.start + |c.bytes| <= b.start && b.start + |b.bytes| <= c.start + |ring|
    ensures Intact(WriteAt(ring, Offset(b.start, |ring|), b.bytes), c)
  {
    var size, ring' := |ring|, WriteAt(ring, Offset(b.start, |ring|), b.bytes);
    var oc, ob := Offset(c.start, size), Offset(b.start, size);
    forall i | oc <= i < oc + |c.bytes| ensures ring'[i] == ring[i] {
      if ob <= i < ob + |b.bytes| {
        OffsetsApart(c.start, i - oc, b.start, i - ob, size);
      } else if i < ob {
        assert ring'[i] == ring'[..ob][i];
      } else {
        assert ring'[i] == ring'[ob + |b.bytes|..][i - ob - |b.bytes|];
      }
    }
    assert ring'[oc..oc + |c.bytes|] == ring[oc..oc + |c.bytes|];
  }

  lemma {:induction false} ChainOrder(w: seq<Batch>, from: nat, to: nat, size: nat, i: nat, j: nat)
    requires size > 0 && Chain(w, from, to, size) && i < j < |w|
    ensures w[i].start + |w[i].bytes| <= w[j].start
    decreases |w|
  {
    if i == 0 {
      ChainMember(w[1..], from + |w[0].bytes|, to, size, j - 1);
    } else {
      ChainOrder(w[1..], from + |w[0].bytes|, to, size, i - 1, j - 1);
    }
  }

  lemma LandKeepsIntact(ring: Bytes, w: seq<Batch>, from: nat, to: nat, k: nat)
    requires |ring| > 0 && Chain(w, from, to, |ring|) && Within(w, from, |ring|) && k < |w| && AllIntact(ring, w, k)
    ensures FitsRing(ring, w[k])
    ensures AllIntact(WriteAt(ring, Offset(w[k].start, |ring|), w[k].bytes), w, k + 1)
  {
    ChainMember(w, from, to, |ring|, k);
    var ring' := WriteAt(ring, Offset(w[k].start, |ring|), w[k].bytes);
    forall i | 0 <= i < k + 1 ensures Intact(ring', w[i]) {
      if i < k {
        ChainMember(w, from, to, |ring|, i);
        ChainOrder(w, from, to, |ring|, i, k);
        LandSpares(ring, w[i], w[k]);
      }
    }
  }

  // The run of DcRuns that goes along.

  /** All but the receive rings agree. */
  predicate Follows(s: Wire, n: Net) {
    Same(s.net.a, n.a) && Same(s.net.b, n.b) && s.net.ab == n.ab && s.net.ba == n.ba
  }

  predicate LandedOk(y: Peer, w: seq<Batch>, k: nat) {
    AllIntact(y.ep.recvRing, w, k) && Within(w, y.ep.lastRecv, |y.ep.recvRing|)
  }

  predicate Inv(s: Wire, n: Net) {
    Follows(s, n) && NetInv(n) && LandedOk(s.net.a, n.ba, s.atA) && LandedOk(s.net.b, n.ab, s.atB)
  }

  /** The action sends no batch without messages that ends more than a ring past what `b` has processed. */
  predicate StaysWithin(s: Wire, act: Action) {
    act.Do? && act.ev.FlushEvent? && |s.net.a.ep.sendRing| > 0 &&
    SendsEmpty(s.net.a.ep, act.ev.batch, act.ev.wrap, act.ev.credit) ==>
      EmptyEnd(s.net.a.ep) <= s.net.b.ep.lastRecv + |s.net.a.ep.sendRing|
  }

  /** One step of a peer, apart from its receive ring. */
  lemma StepFollows(m: Net, n: Net, ev: Event)
    requires Same(m.a, n.a) && m.ab == n.ab && EpInv(n.a.ep) && !ev.ArriveEvent? && CanStep(m, ev)
    ensures CanStep(n, ev)
    ensures Step(m, ev) == Step(n, ev).(a := WithRing(Step(n, ev).a, m.a.ep.recvRing), b := m.b, ba := m.ba)
  {
    var ring := m.a.ep.recvRing;
    match ev
    case CallEvent(data, userData, key) => CallSame(n.a, ring, data, userData, key);
    case ReplyEvent(callId, data) => ReplySame(n.a, ring, callId, data);
    case FlushEvent(batch, wrap, credit) => FlushSame(n.a, ring, batch, wrap, credit);
  }

  lemma SilentFollows(s: Wire, n: Net, ev: Event)
    requires Follows(s, n) && NetInv(n) && !ev.ArriveEvent? && CanStep(s.net, ev)
    ensures CanStep(n, ev) && Follows(Act(s, Do(ev)), Step(n, ev))
    ensures Act(s, Do(ev)).net.a.ep.recvRing == s.net.a.ep.recvRing
  {
    StepFollows(s.net, n, ev);
    StepKeeps(n, ev);
  }

  /** Batches with messages were credit checked; for the others, the action stays within the ring. */
  lemma FlushWithin(n: Net, batch: Submit, wrap: Submit, credit: Submit)
    requires NetInv(n) && CanStep(n, FlushEvent(batch, wrap, credit))
    requires Within(n.ab, n.b.ep.lastRecv, |n.a.ep.sendRing|)
    requires SendsEmpty(n.a.ep, batch, wrap, credit) ==> EmptyEnd(n.a.ep) <= n.b.ep.lastRecv + |n.a.ep.sendRing|
    ensures Within(n.ab + FlushPeer(n.a, batch, wrap, credit).wires, n.b.ep.lastRecv, |n.a.ep.sendRing|)
  {
    var wires, size := FlushPeer(n.a, batch, wrap, credit).wires, |n.a.ep.sendRing|;
    EmptyBatchIsLast(n.a, batch, wrap, credit);
    CreditBehind(n.b, n.ba, n.a);
    forall i | 0 <= i < |wires| ensures wires[i].start + |wires[i].bytes| <= n.b.ep.lastRecv + size {
      if wires[i].msgs != [] {
        FlushedBounded(n.a, n.b, batch, wrap, credit, i);
      }
    }
  }

  lemma SilentKeeps(s: Wire, n: Net, ev: Event)
    requires Inv(s, n) && !ev.ArriveEvent? && CanStep(s.net, ev) && StaysWithin(s, Do(ev))
    ensures CanStep(n, ev) && Inv(Act(s, Do(ev)), Step(n, ev))
  {
    SilentFollows(s, n, ev);
    StepKeeps(n, ev);
    if ev.FlushEvent? {
      FlushWithin(n, ev.batch, ev.wrap, ev.credit);
      FlushOnlyEmits(n.a, ev.batch, ev.wrap, ev.credit);
    }
  }

  lemma LandKeeps(s: Wire, n: Net)
    requires Inv(s, n) && CanAct(s, LandNext)
    ensures Inv(Act(s, LandNext), n)
  {
    LandKeepsIntact(s.net.a.ep.recvRing, n.ba, n.a.ep.lastRecv, n.b.ep.flushStart, s.atA);
  }

  /** The batch stands intact at the receiver's position, in either run. */
  lemma ArriveFollows(s: Wire, n: Net)
    requires Inv(s, n) && s.atA > 0
    ensures s.net.ba != [] && Receivable(s.net.a.ep, s.net.a.inbox)
    ensures CanStep(n, ArriveEvent) && Follows(Act(s, Do(ArriveEvent)), Step(n, ArriveEvent))
    ensures Act(s, Do(ArriveEvent)).net.a.ep.recvRing == s.net.a.ep.recvRing
    ensures Step(n, ArriveEvent).a.ep.lastRecv >= n.a.ep.lastRecv
  {
    var y, b := s.net.a, n.ba[0];
    assert Intact(y.ep.recvRing, b) && Stands(y.ep, b);
    LandStands(n.a, b);
    ReceiveSame(y.ep, Land(n.a.ep, b), b, y.inbox);
    ArriveStepKeeps(n);
  }

  /** Two endpoints that differ in their rings process an intact batch alike. */
  lemma ReceiveSame(e: Ep, f: Ep, b: Batch, inbox: Inbox)
    requires Stands(e, b) && Stands(f, b) && |e.recvRing| == |f.recvRing| && e == f.(recvRing := e.recvRing)
    ensures Receivable(e, inbox) && Receivable(f, inbox)
    ensures Receive(e, inbox).1 == Receive(f, inbox).1
    ensures Receive(e, inbox).0 == Receive(f, inbox).0.(recvRing := e.recvRing)
    ensures Receive(f, inbox).0.recvRing == f.recvRing && Receive(f, inbox).0.lastRecv == f.lastRecv + |b.bytes|
  {
    if IsWrap(b) {
      ReceiveWrap(e, b, inbox);
      ReceiveWrap(f, b, inbox);
    } else {
      ReceiveMessages(e, b, inbox);
      ReceiveMessages(f, b, inbox);
    }
  }

  lemma ArriveKeeps(s: Wire, n: Net)
    requires Inv(s, n) && CanAct(s, Do(ArriveEvent))
    ensures CanStep(n, ArriveEvent) && Inv(Act(s, Do(ArriveEvent)), Step(n, ArriveEvent))
  {
    ArriveFollows(s, n);
    ArriveStepKeeps(n);
    var s' := Act(s, Do(ArriveEvent));
    forall i | 0 <= i < |n.ba[1..]|
      ensures n.ba[1..][i] == n.ba[i + 1]
    {
    }
    assert AllIntact(s'.net.a.ep.recvRing, n.ba[1..], s'.atA);
  }

  // Runs.

  function WireSeenBy(b: bool, s: Wire): Wire {
    if b then SwapWire(s) else s
  }

  predicate CanMoveWire(s: Wire, move: (bool, Action)) {
    CanAct(WireSeenBy(move.0, s), move.1)
  }

  function MoveWire(s: Wire, move: (bool, Action)): Wire
    requires CanMoveWire(s, move)
  {
    WireSeenBy(move.0, Act(WireSeenBy(move.0, s), move.1))
  }

  predicate IsLandingRun(size: nat, run: seq<Wire>, acts: seq<(bool, Action)>) {
    && 64 <= size < U32 && size % ALIGNMENT == 0
    && |run| == |acts| + 1 && run[0] == Wire(Connected(size), 0, 0)
    && forall i :: 0 <= i < |acts| ==> CanMoveWire(run[i], acts[i]) && run[i + 1] == MoveWire(run[i], acts[i])
  }

  function SwapWires(run: seq<Wire>): seq<Wire> {
    seq(|run|, i requires 0 <= i < |run| => SwapWire(run[i]))
  }

  function FlipActs(acts: seq<(bool, Action)>): seq<(bool, Action)> {
    seq(|acts|, i requires 0 <= i < |acts| => (!acts[i].0, acts[i].1))
  }

  /** The peers are alike here too. */
  lemma SwapLandingRun(size: nat, run: seq<Wire>, acts: seq<(bool, Action)>)
    requires IsLandingRun(size, run, acts)
    ensures IsLandingRun(size, SwapWires(run), FlipActs(acts))
  {
    var run', acts' := SwapWires(run), FlipActs(acts);
    forall i | 0 <= i < |acts'| ensures CanMoveWire(run'[i], acts'[i]) && run'[i + 1] == MoveWire(run'[i], acts'[i]) {
      assert CanMoveWire(run[i], acts[i]);
    }
  }

  /** The moves of the peers, without the landings. */
  function Events(acts: seq<(bool, Action)>): seq<(bool, Event)> {
    if acts == [] then []
    else
      var k := |acts| - 1;
      Events(acts[..k]) + (if acts[k].1.Do? then [(acts[k].0, acts[k].1.ev)] else [])
  }

  lemma ActKeeps(s: Wire, n: Net, act: Action)
    requires Inv(s, n) && CanAct(s, act) && StaysWithin(s, act)
    ensures act.Do? ==> CanStep(n, act.ev)
    ensures Inv(Act(s, act), if act.Do? then Step(n, act.ev) else n)
  {
    match act
    case Do(ev) =>
      if ev.ArriveEvent? {
        ArriveKeeps(s, n);
      } else {
        SilentKeeps(s, n, ev);
      }
    case LandNext => LandKeeps(s, n);
  }

  lemma MoveWireKeeps(s: Wire, n: Net, move: (bool, Action))
    requires Inv(s, n) && CanMoveWire(s, move) && StaysWithin(WireSeenBy(move.0, s), move.1)
    ensures move.1.Do? ==> CanMove(n, (move.0, move.1.ev))
    ensures Inv(MoveWire(s, move), if move.1.Do? then Move(n, (move.0, move.1.ev)) else n)
  {
    ActKeeps(WireSeenBy(move.0, s), SeenBy(move.0, n), move.1);
  }

  lemma ExtendRun(size: nat, run: seq<Net>, moves: seq<(bool, Event)>, move: (bool, Event))
    requires IsRun(size, run, moves) && CanMove(run[|moves|], move)
    ensures IsRun(size, run + [Move(run[|moves|], move)], moves + [move])
  {
    var run', moves' := run + [Move(run[|moves|], move)], moves + [move];
    forall i | 0 <= i < |moves'| ensures CanMove(run'[i], moves'[i]) && run'[i + 1] == Move(run'[i], moves'[i]) {
      if i < |moves| {
        assert run'[i] == run[i] && run'[i + 1] == run[i + 1] && moves'[i] == moves[i];
      }
    }
  }

  /** Up to `k`, every batch without messages ended within a ring of what its receiver had processed. */
  predicate AllWithin(run: seq<Wire>, acts: seq<(bool, Action)>, k: nat)
    requires k <= |acts| < |run|
  {
    forall i :: 0 <= i < k ==> StaysWithin(WireSeenBy(acts[i].0, run[i]), acts[i].1)
  }

  lemma RefineMove(size: nat, model: seq<Net>, moves: seq<(bool, Event)>, s: Wire, move: (bool, Action))
    returns (model': seq<Net>, moves': seq<(bool, Event)>)
    requires IsRun(size, model, moves) && Inv(s, model[|moves|])
    requires CanMoveWire(s, move) && StaysWithin(WireSeenBy(move.0, s), move.1)
    ensures IsRun(size, model', moves') && Inv(MoveWire(s, move), model'[|moves'|])
    ensures moves' == moves + (if move.1.Do? then [(move.0, move.1.ev)] else [])
  {
    MoveWireKeeps(s, model[|moves|], move);
    model', moves' := model, moves;
    if move.1.Do? {
      ExtendRun(size, model, moves, (move.0, move.1.ev));
      model', moves' := model + [Move(model[|moves|], (move.0, move.1.ev))], moves + [(move.0, move.1.ev)];
    }
  }

  /** The peers then go through a run of DcRuns, and what has landed is intact. */
  lemma {:induction false} Refines(size: nat, run: seq<Wire>, acts: seq<(bool, Action)>, k: nat)
    returns (model: seq<Net>, moves: seq<(bool, Event)>)
    requires IsLandingRun(size, run, acts) && k < |run| && AllWithin(run, acts, k)
    ensures IsRun(size, model, moves) && moves == Events(acts[..k]) && Inv(run[k], model[|moves|])
  {
    if k == 0 {
      model, moves := [Connected(size)], [];
      ConnectedInv(size);
    } else {
      model, moves := Refines(size, run, acts, k - 1);
      assert acts[..k][..k - 1] == acts[..k - 1];
      model, moves := RefineMove(size, model, moves, run[k - 1], acts[k - 1]);
    }
  }

  /**
   * Batches that have landed stand in the receive rings as they were sent until they are
   * processed, the next of them can be processed, and the streams agree.
   */
  lemma LandedStreamsAgree(size: nat, run: seq<Wire>, acts: seq<(bool, Action)>, k: nat)
    requires IsLandingRun(size, run, acts) && k < |run| && AllWithin(run, acts, k)
    ensures var s, n := run[k], run[k].net;
            && AllIntact(n.b.ep.recvRing, n.ab, s.atB) && AllIntact(n.a.ep.recvRing, n.ba, s.atA)
            && (s.atA > 0 ==> CanMoveWire(s, (false, Do(ArriveEvent))))
            && (s.atB > 0 ==> CanMoveWire(s, (true, Do(ArriveEvent))))
            && n.a.sent == n.b.inbox.decoded + Payloads(n.ab) + n.a.open
            && n.b.sent == n.a.inbox.decoded + Payloads(n.ba) + n.b.open
  {
    var model, moves := Refines(size, run, acts, k);
    var s, n := run[k], model[|moves|];
    StreamAgreement(size, model, moves, |moves|);
    if s.atA > 0 {
      ArriveFollows(s, n);
    }
    if s.atB > 0 {
      ArriveFollows(SwapWire(s), Swap(n));
    }
  }

  /** What the sender itself can check: the batch ends within a ring of the credit it was given. */
  predicate Guarded(s: Wire, act: Action) {
    act.Do? && act.ev.FlushEvent? && |s.net.a.ep.sendRing| > 0 &&
    SendsEmpty(s.net.a.ep, act.ev.batch, act.ev.wrap, act.ev.credit) ==>
      EmptyEnd(s.net.a.ep) <= s.net.a.ep.remoteConsumer + |s.net.a.ep.sendRing|
  }

  /** Peers that check this stay within the ring, and LandedStreamsAgree applies. */
  lemma {:induction false} GuardSuffices(size: nat, run: seq<Wire>, acts: seq<(bool, Action)>, k: nat)
    requires IsLandingRun(size, run, acts) && k <= |acts|
    requires forall i :: 0 <= i < k ==> Guarded(WireSeenBy(acts[i].0, run[i]), acts[i].1)
    ensures AllWithin(run, acts, k)
  {
    if k > 0 {
      GuardSuffices(size, run, acts, k - 1);
      var model, moves := Refines(size, run, acts, k - 1);
      var n := SeenBy(acts[k - 1].0, model[|moves|]);
      CreditBehind(n.b, n.ba, n.a);
    }
  }

  /** That a flush stays within the ring means that its batch without messages clashes with nothing. */
  lemma WithinExactly(s: Wire, n: Net, batch: Submit, wrap: Submit, credit: Submit)
    requires Inv(s, n) && SendsEmpty(s.net.a.ep, batch, wrap, credit)
    ensures var e := s.net.a.ep;
            StaysWithin(s, Do(FlushEvent(batch, wrap, credit))) <==>
            !Clashes(s.net.b.ep.lastRecv, EmptyStart(e), EmptyEnd(e), |e.sendRing|)
  {
    var e, received := s.net.a.ep, s.net.b.ep.lastRecv;
    EmptySpan(e);
    ChainForward(n.ab, received, e.flushStart, |e.sendRing|);
    if received < EmptyStart(e) {
      ClashesExactly(received, EmptyStart(e), EmptyEnd(e), |e.sendRing|);
    }
  }
}
