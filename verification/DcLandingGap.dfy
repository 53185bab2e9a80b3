/** A run in which a wrap destroys messages that have landed and are yet to be processed. */
module DcLandingGap {
  import opened Prelude
  import opened RingPos
  import opened DcEncoding
  import opened DcBatch
  import opened DcReceive
  import opened DcRuns
  import opened DcCreditGap
  import opened DcLanding

  /** Before anything lands, both machines do the same. */
  lemma LiftRun(t: Trace, n: Net) returns (run: seq<Wire>, acts: seq<(bool, Action)>)
    requires Reaches(t, n) && NoArrival(t)
    ensures IsLandingRun(SIZE, run, acts) && |acts| == |t.moves| && run[|acts|] == Wire(n, 0, 0)
  {
    run := seq(|t.run|, i requires 0 <= i < |t.run| => Wire(t.run[i], 0, 0));
    acts := seq(|t.moves|, i requires 0 <= i < |t.moves| => (t.moves[i].0, Do(t.moves[i].1)));
    forall i | 0 <= i < |acts| ensures CanMoveWire(run[i], acts[i]) && run[i + 1] == MoveWire(run[i], acts[i]) {
      assert CanMove(t.run[i], t.moves[i]) && !t.moves[i].1.ArriveEvent?;
    }
  }

  lemma ExtendLanding(run: seq<Wire>, acts: seq<(bool, Action)>, s: Wire, move: (bool, Action))
    returns (run': seq<Wire>, acts': seq<(bool, Action)>, s': Wire)
    requires IsLandingRun(SIZE, run, acts) && run[|acts|] == s && CanMoveWire(s, move)
    ensures s' == MoveWire(s, move) && |acts'| == |acts| + 1
    ensures IsLandingRun(SIZE, run', acts') && run'[|acts'|] == s'
  {
    s' := MoveWire(s, move);
    run', acts' := run + [s'], acts + [move];
    forall i | 0 <= i < |acts'| ensures CanMoveWire(run'[i], acts'[i]) && run'[i + 1] == MoveWire(run'[i], acts'[i]) {
      if i < |acts| {
        assert run'[i] == run[i] && run'[i + 1] == run[i + 1] && acts'[i] == acts[i];
      }
    }
  }

  const LAND: (bool, Action) := (true, LandNext)

  lemma LandsAtB(s: Wire)
    requires |s.net.b.ep.recvRing| > 0 && s.atB < |s.net.ab| && FitsRing(s.net.b.ep.recvRing, s.net.ab[s.atB])
    ensures CanMoveWire(s, LAND)
    ensures var s', b := MoveWire(s, LAND), s.net.ab[s.atB];
            && s' == s.(net := s.net.(b := WithRing(s.net.b, s'.net.b.ep.recvRing)), atB := s.atB + 1)
            && s'.net.b.ep.recvRing == WriteAt(s.net.b.ep.recvRing, Offset(b.start, |s.net.b.ep.recvRing|), b.bytes)
  {
  }

  /** Different headers at one place: only one of the batches can stand there. */
  lemma WrapHidesMessages(ring: Bytes, b: Batch, wrap: Batch)
    requires BatchOk(b) && BatchOk(wrap) && b.msgs != [] && IsWrap(wrap) && Intact(ring, wrap)
    requires Offset(b.start, |ring|) == Offset(wrap.start, |ring|)
    ensures !Intact(ring, b)
  {
    if Intact(ring, b) {
      var off := Offset(b.start, |ring|);
      SliceOfSlice(ring, off, off + |b.bytes|, 0, BATCH_HEADER_SIZE);
      SliceOfSlice(ring, off, off + |wrap.bytes|, 0, BATCH_HEADER_SIZE);
      assert b.bytes[0..BATCH_HEADER_SIZE] == wrap.bytes[0..BATCH_HEADER_SIZE];
      BatchHeaderRoundTrip(b.header);
      BatchHeaderRoundTrip(wrap.header);
      assert false;
    }
  }

  /** The state before the landings: what the wrap will cover has messages. */
  predicate WrapAhead(n: Net) {
    && NetInv(n) && |n.a.ep.sendRing| == SIZE && |n.ab| == 3 && n.b.ep.lastRecv == 0
    && n.ab[0].msgs != [] && n.ab[2].start == SIZE && |n.ab[2].bytes| == SIZE && IsWrap(n.ab[2])
  }

  lemma LandThree(run: seq<Wire>, acts: seq<(bool, Action)>, n: Net)
    returns (run': seq<Wire>, acts': seq<(bool, Action)>, s: Wire)
    requires IsLandingRun(SIZE, run, acts) && run[|acts|] == Wire(n, 0, 0) && WrapAhead(n)
    ensures IsLandingRun(SIZE, run', acts') && |acts'| == |acts| + 3 && run'[|acts'|] == s
    ensures s == Wire(n.(b := WithRing(n.b, s.net.b.ep.recvRing)), 0, 3)
    ensures |s.net.b.ep.recvRing| == SIZE && Intact(s.net.b.ep.recvRing, n.ab[2])
  {
    s := Wire(n, 0, 0);
    ChainMember(n.ab, 0, n.a.ep.flushStart, SIZE, 0);
    ChainMember(n.ab, 0, n.a.ep.flushStart, SIZE, 1);
    ChainMember(n.ab, 0, n.a.ep.flushStart, SIZE, 2);
    LandsAtB(s);
    run', acts', s := ExtendLanding(run, acts, s, LAND);
    LandsAtB(s);
    run', acts', s := ExtendLanding(run', acts', s, LAND);
    LandsAtB(s);
    run', acts', s := ExtendLanding(run', acts', s, LAND);
  }

  /** `b` decodes none of the messages of the batch at its position, and moves past them. */
  predicate Misreads(s: Wire) {
    && s.atB > 0 && s.net.ab != [] && s.net.ab[0].msgs != [] && !Intact(s.net.b.ep.recvRing, s.net.ab[0])
    && CanMoveWire(s, (true, Do(ArriveEvent)))
    && var b, b' := s.net.b, MoveWire(s, (true, Do(ArriveEvent))).net.b;
    && b'.inbox == b.inbox && b'.ep.lastRecv >= s.net.ab[0].start + |s.net.ab[0].bytes|
  }

  lemma WrapIsRead(s: Wire, n: Net)
    requires WrapAhead(n) && s == Wire(n.(b := WithRing(n.b, s.net.b.ep.recvRing)), 0, 3)
    requires |s.net.b.ep.recvRing| == SIZE && Intact(s.net.b.ep.recvRing, n.ab[2])
    ensures Misreads(s)
  {
    ChainMember(n.ab, 0, n.a.ep.flushStart, SIZE, 0);
    ChainMember(n.ab, 0, n.a.ep.flushStart, SIZE, 2);
    ChainOrder(n.ab, 0, n.a.ep.flushStart, SIZE, 0, 2);
    assert Offset(SIZE, SIZE) == 0 && Offset(0, SIZE) == 0;
    WrapHidesMessages(s.net.b.ep.recvRing, n.ab[0], n.ab[2]);
    ReceiveWrap(s.net.b.ep, n.ab[2], s.net.b.inbox);
  }

  /** A run of six moves and three landings after which `b` takes a wrap for the batch it was to process. */
  lemma WrapDestroysMessages() returns (run: seq<Wire>, acts: seq<(bool, Action)>)
    ensures IsLandingRun(SIZE, run, acts) && |acts| == 9 && Misreads(run[9])
  {
    var t, n := WrapMayOverwrite();
    RunInv(SIZE, t.run, t.moves, |t.moves|);
    run, acts := LiftRun(t, n);
    var s: Wire;
    run, acts, s := LandThree(run, acts, n);
    WrapIsRead(s, n);
  }
}
