/** A limit beyond the depth of the rings lets a reply wait: the caller need only not receive. */
module FetchAddReplyGap {
  import opened RingPos
  import Req = FetchAdd
  import Proof = FetchAddProof
  import Ring = ResponseRing
  import opened FetchAddReply

  /** The channel: callers, depth and limit. */
  datatype Config = Config(callers: nat, depth: nat, limit: nat)

  datatype Trace = Trace(run: seq<Sys>, acts: seq<Action>)

  predicate Reaches(g: Config, t: Trace, s: Sys) {
    IsRun(g.callers, g.depth, g.limit, t.run, t.acts) && t.run[|t.acts|] == s
  }

  lemma Extend(g: Config, t: Trace, s: Sys, act: Action) returns (t': Trace, s': Sys)
    requires Reaches(g, t, s) && Enabled(s, act)
    ensures s' == Step(s, act) && Reaches(g, t', s')
  {
    s' := Step(s, act);
    t' := Trace(t.run + [s'], t.acts + [act]);
    forall i | 0 <= i < |t'.acts|
      ensures Enabled(t'.run[i], t'.acts[i]) && t'.run[i + 1] == Step(t'.run[i], t'.acts[i])
    {
      if i < |t.acts| {
        assert t'.run[i] == t.run[i] && t'.run[i + 1] == t.run[i + 1] && t'.acts[i] == t.acts[i];
      }
    }
  }

  lemma Reached(g: Config, t: Trace, s: Sys)
    requires Reaches(g, t, s) && g.depth > 1
    ensures SysInv(s, g.depth) && s.maxInflight == g.limit
  {
    RunInv(g.callers, g.depth, g.limit, t.run, t.acts, |t.acts|);
  }

  /** Caller 0 has `i` responses in its ring, and receives none. */
  predicate Holding(s: Sys, i: nat) {
    && 0 < |s.rings| == |s.inflight| && s.reply.None?
    && s.rings[0].push.PushIdle? && s.rings[0].pop.PopIdle? && |s.rings[0].pushed| == i && s.rings[0].popped == []
  }

  /** It has sent as many requests, and nothing else is under way. */
  predicate Quiet(s: Sys, i: nat) {
    && Holding(s, i) && s.owed == [] && s.inflight[0] == i
    && s.req.server.Ready? && Req.At(s.req, 0).Idle? && s.req.head == s.req.tail
  }

  // A call.

  /** Caller 0 is at `l`, with the next ticket of an otherwise empty ring. */
  predicate Calling(s: Sys, i: nat, l: Req.Local) {
    && Holding(s, i) && s.owed == [] && s.inflight[0] == i
    && s.req.server.Ready? && Req.At(s.req, 0) == l && s.req.head == s.req.tail + 1 && Req.Sized(s.req)
  }

  lemma DrawsTicket(g: Config, t: Trace, s: Sys, i: nat) returns (t': Trace, s': Sys)
    requires Reaches(g, t, s) && g.depth > 1 && Quiet(s, i) && i < g.limit
    ensures Reaches(g, t', s') && Calling(s', i, Req.Drawn(s'.req.tail, 0))
  {
    Reached(g, t, s);
    t', s' := Extend(g, t, s, RequestStep(0, Req.BeginCall(0)));
    t', s' := Extend(g, t', s', RequestStep(0, Req.DrawTicket));
  }

  lemma FindsTurn(g: Config, t: Trace, s: Sys, i: nat) returns (t': Trace, s': Sys)
    requires Reaches(g, t, s) && g.depth > 1 && Calling(s, i, Req.Drawn(s.req.tail, 0))
    ensures Reaches(g, t', s') && Calling(s', i, Req.Claimed(s'.req.tail, 0))
  {
    Reached(g, t, s);
    assert Proof.CallerOk(s.req, 0);
    t', s' := Extend(g, t, s, RequestStep(0, Req.LoadSeq));
  }

  lemma FillsSlot(g: Config, t: Trace, s: Sys, i: nat) returns (t': Trace, s': Sys)
    requires Reaches(g, t, s) && Calling(s, i, Req.Claimed(s.req.tail, 0))
    ensures Reaches(g, t', s') && Calling(s', i, Req.Filled(s'.req.tail, 0))
  {
    t', s' := Extend(g, t, s, RequestStep(0, Req.StoreCaller));
    t', s' := Extend(g, t', s', RequestStep(0, Req.StoreData));
  }

  /** The request is published, and the call has returned. */
  predicate Published(s: Sys, i: nat) {
    && Holding(s, i) && s.owed == [] && s.inflight[0] == i + 1
    && Req.At(s.req, 0).Idle? && s.req.head == s.req.tail + 1 && Req.Sized(s.req)
    && s.req.seqs[Req.SlotOf(s.req, s.req.tail)] == s.req.tail + 1
  }

  lemma Publishes(g: Config, t: Trace, s: Sys, i: nat) returns (t': Trace, s': Sys)
    requires Reaches(g, t, s) && Calling(s, i, Req.Filled(s.req.tail, 0))
    ensures Reaches(g, t', s') && Published(s', i) && s'.req.server.Ready?
  {
    t', s' := Extend(g, t, s, RequestStep(0, Req.StoreSeq));
    t', s' := Extend(g, t', s', RequestStep(0, Req.ReturnToken));
  }

  // The server receives it.

  lemma Reads(g: Config, t: Trace, s: Sys, i: nat) returns (t': Trace, s': Sys)
    requires Reaches(g, t, s) && Published(s, i) && s.req.server.Ready?
    ensures Reaches(g, t', s') && Published(s', i) && s'.req.server.ReadData?
  {
    t', s' := Extend(g, t, s, RequestStep(0, Req.LoadSeqServer));
    t', s' := Extend(g, t', s', RequestStep(0, Req.LoadCaller));
    t', s' := Extend(g, t', s', RequestStep(0, Req.LoadData));
  }

  /** The request is owed a reply. */
  predicate Owing(s: Sys, i: nat) {
    && Holding(s, i) && |s.owed| == 1 && s.inflight[0] == i + 1
    && s.req.server.Ready? && Req.At(s.req, 0).Idle? && s.req.head == s.req.tail
  }

  lemma Takes(g: Config, t: Trace, s: Sys, i: nat) returns (t': Trace, s': Sys)
    requires Reaches(g, t, s) && Published(s, i) && s.req.server.ReadData?
    ensures Reaches(g, t', s') && Owing(s', i)
  {
    t', s' := Extend(g, t, s, RequestStep(0, Req.ReleaseSlot));
    t', s' := Extend(g, t', s', RequestStep(0, Req.StoreTail));
    t', s' := Extend(g, t', s', RequestStep(0, Req.TakeToken));
  }

  lemma SendsRequest(g: Config, t: Trace, s: Sys, i: nat) returns (t': Trace, s': Sys)
    requires Reaches(g, t, s) && g.depth > 1 && Quiet(s, i) && i < g.limit
    ensures Reaches(g, t', s') && Owing(s', i)
  {
    t', s' := DrawsTicket(g, t, s, i);
    t', s' := FindsTurn(g, t', s', i);
    t', s' := FillsSlot(g, t', s', i);
    t', s' := Publishes(g, t', s', i);
    t', s' := Reads(g, t', s', i);
    t', s' := Takes(g, t', s', i);
  }

  // The reply.

  /** All that caller 0 has sent has been received; so it is caller 0 that is owed a reply. */
  lemma OwedToFirst(s: Sys, depth: nat, i: nat)
    requires SysInv(s, depth) && Owing(s, i)
    ensures s.owed[0].caller == 0
  {
    assert CountOk(s, 0) && RingOk(s.rings[0], depth) && s.rings[0].readPos == 0;
    assert Proof.SendOk(s.req, 0);
    assert Req.CountOf(s.req.sendCounts, 0) == Proof.Before(s.req.tickets, s.req.head, 0);
    assert Proof.Tokens(s.req) && |s.req.received| == s.req.tail;
    assert Req.CountOf(s.req.recvCounts, 0) == Proof.Before(s.req.tickets, |s.req.received|, 0);
    assert OwedTo(s.owed, 0) == 1;
    assert s.owed[1..] == [] && OwedTo(s.owed[1..], 0) == 0;
  }

  /** A reply to caller 0 has begun. */
  predicate Answering(s: Sys, i: nat) {
    && 0 < |s.rings| == |s.inflight| && s.inflight[0] == i + 1 && s.owed == []
    && s.reply.Some? && s.reply.value.caller == 0
    && s.rings[0].pop.PopIdle? && s.rings[0].popped == []
    && s.req.server.Ready? && Req.At(s.req, 0).Idle? && s.req.head == s.req.tail
  }

  lemma Begins(g: Config, t: Trace, s: Sys, i: nat) returns (t': Trace, s': Sys)
    requires Reaches(g, t, s) && g.depth > 1 && Owing(s, i)
    ensures Reaches(g, t', s') && Answering(s', i) && s'.rings == s.rings
  {
    Reached(g, t, s);
    OwedToFirst(s, g.depth, i);
    t', s' := Extend(g, t, s, BeginReply(0, 0));
    assert s'.owed == [];
  }

  lemma Checks(g: Config, t: Trace, s: Sys, i: nat) returns (t': Trace, s': Sys)
    requires Reaches(g, t, s) && g.depth > 1 && Answering(s, i) && i < g.depth
    requires s.rings[0].push.PushIdle? && |s.rings[0].pushed| == i
    ensures Reaches(g, t', s') && Answering(s', i)
    ensures s'.rings[0].push.Checked? && |s'.rings[0].pushed| == i && Ring.Sized(s'.rings[0])
  {
    Reached(g, t, s);
    assert RingOk(s.rings[0], g.depth);
    assert Ring.Free(s.rings[0], s.rings[0].writePos);
    t', s' := Extend(g, t, s, ReplyStep);
  }

  lemma Pushes(g: Config, t: Trace, s: Sys, i: nat) returns (t': Trace, s': Sys)
    requires Reaches(g, t, s) && Answering(s, i)
    requires s.rings[0].push.Checked? && |s.rings[0].pushed| == i && Ring.Sized(s.rings[0])
    ensures Reaches(g, t', s') && Quiet(s', i + 1)
  {
    t', s' := Extend(g, t, s, ReplyStep);
    t', s' := Extend(g, t', s', ReplyStep);
    t', s' := Extend(g, t', s', ReplyStep);
  }

  lemma {:induction false} FillsRing(g: Config, i: nat) returns (t: Trace, s: Sys)
    requires g.callers > 0 && g.depth > 1 && i <= g.depth && i <= g.limit
    ensures Reaches(g, t, s) && Quiet(s, i)
  {
    if i == 0 {
      s := Start(g.callers, g.depth, g.limit);
      t := Trace([s], []);
    } else {
      t, s := FillsRing(g, i - 1);
      t, s := SendsRequest(g, t, s, i - 1);
      t, s := Begins(g, t, s, i - 1);
      t, s := Checks(g, t, s, i - 1);
      t, s := Pushes(g, t, s, i - 1);
    }
  }

  /** The response ring is full, and its oldest entry stands where the next one is to go. */
  lemma FullRingWaits(s: Sys, depth: nat)
    requires SysInv(s, depth) && Answering(s, depth)
    requires s.rings[0].push.PushIdle? && |s.rings[0].pushed| == depth
    ensures Waits(s)
  {
    var r := s.rings[0];
    assert RingOk(r, depth) && Ring.Full(r, 0);
    OffsetPeriodic(0, depth);
  }

  /** One request more than the ring is deep. */
  lemma ReplyWaits(g: Config) returns (t: Trace, s: Sys)
    requires g.callers > 0 && g.depth > 1 && g.limit > g.depth
    ensures Reaches(g, t, s) && Waits(s)
  {
    t, s := FillsRing(g, g.depth);
    t, s := SendsRequest(g, t, s, g.depth);
    t, s := Begins(g, t, s, g.depth);
    Reached(g, t, s);
    FullRingWaits(s, g.depth);
  }

  ghost predicate NoReplyWaits(g: Config) {
    forall run, acts, k :: IsRun(g.callers, g.depth, g.limit, run, acts) && 0 <= k < |run| ==> !Waits(run[k])
  }

  /**
   * With two slots or more, no reply ever waits for its slot in the response ring exactly if the
   * limit on requests in flight is at most the depth of the rings.
   */
  lemma NoReplyWaitsExactly(g: Config)
    requires g.callers > 0 && g.depth > 1
    ensures NoReplyWaits(g) <==> g.limit <= g.depth
  {
    if g.limit <= g.depth {
      forall run, acts, k | IsRun(g.callers, g.depth, g.limit, run, acts) && 0 <= k < |run| ensures !Waits(run[k]) {
        RepliesNeverWait(g.callers, g.depth, g.limit, run, acts, k);
      }
    } else {
      var t, s := ReplyWaits(g);
      assert Waits(t.run[|t.acts|]);
    }
  }
}
