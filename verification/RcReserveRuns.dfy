/** When what an RC endpoint sends has space in the remote ring, over runs of two endpoints. */
module RcReserveRuns {
  import opened RingPos
  import opened RcEndpointSpec
  import opened RcReserve
  import opened RcCredit
  import opened RcPositions

  // Header-only wraps, seen from the sender.

  /** Making room sends a wrap that is only its metadata. */
  predicate SendsHeaderOnly(e: Ep, size: nat, a: Answers)
    requires e.sendSize > 0
  {
    Wraps(e, size, a.batch) && a.wrap && WrapEnd(e) == WrapStart(e) + FLOW_METADATA_SIZE
  }

  predicate NoneHeaderOnly(w: seq<Wire>) {
    forall i :: 0 <= i < |w| ==> !HeaderOnly(w[i])
  }

  lemma FlushSendsMessages(e: Ep, sent: bool)
    requires EpInv(e)
    ensures NoneHeaderOnly(Flush(e, sent).wires)
  {
  }

  lemma RoomWires(e: Ep, size: nat, a: Answers)
    requires EpInv(e)
    ensures SendsHeaderOnly(e, size, a) || NoneHeaderOnly(HandleWrap(e, size, a.batch, a.wrap).wires)
  {
    EmitOpenKeeps(e, a.batch);
    FlushSendsMessages(e, a.batch);
  }

  lemma CallWires(e: Ep, len: nat, responseAllowance: nat, a: Answers)
    requires EpInv(e)
    requires e.balance >= InternalAllowance(responseAllowance) ==> !SendsHeaderOnly(e, PaddedSize(len), a)
    ensures NoneHeaderOnly(Call(e, len, responseAllowance, a).0.wires)
  {
    FlushSendsMessages(e, a.flush);
    if e.remoteSize.Some? && e.balance >= InternalAllowance(responseAllowance) {
      HandleWrapKeeps(e, PaddedSize(len), a.batch, a.wrap);
      RoomWires(e, PaddedSize(len), a);
      FlushSendsMessages(HandleWrap(e, PaddedSize(len), a.batch, a.wrap).ep, a.flush);
    }
  }

  lemma ReplyWires(e: Ep, len: nat, allowance: nat, a: Answers)
    requires EpInv(e) && !SendsHeaderOnly(e, PaddedSize(len), a)
    ensures NoneHeaderOnly(Reply(e, len, allowance, a).0.wires)
  {
    RoomWires(e, PaddedSize(len), a);
  }

  // Tame operations.

  /**
   * What the peer that acts can tell from its own state: its call wraps only where the wrap fits,
   * its reply is within the allowance of the request, no wrap fails, and none is header-only.
   */
  predicate Tame(n: Net, ev: Event)
    requires CanStep(n, ev)
  {
    match ev
    case CallEvent(len, responseAllowance, a) =>
      && CallTame(n.a.ep, len, responseAllowance, a)
      && (n.a.ep.balance >= InternalAllowance(responseAllowance) ==> !SendsHeaderOnly(n.a.ep, PaddedSize(len), a))
    case ReplyEvent(i, len, a) =>
      && WithinAllowance(len, n.a.handles[i]) && ReplyTame(n.a.ep, len, a)
      && !SendsHeaderOnly(n.a.ep, PaddedSize(len), a)
    case FlushEvent(_) => true
    case ArriveEvent => true
  }

  /** What `a` can rely on, as long as its own operations are tame. */
  predicate Tidy(n: Net, t: Tally) {
    NetInv(n) && Laws(n, t) && Snug(n.a.ep) && NoneHeaderOnly(n.ab) && t.skipsB == 0
  }

  lemma ArriveSnug(n: Net, t: Tally)
    requires Tidy(n, t) && n.ba != []
    ensures Snug(Step(n, ArriveEvent).a.ep)
  {
    ArriveKeepsLaws(n, t);
  }

  lemma TameStepSnug(n: Net, ev: Event, t: Tally)
    requires Tidy(n, t) && CanStep(n, ev) && Tame(n, ev)
    ensures Snug(Step(n, ev).a.ep)
  {
    match ev
    case CallEvent(len, responseAllowance, a) => CallSnugExactly(n.a.ep, len, responseAllowance, a);
    case ReplyEvent(i, len, a) =>
      HandleCovered(n.a.handles, i);
      ReplySnugExactly(n.a.ep, len, n.a.handles[i], a);
    case FlushEvent(sent) => FlushSnug(n.a.ep, sent);
    case ArriveEvent => ArriveSnug(n, t);
  }

  lemma TameStepWires(n: Net, ev: Event)
    requires CanStep(n, ev) && Tame(n, ev) && NoneHeaderOnly(n.ab)
    ensures NoneHeaderOnly(Step(n, ev).ab) && Step(n, ev).b == n.b
  {
    match ev
    case CallEvent(len, responseAllowance, a) => CallWires(n.a.ep, len, responseAllowance, a);
    case ReplyEvent(i, len, a) => ReplyWires(n.a.ep, len, n.a.handles[i], a);
    case FlushEvent(sent) => FlushSendsMessages(n.a.ep, sent);
    case ArriveEvent =>
  }

  lemma TameStepTidy(n: Net, ev: Event, t: Tally)
    requires Tidy(n, t) && CanStep(n, ev) && Tame(n, ev)
    ensures Tidy(Step(n, ev), Count(n, ev, t))
  {
    RcCredit.StepKeeps(n, ev);
    StepKeepsLaws(n, ev, t);
    TameStepSnug(n, ev, t);
    TameStepWires(n, ev);
  }

  /** Whatever the peer does. */
  lemma PeerStepTidy(n: Net, ev: Event, t: Tally)
    requires Tidy(n, t) && CanStep(Swap(n), ev)
    ensures Tidy(Swap(Step(Swap(n), ev)), SwapTally(Count(Swap(n), ev, SwapTally(t))))
  {
    RcCredit.StepKeeps(Swap(n), ev);
    StepKeepsLaws(Swap(n), ev, SwapTally(t));
  }

  /** The moves of `a` up to `k` are tame; those of `b` are arbitrary. */
  predicate TameUpTo(x: Ep, y: Ep, run: seq<Net>, moves: seq<(bool, Event)>, k: nat) {
    && IsRun(x, y, run, moves) && k < |run| && EqualRings(x, y) && x.sendSize >= 64
    && forall i :: 0 <= i < k && !moves[i].0 ==> Tame(run[i], moves[i].1)
  }

  lemma {:induction false} RunTidy(x: Ep, y: Ep, run: seq<Net>, moves: seq<(bool, Event)>, k: nat)
    requires TameUpTo(x, y, run, moves, k)
    ensures Tidy(run[k], TallyAt(x, y, run, moves, k))
  {
    if k == 0 {
      RunInv(x, y, run, moves, 0);
    } else {
      RunTidy(x, y, run, moves, k - 1);
      var n, t := run[k - 1], TallyAt(x, y, run, moves, k - 1);
      if moves[k - 1].0 {
        PeerStepTidy(n, moves[k - 1].1, t);
      } else {
        TameStepTidy(n, moves[k - 1].1, t);
      }
    }
  }

  lemma ReplySpace(n: Net, t: Tally, i: nat, len: nat, a: Answers)
    requires Tidy(n, t) && i < |n.a.handles| && WithinAllowance(len, n.a.handles[i])
    ensures Step(n, ReplyEvent(i, len, a)).a.ep.producer <= n.b.ep.recvProducer + n.b.ep.recvSize
  {
    HandleCovered(n.a.handles, i);
    ReplySnugExactly(n.a.ep, len, n.a.handles[i], a);
    ReplySends(n.a.ep, len, n.a.handles[i], a);
  }

  /**
   * Replies have space: as long as its own moves are tame, whatever `a` replies to a request it
   * holds, within the allowance of that request, ends within one ring of what `b` has processed.
   */
  lemma RepliesHaveSpace(x: Ep, y: Ep, run: seq<Net>, moves: seq<(bool, Event)>, k: nat, i: nat, len: nat, a: Answers)
    requires TameUpTo(x, y, run, moves, k) && i < |run[k].a.handles| && WithinAllowance(len, run[k].a.handles[i])
    ensures CanStep(run[k], ReplyEvent(i, len, a))
    ensures Step(run[k], ReplyEvent(i, len, a)).a.ep.producer <= run[k].b.ep.recvProducer + run[k].b.ep.recvSize
  {
    RunTidy(x, y, run, moves, k);
    ReplySpace(run[k], TallyAt(x, y, run, moves, k), i, len, a);
  }

  /** So does all that `a` has sent: no two bytes that `b` has yet to process share a place in its ring. */
  lemma SentHasSpace(x: Ep, y: Ep, run: seq<Net>, moves: seq<(bool, Event)>, k: nat, pos: nat)
    requires TameUpTo(x, y, run, moves, k) && run[k].b.ep.recvProducer <= pos <= run[k].a.ep.flushStart
    ensures var received, sent, size := run[k].b.ep.recvProducer, run[k].a.ep.flushStart, run[k].b.ep.recvSize;
            size > 0 && sent <= received + size && !Clashes(received, pos, sent, size)
  {
    RunTidy(x, y, run, moves, k);
    var received, sent, size := run[k].b.ep.recvProducer, run[k].a.ep.flushStart, run[k].b.ep.recvSize;
    if received < pos < sent {
      ClashesExactly(received, pos, sent, size);
    }
  }

  lemma CalledSpace(e: Ep, len: nat, responseAllowance: nat, a: Answers, received: nat)
    requires EpInv(e) && OpenSized(e) && e.remoteSize.Some? && e.remoteConsumer <= received
    requires Call(e, len, responseAllowance, a).1.Called?
    ensures var e' := Call(e, len, responseAllowance, a).0.ep;
            e'.producer + 2 * e'.reservation <= received + e.remoteSize.value
  {
    CalledHasReserve(e, len, responseAllowance, a);
    CallSends(e, len, responseAllowance, a);
  }

  /**
   * In any run in which `b` has processed no header-only wrap, a call of `a` that succeeds leaves
   * room for twice the reservation beside all that `b` has yet to process.
   */
  lemma CalledHasSpace(x: Ep, y: Ep, run: seq<Net>, moves: seq<(bool, Event)>, k: nat, len: nat,
                       responseAllowance: nat, a: Answers)
    requires IsRun(x, y, run, moves) && EqualRings(x, y) && k < |run| && TallyAt(x, y, run, moves, k).skipsB == 0
    requires CanStep(run[k], CallEvent(len, responseAllowance, a))
    requires Call(run[k].a.ep, len, responseAllowance, a).1.Called?
    ensures var e := Step(run[k], CallEvent(len, responseAllowance, a)).a.ep;
            e.producer + 2 * e.reservation <= run[k].b.ep.recvProducer + run[k].b.ep.recvSize
  {
    OverReturnedExactly(x, y, run, moves, k);
    RunLaws(x, y, run, moves, k);
    CalledSpace(run[k].a.ep, len, responseAllowance, a, run[k].b.ep.recvProducer);
  }
}
