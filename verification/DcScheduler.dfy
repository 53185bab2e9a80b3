/** Which DC endpoints are flushed, and when the flush loop ends. */
module DcScheduler {
  import opened Prelude
  import opened RingPos
  import opened DcEncoding
  import opened DcBatch
  import opened DcEndpointSpec
  import opened DcReceive
  import opened DcDirtyList
  import Stream = DcStream
  import Net = DcNet

  /** How the card answers the submissions of one `emit_pending`. */
  datatype Answers = Answers(batch: Submit, wrap: Submit, credit: Submit)

  /**
   * The endpoints of a context and its dirty list. `dropped` is history: endpoints whose last
   * flush attempt ended in an I/O error and which have not been marked dirty since.
   */
  datatype Sched = Sched(endpoints: map<nat, Ep>, list: seq<nat>, dropped: set<nat>)

  predicate SchedInv(s: Sched) {
    && Distinct(s.list) && (forall i :: 0 <= i < |s.list| ==> s.list[i] < DIRTY_NONE)
    && (forall id :: id in s.endpoints ==> EpInv(s.endpoints[id]))
  }

  predicate Pending(s: Sched, id: nat) {
    id in s.endpoints && HasPendingFlush(s.endpoints[id])
  }

  /** Every endpoint with a batch or a wrap to send will be found by the next flush. */
  ghost predicate Covered(s: Sched) {
    forall id :: Pending(s, id) ==> id in s.list || id in s.dropped
  }

  function MarkDirty(s: Sched, id: nat): Sched
    requires SchedInv(s)
  {
    s.(list := Enlist(s.list, id), dropped := s.dropped - {id})
  }

  // One turn of the flush loop.

  /** The loop stops at a full send queue and leaves the endpoint in the list. */
  function FlushOne(s: Sched, answers: Answers): (Sched, bool)
    requires SchedInv(s) && s.list != []
  {
    var id, rest := s.list[0], s.list[1..];
    if id !in s.endpoints then (s.(list := rest), true)
    else
      var (e, r) := EmitPending(s.endpoints[id], answers.batch, answers.wrap, answers.credit);
      var endpoints := s.endpoints[id := e];
      match r
      case Flushed(_) =>
        (Sched(endpoints, if HasPendingFlush(e) then rest + [id] else rest, s.dropped - {id}), true)
      case FlushFull => (Sched(endpoints, rest + [id], s.dropped - {id}), false)
      case FlushIo => (Sched(endpoints, rest, s.dropped + {id}), true)
  }

  /** How often an endpoint can still come up in the loop. */
  function Turns(endpoints: map<nat, Ep>, id: nat): nat {
    if id in endpoints && endpoints[id].batchCount > 0 then 2 else 1
  }

  function TotalTurns(endpoints: map<nat, Ep>, list: seq<nat>): nat {
    if list == [] then 0 else Turns(endpoints, list[0]) + TotalTurns(endpoints, list[1..])
  }

  lemma {:induction false} TurnsElsewhere(endpoints: map<nat, Ep>, id: nat, e: Ep, list: seq<nat>)
    requires id !in list
    ensures TotalTurns(endpoints[id := e], list) == TotalTurns(endpoints, list)
  {
    if list != [] {
      assert list[0] in list;
      TurnsElsewhere(endpoints, id, e, list[1..]);
    }
  }

  lemma {:induction false} TurnsAppend(endpoints: map<nat, Ep>, list: seq<nat>, id: nat)
    ensures TotalTurns(endpoints, list + [id]) == TotalTurns(endpoints, list) + Turns(endpoints, id)
  {
    if list == [] {
      assert list + [id] == [id];
    } else {
      assert (list + [id])[1..] == list[1..] + [id];
      TurnsAppend(endpoints, list[1..], id);
    }
  }

  /** An endpoint that still has work after a successful attempt has sent its batch, not its wrap. */
  lemma OnlyWrapRemains(e: Ep, answers: Answers)
    requires EpInv(e)
    ensures var (e', r) := EmitPending(e, answers.batch, answers.wrap, answers.credit);
            && EpInv(e')
            && (r.Flushed? && HasPendingFlush(e') ==> e.batchCount > 0 && e'.batchCount == 0)
            && (e.batchCount == 0 ==> e'.batchCount == 0)
  {
    EmitPendingKeeps(e, answers.batch, answers.wrap, answers.credit);
  }

  lemma RestOfDistinct(list: seq<nat>)
    requires Distinct(list) && list != []
    ensures Distinct(list[1..]) && list[0] !in list[1..] && Distinct(list[1..] + [list[0]])
    ensures forall id :: id in list ==> id == list[0] || id in list[1..]
  {
  }

  lemma FlushOneInv(s: Sched, answers: Answers)
    requires SchedInv(s) && s.list != []
    ensures SchedInv(FlushOne(s, answers).0)
  {
    RestOfDistinct(s.list);
    if s.list[0] in s.endpoints {
      OnlyWrapRemains(s.endpoints[s.list[0]], answers);
    }
  }

  lemma FlushOneCovers(s: Sched, answers: Answers)
    requires SchedInv(s) && s.list != [] && Covered(s)
    ensures Covered(FlushOne(s, answers).0)
  {
  }

  lemma FlushOneKeeps(s: Sched, answers: Answers)
    requires SchedInv(s) && s.list != []
    ensures SchedInv(FlushOne(s, answers).0)
    ensures Covered(s) ==> Covered(FlushOne(s, answers).0)
  {
    FlushOneInv(s, answers);
    if Covered(s) {
      FlushOneCovers(s, answers);
    }
  }

  lemma FlushOneDecreases(s: Sched, answers: Answers)
    requires SchedInv(s) && s.list != []
    ensures var (s', more) := FlushOne(s, answers);
            more ==> TotalTurns(s'.endpoints, s'.list) < TotalTurns(s.endpoints, s.list)
  {
    var id, rest := s.list[0], s.list[1..];
    RestOfDistinct(s.list);
    if id in s.endpoints {
      OnlyWrapRemains(s.endpoints[id], answers);
      var s' := FlushOne(s, answers).0;
      TurnsElsewhere(s.endpoints, id, s'.endpoints[id], rest);
      TurnsAppend(s'.endpoints, rest, id);
    }
  }

  /** `flush_endpoints`; `oracle` gives the answers of the card to the attempts from `k` on. */
  function FlushAll(s: Sched, oracle: nat -> Answers, k: nat): Sched
    requires SchedInv(s)
    decreases TotalTurns(s.endpoints, s.list)
  {
    if s.list == [] then s
    else
      FlushOneKeeps(s, oracle(k));
      FlushOneDecreases(s, oracle(k));
      var (s', more) := FlushOne(s, oracle(k));
      if more then FlushAll(s', oracle, k + 1) else s'
  }

  /**
   * The flush ends. Endpoints that still have work are in the list or have had an I/O error,
   * and if the list is not empty then the send queue was full.
   */
  lemma {:induction false} FlushAllKeeps(s: Sched, oracle: nat -> Answers, k: nat)
    requires SchedInv(s) && Covered(s)
    ensures SchedInv(FlushAll(s, oracle, k)) && Covered(FlushAll(s, oracle, k))
    decreases TotalTurns(s.endpoints, s.list)
  {
    if s.list != [] {
      FlushOneKeeps(s, oracle(k));
      FlushOneDecreases(s, oracle(k));
      if FlushOne(s, oracle(k)).1 {
        FlushAllKeeps(FlushOne(s, oracle(k)).0, oracle, k + 1);
      }
    }
  }

  predicate AllSent(a: Answers) {
    a.batch.Sent? && a.wrap.Sent? && a.credit.Sent?
  }

  lemma SentLeavesNothing(e: Ep, a: Answers)
    requires EpInv(e) && AllSent(a)
    ensures var (e', r) := EmitPending(e, a.batch, a.wrap, a.credit);
            r.Flushed? && !HasPendingFlush(e')
  {
  }

  /** If the card accepts everything, then a flush leaves nothing to send at any covered endpoint. */
  lemma {:induction false} FlushDrains(s: Sched, oracle: nat -> Answers, k: nat)
    requires SchedInv(s) && Covered(s) && s.dropped == {}
    requires forall j: nat :: AllSent(oracle(j))
    ensures var s' := FlushAll(s, oracle, k);
            s'.list == [] && s'.dropped == {} && forall id :: !Pending(s', id)
    decreases TotalTurns(s.endpoints, s.list)
  {
    if s.list != [] {
      assert AllSent(oracle(k));
      FlushOneKeeps(s, oracle(k));
      FlushOneDecreases(s, oracle(k));
      if s.list[0] in s.endpoints {
        SentLeavesNothing(s.endpoints[s.list[0]], oracle(k));
      }
      FlushDrains(FlushOne(s, oracle(k)).0, oracle, k + 1);
    }
  }

  predicate NoIo(a: Answers) {
    !a.batch.IoError? && !a.wrap.IoError? && !a.credit.IoError?
  }

  lemma FlushOneDropsNothing(s: Sched, a: Answers)
    requires SchedInv(s) && s.list != [] && s.dropped == {} && NoIo(a)
    ensures FlushOne(s, a).0.dropped == {}
  {
  }

  lemma {:induction false} FlushDropsNothing(s: Sched, oracle: nat -> Answers, k: nat)
    requires SchedInv(s) && s.dropped == {}
    requires forall j: nat :: NoIo(oracle(j))
    ensures FlushAll(s, oracle, k).dropped == {}
    decreases TotalTurns(s.endpoints, s.list)
  {
    if s.list != [] {
      assert NoIo(oracle(k));
      FlushOneKeeps(s, oracle(k));
      FlushOneDecreases(s, oracle(k));
      FlushOneDropsNothing(s, oracle(k));
      if FlushOne(s, oracle(k)).1 {
        FlushDropsNothing(FlushOne(s, oracle(k)).0, oracle, k + 1);
      }
    }
  }

  // Every sequence of public operations.

  datatype Op =
    | OpCall(id: nat, data: Bytes, userData: UserData, key: nat)
    | OpReply(id: nat, callId: nat, data: Bytes)
    | OpReceive(id: nat, batch: Batch, inbox: Inbox)
    | OpFlush(oracle: nat -> Answers)

  predicate CanApply(s: Sched, op: Op) {
    && SchedInv(s)
    && (op.OpFlush? || (op.id in s.endpoints && op.id < DIRTY_NONE))
    && (op.OpReceive? ==> Net.CanDeliver(PeerOf(s.endpoints[op.id], op.inbox), op.batch))
  }

  function PeerOf(e: Ep, inbox: Inbox): Stream.Peer {
    Stream.Peer(e, inbox, [], [], 0)
  }

  /** An endpoint has tried to append a message; it is marked dirty unless it is not connected. */
  function Appending(s: Sched, id: nat, out: (Ep, AppendResult)): Sched
    requires SchedInv(s)
  {
    var s' := s.(endpoints := s.endpoints[id := out.0]);
    if out.1.NotConnected? then s'
    else Sched(s'.endpoints, Enlist(s.list, id), s.dropped - {id})
  }

  function Apply(s: Sched, op: Op): Sched
    requires CanApply(s, op)
  {
    match op
    case OpCall(id, data, userData, key) => Appending(s, id, Call(s.endpoints[id], data, userData, key))
    case OpReply(id, callId, data) => Appending(s, id, Reply(s.endpoints[id], callId, data))
    case OpReceive(id, batch, inbox) =>
      s.(endpoints := s.endpoints[id := Net.DeliverPeer(PeerOf(s.endpoints[id], inbox), batch).ep])
    case OpFlush(oracle) => FlushAll(s, oracle, 0)
  }

  lemma AppendingKeeps(s: Sched, id: nat, out: (Ep, AppendResult))
    requires SchedInv(s) && Covered(s) && id in s.endpoints && id < DIRTY_NONE && EpInv(out.0)
    requires out.1.NotConnected? ==> out.0 == s.endpoints[id]
    ensures SchedInv(Appending(s, id, out)) && Covered(Appending(s, id, out))
  {
  }

  lemma {:induction false} ReceiveAdvances(ring: Bytes, pos: nat, count: nat, inbox: Inbox)
    requires ReceiveLoop(ring, pos, count, inbox).Some?
    ensures ReceiveLoop(ring, pos, count, inbox).value.0 >= pos
    decreases count
  {
    if count > 0 {
      var m := ReadMsg(ring, pos);
      ReceiveAdvances(ring, pos + MsgSize(m), count - 1, Deliver(inbox, m, Offset(pos, |ring|)));
    }
  }

  /** Receiving only moves the receiver's own positions and answers calls. */
  lemma ReceiveMoves(e: Ep, inbox: Inbox)
    requires Receivable(e, inbox)
    ensures var e' := Receive(e, inbox).0;
            && e' == e.(recvProducer := e'.recvProducer, remoteConsumer := e'.remoteConsumer,
                        lastRecv := e'.lastRecv, pending := e'.pending)
            && e'.lastRecv >= e.lastRecv
  {
    var h := ReadBatchHeader(e);
    if h.messageCount != WRAP_MESSAGE_COUNT {
      var e1 := TakeHeader(e, h);
      ReceiveAdvances(e1.recvRing, e1.lastRecv, h.messageCount, inbox.(pending := e1.pending));
    }
  }

  /** Receiving touches neither the open batch nor the ring it is in. */
  lemma ReceiveFrame(e: Ep, inbox: Inbox, batch: Batch)
    requires EpInv(e) && Net.CanDeliver(PeerOf(e, inbox), batch)
    ensures var e' := Net.DeliverPeer(PeerOf(e, inbox), batch).ep;
            EpInv(e') && HasPendingFlush(e') == HasPendingFlush(e)
  {
    ReceiveMoves(Net.Land(e, batch), inbox);
  }

  lemma ApplyKeeps(s: Sched, op: Op)
    requires CanApply(s, op) && Covered(s)
    ensures SchedInv(Apply(s, op)) && Covered(Apply(s, op))
  {
    match op
    case OpCall(id, data, userData, key) =>
      CallKeeps(s.endpoints[id], data, userData, key);
      AppendingKeeps(s, id, Call(s.endpoints[id], data, userData, key));
    case OpReply(id, callId, data) =>
      ReplyKeeps(s.endpoints[id], callId, data);
      AppendingKeeps(s, id, Reply(s.endpoints[id], callId, data));
    case OpReceive(id, batch, inbox) =>
      ReceiveFrame(s.endpoints[id], inbox, batch);
      var s' := Apply(s, op);
      forall x | Pending(s', x) ensures x in s'.list || x in s'.dropped {
        assert Pending(s, x);
      }
    case OpFlush(oracle) => FlushAllKeeps(s, oracle, 0);
  }

  ghost predicate IsRun(run: seq<Sched>, ops: seq<Op>) {
    && |run| == |ops| + 1 && SchedInv(run[0]) && run[0].list == [] && run[0].dropped == {}
    && (forall id :: id in run[0].endpoints ==> !HasPendingFlush(run[0].endpoints[id]))
    && forall i :: 0 <= i < |ops| ==> CanApply(run[i], ops[i]) && run[i + 1] == Apply(run[i], ops[i])
  }

  lemma {:induction false} RunInv(run: seq<Sched>, ops: seq<Op>, k: nat)
    requires IsRun(run, ops) && k < |run|
    ensures SchedInv(run[k]) && Covered(run[k])
  {
    if k > 0 {
      RunInv(run, ops, k - 1);
      ApplyKeeps(run[k - 1], ops[k - 1]);
    }
  }

  ghost predicate IoFree(op: Op) {
    op.OpFlush? ==> forall j: nat :: NoIo(op.oracle(j))
  }

  /**
   * After any public operations, barring I/O errors, every endpoint with a batch or a wrap to
   * send is in the dirty list.
   */
  lemma {:induction false} PendingIsListed(run: seq<Sched>, ops: seq<Op>, k: nat)
    requires IsRun(run, ops) && k < |run|
    requires forall i :: 0 <= i < k ==> IoFree(ops[i])
    ensures run[k].dropped == {} && forall id :: Pending(run[k], id) ==> id in run[k].list
  {
    RunInv(run, ops, k);
    if k > 0 {
      PendingIsListed(run, ops, k - 1);
      RunInv(run, ops, k - 1);
      assert IoFree(ops[k - 1]);
      if ops[k - 1].OpFlush? {
        FlushDropsNothing(run[k - 1], ops[k - 1].oracle, 0);
      }
    }
  }

  // The context itself.

  class Context {
    const dirty: DirtyList
    var endpoints: map<nat, Ep>
    /** History, as in `Sched`. */
    ghost var dropped: set<nat>

    ghost function View(): Sched
      reads this, dirty
    {
      Sched(endpoints, dirty.contents, dropped)
    }

    ghost predicate Valid()
      reads this, dirty
    {
      dirty.Valid() && SchedInv(View())
    }

    constructor (endpoints: map<nat, Ep>)
      requires forall id :: id in endpoints ==> EpInv(endpoints[id])
      ensures Valid() && fresh(dirty) && View() == Sched(endpoints, [], {})
    {
      dirty := new DirtyList();
      this.endpoints := endpoints;
      dropped := {};
    }

    method MarkEndpointDirty(id: nat)
      requires Valid() && id < DIRTY_NONE
      modifies this`dropped, dirty
      ensures Valid() && View() == MarkDirty(old(View()), id)
    {
      dirty.PushBack(id);
      dropped := dropped - {id};
    }

    /** One turn of the loop, with the popped endpoint. */
    method FlushPopped(id: nat, answers: Answers) returns (more: bool)
      requires dirty.Valid() && id < DIRTY_NONE && id !in dirty.contents
      requires SchedInv(View().(list := [id] + dirty.contents))
      modifies this`endpoints, this`dropped, dirty
      ensures Valid() && (View(), more) == FlushOne(old(View()).(list := [id] + old(dirty.contents)), answers)
    {
      ghost var s := View().(list := [id] + dirty.contents);
      FlushOneKeeps(s, answers);
      assert s.list[1..] == dirty.contents;
      if id !in endpoints {
        return true;
      }
      var (e, r) := EmitPending(endpoints[id], answers.batch, answers.wrap, answers.credit);
      endpoints := endpoints[id := e];
      match r
      case Flushed(_) =>
        dropped := dropped - {id};
        if HasPendingFlush(e) {
          dirty.PushBack(id);
        }
        return true;
      case FlushFull =>
        dropped := dropped - {id};
        dirty.PushBack(id);
        return false;
      case FlushIo =>
        dropped := dropped + {id};
        return true;
    }

    /** Pops endpoints and flushes them until the list is empty or the send queue is full. */
    method FlushEndpoints(oracle: nat -> Answers)
      requires Valid()
      modifies this`endpoints, this`dropped, dirty
      ensures Valid() && View() == FlushAll(old(View()), oracle, 0)
    {
      var k := 0;
      ghost var goal := FlushAll(View(), oracle, 0);
      var more := true;
      while more
        invariant Valid()
        invariant if more then FlushAll(View(), oracle, k) == goal else View() == goal
        decreases more, TotalTurns(endpoints, dirty.contents)
      {
        ghost var s := View();
        var popped := dirty.PopFront();
        if popped.None? {
          break;
        }
        assert s.list == [popped.value] + dirty.contents;
        RestOfDistinct(s.list);
        FlushOneDecreases(s, oracle(k));
        more := FlushPopped(popped.value, oracle(k));
        k := k + 1;
      }
    }
  }
}
