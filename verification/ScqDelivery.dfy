/** What the SCQ request ring delivers, over whole runs. */
module ScqDelivery {
  import opened Prelude
  import opened ScqRing
  import opened ScqRequestRing
  import opened ScqEffect
  import opened ScqOwnership

  /** The request under ticket `t` of the allocated queue lies untouched in its slot. */
  ghost predicate QueuedDataOk(s: System, t: nat) {
    t in s.aq.core.installed && t !in s.aq.core.taken ==>
      && t in s.pushed
      && s.aq.core.installed[t] < |s.slots|
      && s.slots[s.aq.core.installed[t]] == s.pushed[t]
  }

  /** Caller `u` at `pc`, whose thread in the allocated queue is at `a`. */
  predicate CallerDataOk(slots: seq<Slot>, u: Tid, pc: Caller, a: Local) {
    match pc
    case WriteData(i, d) => i < |slots| && slots[i].callerId == u
    case Pushing(i, d) => Enqueuing(a) ==> i < |slots| && slots[i] == Slot(u, d)
    case _ => true
  }

  /** The server has taken a ticket and not yet returned its request. */
  predicate Busy(pc: Server, a: Local) {
    (pc.Taking? && a.DeqReturn? && a.result.Some?) || pc.ReadId? || pc.ReadData? || pc.Freeing?
  }

  /** The server at `pc`, serving the request `req`. */
  predicate ServerDataOk(slots: seq<Slot>, req: Slot, pc: Server, a: Local)
    requires Busy(pc, a)
  {
    match pc
    case Taking => a.result.value < |slots| && slots[a.result.value] == req
    case ReadId(i) => i < |slots| && slots[i] == req
    case ReadData(i, callerId) => i < |slots| && slots[i] == req && callerId == req.callerId
    case Freeing(i, callerId, data) => Slot(callerId, data) == req
  }

  ghost predicate DataInv(s: System)
    requires PcInv(s)
  {
    && s.pushed.Keys == s.aq.core.installed.Keys
    && (forall t :: QueuedDataOk(s, t))
    && (forall u :: u in s.callers ==> CallerDataOk(s.slots, u, s.callers[u], s.aq.locals[u]))
    && (Busy(s.server, s.aq.locals[SERVER]) ==>
          && s.current.Some? && s.current.value in s.pushed
          && ServerDataOk(s.slots, s.pushed[s.current.value], s.server, s.aq.locals[SERVER]))
  }

  predicate IsPopped(popped: seq<(nat, Slot)>, t: nat) {
    exists k :: 0 <= k < |popped| && popped[k].0 == t
  }

  /** The tickets taken are those returned, in ticket order, and the one in the server's hands. */
  ghost predicate Delivered(
    taken: map<nat, nat>, popped: seq<(nat, Slot)>, pushed: map<nat, Slot>, current: Option<nat>, busy: bool)
  {
    && (forall t :: t in taken <==> IsPopped(popped, t) || (busy && current == Some(t)))
    && (forall k :: 0 <= k < |popped| ==> popped[k].0 in pushed && popped[k].1 == pushed[popped[k].0])
    && (forall i, j :: 0 <= i < j < |popped| ==> popped[i].0 < popped[j].0)
    && (busy ==> current.Some? && forall k :: 0 <= k < |popped| ==> popped[k].0 < current.value)
  }

  ghost predicate PopInv(s: System)
    requires PcInv(s)
  {
    && Delivered(s.aq.core.taken, s.popped, s.pushed, s.current, Busy(s.server, s.aq.locals[SERVER]))
    && ConsumerAhead(AQ, s.aq)
  }

  lemma DeliverTake(
    taken: map<nat, nat>, popped: seq<(nat, Slot)>, pushed: map<nat, Slot>, current: Option<nat>, h: nat, x: nat)
    requires Delivered(taken, popped, pushed, current, false) && forall t :: t in taken ==> t < h
    ensures Delivered(taken[h := x], popped, pushed, Some(h), true)
  {
    forall k | 0 <= k < |popped| ensures popped[k].0 < h {
      assert IsPopped(popped, popped[k].0);
    }
  }

  lemma DeliverReturn(
    taken: map<nat, nat>, popped: seq<(nat, Slot)>, pushed: map<nat, Slot>, current: nat, slot: Slot)
    requires Delivered(taken, popped, pushed, Some(current), true)
    requires current in pushed && pushed[current] == slot
    ensures Delivered(taken, popped + [(current, slot)], pushed, Some(current), false)
  {
    var popped' := popped + [(current, slot)];
    assert popped'[|popped|].0 == current;
    forall t: nat ensures IsPopped(popped', t) <==> IsPopped(popped, t) || t == current {
      if IsPopped(popped, t) {
        var k :| 0 <= k < |popped| && popped[k].0 == t;
        assert popped'[k].0 == t;
      }
    }
  }

  /** Caller `tid` moves, writing at most the slot `i` that it owns. */
  ghost predicate CallerWrites(s: System, s': System, tid: Tid, i: nat) {
    && tid in s.callers && tid in s.aq.locals && Unmoved(s.aq, s'.aq, tid) && SameQueue(s.aq, s'.aq)
    && |s'.slots| == |s.slots|
    && (forall x :: 0 <= x < |s.slots| && x != i ==> s'.slots[x] == s.slots[x])
    && s'.pushed == s.pushed && s'.current == s.current && s'.server == s.server
    && s'.callers.Keys == s.callers.Keys
    && (forall u :: u in s.callers && u != tid ==> s'.callers[u] == s.callers[u])
    && CallerDataOk(s'.slots, tid, s'.callers[tid], s'.aq.locals[tid])
  }

  lemma WriteKeeps(s: System, s': System, tid: Tid, i: nat)
    requires HoldersInv(s) && DataInv(s) && PcInv(s') && CallerWrites(s, s', tid, i)
    requires s'.slots == s.slots || Holds(s, i, WithCaller(tid))
    ensures DataInv(s')
  {
    forall t ensures QueuedDataOk(s', t) {
      assert QueuedDataOk(s, t);
      if t in s.aq.core.installed && t !in s.aq.core.taken {
        assert Holds(s, s.aq.core.installed[t], InAlloc(t));
      }
    }
    forall u | u in s'.callers ensures CallerDataOk(s'.slots, u, s'.callers[u], s'.aq.locals[u]) {
      if u != tid {
        assert CallerDataOk(s.slots, u, s.callers[u], s.aq.locals[u]);
        assert s'.slots == s.slots || !Holds(s, i, WithCaller(u));
      }
    }
    assert s'.slots == s.slots || !Holds(s, i, WithServer);
  }

  lemma PopWrites(s: System, tid: Tid, d: Bytes, r': Ring)
    requires PcInv(s) && tid in s.callers && s.callers[tid] == Popping(d) && DeqEffect(s.fq, r', tid)
    ensures CallerWrites(s, PopNext(s, tid, d, r'), tid, 0)
    ensures PopNext(s, tid, d, r').slots == s.slots
  {
  }

  lemma PopData(s: System, tid: Tid, d: Bytes, r': Ring)
    requires HoldersInv(s) && tid in s.callers && s.callers[tid] == Popping(d) && DeqEffect(s.fq, r', tid)
    requires DataInv(s) && PopInv(s) && PcInv(PopNext(s, tid, d, r'))
    ensures DataInv(PopNext(s, tid, d, r')) && PopInv(PopNext(s, tid, d, r'))
  {
    var s' := PopNext(s, tid, d, r');
    PopWrites(s, tid, d, r');
    assert DataInv(s') by { WriteKeeps(s, s', tid, 0); }
  }

  lemma PushWrites(s: System, tid: Tid, i: nat, d: Bytes, r': Ring)
    requires PcInv(s) && tid in s.callers && s.callers[tid] == Pushing(i, d) && EnqEffect(s.aq, r', tid, false)
    requires CallerDataOk(s.slots, tid, s.callers[tid], s.aq.locals[tid])
    ensures CallerWrites(s, PushNext(s, tid, i, d, r', false), tid, 0)
    ensures PushNext(s, tid, i, d, r', false).slots == s.slots
  {
  }

  lemma PushInstallsData(s: System, tid: Tid, i: nat, d: Bytes, r': Ring)
    requires PcInv(s) && tid in s.callers && s.callers[tid] == Pushing(i, d) && EnqEffect(s.aq, r', tid, true)
    requires DataInv(s) && PcInv(PushNext(s, tid, i, d, r', true))
    ensures DataInv(PushNext(s, tid, i, d, r', true))
  {
    var s' := PushNext(s, tid, i, d, r', true);
    assert CallerDataOk(s.slots, tid, s.callers[tid], s.aq.locals[tid]);
    forall t ensures QueuedDataOk(s', t) { assert QueuedDataOk(s, t); }
    forall u | u in s'.callers ensures CallerDataOk(s'.slots, u, s'.callers[u], s'.aq.locals[u]) {
      assert CallerDataOk(s.slots, u, s.callers[u], s.aq.locals[u]);
    }
  }

  lemma PushData(s: System, tid: Tid, i: nat, d: Bytes, r': Ring, installs: bool)
    requires HoldersInv(s) && tid in s.callers && s.callers[tid] == Pushing(i, d) && EnqEffect(s.aq, r', tid, installs)
    requires DataInv(s) && PcInv(PushNext(s, tid, i, d, r', installs))
    ensures DataInv(PushNext(s, tid, i, d, r', installs))
  {
    if installs {
      PushInstallsData(s, tid, i, d, r');
    } else {
      assert CallerDataOk(s.slots, tid, s.callers[tid], s.aq.locals[tid]);
      PushWrites(s, tid, i, d, r');
      WriteKeeps(s, PushNext(s, tid, i, d, r', installs), tid, 0);
    }
  }

  lemma PushPop(s: System, tid: Tid, i: nat, d: Bytes, r': Ring, installs: bool)
    requires PcInv(s) && tid in s.callers && s.callers[tid] == Pushing(i, d) && EnqEffect(s.aq, r', tid, installs)
    requires PcInv(PushNext(s, tid, i, d, r', installs)) && s.pushed.Keys == s.aq.core.installed.Keys
    requires PopInv(s) && ConsumerAhead(AQ, r')
    ensures PopInv(PushNext(s, tid, i, d, r', installs))
  {
  }

  // The server.

  lemma TakeData(s: System, r': Ring)
    requires HoldersInv(s) && s.server == Taking && DeqEffect(s.aq, r', SERVER)
    requires DataInv(s) && PcInv(TakeNext(s, r'))
    ensures DataInv(TakeNext(s, r'))
  {
    var s' := TakeNext(s, r');
    if s.aq.locals[SERVER].DeqTake? {
      assert QueuedDataOk(s, s.aq.locals[SERVER].h);
    }
    forall t ensures QueuedDataOk(s', t) { assert QueuedDataOk(s, t); }
    forall u | u in s'.callers ensures CallerDataOk(s'.slots, u, s'.callers[u], s'.aq.locals[u]) {
      assert CallerDataOk(s.slots, u, s.callers[u], s.aq.locals[u]);
    }
  }

  lemma TakePop(s: System, r': Ring)
    requires PcInv(s) && s.server == Taking && DeqEffect(s.aq, r', SERVER)
    requires PopInv(s) && PcInv(TakeNext(s, r')) && ConsumerAhead(AQ, r')
    ensures PopInv(TakeNext(s, r'))
  {
    var l := s.aq.locals[SERVER];
    if l.DeqTake? {
      DeliverTake(s.aq.core.taken, s.popped, s.pushed, s.current, l.h, l.seen.value);
    }
  }

  lemma FreeData(s: System, i: nat, callerId: nat, data: Bytes, r': Ring, installs: bool)
    requires PcInv(s) && s.server == Freeing(i, callerId, data) && EnqEffect(s.fq, r', SERVER, installs)
    requires DataInv(s) && PcInv(FreeNext(s, i, callerId, data, r', installs))
    ensures DataInv(FreeNext(s, i, callerId, data, r', installs))
  {
    var s' := FreeNext(s, i, callerId, data, r', installs);
    forall t ensures QueuedDataOk(s', t) { assert QueuedDataOk(s, t); }
    forall u | u in s'.callers ensures CallerDataOk(s'.slots, u, s'.callers[u], s'.aq.locals[u]) {
      assert CallerDataOk(s.slots, u, s.callers[u], s.aq.locals[u]);
    }
  }

  lemma FreePop(s: System, i: nat, callerId: nat, data: Bytes, r': Ring, installs: bool)
    requires PcInv(s) && s.server == Freeing(i, callerId, data) && EnqEffect(s.fq, r', SERVER, installs)
    requires PopInv(s) && DataInv(s) && PcInv(FreeNext(s, i, callerId, data, r', installs))
    ensures PopInv(FreeNext(s, i, callerId, data, r', installs))
  {
    if s.fq.locals[SERVER].EnqReturn? {
      DeliverReturn(s.aq.core.taken, s.popped, s.pushed, s.current.value, Slot(callerId, data));
    }
  }
}
