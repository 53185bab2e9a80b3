/** Exclusive ownership of slot indices in the SCQ request ring. */
module ScqOwnership {
  import opened Prelude
  import opened ScqCore
  import opened ScqRing
  import opened ScqRequestRing
  import opened ScqEffect

  // Who holds a slot index.

  /** A caller at `pc`, whose threads in the free and allocated queues are at `f` and `a`. */
  function CallerHold(pc: Caller, f: Local, a: Local): Option<nat> {
    match pc
    case Ready => None
    case Popping(_) => if f.DeqReturn? then f.result else None
    case WriteId(i, _) => Some(i)
    case WriteData(i, _) => Some(i)
    case Pushing(i, _) => if Enqueuing(a) then Some(i) else None
  }

  function ServerHold(pc: Server, f: Local, a: Local): Option<nat> {
    match pc
    case Waiting => None
    case Taking => if a.DeqReturn? then a.result else None
    case ReadId(i) => Some(i)
    case ReadData(i, _) => Some(i)
    case Freeing(i, _, _) => if Enqueuing(f) then Some(i) else None
    case Gone => None
  }

  predicate CallerPcOk(pc: Caller, f: Local, a: Local) {
    match pc
    case Ready => f.Idle? && a.Idle?
    case Popping(_) => (Dequeuing(f) || f.DeqReturn?) && a.Idle?
    case WriteId(_, _) => f.Idle? && a.Idle?
    case WriteData(_, _) => f.Idle? && a.Idle?
    case Pushing(i, _) => f.Idle? && EnqIndex(a) == Some(i)
  }

  predicate ServerPcOk(pc: Server, f: Local, a: Local) {
    match pc
    case Waiting => f.Idle? && a.Idle?
    case Taking => (Dequeuing(a) || a.DeqReturn?) && f.Idle?
    case ReadId(_) => f.Idle? && a.Idle?
    case ReadData(_, _) => f.Idle? && a.Idle?
    case Freeing(i, _, _) => a.Idle? && EnqIndex(f) == Some(i)
    case Gone => f.Idle? && a.Idle?
  }

  ghost predicate PcInv(s: System) {
    && SERVER !in s.callers
    && (forall u :: u in s.callers ==> u in s.fq.locals && u in s.aq.locals)
    && (forall u :: u in s.callers ==> CallerPcOk(s.callers[u], s.fq.locals[u], s.aq.locals[u]))
    && SERVER in s.fq.locals && SERVER in s.aq.locals
    && ServerPcOk(s.server, s.fq.locals[SERVER], s.aq.locals[SERVER])
  }

  predicate Queued(c: Core, t: nat, x: nat) {
    t in c.installed && t !in c.taken && c.installed[t] == x
  }

  /** Slot index `x` is, at this moment, in the place `o`. */
  ghost predicate Holds(s: System, x: nat, o: Owner)
    requires PcInv(s)
  {
    match o
    case InFree(t) => Queued(s.fq.core, t, x)
    case InAlloc(t) => Queued(s.aq.core, t, x)
    case WithCaller(u) => u in s.callers && CallerHold(s.callers[u], s.fq.locals[u], s.aq.locals[u]) == Some(x)
    case WithServer => ServerHold(s.server, s.fq.locals[SERVER], s.aq.locals[SERVER]) == Some(x)
  }

  /** Every slot index is in exactly one place: the one its history names. */
  ghost predicate OwnerInv(s: System)
    requires PcInv(s)
  {
    && (forall x: nat :: x in s.owner <==> x < |s.slots|)
    && (forall x: nat, o: Owner {:trigger Holds(s, x, o)} :: Holds(s, x, o) <==> x in s.owner && s.owner[x] == o)
  }

  /** Index `x` moves from one place to another and nothing else changes hands. */
  ghost predicate Transfers(s: System, s': System, x: nat, from: Owner, to: Owner)
    requires PcInv(s) && PcInv(s')
  {
    && Holds(s, x, from)
    && |s'.slots| == |s.slots| && s'.owner == s.owner[x := to]
    && forall y: nat, o: Owner {:trigger Holds(s', y, o)} ::
         Holds(s', y, o) <==> (Holds(s, y, o) && !(y == x && o == from)) || (y == x && o == to)
  }

  ghost predicate SameHolders(s: System, s': System)
    requires PcInv(s) && PcInv(s')
  {
    && |s'.slots| == |s.slots| && s'.owner == s.owner
    && forall y: nat, o: Owner {:trigger Holds(s', y, o)} :: Holds(s', y, o) <==> Holds(s, y, o)
  }

  lemma TransferKeeps(s: System, s': System, x: nat, from: Owner, to: Owner)
    requires PcInv(s) && PcInv(s') && OwnerInv(s) && Transfers(s, s', x, from, to)
    ensures OwnerInv(s')
  {
  }

  lemma SameKeeps(s: System, s': System)
    requires PcInv(s) && PcInv(s') && OwnerInv(s) && SameHolders(s, s')
    ensures OwnerInv(s')
  {
  }

  ghost predicate HoldersInv(s: System) {
    PcInv(s) && OwnerInv(s)
  }

  // A step that moves no index between places.

  /** Caller `tid` and the rings change; what `tid` and the server hold, and the queues, do not. */
  lemma CallerSame(s: System, s': System, tid: Tid)
    requires HoldersInv(s) && tid in s.callers
    requires Unmoved(s.aq, s'.aq, tid) && Unmoved(s.fq, s'.fq, tid)
    requires SameQueue(s.aq, s'.aq) && SameQueue(s.fq, s'.fq)
    requires s'.callers.Keys == s.callers.Keys && s'.server == s.server
    requires forall u :: u in s.callers && u != tid ==> s'.callers[u] == s.callers[u]
    requires CallerPcOk(s'.callers[tid], s'.fq.locals[tid], s'.aq.locals[tid])
    requires CallerHold(s'.callers[tid], s'.fq.locals[tid], s'.aq.locals[tid])
          == CallerHold(s.callers[tid], s.fq.locals[tid], s.aq.locals[tid])
    requires |s'.slots| == |s.slots| && s'.owner == s.owner
    ensures HoldersInv(s')
  {
    assert PcInv(s');
    assert SameHolders(s, s') by {
      forall y: nat, o: Owner ensures Holds(s', y, o) <==> Holds(s, y, o) {}
    }
    SameKeeps(s, s');
  }

  lemma ServerSame(s: System, s': System)
    requires HoldersInv(s)
    requires Unmoved(s.aq, s'.aq, SERVER) && Unmoved(s.fq, s'.fq, SERVER)
    requires SameQueue(s.aq, s'.aq) && SameQueue(s.fq, s'.fq)
    requires s'.callers == s.callers
    requires ServerPcOk(s'.server, s'.fq.locals[SERVER], s'.aq.locals[SERVER])
    requires ServerHold(s'.server, s'.fq.locals[SERVER], s'.aq.locals[SERVER])
          == ServerHold(s.server, s.fq.locals[SERVER], s.aq.locals[SERVER])
    requires |s'.slots| == |s.slots| && s'.owner == s.owner
    ensures HoldersInv(s')
  {
    assert PcInv(s');
    assert SameHolders(s, s') by {
      forall y: nat, o: Owner ensures Holds(s', y, o) <==> Holds(s, y, o) {}
    }
    SameKeeps(s, s');
  }

  // The four hand-overs.

  lemma PopTransfers(s: System, tid: Tid, d: Bytes, r': Ring)
    requires PcInv(s) && tid in s.callers && s.callers[tid] == Popping(d) && DeqEffect(s.fq, r', tid) &&
               s.fq.locals[tid].DeqTake?
    ensures PcInv(PopNext(s, tid, d, r')) &&
              Transfers(s, PopNext(s, tid, d, r'), s.fq.locals[tid].seen.value, InFree(s.fq.locals[tid].h),
                        WithCaller(tid))
  {
  }

  lemma PopKeeps(s: System, tid: Tid, d: Bytes, r': Ring)
    requires HoldersInv(s) && tid in s.callers && s.callers[tid] == Popping(d) && DeqEffect(s.fq, r', tid)
    ensures HoldersInv(PopNext(s, tid, d, r'))
  {
    var s' := PopNext(s, tid, d, r');
    if s.fq.locals[tid].DeqTake? {
      PopTransfers(s, tid, d, r');
      TransferKeeps(s, s', s.fq.locals[tid].seen.value, InFree(s.fq.locals[tid].h), WithCaller(tid));
    } else {
      CallerSame(s, s', tid);
    }
  }

  lemma PushTransfers(s: System, tid: Tid, i: nat, d: Bytes, r': Ring, installs: bool)
    requires PcInv(s) && tid in s.callers && s.callers[tid] == Pushing(i, d) && EnqEffect(s.aq, r', tid, installs) &&
               installs
    ensures PcInv(PushNext(s, tid, i, d, r', installs)) &&
              Transfers(s, PushNext(s, tid, i, d, r', installs), i, WithCaller(tid), InAlloc(s.aq.locals[tid].t))
  {
  }

  lemma PushKeeps(s: System, tid: Tid, i: nat, d: Bytes, r': Ring, installs: bool)
    requires HoldersInv(s) && tid in s.callers && s.callers[tid] == Pushing(i, d) && EnqEffect(s.aq, r', tid, installs)
    ensures HoldersInv(PushNext(s, tid, i, d, r', installs))
  {
    var s' := PushNext(s, tid, i, d, r', installs);
    if installs {
      PushTransfers(s, tid, i, d, r', installs);
      TransferKeeps(s, s', i, WithCaller(tid), InAlloc(s.aq.locals[tid].t));
    } else {
      CallerSame(s, s', tid);
    }
  }

  lemma TakeTransfers(s: System, r': Ring)
    requires PcInv(s) && s.server == Taking && DeqEffect(s.aq, r', SERVER) && s.aq.locals[SERVER].DeqTake?
    ensures PcInv(TakeNext(s, r')) &&
              Transfers(s, TakeNext(s, r'), s.aq.locals[SERVER].seen.value, InAlloc(s.aq.locals[SERVER].h), WithServer)
  {
  }

  lemma TakeKeeps(s: System, r': Ring)
    requires HoldersInv(s) && s.server == Taking && DeqEffect(s.aq, r', SERVER)
    ensures HoldersInv(TakeNext(s, r'))
  {
    var s' := TakeNext(s, r');
    if s.aq.locals[SERVER].DeqTake? {
      TakeTransfers(s, r');
      TransferKeeps(s, s', s.aq.locals[SERVER].seen.value, InAlloc(s.aq.locals[SERVER].h), WithServer);
    } else {
      ServerSame(s, s');
    }
  }

  lemma FreeTransfers(s: System, i: nat, callerId: nat, data: Bytes, r': Ring, installs: bool)
    requires PcInv(s) && s.server == Freeing(i, callerId, data) && EnqEffect(s.fq, r', SERVER, installs) && installs
    ensures PcInv(FreeNext(s, i, callerId, data, r', installs)) &&
              Transfers(s, FreeNext(s, i, callerId, data, r', installs), i, WithServer, InFree(s.fq.locals[SERVER].t))
  {
  }

  lemma FreeKeeps(s: System, i: nat, callerId: nat, data: Bytes, r': Ring, installs: bool)
    requires HoldersInv(s) && s.server == Freeing(i, callerId, data) && EnqEffect(s.fq, r', SERVER, installs)
    ensures HoldersInv(FreeNext(s, i, callerId, data, r', installs))
  {
    var s' := FreeNext(s, i, callerId, data, r', installs);
    if installs {
      FreeTransfers(s, i, callerId, data, r', installs);
      TransferKeeps(s, s', i, WithServer, InFree(s.fq.locals[SERVER].t));
    } else {
      ServerSame(s, s');
    }
  }
}
