/** Every run of the SCQ request ring. */
module ScqRuns {
  import opened Prelude
  import opened ScqCore
  import opened ScqRing
  import opened ScqTickets
  import opened ScqRequestRing
  import opened ScqEffect
  import opened ScqOwnership
  import opened ScqDelivery

  ghost predicate SystemInv(g: Geometry, s: System) {
    && RingInv(g, AQ, s.aq) && RingInv(g, FQ, s.fq)
    && HoldersInv(s) && DataInv(s) && PopInv(s)
  }

  // One lemma for each place where a caller or the server may stand.

  lemma BeginPop(g: Geometry, s: System, tid: Tid, data: Bytes, r': Ring)
    requires HoldersInv(s) && DataInv(s) && PopInv(s)
    requires tid in s.callers && s.callers[tid] == Ready && BeginEffect(s.fq, r', tid, DeqThreshold)
    ensures var s' := s.(fq := r', callers := s.callers[tid := Popping(data)]);
            HoldersInv(s') && DataInv(s') && PopInv(s')
  {
    var s' := s.(fq := r', callers := s.callers[tid := Popping(data)]);
    assert HoldersInv(s') by { CallerSame(s, s', tid); }
    assert CallerWrites(s, s', tid, 0);
    assert DataInv(s') by { WriteKeeps(s, s', tid, 0); }
  }

  lemma WriteIdKeeps(s: System, tid: Tid, i: nat, d: Bytes)
    requires HoldersInv(s) && DataInv(s) && PopInv(s)
    requires tid in s.callers && s.callers[tid] == WriteId(i, d) && i < |s.slots|
    ensures var s' := s.(slots := s.slots[i := s.slots[i].(callerId := tid)],
                         callers := s.callers[tid := WriteData(i, d)]);
            HoldersInv(s') && DataInv(s') && PopInv(s')
  {
    var s' := s.(slots := s.slots[i := s.slots[i].(callerId := tid)], callers := s.callers[tid := WriteData(i, d)]);
    assert HoldersInv(s') by { CallerSame(s, s', tid); }
    assert CallerWrites(s, s', tid, i);
    assert Holds(s, i, WithCaller(tid));
    assert DataInv(s') by { WriteKeeps(s, s', tid, i); }
  }

  lemma WriteDataKeeps(s: System, tid: Tid, i: nat, d: Bytes, r': Ring)
    requires HoldersInv(s) && DataInv(s) && PopInv(s) && ConsumerAhead(AQ, r')
    requires tid in s.callers && s.callers[tid] == WriteData(i, d) && i < |s.slots|
    requires BeginEffect(s.aq, r', tid, EnqDraw(i))
    ensures var s' := s.(slots := s.slots[i := s.slots[i].(data := d)], callers := s.callers[tid := Pushing(i, d)],
                         aq := r');
            HoldersInv(s') && DataInv(s') && PopInv(s')
  {
    var s' := s.(slots := s.slots[i := s.slots[i].(data := d)], callers := s.callers[tid := Pushing(i, d)], aq := r');
    assert CallerDataOk(s.slots, tid, s.callers[tid], s.aq.locals[tid]);
    assert HoldersInv(s') by { CallerSame(s, s', tid); }
    assert CallerWrites(s, s', tid, i);
    assert Holds(s, i, WithCaller(tid));
    assert DataInv(s') by { WriteKeeps(s, s', tid, i); }
  }

  /** A step of the server that moves no index and writes no slot. */
  lemma ServerQuiet(s: System, s': System)
    requires HoldersInv(s) && DataInv(s) && HoldersInv(s')
    requires Unmoved(s.aq, s'.aq, SERVER) && SameQueue(s.aq, s'.aq)
    requires s'.slots == s.slots && s'.callers == s.callers && s'.pushed == s.pushed && s'.current == s.current
    requires Busy(s'.server, s'.aq.locals[SERVER]) ==>
               && s'.current.Some? && s'.current.value in s'.pushed
               && ServerDataOk(s'.slots, s'.pushed[s'.current.value], s'.server, s'.aq.locals[SERVER])
    ensures DataInv(s')
  {
    forall t ensures QueuedDataOk(s', t) { assert QueuedDataOk(s, t); }
    forall u | u in s'.callers ensures CallerDataOk(s'.slots, u, s'.callers[u], s'.aq.locals[u]) {
      assert CallerDataOk(s.slots, u, s.callers[u], s.aq.locals[u]);
    }
  }

  lemma BeginTake(s: System, r': Ring)
    requires HoldersInv(s) && DataInv(s) && PopInv(s) && ConsumerAhead(AQ, r')
    requires s.server == Waiting && BeginEffect(s.aq, r', SERVER, DeqThreshold)
    ensures var s' := s.(aq := r', server := Taking);
            HoldersInv(s') && DataInv(s') && PopInv(s')
  {
    var s' := s.(aq := r', server := Taking);
    assert HoldersInv(s') by { ServerSame(s, s'); }
    assert DataInv(s') by { ServerQuiet(s, s'); }
  }

  lemma ReadIdKeeps(s: System, i: nat)
    requires HoldersInv(s) && DataInv(s) && PopInv(s) && s.server == ReadId(i) && i < |s.slots|
    ensures var s' := s.(server := ReadData(i, s.slots[i].callerId));
            HoldersInv(s') && DataInv(s') && PopInv(s')
  {
    var s' := s.(server := ReadData(i, s.slots[i].callerId));
    assert HoldersInv(s') by { ServerSame(s, s'); }
    assert DataInv(s') by { ServerQuiet(s, s'); }
  }

  lemma ReadDataKeeps(s: System, i: nat, callerId: nat, r': Ring)
    requires HoldersInv(s) && DataInv(s) && PopInv(s) && s.server == ReadData(i, callerId) && i < |s.slots|
    requires BeginEffect(s.fq, r', SERVER, EnqDraw(i))
    ensures var s' := s.(server := Freeing(i, callerId, s.slots[i].data), fq := r');
            HoldersInv(s') && DataInv(s') && PopInv(s')
  {
    var s' := s.(server := Freeing(i, callerId, s.slots[i].data), fq := r');
    assert HoldersInv(s') by { ServerSame(s, s'); }
    assert DataInv(s') by { ServerQuiet(s, s'); }
  }

  lemma DropKeeps(g: Geometry, s: System)
    requires SystemInv(g, s) && s.server.Waiting?
    ensures SystemInv(g, s.(rxAlive := false, server := Gone))
  {
    var s' := s.(rxAlive := false, server := Gone);
    assert HoldersInv(s') by { ServerSame(s, s'); }
    assert DataInv(s') by { ServerQuiet(s, s'); }
  }

  lemma PoppingKeeps(g: Geometry, s: System, tid: Tid, d: Bytes, spurious: bool)
    requires SystemInv(g, s) && tid in s.callers && s.callers[tid] == Popping(d)
    requires Enabled(g, FQ, s.fq, tid, Choose(spurious))
    ensures SystemInv(g, PopNext(s, tid, d, Step(g, FQ, s.fq, tid, Choose(spurious))))
  {
    var r' := Step(g, FQ, s.fq, tid, Choose(spurious));
    DeqStepEffect(g, FQ, s.fq, tid, spurious);
    PopKeeps(s, tid, d, r');
    PopData(s, tid, d, r');
  }

  lemma PushingKeeps(g: Geometry, s: System, tid: Tid, i: nat, d: Bytes, spurious: bool)
    requires SystemInv(g, s) && tid in s.callers && s.callers[tid] == Pushing(i, d)
    requires Enabled(g, AQ, s.aq, tid, Choose(spurious))
    ensures SystemInv(g, PushNext(s, tid, i, d, Step(g, AQ, s.aq, tid, Choose(spurious)),
                                  Installs(g, s.aq, tid, spurious)))
  {
    var r', installs := Step(g, AQ, s.aq, tid, Choose(spurious)), Installs(g, s.aq, tid, spurious);
    EnqStepEffect(g, AQ, s.aq, tid, spurious);
    ConsumerAheadKeeps(g, AQ, s.aq, tid, Choose(spurious));
    PushKeeps(s, tid, i, d, r', installs);
    PushData(s, tid, i, d, r', installs);
    PushPop(s, tid, i, d, r', installs);
  }

  lemma TakingKeeps(g: Geometry, s: System, spurious: bool)
    requires SystemInv(g, s) && s.server == Taking && Enabled(g, AQ, s.aq, SERVER, Choose(spurious))
    ensures SystemInv(g, TakeNext(s, Step(g, AQ, s.aq, SERVER, Choose(spurious))))
  {
    var r' := Step(g, AQ, s.aq, SERVER, Choose(spurious));
    DeqStepEffect(g, AQ, s.aq, SERVER, spurious);
    ConsumerAheadKeeps(g, AQ, s.aq, SERVER, Choose(spurious));
    ScqOwnership.TakeKeeps(s, r');
    TakeData(s, r');
    TakePop(s, r');
  }

  lemma FreeingKeeps(g: Geometry, s: System, i: nat, callerId: nat, data: Bytes, spurious: bool)
    requires SystemInv(g, s) && s.server == Freeing(i, callerId, data)
    requires Enabled(g, FQ, s.fq, SERVER, Choose(spurious))
    ensures SystemInv(g, FreeNext(s, i, callerId, data, Step(g, FQ, s.fq, SERVER, Choose(spurious)),
                                  Installs(g, s.fq, SERVER, spurious)))
  {
    var r', installs := Step(g, FQ, s.fq, SERVER, Choose(spurious)), Installs(g, s.fq, SERVER, spurious);
    EnqStepEffect(g, FQ, s.fq, SERVER, spurious);
    FreeKeeps(s, i, callerId, data, r', installs);
    FreeData(s, i, callerId, data, r', installs);
    FreePop(s, i, callerId, data, r', installs);
  }

  lemma CallerKeeps(g: Geometry, s: System, tid: Tid, data: Bytes, spurious: bool)
    requires SystemInv(g, s) && CallerEnabled(g, s, tid, spurious)
    ensures SystemInv(g, CallerStep(g, s, tid, data, spurious))
  {
    match s.callers[tid]
    case Ready =>
      if s.rxAlive {
        BeginStepEffect(g, FQ, s.fq, tid, BeginDequeue);
        BeginPop(g, s, tid, data, Step(g, FQ, s.fq, tid, BeginDequeue));
      }
    case Popping(d) => PoppingKeeps(g, s, tid, d, spurious);
    case WriteId(i, d) => WriteIdKeeps(s, tid, i, d);
    case WriteData(i, d) =>
      BeginStepEffect(g, AQ, s.aq, tid, BeginEnqueue(i));
      ConsumerAheadKeeps(g, AQ, s.aq, tid, BeginEnqueue(i));
      WriteDataKeeps(s, tid, i, d, Step(g, AQ, s.aq, tid, BeginEnqueue(i)));
    case Pushing(i, d) => PushingKeeps(g, s, tid, i, d, spurious);
  }

  lemma ServerKeeps(g: Geometry, s: System, spurious: bool)
    requires SystemInv(g, s) && ServerEnabled(g, s, spurious)
    ensures SystemInv(g, ServerStep(g, s, spurious))
  {
    match s.server
    case Waiting =>
      BeginStepEffect(g, AQ, s.aq, SERVER, BeginDequeue);
      ConsumerAheadKeeps(g, AQ, s.aq, SERVER, BeginDequeue);
      BeginTake(s, Step(g, AQ, s.aq, SERVER, BeginDequeue));
    case Taking => TakingKeeps(g, s, spurious);
    case ReadId(i) => ReadIdKeeps(s, i);
    case ReadData(i, callerId) =>
      BeginStepEffect(g, FQ, s.fq, SERVER, BeginEnqueue(i));
      ReadDataKeeps(s, i, callerId, Step(g, FQ, s.fq, SERVER, BeginEnqueue(i)));
    case Freeing(i, callerId, data) => FreeingKeeps(g, s, i, callerId, data, spurious);
  }

  lemma StartHolders(g: Geometry, half: nat, s: System)
    requires Start(g, half, s)
    ensures HoldersInv(s)
  {
  }

  lemma StartKeeps(g: Geometry, half: nat, s: System)
    requires Start(g, half, s)
    ensures SystemInv(g, s)
  {
    assert RingInv(g, AQ, s.aq) by { InitInv(g, AQ, s.aq); }
    assert RingInv(g, FQ, s.fq) by { InitInv(g, FQ, s.fq); }
    StartHolders(g, half, s);
    StartData(g, half, s);
  }

  lemma StartData(g: Geometry, half: nat, s: System)
    requires Start(g, half, s) && PcInv(s)
    ensures DataInv(s) && PopInv(s)
  {
  }

  /** A run of the callers and the server, one shared-memory access at a time. */
  ghost predicate IsSystemRun(g: Geometry, half: nat, run: seq<System>, actions: seq<Action>) {
    && |run| == |actions| + 1
    && Start(g, half, run[0])
    && forall i :: 0 <= i < |actions| ==>
         ActionEnabled(g, run[i], actions[i]) && run[i + 1] == Act(g, run[i], actions[i])
  }

  lemma {:induction false} SystemRunInv(g: Geometry, half: nat, run: seq<System>, actions: seq<Action>, k: nat)
    requires IsSystemRun(g, half, run, actions) && k < |run|
    ensures SystemInv(g, run[k])
  {
    if k == 0 {
      StartKeeps(g, half, run[0]);
    } else {
      SystemRunInv(g, half, run, actions, k - 1);
      ActKeeps(g, run[k - 1], actions[k - 1]);
    }
  }

  /** What a step may do to the slots and to the requests recorded so far. */
  ghost predicate Preserves(s: System, s': System) {
    && |s'.slots| == |s.slots|
    && (forall t :: t in s.pushed ==> t in s'.pushed && s'.pushed[t] == s.pushed[t])
  }

  lemma PushPreserves(s: System, tid: Tid, i: nat, d: Bytes, r': Ring, installs: bool)
    requires tid in s.callers && s.pushed.Keys == s.aq.core.installed.Keys && EnqEffect(s.aq, r', tid, installs)
    ensures Preserves(s, PushNext(s, tid, i, d, r', installs))
  {
  }

  lemma CallerPreserves(g: Geometry, s: System, tid: Tid, data: Bytes, spurious: bool)
    requires CallerEnabled(g, s, tid, spurious) && !s.callers[tid].Pushing?
    ensures Preserves(s, CallerStep(g, s, tid, data, spurious))
  {
  }

  lemma PushingPreserves(g: Geometry, s: System, tid: Tid, i: nat, d: Bytes, spurious: bool)
    requires SystemInv(g, s) && tid in s.callers && s.callers[tid] == Pushing(i, d)
    requires Enabled(g, AQ, s.aq, tid, Choose(spurious))
    ensures Preserves(s, PushNext(s, tid, i, d, Step(g, AQ, s.aq, tid, Choose(spurious)),
                                  Installs(g, s.aq, tid, spurious)))
  {
    EnqStepEffect(g, AQ, s.aq, tid, spurious);
    PushPreserves(s, tid, i, d, Step(g, AQ, s.aq, tid, Choose(spurious)), Installs(g, s.aq, tid, spurious));
  }

  lemma ActPreserves(g: Geometry, s: System, a: Action)
    requires SystemInv(g, s) && ActionEnabled(g, s, a)
    ensures Preserves(s, Act(g, s, a))
  {
    match a
    case CallerAction(tid, data, spurious) =>
      if s.callers[tid].Pushing? {
        PushingPreserves(g, s, tid, s.callers[tid].i, s.callers[tid].data, spurious);
      } else {
        CallerPreserves(g, s, tid, data, spurious);
      }
    case ServerAction(spurious) => ServerPreserves(g, s, spurious);
    case ServerDrop =>
  }

  lemma ActKeeps(g: Geometry, s: System, a: Action)
    requires SystemInv(g, s) && ActionEnabled(g, s, a)
    ensures SystemInv(g, Act(g, s, a))
  {
    match a
    case CallerAction(tid, data, spurious) => CallerKeeps(g, s, tid, data, spurious);
    case ServerAction(spurious) => ServerKeeps(g, s, spurious);
    case ServerDrop => DropKeeps(g, s);
  }

  lemma ServerPreserves(g: Geometry, s: System, spurious: bool)
    requires ServerEnabled(g, s, spurious)
    ensures Preserves(s, ServerStep(g, s, spurious))
  {
  }

  lemma RunStepPreserves(g: Geometry, half: nat, run: seq<System>, actions: seq<Action>, j: nat)
    requires IsSystemRun(g, half, run, actions) && j < |actions|
    ensures Preserves(run[j], run[j + 1])
  {
    SystemRunInv(g, half, run, actions, j);
    ActPreserves(g, run[j], actions[j]);
  }

  lemma {:induction false} PreservesChain(run: seq<System>, i: nat, j: nat)
    requires i <= j < |run| && forall k :: 0 <= k < |run| - 1 ==> Preserves(run[k], run[k + 1])
    ensures Preserves(run[i], run[j])
    decreases j
  {
    if i < j {
      PreservesChain(run, i, j - 1);
      assert Preserves(run[j - 1], run[j - 1 + 1]);
    }
  }

  lemma RunPreserves(g: Geometry, half: nat, run: seq<System>, actions: seq<Action>, i: nat, j: nat)
    requires IsSystemRun(g, half, run, actions) && i <= j < |run|
    ensures Preserves(run[i], run[j])
  {
    forall k | 0 <= k < |run| - 1 ensures Preserves(run[k], run[k + 1]) {
      RunStepPreserves(g, half, run, actions, k);
    }
    PreservesChain(run, i, j);
  }

  /**
   * Exclusive ownership: in every reachable state every slot index is in exactly one place,
   * which is the free queue, the hands of one caller, the allocated queue, or the server's hands.
   */
  lemma SlotOwnership(g: Geometry, half: nat, run: seq<System>, actions: seq<Action>, k: nat, x: nat)
    requires IsSystemRun(g, half, run, actions) && k < |run| && x < half
    ensures PcInv(run[k])
    ensures exists o: Owner :: Holds(run[k], x, o)
    ensures forall o1: Owner, o2: Owner :: Holds(run[k], x, o1) && Holds(run[k], x, o2) ==> o1 == o2
  {
    SystemRunInv(g, half, run, actions, k);
    RunPreserves(g, half, run, actions, 0, k);
    assert Holds(run[k], x, run[k].owner[x]);
  }

  /** No party ever leaves the slot array, and no party is handed the empty index. */
  lemma HeldIndexInRange(g: Geometry, half: nat, run: seq<System>, actions: seq<Action>, k: nat, x: nat, o: Owner)
    requires IsSystemRun(g, half, run, actions) && k < |run|
    requires PcInv(run[k]) && Holds(run[k], x, o)
    ensures x < half
  {
    SystemRunInv(g, half, run, actions, k);
    RunPreserves(g, half, run, actions, 0, k);
  }

  /**
   * Delivery: the server returns requests in ticket order, each at most once, and each exactly
   * as its caller wrote it.
   */
  lemma PoppedIsPushed(g: Geometry, half: nat, run: seq<System>, actions: seq<Action>, k: nat, j: nat)
    requires IsSystemRun(g, half, run, actions) && k < |run| && j < |run[k].popped|
    ensures run[k].popped[j].0 in run[k].pushed
    ensures run[k].popped[j].1 == run[k].pushed[run[k].popped[j].0]
    ensures forall i :: 0 <= i < j ==> run[k].popped[i].0 < run[k].popped[j].0
  {
    SystemRunInv(g, half, run, actions, k);
  }

  /**
   * No request is lost or altered: once pushed, it has been returned, or the server holds it, or
   * it lies intact in its slot.
   */
  lemma PushedIsKept(g: Geometry, half: nat, run: seq<System>, actions: seq<Action>, i: nat, j: nat, t: nat)
    requires IsSystemRun(g, half, run, actions) && i <= j < |run| && t in run[i].pushed
    ensures t in run[j].pushed && run[j].pushed[t] == run[i].pushed[t]
    ensures IsPopped(run[j].popped, t) || run[j].current == Some(t)
         || exists x: nat :: x < |run[j].slots| && Queued(run[j].aq.core, t, x) && run[j].slots[x] == run[i].pushed[t]
  {
    SystemRunInv(g, half, run, actions, j);
    RunPreserves(g, half, run, actions, i, j);
    assert QueuedDataOk(run[j], t);
    if t in run[j].aq.core.installed && t !in run[j].aq.core.taken {
      assert Queued(run[j].aq.core, t, run[j].aq.core.installed[t]);
    }
  }
}
