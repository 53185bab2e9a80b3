/** What one step of an SCQ ring means to the request ring around it. */
module ScqEffect {
  import opened Prelude
  import opened ScqCore
  import opened ScqRing
  import opened ScqRingProof
  import opened ScqRequestRing

  // What one ring step does to the history of the ring.

  ghost predicate Unmoved(r: Ring, r': Ring, tid: Tid) {
    && (forall u :: u in r.locals ==> u in r'.locals)
    && (forall u :: u in r.locals && u != tid ==> r'.locals[u] == r.locals[u])
  }

  ghost predicate HasEffect(g: Geometry, r: Ring, r': Ring, tid: Tid, spurious: bool)
    requires Sound(g) && |r.core.entries| == g.n && tid in r.locals
  {
    var l := r.locals[tid];
    && Unmoved(r, r', tid)
    && (Installs(g, r, tid, spurious) ==>
          && l.t !in r.core.installed
          && r'.core.installed == r.core.installed[l.t := l.x]
          && r'.core.taken == r.core.taken && r'.locals[tid] == EnqThreshold(l.x))
    && (l.DeqTake? ==>
          && l.seen.Some? && l.h in r.core.installed && l.h !in r.core.taken
          && r.core.installed[l.h] == l.seen.value
          && r'.core.installed == r.core.installed
          && r'.core.taken == r.core.taken[l.h := l.seen.value]
          && r'.locals[tid] == DeqReturn(l.seen))
    && (!l.DeqTake? && !Installs(g, r, tid, spurious) ==>
          r'.core.installed == r.core.installed && r'.core.taken == r.core.taken)
  }

  lemma EnqueueStepEffect(g: Geometry, m: Mode, r: Ring, tid: Tid, spurious: bool)
    requires Sound(g) && |r.core.entries| == g.n && tid in r.locals && Enqueuing(r.locals[tid])
    requires LocalOk(g, m, r, tid, r.locals[tid])
    ensures HasEffect(g, r, EnqueueStep(g, m, r, tid, spurious), tid, spurious)
  {
  }

  lemma DequeueStepEffect(g: Geometry, m: Mode, r: Ring, tid: Tid, spurious: bool)
    requires Sound(g) && |r.core.entries| == g.n && tid in r.locals && OnHead(r.locals[tid])
    requires LocalOk(g, m, r, tid, r.locals[tid])
    ensures HasEffect(g, r, DequeueStep(g, m, r, tid, spurious), tid, spurious)
  {
  }

  lemma StepEffect(g: Geometry, m: Mode, r: Ring, tid: Tid, choice: Choice)
    requires RingInv(g, m, r) && Enabled(g, m, r, tid, choice)
    ensures HasEffect(g, r, Step(g, m, r, tid, choice), tid, choice.SpuriousFailure?)
  {
    assert LocalOk(g, m, r, tid, r.locals[tid]);
    if Enqueuing(r.locals[tid]) {
      EnqueueStepEffect(g, m, r, tid, choice.SpuriousFailure?);
    } else if OnHead(r.locals[tid]) {
      DequeueStepEffect(g, m, r, tid, choice.SpuriousFailure?);
    }
  }

  /** The index an enqueuer works for. */
  function EnqIndex(l: Local): Option<nat> {
    if l.EnqDraw? || l.EnqStore? || l.EnqLoad? || l.EnqHead? || l.EnqCas? || l.EnqThreshold?
       || l.EnqThresholdStore? || l.EnqReturn? then Some(l.x) else None
  }

  // Ring steps by what they leave behind.

  /** The progress of an enqueue from the thread state `l` to `l'`. */
  predicate EnqProgress(l: Local, l': Local, installs: bool) {
    && EnqIndex(l).Some?
    && (l.EnqReturn? ==> l'.Idle?)
    && (!l.EnqReturn? ==> EnqIndex(l') == EnqIndex(l))
    && (!l.EnqReturn? ==> (Enqueuing(l') <==> Enqueuing(l) && !installs))
  }

  predicate DeqProgress(l: Local, l': Local) {
    && (Dequeuing(l) || l.DeqReturn?)
    && (l.DeqReturn? ==> l'.Idle?)
    && (!l.DeqReturn? ==> Dequeuing(l') || l'.DeqReturn?)
    && (l'.DeqReturn? && l'.result.Some? ==> l.DeqTake?)
  }

  /** An enqueue keeps its index, and has handed it over exactly when it no longer seeks a ticket. */
  lemma EnqueueProgress(g: Geometry, m: Mode, r: Ring, tid: Tid, spurious: bool)
    requires Enabled(g, m, r, tid, Choose(spurious)) && EnqIndex(r.locals[tid]).Some?
    ensures EnqProgress(r.locals[tid], Step(g, m, r, tid, Choose(spurious)).locals[tid], Installs(g, r, tid, spurious))
  {
  }

  /** A dequeue ends with an index only by taking it. */
  lemma DequeueProgress(g: Geometry, m: Mode, r: Ring, tid: Tid, spurious: bool)
    requires Enabled(g, m, r, tid, Choose(spurious))
    requires Dequeuing(r.locals[tid]) || r.locals[tid].DeqReturn?
    ensures DeqProgress(r.locals[tid], Step(g, m, r, tid, Choose(spurious)).locals[tid])
  {
  }

  ghost predicate SameQueue(r: Ring, r': Ring) {
    r'.core.installed == r.core.installed && r'.core.taken == r.core.taken
  }

  ghost predicate Took(r: Ring, r': Ring, tid: Tid)
    requires tid in r.locals && tid in r'.locals && r.locals[tid].DeqTake?
  {
    var l := r.locals[tid];
    && l.seen.Some? && l.h in r.core.installed && l.h !in r.core.taken
    && r.core.installed[l.h] == l.seen.value
    && r'.core.installed == r.core.installed
    && r'.core.taken == r.core.taken[l.h := l.seen.value]
    && r'.locals[tid] == DeqReturn(l.seen)
  }

  ghost predicate Installed(r: Ring, r': Ring, tid: Tid)
    requires tid in r.locals && tid in r'.locals && r.locals[tid].EnqCas?
  {
    var l := r.locals[tid];
    && l.t !in r.core.installed && l.t !in r.core.taken
    && r'.core.installed == r.core.installed[l.t := l.x]
    && r'.core.taken == r.core.taken
  }

  /** A dequeue step as the system sees it. */
  ghost predicate DeqEffect(r: Ring, r': Ring, tid: Tid) {
    && tid in r.locals && Unmoved(r, r', tid)
    && DeqProgress(r.locals[tid], r'.locals[tid])
    && (if r.locals[tid].DeqTake? then Took(r, r', tid) else SameQueue(r, r'))
  }

  /** An enqueue step as the system sees it. */
  ghost predicate EnqEffect(r: Ring, r': Ring, tid: Tid, installs: bool) {
    && tid in r.locals && Unmoved(r, r', tid)
    && (installs ==> r.locals[tid].EnqCas?)
    && EnqProgress(r.locals[tid], r'.locals[tid], installs)
    && (if installs then Installed(r, r', tid) else SameQueue(r, r'))
  }

  /** The first step of an operation, which touches no shared memory. */
  ghost predicate BeginEffect(r: Ring, r': Ring, tid: Tid, l: Local) {
    tid in r.locals && Unmoved(r, r', tid) && r'.locals[tid] == l && SameQueue(r, r')
  }

  lemma DeqStepEffect(g: Geometry, m: Mode, r: Ring, tid: Tid, spurious: bool)
    requires RingInv(g, m, r) && Enabled(g, m, r, tid, Choose(spurious))
    requires Dequeuing(r.locals[tid]) || r.locals[tid].DeqReturn?
    ensures RingInv(g, m, Step(g, m, r, tid, Choose(spurious)))
    ensures DeqEffect(r, Step(g, m, r, tid, Choose(spurious)), tid)
  {
    StepKeeps(g, m, r, tid, Choose(spurious));
    StepEffect(g, m, r, tid, Choose(spurious));
    DequeueProgress(g, m, r, tid, spurious);
  }

  lemma EnqStepEffect(g: Geometry, m: Mode, r: Ring, tid: Tid, spurious: bool)
    requires RingInv(g, m, r) && Enabled(g, m, r, tid, Choose(spurious))
    requires EnqIndex(r.locals[tid]).Some?
    ensures RingInv(g, m, Step(g, m, r, tid, Choose(spurious)))
    ensures EnqEffect(r, Step(g, m, r, tid, Choose(spurious)), tid, Installs(g, r, tid, spurious))
  {
    StepKeeps(g, m, r, tid, Choose(spurious));
    StepEffect(g, m, r, tid, Choose(spurious));
    EnqueueProgress(g, m, r, tid, spurious);
    if Installs(g, r, tid, spurious) {
      assert TicketOk(g, r.core, r.locals[tid].t);
    }
  }

  lemma BeginStepEffect(g: Geometry, m: Mode, r: Ring, tid: Tid, choice: Choice)
    requires RingInv(g, m, r) && Enabled(g, m, r, tid, choice)
    requires choice.BeginDequeue? || choice.BeginEnqueue?
    ensures RingInv(g, m, Step(g, m, r, tid, choice))
    ensures BeginEffect(r, Step(g, m, r, tid, choice), tid,
              if choice.BeginEnqueue? then EnqDraw(choice.x) else DeqThreshold)
  {
    StepKeeps(g, m, r, tid, choice);
  }

  /** The head ticket of a single consumer lies beyond every ticket taken so far. */
  ghost predicate ConsumerAhead(m: Mode, r: Ring) {
    m.consumer.Some? && m.consumer.value in r.locals ==>
      var ticket := DeqTicket(r.locals[m.consumer.value]);
      ticket.Some? ==> forall t :: t in r.core.taken ==> t < ticket.value
  }

  lemma ConsumerAheadKeeps(g: Geometry, m: Mode, r: Ring, tid: Tid, choice: Choice)
    requires RingInv(g, m, r) && Enabled(g, m, r, tid, choice) && m.consumer.Some?
    requires ConsumerAhead(m, r)
    ensures ConsumerAhead(m, Step(g, m, r, tid, choice))
  {
    assert LocalOk(g, m, r, tid, r.locals[tid]);
    var r' := Step(g, m, r, tid, choice);
    assert HasEffect(g, r, r', tid, choice.SpuriousFailure?) by { StepEffect(g, m, r, tid, choice); }
    if tid == m.consumer.value {
      HeadTicketKept(g, m, r, tid, choice);
    }
    AheadKept(m, r, r', tid);
  }

  lemma AheadKept(m: Mode, r: Ring, r': Ring, tid: Tid)
    requires m.consumer.Some? && tid in r.locals && Unmoved(r, r', tid) && ConsumerAhead(m, r)
    requires r'.locals.Keys == r.locals.Keys
    requires tid != m.consumer.value ==> r'.core.taken == r.core.taken
    requires tid == m.consumer.value ==>
               || DeqTicket(r'.locals[tid]).None?
               || (DeqTicket(r'.locals[tid]) == DeqTicket(r.locals[tid]) && r'.core.taken == r.core.taken)
               || (r'.core.taken == r.core.taken &&
                   forall t :: t in r.core.taken ==> t < DeqTicket(r'.locals[tid]).value)
    ensures ConsumerAhead(m, r')
  {
  }

  lemma HeadTicketKept(g: Geometry, m: Mode, r: Ring, tid: Tid, choice: Choice)
    requires Enabled(g, m, r, tid, choice) && LocalOk(g, m, r, tid, r.locals[tid]) && m.consumer.Some?
    ensures var l' := Step(g, m, r, tid, choice).locals[tid];
            || DeqTicket(l').None?
            || (DeqTicket(l') == DeqTicket(r.locals[tid]) && !r.locals[tid].DeqTake?)
            || (r.locals[tid].DeqStore? && DeqTicket(l').value == r.head)
  {
  }
}
